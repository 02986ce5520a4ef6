/** Worked examples: one movie request ("Dune", 2021) taken through the
    embed layout, the queue-retry message, and the agent's handlers. */
module Scenarios {
  import opened Wrappers
  import opened TextFormat
  import opened DiscordModels
  import opened DiscordLayout
  import opened Collaborators
  import opened DiscordNotificationAgent

  const DUNE := MovieRequests(
    title := Some("Dune"),
    requestedUser := OmbiUser(Some("jo.smith"), Some("Jo"), Some("Jo")),
    requestedDate := DateTime(2021, 9, 1),
    overview := Some("Paul Atreides travels to Arrakis."),
    releaseDate := DateTime(2021, 10, 22),
    imdbId := Some("tt1160419"),
    posterPath := Some("http://x/p.jpg"))

  /** 2021 is written with its four digits. */
  lemma ReleaseYearDigits()
    ensures IntToString(2021) == "2021"
  {
    assert NatToString(2) == "2";
    assert NatToString(20) == "2" + "0";
    assert NatToString(202) == "20" + "2";
  }

  /** The year is written in decimal after the title. */
  lemma DuneTitle()
    ensures TitleText(DUNE.title, ReleaseYear(DUNE)) == "Dune (2021)"
  {
    ReleaseYearDigits();
    assert TitleText(Some("Dune"), 2021) == "Dune" + " (" + "2021" + ")";
  }

  /** A full-layout embed of a new movie request: the title shows the year,
      the link is the IMDb page, the poster is the full image and the
      rendered text is the description. */
  lemma DuneFullEmbed(longDate: DateTime -> string, author: DiscordAuthor, rendered: NullableString)
    ensures var e := EmbedFor(EmbedToggles(false, false, true), longDate, author, DUNE, DUNE.posterPath, rendered);
      && e.title == Some("Dune (2021)")
      && e.url == Some(IMDB_BASE_URL + "tt1160419")
      && e.image == Some(DiscordImage(Some("http://x/p.jpg")))
      && e.thumbnail == None
      && e.description == rendered
      && e.fields == Some([DiscordField(OVERVIEW_FIELD, "Paul Atreides travels to Arrakis.")])
  {
    var e := EmbedFor(EmbedToggles(false, false, true), longDate, author, DUNE, DUNE.posterPath, rendered);
    DuneTitle();
    assert HasValue(RequestOverview(DUNE)) && !MentionsAlias(EmbedToggles(false, false, true), DUNE.requestedUser);
    var f := DiscordField(OVERVIEW_FIELD, "Paul Atreides travels to Arrakis.");
    assert EmbedFields(EmbedToggles(false, false, true), DUNE) == [f] + [];
    assert [f] + [] == [f];
  }

  /** The toggles a freshly built agent lays out type `t` with. */
  function DefaultEmbedToggles(t: NotificationType): EmbedToggles {
    EmbedToggles(Lookup(DEFAULT_SHOW_COMPACT_EMBED, t), Lookup(DEFAULT_MENTION_ALIAS, t), true)
  }

  /** Under the default toggles a new request is compact and mentions nobody;
      an approval is compact and mentions the alias, and then the footer
      names the user name. */
  lemma DuneDefaultToggles(longDate: DateTime -> string, author: DiscordAuthor, rendered: NullableString)
    ensures var e := EmbedFor(DefaultEmbedToggles(NotificationType.NewRequest), longDate, author, DUNE, DUNE.posterPath, rendered);
      && e.image == None
      && e.thumbnail == Some(DiscordImage(Some("http://x/p.jpg")))
      && e.description == None
      && e.fields == Some([])
    ensures var e := EmbedFor(DefaultEmbedToggles(NotificationType.RequestApproved), longDate, author, DUNE, DUNE.posterPath, rendered);
      && e.fields == Some([DiscordField(MENTION_FIELD, "Jo")])
      && e.footer == Some(DiscordFooter("Requested by jo.smith  on " + longDate(DateTime(2021, 9, 1))))
  {
    DefaultToggles(NotificationType.NewRequest);
    DefaultToggles(NotificationType.RequestApproved);
    var compact := DefaultEmbedToggles(NotificationType.NewRequest);
    assert compact == EmbedToggles(true, false, true);
    assert EmbedFields(compact, DUNE) == [] + [];
    var mention := DefaultEmbedToggles(NotificationType.RequestApproved);
    assert mention == EmbedToggles(true, true, true);
    var f := DiscordField(MENTION_FIELD, "Jo");
    assert EmbedFields(mention, DUNE) == [] + [f];
    assert [] + [f] == [f];
    var date := longDate(DateTime(2021, 9, 1));
    assert FooterText(DUNE.requestedUser.userName, date) == FOOTER_PREFIX + "jo.smith" + FOOTER_MIDDLE + date;
    assert FOOTER_PREFIX + "jo.smith" == "Requested by jo.smith";
    assert "Requested by jo.smith" + FOOTER_MIDDLE == "Requested by jo.smith  on ";
  }

  /** The opening of the queue-retry text for the user "Jo". */
  lemma QueueGreetingForJo()
    ensures QUEUE_PREFIX + "Jo" + QUEUE_MIDDLE == "Hello! The user 'Jo' has requested "
  {
  }

  /** The queue-retry text names the requester by alias ("Jo", not the user
      name "jo.smith") and the movie by its title. */
  lemma DuneQueueMessage()
    ensures QueueMessage(DUNE.requestedUser.userAlias, DUNE.title)
      == "Hello! The user 'Jo' has requested " + "Dune" + QUEUE_SUFFIX
  {
    QueueGreetingForJo();
    assert QueueMessage(DUNE.requestedUser.userAlias, DUNE.title) == QUEUE_PREFIX + "Jo" + QUEUE_MIDDLE + "Dune" + QUEUE_SUFFIX;
  }

  /** The opening of the notice for a disabled NewRequest template. */
  lemma NewRequestNoticeHead()
    ensures DISABLED_PREFIX + "NewRequest" == "Template NewRequest"
  {
  }

  /** The informational text of a disabled NewRequest template names the
      type by its enum name. */
  lemma NewRequestDisabledNotice()
    ensures TemplateDisabledMessage(NotificationType.NewRequest) == "Template NewRequest" + " is disabled for Discord"
  {
    NewRequestNoticeHead();
    assert TemplateDisabledMessage(NotificationType.NewRequest) == DISABLED_PREFIX + "NewRequest" + DISABLED_SUFFIX;
  }

  /** Settings that pass validation: enabled, with a webhook URL and
      readable credentials. */
  const SETTINGS := DiscordNotificationSettings(
    true, Some("https://discord.com/api/webhooks/1/abc"), Some("Ombi"), Some(Some("1")), Some(Some("abc")))

  /** A client of the agent: a disabled template posts nothing and leaves
      one informational entry. */
  method DisabledTemplateSendsNothing()
  {
    var api := new DiscordApi();
    var logger := new Logger();
    var agent := new DiscordNotification(api, logger, (d: DateTime) => "Wednesday, 1 September 2021");
    var disabled := NotificationMessageContent(true, Some("New request"), Some("Dune was requested"), None);
    agent.NewRequest(SETTINGS, disabled, DUNE, CustomizationSettings(None));
    assert api.calls == [];
    NewRequestDisabledNotice();
    assert logger.entries == [Information("Template NewRequest" + " is disabled for Discord")];
  }

  /** A client of the agent: the queue notice is posted once with the poster
      as its image, and a failed post only adds an error entry. */
  method QueueNoticePosted()
  {
    var api := new DiscordApi();
    var logger := new Logger();
    var agent := new DiscordNotification(api, logger, (d: DateTime) => "Wednesday, 1 September 2021");
    assert ValidateConfiguration(SETTINGS);
    agent.AddedToRequestQueue(SETTINGS, DUNE);
    assert |api.calls| == 1;
    var call := api.calls[0];
    DuneQueueMessage();
    assert call.body.content == Some(QueueMessage(Some("Jo"), Some("Dune")));
    assert call.body.embeds[0].image == Some(DiscordImage(Some("http://x/p.jpg")));
    assert logger.entries == if call.failed then [SendFailedEntry(SendMessageException)] else [];
  }

  /** A client of the agent: with an unreadable token the test message is
      not posted and one IndexOutOfRange error is logged. */
  method UnreadableTokenOnlyLogs()
  {
    var api := new DiscordApi();
    var logger := new Logger();
    var agent := new DiscordNotification(api, logger, (d: DateTime) => "Wednesday, 1 September 2021");
    var unreadable := SETTINGS.(token := None);
    assert !ValidateConfiguration(unreadable);
    agent.Test(unreadable);
    assert api.calls == [];
    assert logger.entries == [SendFailedEntry(IndexOutOfRangeException)];
  }
}

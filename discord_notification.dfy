/** The Discord notification agent: it checks its settings, skips a
    notification whose template is disabled, builds a webhook payload for the
    notification and posts it, catching and logging every failure of the
    post. Each handler is the step sequence of one notification type. */
module DiscordNotificationAgent {
  import opened Wrappers
  import opened DiscordModels
  import opened DiscordLayout
  import opened Collaborators

  /** Whether the agent may send at all: it must be enabled, have a webhook
      URL, and both the `Token` and the `WebHookId` getters must succeed. */
  function ValidateConfiguration(settings: DiscordNotificationSettings): (valid: bool)
    ensures valid <==>
      && settings.enabled
      && HasValue(settings.webhookUrl)
      && settings.token.Some?
      && settings.webHookId.Some?
  {
    if !settings.enabled then false
    else if !HasValue(settings.webhookUrl) then false
    // Reading Token, then WebHookId: either may throw IndexOutOfRangeException.
    else if settings.token.None? || settings.webHookId.None? then false
    else true
  }

  /** The payload of the embed `Send`: no content, the configured user
      name, and the one embed. */
  function EmbedBody(settings: DiscordNotificationSettings, embed: DiscordEmbeds): DiscordWebhookBody {
    DiscordWebhookBody(None, settings.username, [embed])
  }

  /** `TryGetValue("image", out var image)`: null when the key is missing. */
  function ImageOf(other: map<string, NullableString>): NullableString {
    if "image" in other then other["image"] else None
  }

  /** The payload of the plain `Send`: the message as content, the
      configured user name, and one embed that holds only the image. */
  function MessageBody(settings: DiscordNotificationSettings, model: NotificationMessage): DiscordWebhookBody {
    DiscordWebhookBody(model.message, settings.username, [EMPTY_EMBED.(image := Some(DiscordImage(ImageOf(model.other))))])
  }

  /** The error entry written when a send fails. */
  function SendFailedEntry(e: Exception): LogEntry {
    Error(DiscordNotificationEvent, e, SEND_FAILED_MESSAGE)
  }

  class DiscordNotification {
    const api: DiscordApi
    const logger: Logger
    /** `DateTime.ToLongDateString()` under the host's culture. */
    const formatLongDate: DateTime -> string

    /** Per type: show a compact embed (thumbnail, no description). */
    var showCompactEmbed: map<NotificationType, bool>
    /** Per type: post the alias as a mention field. */
    var mentionAlias: map<NotificationType, bool>
    /** Whether the alias goes into the mention field rather than the footer. */
    var usingAliasAsMention: bool

    constructor (api: DiscordApi, logger: Logger, formatLongDate: DateTime -> string)
      ensures this.api == api && this.logger == logger && this.formatLongDate == formatLongDate
      ensures showCompactEmbed == DEFAULT_SHOW_COMPACT_EMBED
      ensures mentionAlias == DEFAULT_MENTION_ALIAS
      ensures usingAliasAsMention
    {
      this.api := api;
      this.logger := logger;
      this.formatLongDate := formatLongDate;
      usingAliasAsMention := true;
      new;
      showCompactEmbed := map[];
      showCompactEmbed := showCompactEmbed[NotificationType.NewRequest := true];
      showCompactEmbed := showCompactEmbed[NotificationType.RequestApproved := true];
      showCompactEmbed := showCompactEmbed[NotificationType.RequestDeclined := true];
      mentionAlias := map[];
      mentionAlias := mentionAlias[NotificationType.RequestAvailable := true];
      mentionAlias := mentionAlias[NotificationType.RequestApproved := true];
      mentionAlias := mentionAlias[NotificationType.RequestDeclined := true];
    }

    /** The toggles an embed of type `t` is laid out with. */
    function Toggles(t: NotificationType): EmbedToggles
      reads this
    {
      EmbedToggles(Lookup(showCompactEmbed, t), Lookup(mentionAlias, t), usingAliasAsMention)
    }

    /** A handler that met a disabled template: one informational entry, no post. */
    ghost predicate SkippedAsDisabled(calls0: seq<ApiCall>, entries0: seq<LogEntry>, t: NotificationType)
      reads api, logger
    {
      && api.calls == calls0
      && logger.entries == entries0 + [Information(TemplateDisabledMessage(t))]
    }

    /** The outcome of one send of `body`. When both credential getters
        succeed: exactly one API call, carrying `body` and the credentials,
        and one error entry exactly when that call threw. When a getter
        throws: no API call and one error entry. Nothing is ever rethrown. */
    ghost predicate SentOnce(calls0: seq<ApiCall>, entries0: seq<LogEntry>, settings: DiscordNotificationSettings, body: DiscordWebhookBody)
      reads api, logger
    {
      if settings.webHookId.Some? && settings.token.Some? then
        && |api.calls| == |calls0| + 1
        && api.calls[..|calls0|] == calls0
        && var call := api.calls[|calls0|];
        && call.body == body
        && call.webHookId == settings.webHookId.value
        && call.token == settings.token.value
        && logger.entries == (if call.failed then entries0 + [SendFailedEntry(SendMessageException)] else entries0)
      else
        && api.calls == calls0
        && logger.entries == entries0 + [SendFailedEntry(IndexOutOfRangeException)]
    }

    /** Lays out the embed of a request notification. */
    method CreateDiscordEmbed(
      author: DiscordAuthor, req: BaseRequest, t: NotificationType,
      imageUrl: NullableString, description: NullableString)
      returns (embed: DiscordEmbeds)
      ensures embed == EmbedFor(Toggles(t), formatLongDate, author, req, imageUrl, description)
    {
      ghost var toggles := Toggles(t);
      var mentionUser := t in mentionAlias && mentionAlias[t];
      var compactEmbed := t in showCompactEmbed && showCompactEmbed[t];
      assert toggles == EmbedToggles(compactEmbed, mentionUser, usingAliasAsMention);
      // What differs between TV and movie requests.
      var overview: NullableString;
      var releaseYear: int;
      var titleUrl: NullableString;
      match req {
        case ChildRequests(_, _, _, parent) =>
          overview := parent.overview;
          releaseYear := parent.releaseDate.year;
          titleUrl := Some(TvdbUrl(parent.tvDbId));
        case MovieRequests(_, _, _, movieOverview, releaseDate, imdbId, _) =>
          overview := movieOverview;
          releaseYear := releaseDate.year;
          titleUrl := Some(ImdbUrl(imdbId));
      }
      assert overview == RequestOverview(req) && titleUrl == Some(TitleUrl(req)) && releaseYear == ReleaseYear(req);
      // Compact embed
      var shownDescription := description;
      var image: Option<DiscordImage> := Some(DiscordImage(imageUrl));
      var thumbnail: Option<DiscordImage> := None;
      if compactEmbed {
        image := None;
        thumbnail := Some(DiscordImage(imageUrl));
        overview := None;
        shownDescription := None;
      }
      assert overview == (if toggles.compact then None else RequestOverview(req));
      // Fields
      var fields: seq<DiscordField> := [];
      if HasValue(overview) {
        fields := fields + [DiscordField(OVERVIEW_FIELD, overview.value)];
      }
      var alias := req.requestedUser.alias;
      if usingAliasAsMention && mentionUser && HasValue(alias) {
        fields := fields + [DiscordField(MENTION_FIELD, alias.value)];
      }
      // Who the footer names
      if usingAliasAsMention || !HasValue(alias) {
        alias := req.requestedUser.userName;
      }
      var footer := DiscordFooter(FooterText(alias, formatLongDate(req.requestedDate)));
      assert fields == EmbedFields(toggles, req);
      assert alias == FooterName(toggles, req.requestedUser);
      embed := DiscordEmbeds(
        author := Some(author),
        title := Some(TitleText(req.title, releaseYear)),
        url := titleUrl,
        description := shownDescription,
        thumbnail := thumbnail,
        image := image,
        fields := Some(fields),
        footer := Some(footer));
    }

    /** Posts one embed. The message passed in is not used: the payload
        carries no content. */
    method SendEmbed(model: NotificationMessage, settings: DiscordNotificationSettings, embed: DiscordEmbeds)
      modifies api, logger
      ensures SentOnce(old(api.calls), old(logger.entries), settings, EmbedBody(settings, embed))
      ensures ValidateConfiguration(settings) ==> |api.calls| == |old(api.calls)| + 1
    {
      var discordBody := DiscordWebhookBody(None, settings.username, []);
      discordBody := discordBody.(embeds := [embed]);
      if settings.webHookId.None? || settings.token.None? {
        // Reading WebHookId or Token threw.
        logger.LogError(DiscordNotificationEvent, IndexOutOfRangeException, SEND_FAILED_MESSAGE);
        return;
      }
      var failed := api.SendMessage(discordBody, settings.webHookId.value, settings.token.value);
      if failed {
        logger.LogError(DiscordNotificationEvent, SendMessageException, SEND_FAILED_MESSAGE);
      }
    }

    /** Posts a plain message, with the "image" entry of `model.other` (if
        any) as the image of a single embed. */
    method Send(model: NotificationMessage, settings: DiscordNotificationSettings)
      modifies api, logger
      ensures SentOnce(old(api.calls), old(logger.entries), settings, MessageBody(settings, model))
      ensures ValidateConfiguration(settings) ==> |api.calls| == |old(api.calls)| + 1
    {
      var discordBody := DiscordWebhookBody(model.message, settings.username, []);
      var image: NullableString := None;
      if "image" in model.other {
        image := model.other["image"];
      }
      discordBody := discordBody.(embeds := [EMPTY_EMBED.(image := Some(DiscordImage(image)))]);
      if settings.webHookId.None? || settings.token.None? {
        // Reading WebHookId or Token threw.
        logger.LogError(DiscordNotificationEvent, IndexOutOfRangeException, SEND_FAILED_MESSAGE);
        return;
      }
      var failed := api.SendMessage(discordBody, settings.webHookId.value, settings.token.value);
      if failed {
        logger.LogError(DiscordNotificationEvent, SendMessageException, SEND_FAILED_MESSAGE);
      }
    }

    /** The shared steps of the four request handlers that post an embed. */
    method NotifyWithEmbed(
      t: NotificationType, author: DiscordAuthor, settings: DiscordNotificationSettings,
      parsed: NotificationMessageContent, req: BaseRequest)
      modifies api, logger
      ensures parsed.disabled ==> SkippedAsDisabled(old(api.calls), old(logger.entries), t)
      ensures !parsed.disabled ==>
        SentOnce(old(api.calls), old(logger.entries), settings,
          EmbedBody(settings, EmbedFor(Toggles(t), formatLongDate, author, req, parsed.image, parsed.message)))
    {
      if parsed.disabled {
        logger.LogInformation(TemplateDisabledMessage(t));
        return;
      }
      var notification := NotificationMessage(parsed.message, map[]);
      var embed := CreateDiscordEmbed(author, req, t, parsed.image, parsed.message);
      SendEmbed(notification, settings, embed);
    }

    /** The shared steps of the three issue handlers, which post plain text. */
    method NotifyWithMessage(t: NotificationType, settings: DiscordNotificationSettings, parsed: NotificationMessageContent)
      modifies api, logger
      ensures parsed.disabled ==> SkippedAsDisabled(old(api.calls), old(logger.entries), t)
      ensures !parsed.disabled ==>
        SentOnce(old(api.calls), old(logger.entries), settings,
          MessageBody(settings, NotificationMessage(parsed.message, map["image" := parsed.image])))
    {
      if parsed.disabled {
        logger.LogInformation(TemplateDisabledMessage(t));
        return;
      }
      var notification := NotificationMessage(parsed.message, map[]);
      notification := notification.(other := notification.other["image" := parsed.image]);
      Send(notification, settings);
    }

    /** A new request. The application URL is turned into an author link
        that is then never attached to the author. */
    method NewRequest(
      settings: DiscordNotificationSettings, parsed: NotificationMessageContent,
      req: BaseRequest, customization: CustomizationSettings)
      modifies api, logger
      ensures parsed.disabled ==> SkippedAsDisabled(old(api.calls), old(logger.entries), NotificationType.NewRequest)
      ensures !parsed.disabled ==>
        SentOnce(old(api.calls), old(logger.entries), settings,
          EmbedBody(settings, EmbedFor(Toggles(NotificationType.NewRequest), formatLongDate,
            DiscordAuthor(parsed.subject, None, Some(NEW_REQUEST_ICON)), req, parsed.image, parsed.message)))
    {
      var authorUrl: NullableString := None;
      if HasValue(customization.applicationUrl) {
        authorUrl := Some(customization.applicationUrl.value + "requests");
      }
      var author := DiscordAuthor(parsed.subject, None, Some(NEW_REQUEST_ICON));
      NotifyWithEmbed(NotificationType.NewRequest, author, settings, parsed, req);
    }

    method RequestDeclined(settings: DiscordNotificationSettings, parsed: NotificationMessageContent, req: BaseRequest)
      modifies api, logger
      ensures parsed.disabled ==> SkippedAsDisabled(old(api.calls), old(logger.entries), NotificationType.RequestDeclined)
      ensures !parsed.disabled ==>
        SentOnce(old(api.calls), old(logger.entries), settings,
          EmbedBody(settings, EmbedFor(Toggles(NotificationType.RequestDeclined), formatLongDate,
            DiscordAuthor(parsed.subject, None, Some(REQUEST_DECLINED_ICON)), req, parsed.image, parsed.message)))
    {
      var author := DiscordAuthor(parsed.subject, None, Some(REQUEST_DECLINED_ICON));
      NotifyWithEmbed(NotificationType.RequestDeclined, author, settings, parsed, req);
    }

    method RequestApproved(settings: DiscordNotificationSettings, parsed: NotificationMessageContent, req: BaseRequest)
      modifies api, logger
      ensures parsed.disabled ==> SkippedAsDisabled(old(api.calls), old(logger.entries), NotificationType.RequestApproved)
      ensures !parsed.disabled ==>
        SentOnce(old(api.calls), old(logger.entries), settings,
          EmbedBody(settings, EmbedFor(Toggles(NotificationType.RequestApproved), formatLongDate,
            DiscordAuthor(parsed.subject, None, Some(REQUEST_APPROVED_ICON)), req, parsed.image, parsed.message)))
    {
      var author := DiscordAuthor(parsed.subject, None, Some(REQUEST_APPROVED_ICON));
      NotifyWithEmbed(NotificationType.RequestApproved, author, settings, parsed, req);
    }

    /** A request became available. The author link is explicitly null. */
    method AvailableRequest(settings: DiscordNotificationSettings, parsed: NotificationMessageContent, req: BaseRequest)
      modifies api, logger
      ensures parsed.disabled ==> SkippedAsDisabled(old(api.calls), old(logger.entries), NotificationType.RequestAvailable)
      ensures !parsed.disabled ==>
        SentOnce(old(api.calls), old(logger.entries), settings,
          EmbedBody(settings, EmbedFor(Toggles(NotificationType.RequestAvailable), formatLongDate,
            DiscordAuthor(parsed.subject, None, Some(REQUEST_AVAILABLE_ICON)), req, parsed.image, parsed.message)))
    {
      var authorUrl: NullableString := None;
      var author := DiscordAuthor(parsed.subject, authorUrl, Some(REQUEST_AVAILABLE_ICON));
      NotifyWithEmbed(NotificationType.RequestAvailable, author, settings, parsed, req);
    }

    method NewIssue(settings: DiscordNotificationSettings, parsed: NotificationMessageContent)
      modifies api, logger
      ensures parsed.disabled ==> SkippedAsDisabled(old(api.calls), old(logger.entries), NotificationType.Issue)
      ensures !parsed.disabled ==>
        SentOnce(old(api.calls), old(logger.entries), settings,
          MessageBody(settings, NotificationMessage(parsed.message, map["image" := parsed.image])))
    {
      NotifyWithMessage(NotificationType.Issue, settings, parsed);
    }

    method IssueComment(settings: DiscordNotificationSettings, parsed: NotificationMessageContent)
      modifies api, logger
      ensures parsed.disabled ==> SkippedAsDisabled(old(api.calls), old(logger.entries), NotificationType.IssueComment)
      ensures !parsed.disabled ==>
        SentOnce(old(api.calls), old(logger.entries), settings,
          MessageBody(settings, NotificationMessage(parsed.message, map["image" := parsed.image])))
    {
      NotifyWithMessage(NotificationType.IssueComment, settings, parsed);
    }

    method IssueResolved(settings: DiscordNotificationSettings, parsed: NotificationMessageContent)
      modifies api, logger
      ensures parsed.disabled ==> SkippedAsDisabled(old(api.calls), old(logger.entries), NotificationType.IssueResolved)
      ensures !parsed.disabled ==>
        SentOnce(old(api.calls), old(logger.entries), settings,
          MessageBody(settings, NotificationMessage(parsed.message, map["image" := parsed.image])))
    {
      NotifyWithMessage(NotificationType.IssueResolved, settings, parsed);
    }

    /** A request could not be added and was queued for retry. No template
        is consulted: the text is fixed, and title and image come from the
        series for TV and from the movie itself otherwise. */
    method AddedToRequestQueue(settings: DiscordNotificationSettings, req: BaseRequest)
      modifies api, logger
      ensures
        var title := if req.MovieRequests? then req.title else req.parentRequest.title;
        var image := if req.MovieRequests? then req.posterPath else req.parentRequest.posterPath;
        SentOnce(old(api.calls), old(logger.entries), settings,
          MessageBody(settings, NotificationMessage(Some(QueueMessage(req.requestedUser.userAlias, title)), map["image" := image])))
    {
      var user: NullableString := Some("");
      var title: NullableString := Some("");
      var image: NullableString := Some("");
      if req.MovieRequests? {
        user := req.requestedUser.userAlias;
        title := req.title;
        image := req.posterPath;
      } else {
        user := req.requestedUser.userAlias;
        title := req.parentRequest.title;
        image := req.parentRequest.posterPath;
      }
      var message := QueueMessage(user, title);
      var notification := NotificationMessage(Some(message), map[]);
      notification := notification.(other := notification.other["image" := image]);
      Send(notification, settings);
    }

    /** A canned message through the plain send, with no image. */
    method Test(settings: DiscordNotificationSettings)
      modifies api, logger
      ensures SentOnce(old(api.calls), old(logger.entries), settings,
        DiscordWebhookBody(Some(TEST_MESSAGE), settings.username, [EMPTY_EMBED.(image := Some(DiscordImage(None)))]))
    {
      var notification := NotificationMessage(Some(TEST_MESSAGE), map[]);
      Send(notification, settings);
    }
  }
}

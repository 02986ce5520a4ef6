/** The pure part of the Discord agent: the strings it builds (embed title,
    title link, footer, queue-retry message, template-disabled notice) and the
    embed it lays out for a request, as a function of the per-type toggles.
    Each string builder's contract names a partner that reads back what was
    put into it. */
module DiscordLayout {
  import opened Wrappers
  import opened TextFormat
  import opened DiscordModels

  const IMDB_BASE_URL := "http://www.imdb.com/title/"
  const TVDB_BASE_URL := "https://www.thetvdb.com/?tab=series&id="

  const OVERVIEW_FIELD := "Overview"
  const MENTION_FIELD := "Honourable Mentions"

  // Author icons of the four embed notifications.
  const NEW_REQUEST_ICON := "https://i.imgur.com/EPuxVav.png"
  const REQUEST_DECLINED_ICON := "https://i.imgur.com/i1X39I2.png"
  const REQUEST_APPROVED_ICON := "https://i.imgur.com/sodXDGW.png"
  const REQUEST_AVAILABLE_ICON := "https://i.imgur.com/k4bX9KM.png"

  const TEST_MESSAGE := "This is a test from Ombi, if you can see this then we have successfully pushed a notification!"
  const SEND_FAILED_MESSAGE := "Failed to send Discord Notification"

  const QUEUE_PREFIX := "Hello! The user '"
  const QUEUE_MIDDLE := "' has requested "
  const QUEUE_SUFFIX := " but it could not be added. This has been added into the requests queue and will keep retrying"

  const FOOTER_PREFIX := "Requested by "
  /** Two spaces before "on", as the agent writes it. */
  const FOOTER_MIDDLE := "  on "

  // ---------------------------------------------------------------------
  // Per-type toggles

  /** The constructor's defaults: compact layout for these types only. */
  const DEFAULT_SHOW_COMPACT_EMBED: map<NotificationType, bool> :=
    map[NewRequest := true, RequestApproved := true, RequestDeclined := true]

  /** The constructor's defaults: mention the alias for these types only. */
  const DEFAULT_MENTION_ALIAS: map<NotificationType, bool> :=
    map[RequestAvailable := true, RequestApproved := true, RequestDeclined := true]

  /** `TryGetValue(t, out var b)` followed by a read of `b`: a missing key
      leaves `b` at its default, false. */
  predicate Lookup(m: map<NotificationType, bool>, t: NotificationType) {
    t in m && m[t]
  }

  lemma DefaultToggles(t: NotificationType)
    ensures Lookup(DEFAULT_SHOW_COMPACT_EMBED, t) <==> t == NewRequest || t == RequestApproved || t == RequestDeclined
    ensures Lookup(DEFAULT_MENTION_ALIAS, t) <==> t == RequestAvailable || t == RequestApproved || t == RequestDeclined
  {
  }

  /** The three switches that shape one embed, read once per embed. */
  datatype EmbedToggles = EmbedToggles(compact: bool, mentionUser: bool, usingAliasAsMention: bool)

  // ---------------------------------------------------------------------
  // Strings

  const DISABLED_PREFIX := "Template "
  const DISABLED_SUFFIX := " is disabled for Discord"

  /** Informational log text for a disabled template; the type can be read
      back from it. */
  function TemplateDisabledMessage(t: NotificationType): (s: string)
    ensures DisabledTypeOf(s) == Some(t)
  {
    var s := DISABLED_PREFIX + NotificationTypeName(t) + DISABLED_SUFFIX;
    assert s[|s| - |DISABLED_SUFFIX|..] == DISABLED_SUFFIX;
    assert s[|DISABLED_PREFIX| .. |s| - |DISABLED_SUFFIX|] == NotificationTypeName(t);
    s
  }

  /** The notification type a disabled-template notice is about. */
  function DisabledTypeOf(notice: string): Option<NotificationType> {
    if |DISABLED_PREFIX| + |DISABLED_SUFFIX| <= |notice| && DISABLED_PREFIX <= notice
       && notice[|notice| - |DISABLED_SUFFIX|..] == DISABLED_SUFFIX
    then NotificationTypeOf(notice[|DISABLED_PREFIX| .. |notice| - |DISABLED_SUFFIX|])
    else None
  }

  /** `$"{title} ({year})"`: the title and the year read back, whatever
      characters (parentheses included) the title holds. */
  function TitleText(title: NullableString, year: int): (s: string)
    ensures TitleOf(s) == Some((Text(title), year))
  {
    TitleOfReadsBack(Text(title), year);
    Text(title) + " (" + IntToString(year) + ")"
  }

  /** Reads a title written as `"{name} ({year})"`: the year is the integer,
      in the form `IntToString` writes, between the last '(' and the final
      ')'; that '(' must follow a space, and the name is what precedes the
      space. None for anything else. */
  function TitleOf(s: string): Option<(string, int)> {
    if |s| > 0 && s[|s| - 1] == ')' then
      match LastIndexOf(s, '(')
      case Some(p) =>
        if p > 0 && s[p - 1] == ' ' then
          match ParseInt(s[p + 1 .. |s| - 1])
          case Some(year) => Some((s[..p - 1], year))
          case None => None
        else None
      case None => None
    else None
  }

  /** `name (year)` reads back as `name` and `year`, whatever `name` holds:
      the written year has no '(', so the last '(' is the one before it. */
  lemma TitleOfReadsBack(name: string, year: int)
    ensures TitleOf(name + " (" + IntToString(year) + ")") == Some((name, year))
  {
    var y := IntToString(year);
    var head := name + " (";
    var tail := y + ")";
    assert forall i :: 0 <= i < |tail| ==> tail[i] != '(' by {
      forall i | 0 <= i < |tail|
        ensures tail[i] != '('
      {
        if i < |y| {
          assert tail[i] == y[i];
        }
      }
    }
    assert head[|head| - 1] == '(';
    LastIndexOfAppend(head, tail, '(');
    var s := head + tail;
    assert s == name + " (" + y + ")";
    assert s[|head| - 2] == ' ' && s[..|head| - 2] == name;
    assert s[|head| .. |s| - 1] == y;
  }

  /** A title that reads back as `(name, year)` is exactly `"{name} ({year})"`:
      no missing space, no padded year, nothing in between. */
  lemma TitleOfPins(s: string, name: string, year: int)
    requires TitleOf(s) == Some((name, year))
    ensures s == name + " (" + IntToString(year) + ")"
  {
    var p := LastIndexOf(s, '(').value;
    var y := s[p + 1 .. |s| - 1];
    assert s[..p - 1] == name && ParseInt(y) == Some(year);
    ParseIntCanonical(y, year);
    assert s == s[..p - 1] + s[p - 1 .. p + 1] + y + s[|s| - 1 ..];
    assert s[p - 1 .. p + 1] == " (" && s[|s| - 1 ..] == ")";
  }

  /** A TheTVDB series link; it carries exactly the series id. */
  function TvdbUrl(tvDbId: int): (url: string)
    ensures TvDbIdOfUrl(url) == Some(tvDbId)
  {
    var url := TVDB_BASE_URL + IntToString(tvDbId);
    assert url[|TVDB_BASE_URL|..] == IntToString(tvDbId);
    url
  }

  /** An IMDb title link; it carries exactly the IMDb id (null as empty). */
  function ImdbUrl(imdbId: NullableString): (url: string)
    ensures ImdbIdOfUrl(url) == Some(Text(imdbId))
  {
    IMDB_BASE_URL + Text(imdbId)
  }

  /** The TheTVDB id in a TheTVDB series link. */
  function TvDbIdOfUrl(url: string): Option<int> {
    if TVDB_BASE_URL <= url then ParseInt(url[|TVDB_BASE_URL|..]) else None
  }

  /** A link that reads back as TheTVDB id `id` is exactly the base URL
      followed by `id` as .NET writes it. */
  lemma TvDbIdOfUrlPins(url: string, id: int)
    requires TvDbIdOfUrl(url) == Some(id)
    ensures url == TVDB_BASE_URL + IntToString(id)
  {
    ParseIntCanonical(url[|TVDB_BASE_URL|..], id);
    assert url == TVDB_BASE_URL + url[|TVDB_BASE_URL|..];
  }

  /** The IMDb id in an IMDb title link. */
  function ImdbIdOfUrl(url: string): Option<string> {
    if IMDB_BASE_URL <= url then Some(url[|IMDB_BASE_URL|..]) else None
  }

  /** A movie link is never mistaken for a TV link, nor the other way round. */
  lemma LinkKindsDiffer(imdbId: NullableString, tvDbId: int)
    ensures TvDbIdOfUrl(ImdbUrl(imdbId)) == None
    ensures ImdbIdOfUrl(TvdbUrl(tvDbId)) == None
  {
    assert ImdbUrl(imdbId)[4] == ':' && TVDB_BASE_URL[4] == 's';
    assert TvdbUrl(tvDbId)[4] == 's' && IMDB_BASE_URL[4] == ':';
  }

  /** `$"Requested by {name}  on {longDate}"`; given the date, the name can
      be read back. */
  function FooterText(name: NullableString, longDate: string): (text: string)
    ensures FooterNameOf(text, longDate) == Some(Text(name))
  {
    var tail := FOOTER_MIDDLE + longDate;
    var text := FOOTER_PREFIX + Text(name) + tail;
    assert text[|text| - |tail|..] == tail;
    assert text[|FOOTER_PREFIX| .. |text| - |tail|] == Text(name);
    text
  }

  /** The name in a footer written on `longDate`. */
  function FooterNameOf(text: string, longDate: string): Option<string> {
    var tail := FOOTER_MIDDLE + longDate;
    if |FOOTER_PREFIX| + |tail| <= |text| && FOOTER_PREFIX <= text && text[|text| - |tail|..] == tail
    then Some(text[|FOOTER_PREFIX| .. |text| - |tail|])
    else None
  }

  /** `$"Hello! The user '{user}' has requested {title} but it could not be
      added. This has been added into the requests queue and will keep
      retrying"`: it names the user in quotes at a fixed place, and the
      title can be read back. */
  function QueueMessage(user: NullableString, title: NullableString): (message: string)
    ensures QUEUE_PREFIX + Text(user) + "'" <= message
    ensures QueuedTitleOf(message, user) == Some(Text(title))
  {
    var head := QUEUE_PREFIX + Text(user) + QUEUE_MIDDLE;
    var message := head + Text(title) + QUEUE_SUFFIX;
    assert message[|message| - |QUEUE_SUFFIX|..] == QUEUE_SUFFIX;
    assert message[|head| .. |message| - |QUEUE_SUFFIX|] == Text(title);
    assert QUEUE_PREFIX + Text(user) + "'" == message[..|QUEUE_PREFIX| + |Text(user)| + 1];
    message
  }

  /** The title in a queue-retry message about `user`. */
  function QueuedTitleOf(message: string, user: NullableString): Option<string> {
    var head := QUEUE_PREFIX + Text(user) + QUEUE_MIDDLE;
    if |head| + |QUEUE_SUFFIX| <= |message| && head <= message && message[|message| - |QUEUE_SUFFIX|..] == QUEUE_SUFFIX
    then Some(message[|head| .. |message| - |QUEUE_SUFFIX|])
    else None
  }

  // ---------------------------------------------------------------------
  // The embed

  /** The year shown in the title: the series' for TV, the movie's own. */
  function ReleaseYear(req: BaseRequest): int {
    match req
    case ChildRequests(_, _, _, parent) => parent.releaseDate.year
    case MovieRequests(_, _, _, _, releaseDate, _, _) => releaseDate.year
  }

  /** The overview: the series' for TV, the movie's own. */
  function RequestOverview(req: BaseRequest): NullableString {
    match req
    case ChildRequests(_, _, _, parent) => parent.overview
    case MovieRequests(_, _, _, overview, _, _, _) => overview
  }

  /** The title link: TheTVDB for TV (the series id), IMDb for movies. */
  function TitleUrl(req: BaseRequest): string {
    match req
    case ChildRequests(_, _, _, parent) => TvdbUrl(parent.tvDbId)
    case MovieRequests(_, _, _, _, _, imdbId, _) => ImdbUrl(imdbId)
  }

  /** Whether the alias goes into a mention field. */
  predicate MentionsAlias(t: EmbedToggles, user: OmbiUser) {
    t.usingAliasAsMention && t.mentionUser && HasValue(user.alias)
  }

  /** Who the footer says made the request. */
  function FooterName(t: EmbedToggles, user: OmbiUser): NullableString {
    if t.usingAliasAsMention || !HasValue(user.alias) then user.userName else user.alias
  }

  function EmbedFields(t: EmbedToggles, req: BaseRequest): seq<DiscordField> {
    var overview := if t.compact then None else RequestOverview(req);
    (if HasValue(overview) then [DiscordField(OVERVIEW_FIELD, overview.value)] else [])
    + (if MentionsAlias(t, req.requestedUser) then [DiscordField(MENTION_FIELD, req.requestedUser.alias.value)] else [])
  }

  /** The embed laid out for a request under toggles `t`. The image is
      shown exactly once, full size or as the thumbnail; the description is
      only shown next to the full-size image; the title, the link and the
      footer carry the request's title and year, its id and the name of
      whoever asked, each readable back. */
  function EmbedFor(
    t: EmbedToggles, longDate: DateTime -> string, author: DiscordAuthor,
    req: BaseRequest, imageUrl: NullableString, description: NullableString): (e: DiscordEmbeds)
    ensures e.author == Some(author)
    ensures || (e.image == Some(DiscordImage(imageUrl)) && e.thumbnail.None?)
            || (e.thumbnail == Some(DiscordImage(imageUrl)) && e.image.None?)
    ensures e.description.Some? ==> e.description == description && e.image.Some?
    ensures e.title.Some? && TitleOf(e.title.value) == Some((Text(req.title), ReleaseYear(req)))
    ensures e.url.Some?
    ensures req.ChildRequests? ==> TvDbIdOfUrl(e.url.value) == Some(req.parentRequest.tvDbId)
    ensures req.MovieRequests? ==> ImdbIdOfUrl(e.url.value) == Some(Text(req.imdbId))
    ensures e.fields.Some? && |e.fields.value| <= 2
    ensures e.footer.Some?
    ensures FooterNameOf(e.footer.value.text, longDate(req.requestedDate)) == Some(Text(FooterName(t, req.requestedUser)))
  {
    DiscordEmbeds(
      author := Some(author),
      title := Some(TitleText(req.title, ReleaseYear(req))),
      url := Some(TitleUrl(req)),
      description := if t.compact then None else description,
      thumbnail := if t.compact then Some(DiscordImage(imageUrl)) else None,
      image := if t.compact then None else Some(DiscordImage(imageUrl)),
      fields := Some(EmbedFields(t, req)),
      footer := Some(DiscordFooter(FooterText(FooterName(t, req.requestedUser), longDate(req.requestedDate)))))
  }

  predicate HasField(fields: seq<DiscordField>, name: string) {
    exists i :: 0 <= i < |fields| && fields[i].name == name
  }

  /** Compact layout: the image becomes the thumbnail, and neither the
      description nor an overview field is shown. */
  lemma CompactLayout(
    t: EmbedToggles, longDate: DateTime -> string, author: DiscordAuthor,
    req: BaseRequest, imageUrl: NullableString, description: NullableString)
    requires t.compact
    ensures var e := EmbedFor(t, longDate, author, req, imageUrl, description);
      && e.image == None
      && e.thumbnail == Some(DiscordImage(imageUrl))
      && e.description == None
      && e.fields.Some? && !HasField(e.fields.value, OVERVIEW_FIELD)
  {
  }

  /** Full layout: the image is shown full size and the description kept. */
  lemma FullLayout(
    t: EmbedToggles, longDate: DateTime -> string, author: DiscordAuthor,
    req: BaseRequest, imageUrl: NullableString, description: NullableString)
    requires !t.compact
    ensures var e := EmbedFor(t, longDate, author, req, imageUrl, description);
      && e.image == Some(DiscordImage(imageUrl))
      && e.thumbnail == None
      && e.description == description
  {
  }

  /** The fields: an overview field exactly when the layout is full and the
      overview non-empty, always first; a mention field exactly when the
      alias is mentioned, always last; nothing else. */
  lemma EmbedFieldsShape(t: EmbedToggles, req: BaseRequest)
    ensures var fs := EmbedFields(t, req);
      && |fs| == (if !t.compact && HasValue(RequestOverview(req)) then 1 else 0)
                 + (if MentionsAlias(t, req.requestedUser) then 1 else 0)
      && (forall i :: 0 <= i < |fs| ==> fs[i].name == OVERVIEW_FIELD || fs[i].name == MENTION_FIELD)
      && (HasField(fs, OVERVIEW_FIELD) <==> !t.compact && HasValue(RequestOverview(req)))
      && (HasField(fs, OVERVIEW_FIELD) ==> fs[0] == DiscordField(OVERVIEW_FIELD, RequestOverview(req).value))
      && (HasField(fs, MENTION_FIELD) <==> MentionsAlias(t, req.requestedUser))
      && (HasField(fs, MENTION_FIELD) ==> fs[|fs| - 1] == DiscordField(MENTION_FIELD, req.requestedUser.alias.value))
  {
    var fs := EmbedFields(t, req);
    if !t.compact && HasValue(RequestOverview(req)) {
      assert fs[0].name == OVERVIEW_FIELD;
    }
    if MentionsAlias(t, req.requestedUser) {
      assert fs[|fs| - 1].name == MENTION_FIELD;
    }
  }

  /** The footer names the alias only when aliases are not used as mentions
      and the alias is set; otherwise the user name. */
  lemma FooterIdentity(
    t: EmbedToggles, longDate: DateTime -> string, author: DiscordAuthor,
    req: BaseRequest, imageUrl: NullableString, description: NullableString)
    ensures var e := EmbedFor(t, longDate, author, req, imageUrl, description);
      var user := req.requestedUser;
      && e.footer.Some?
      && FooterNameOf(e.footer.value.text, longDate(req.requestedDate))
         == Some(if t.usingAliasAsMention || !HasValue(user.alias) then Text(user.userName) else user.alias.value)
  {
  }

  /** When the alias is mentioned, the footer names the user by user name,
      so one embed shows the user under two names. */
  lemma MentionedAliasNotInFooter(
    t: EmbedToggles, longDate: DateTime -> string, author: DiscordAuthor,
    req: BaseRequest, imageUrl: NullableString, description: NullableString)
    requires MentionsAlias(t, req.requestedUser)
    ensures var e := EmbedFor(t, longDate, author, req, imageUrl, description);
      && e.fields.Some? && HasField(e.fields.value, MENTION_FIELD)
      && e.footer.Some?
      && FooterNameOf(e.footer.value.text, longDate(req.requestedDate)) == Some(Text(req.requestedUser.userName))
  {
    EmbedFieldsShape(t, req);
    FooterIdentity(t, longDate, author, req, imageUrl, description);
  }

  /** The title shows the request's title and its release year (the
      series' year for TV), and the link carries the TheTVDB series id for
      TV and the IMDb id for a movie. */
  lemma TitleAndLink(
    t: EmbedToggles, longDate: DateTime -> string, author: DiscordAuthor,
    req: BaseRequest, imageUrl: NullableString, description: NullableString)
    ensures var e := EmbedFor(t, longDate, author, req, imageUrl, description);
      && e.title.Some? && e.url.Some?
      && TitleOf(e.title.value) == Some((Text(req.title), ReleaseYear(req)))
      && (req.ChildRequests? ==>
            ReleaseYear(req) == req.parentRequest.releaseDate.year
            && TvDbIdOfUrl(e.url.value) == Some(req.parentRequest.tvDbId)
            && ImdbIdOfUrl(e.url.value) == None)
      && (req.MovieRequests? ==>
            ReleaseYear(req) == req.releaseDate.year
            && ImdbIdOfUrl(e.url.value) == Some(Text(req.imdbId))
            && TvDbIdOfUrl(e.url.value) == None)
  {
    match req
    case ChildRequests(_, _, _, parent) =>
      LinkKindsDiffer(None, parent.tvDbId);
    case MovieRequests(_, _, _, _, _, imdbId, _) =>
      LinkKindsDiffer(imdbId, 0);
  }
}

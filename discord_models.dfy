/** The values the Discord notification agent reads and produces: Ombi's
    request entities, the agent's settings, the parsed notification template,
    the Discord webhook payload records, and the log entries it writes. */
module DiscordModels {
  import opened Wrappers

  /** A C# `string`, which may be null. */
  type NullableString = Option<string>

  /** How string interpolation renders a possibly-null string: null as "". */
  function Text(s: NullableString): string {
    if s.Some? then s.value else ""
  }

  /** Ombi's `HasValue()` extension: neither null nor empty. */
  predicate HasValue(s: NullableString) {
    s.Some? && |s.value| > 0
  }

  /** The notification kinds this agent names. */
  datatype NotificationType =
    | NewRequest
    | Issue
    | RequestAvailable
    | RequestApproved
    | RequestDeclined
    | IssueResolved
    | IssueComment

  /** The enum member's name, as `ToString()` gives it; `NotificationTypeOf`
      reads it back, so no two types share a name. */
  function NotificationTypeName(t: NotificationType): (name: string)
    ensures NotificationTypeOf(name) == Some(t)
  {
    match t
    case NewRequest => "NewRequest"
    case Issue => "Issue"
    case RequestAvailable => "RequestAvailable"
    case RequestApproved => "RequestApproved"
    case RequestDeclined => "RequestDeclined"
    case IssueResolved => "IssueResolved"
    case IssueComment => "IssueComment"
  }

  /** The notification type with the given name (`Enum.TryParse`). */
  function NotificationTypeOf(name: string): Option<NotificationType> {
    if name == "NewRequest" then Some(NewRequest)
    else if name == "Issue" then Some(Issue)
    else if name == "RequestAvailable" then Some(RequestAvailable)
    else if name == "RequestApproved" then Some(RequestApproved)
    else if name == "RequestDeclined" then Some(RequestDeclined)
    else if name == "IssueResolved" then Some(IssueResolved)
    else if name == "IssueComment" then Some(IssueComment)
    else None
  }

  /** A calendar date; only its year is read directly, the rest goes through
      the culture-dependent long-date formatter. */
  datatype DateTime = DateTime(year: int, month: int, day: int)

  /** The requesting user. `userAlias` is the value of the `UserAlias`
      property, whose getter is not part of this model. */
  datatype OmbiUser = OmbiUser(userName: NullableString, alias: NullableString, userAlias: NullableString)

  /** The parent series record of a TV request. */
  datatype TvRequests = TvRequests(
    title: NullableString,
    overview: NullableString,
    releaseDate: DateTime,
    tvDbId: int,
    posterPath: NullableString)

  /** A request: a movie, or a TV child request that points at its series. */
  datatype BaseRequest =
    | MovieRequests(
        title: NullableString,
        requestedUser: OmbiUser,
        requestedDate: DateTime,
        overview: NullableString,
        releaseDate: DateTime,
        imdbId: NullableString,
        posterPath: NullableString)
    | ChildRequests(
        title: NullableString,
        requestedUser: OmbiUser,
        requestedDate: DateTime,
        parentRequest: TvRequests)

  /** The agent's settings. `webHookId` and `token` are the outcomes of the
      `WebHookId` and `Token` getters: None when the getter throws
      IndexOutOfRangeException, otherwise the string it returns. */
  datatype DiscordNotificationSettings = DiscordNotificationSettings(
    enabled: bool,
    webhookUrl: NullableString,
    username: NullableString,
    webHookId: Option<NullableString>,
    token: Option<NullableString>)

  /** The parsed template for one (agent, notification type) pair. */
  datatype NotificationMessageContent = NotificationMessageContent(
    disabled: bool,
    subject: NullableString,
    message: NullableString,
    image: NullableString)

  /** The message handed to the plain `Send`: the text and extra values. */
  datatype NotificationMessage = NotificationMessage(message: NullableString, other: map<string, NullableString>)

  datatype CustomizationSettings = CustomizationSettings(applicationUrl: NullableString)

  // The Discord webhook payload; a None field is a JSON null.

  datatype DiscordAuthor = DiscordAuthor(name: NullableString, url: NullableString, iconUrl: NullableString)

  datatype DiscordImage = DiscordImage(url: NullableString)

  datatype DiscordField = DiscordField(name: string, value: string)

  datatype DiscordFooter = DiscordFooter(text: string)

  datatype DiscordEmbeds = DiscordEmbeds(
    author: Option<DiscordAuthor>,
    title: NullableString,
    url: NullableString,
    description: NullableString,
    thumbnail: Option<DiscordImage>,
    image: Option<DiscordImage>,
    fields: Option<seq<DiscordField>>,
    footer: Option<DiscordFooter>)

  /** An embed with every property left unset. */
  const EMPTY_EMBED := DiscordEmbeds(None, None, None, None, None, None, None, None)

  datatype DiscordWebhookBody = DiscordWebhookBody(
    content: NullableString,
    username: NullableString,
    embeds: seq<DiscordEmbeds>)

  // What the agent records about failures.

  /** The exceptions the agent catches. */
  datatype Exception =
    | IndexOutOfRangeException
    | SendMessageException

  /** The event id the agent logs its errors under. */
  datatype LoggingEvent = DiscordNotificationEvent

  datatype LogEntry =
    | Information(message: string)
    | Error(eventId: LoggingEvent, exception: Exception, message: string)
}

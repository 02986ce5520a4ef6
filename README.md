# Ombi's Discord notification agent, modelled in Dafny

Ombi sends notifications about media requests and issues to several channels. This project models the agent for one of them: Discord (`DiscordNotification`). The agent gets a domain event and returns nothing. Its steps are:

- check its own settings (`ValidateConfiguration`);
- look at the parsed template for the notification type, and stop with one informational log entry if that template is disabled;
- build a Discord webhook payload. For request notifications this is a rich embed laid out by `CreateDiscordEmbed`. For issue, queue and test notifications it is plain text with an image;
- post the payload through the Discord API client. Every failure of the post is caught and logged as one error entry, so nothing reaches the caller.

Modules:

- `Wrappers`: `Option`. A C# `string` that may be null is an `Option<string>`.
- `TextFormat`: how .NET writes an `int` in an interpolated string, and a strict parser that reads the text back. The parser accepts only that form: no leading zero, no "-0", no sign other than '-'. So the round trip in `IntToString`'s contract fixes the written text, and `ParseIntCanonical` proves that.
- `DiscordModels`: request entities (`MovieRequests`, `ChildRequests` with their parent `TvRequests`, `OmbiUser`), the agent settings, the parsed template, the Discord payload records and the log entries.
- `Collaborators`: two recorder classes. `DiscordApi` stands for `IDiscordApi`: it records every `SendMessage` call, and the environment decides whether a call throws. `Logger` stands for `ILogger` and records every entry written to it.
- `DiscordLayout`: the pure part of the agent:
  - the title, title link, footer, queue-retry and template-disabled strings. Each builder's contract names a partner that reads back what was put in;
  - the per-type toggle defaults;
  - `EmbedFor`, the embed laid out for a request, and lemmas about its layout.
- `DiscordNotificationAgent`: `ValidateConfiguration`, the payload builders, and the class `DiscordNotification`.
  - The class holds the mutable toggle maps and the two collaborators. Its handlers are methods whose `modifies` clause names the API recorder and the logger.
  - `CreateDiscordEmbed` builds the embed step by step and is proved equal to `EmbedFor`.
  - `SentOnce` and `SkippedAsDisabled` state what a handler leaves behind: the API calls made and the log entries written.
- `Scenarios`: a worked movie request ("Dune", 2021). It goes through the layout, the queue message and a client of the agent.

Where the intended design and the code differ, the model follows the code:

- With `UsingAliasAsMention` on (the default), a message that mentions the alias names the user by user name in the footer. So one message shows two different names for the same user (`MentionedAliasNotInFooter`).
- `NewRequest` builds an author link from the application URL but never attaches it. `AvailableRequest` sets the author link to null explicitly. No embed author ever carries a link.
- The footer reads "Requested by {name}  on {date}", with two spaces before "on", exactly as the code writes it.
- A year that is unknown is still written into the title.

## Model

| member | source | states |
|---|---|---|
| `DiscordNotificationAgent.ValidateConfiguration` | src/Ombi.Notifications/Agents/DiscordNotification.cs:58-78 | Sending is allowed exactly when the agent is enabled, the webhook URL is neither null nor empty, and both the `Token` and `WebHookId` getters succeed. |
| `DiscordNotificationAgent.DiscordNotification.constructor` | src/Ombi.Notifications/Agents/DiscordNotification.cs:22-51 | Compact layout is on for NewRequest, RequestApproved and RequestDeclined only. The alias is mentioned for RequestAvailable, RequestApproved and RequestDeclined only. `UsingAliasAsMention` starts true. |
| `DiscordNotificationAgent.DiscordNotification.CreateDiscordEmbed` | src/Ombi.Notifications/Agents/DiscordNotification.cs:352-437 | The step-by-step embed equals `EmbedFor` under the toggles for the type. A missing map key reads as false. The toggles are read once and shape both the layout and the fields. |
| `DiscordNotificationAgent.DiscordNotification.SendEmbed` | src/Ombi.Notifications/Agents/DiscordNotification.cs:291-309 | With readable credentials there is one API call. It carries no content, the configured user name, exactly the given embed, and the credentials. One error entry is written exactly when the call throws. If a credential getter throws, there is no call and one error entry. Nothing propagates. A valid configuration always reaches the API. |
| `DiscordNotificationAgent.DiscordNotification.Send` | src/Ombi.Notifications/Agents/DiscordNotification.cs:311-340 | The same delivery outcome. The payload has the message as content, the configured user name, and one embed whose only property is the image taken from the "image" entry. A missing entry gives a null URL. |
| `DiscordNotificationAgent.DiscordNotification.NewRequest` | src/Ombi.Notifications/Agents/DiscordNotification.cs:80-112 | Disabled template: one informational entry "Template NewRequest is disabled for Discord" and no API call. Otherwise one delivery of the NewRequest embed. The author has the template subject, the new-request icon, and no link whatever the application URL is. |
| `DiscordNotificationAgent.DiscordNotification.NewIssue` | src/Ombi.Notifications/Agents/DiscordNotification.cs:114-128 | Disabled template: one informational entry for type Issue and no call. Otherwise one plain delivery of the template message and image. |
| `DiscordNotificationAgent.DiscordNotification.IssueComment` | src/Ombi.Notifications/Agents/DiscordNotification.cs:130-144 | The same, for type IssueComment. |
| `DiscordNotificationAgent.DiscordNotification.IssueResolved` | src/Ombi.Notifications/Agents/DiscordNotification.cs:146-160 | The same, for type IssueResolved. |
| `DiscordNotificationAgent.DiscordNotification.AddedToRequestQueue` | src/Ombi.Notifications/Agents/DiscordNotification.cs:162-186 | No template is read and no informational entry is written. One plain delivery of the fixed queue-retry text, naming the user's `UserAlias`. Title and image come from the series for TV and from the movie itself for a movie. |
| `DiscordNotificationAgent.DiscordNotification.RequestDeclined` | src/Ombi.Notifications/Agents/DiscordNotification.cs:188-217 | Disabled template: one informational entry and no call. Otherwise one delivery of the RequestDeclined embed with the declined icon. |
| `DiscordNotificationAgent.DiscordNotification.RequestApproved` | src/Ombi.Notifications/Agents/DiscordNotification.cs:219-248 | The same, for RequestApproved with the approved icon. |
| `DiscordNotificationAgent.DiscordNotification.AvailableRequest` | src/Ombi.Notifications/Agents/DiscordNotification.cs:250-289 | The same, for RequestAvailable with the available icon. The author link is null. |
| `DiscordNotificationAgent.DiscordNotification.Test` | src/Ombi.Notifications/Agents/DiscordNotification.cs:342-350 | One plain delivery of the fixed test text. The single embed has a null image URL. |
| `DiscordNotificationAgent.DiscordNotification.NotifyWithEmbed` | src/Ombi.Notifications/Agents/DiscordNotification.cs:190-216 | The steps the four embed handlers share. A disabled template gives one informational entry naming the type, and no API call. Otherwise the message is rendered into the embed that `EmbedFor` lays out under the type's toggles, with the template image and message, and it is delivered once with the `SentOnce` outcome. |
| `DiscordNotificationAgent.DiscordNotification.NotifyWithMessage` | src/Ombi.Notifications/Agents/DiscordNotification.cs:116-127 | The steps the three issue handlers share. A disabled template gives one informational entry and no call. Otherwise one plain delivery of the template message, with the template image as the "image" entry. |
| `DiscordLayout.EmbedFor` | src/Ombi.Notifications/Agents/DiscordNotification.cs:352-437 | The embed for a request. The author is the one given. The image appears exactly once: as the full-size image or as the thumbnail. A description appears only next to the full-size image, and it is the one passed in. The title reads back through `TitleOf` as the request title and the release year, which fixes it to exactly "{title} ({year})" (`TitleOfPins`). The link reads back as the TheTVDB series id for TV, which fixes it to the base URL and the id's digits (`TvDbIdOfUrlPins`), and as the IMDb id for a movie. There are at most two fields. The footer reads back as the name the toggles choose. |
| `DiscordLayout.DefaultToggles` | src/Ombi.Notifications/Agents/DiscordNotification.cs:29-39 | Read through the missing-key-is-false lookup, the defaults switch compact layout on for exactly three types and mentions on for exactly three types. |
| `DiscordLayout.TemplateDisabledMessage` | src/Ombi.Notifications/Agents/DiscordNotification.cs:85 | The informational text for a disabled template reads back as its notification type, so no two types share a notice. |
| `DiscordModels.NotificationTypeName` | src/Ombi.Notifications/Agents/DiscordNotification.cs:85 | The enum name that `ToString()` gives reads back as the same type, so the names are distinct. |
| `DiscordLayout.TitleText` | src/Ombi.Notifications/Agents/DiscordNotification.cs:428 | The title reads back through `TitleOf` as exactly the title and the year that went in, whatever characters (parentheses included) the title holds. |
| `DiscordLayout.TvdbUrl` | src/Ombi.Notifications/Agents/DiscordNotification.cs:365 | The link reads back through the strict `TvDbIdOfUrl` as exactly that id. |
| `DiscordLayout.ImdbUrl` | src/Ombi.Notifications/Agents/DiscordNotification.cs:372 | The IMDb base URL followed by the id reads back as exactly that id. A null id is written as empty. |
| `DiscordLayout.FooterText` | src/Ombi.Notifications/Agents/DiscordNotification.cs:420 | The footer text, given its date, reads back as the name written into it, with the two spaces before "on". |
| `DiscordLayout.QueueMessage` | src/Ombi.Notifications/Agents/DiscordNotification.cs:179 | The queue-retry text opens with the user in quotes, and reads back as the requested title. |
| `DiscordLayout.CompactLayout` | src/Ombi.Notifications/Agents/DiscordNotification.cs:377-385 | Compact: no image, a thumbnail with the image URL, no description, and no Overview field. |
| `DiscordLayout.FullLayout` | src/Ombi.Notifications/Agents/DiscordNotification.cs:377-385 | Full: the image has the image URL, there is no thumbnail, and the description is the text passed in. |
| `DiscordLayout.EmbedFieldsShape` | src/Ombi.Notifications/Agents/DiscordNotification.cs:387-412 | Only "Overview" and "Honourable Mentions" fields are built, and no other field is added. The count is one for the overview, when the layout is full and the overview is non-empty, plus one for the mention, when `UsingAliasAsMention`, the type's mention toggle and a non-empty alias all hold. Each field is present exactly when its condition holds. The Overview field comes first and carries the overview; the mention field comes last and carries the alias. |
| `DiscordLayout.FooterIdentity` | src/Ombi.Notifications/Agents/DiscordNotification.cs:414-421 | The name read back from the footer is the user name when `UsingAliasAsMention` is on or the alias is empty, and the alias otherwise. |
| `DiscordLayout.MentionedAliasNotInFooter` | src/Ombi.Notifications/Agents/DiscordNotification.cs:400-416 | When the alias is mentioned, the footer names the user by user name. |
| `DiscordLayout.TitleAndLink` | src/Ombi.Notifications/Agents/DiscordNotification.cs:357-373 | The title reads back through `TitleOf` as the request title and the series' year for TV, or the movie's own year otherwise. The link reads back as the TheTVDB series id for TV and the IMDb id for a movie, and it never matches the other kind's pattern. |
| `DiscordLayout.LinkKindsDiffer` | src/Ombi.Notifications/Agents/DiscordNotification.cs:43-44 | An IMDb link is never read as a TheTVDB link, and the other way round. |
| `TextFormat.NatToString` | src/Ombi.Notifications/Agents/DiscordNotification.cs:428 | A year or id is written as decimal digits. The first digit is '0' exactly when the number is 0. |
| `TextFormat.IntToString` | src/Ombi.Notifications/Agents/DiscordNotification.cs:365 | An `int` is written as an optional "-" and digits, and the strict `ParseInt` reads it back as the same integer. |
| `TextFormat.IntToStringInjective` | src/Ombi.Notifications/Agents/DiscordNotification.cs:365 | Different integers are never written the same way. |
| `TextFormat.ParseIntCanonical` | src/Ombi.Notifications/Agents/DiscordNotification.cs:365 | Any text that `ParseInt` reads as `n` is exactly `IntToString(n)`. So a zero-padded, signed or "-0" form never passes for a number, and an integer has one written form. |
| `TextFormat.NatToStringParse` | src/Ombi.Notifications/Agents/DiscordNotification.cs:428 | Digits without a leading zero are exactly what `NatToString` writes for their value. |
| `DiscordLayout.TitleOfPins` | src/Ombi.Notifications/Agents/DiscordNotification.cs:428 | A title that reads back as a name and a year is exactly the name, a space, "(", the year's digits and ")". No space goes missing, the year has no padding, and nothing sits in between. |
| `DiscordLayout.TitleOfReadsBack` | src/Ombi.Notifications/Agents/DiscordNotification.cs:428 | "{name} ({year})" reads back as that name and year, even when the name itself holds parentheses. |
| `DiscordLayout.TvDbIdOfUrlPins` | src/Ombi.Notifications/Agents/DiscordNotification.cs:365 | A link that reads back as a TheTVDB id is exactly the TheTVDB base URL followed by that id as .NET writes it. |
| `Scenarios.DuneFullEmbed` | src/Ombi.Notifications/Agents/DiscordNotification.cs:352-437 | A full-layout movie embed: title "Dune (2021)", the IMDb link for tt1160419, the poster as the image, no thumbnail, the rendered text as the description, and one Overview field. |
| `Scenarios.DuneTitle` | src/Ombi.Notifications/Agents/DiscordNotification.cs:428 | The title of the Dune request is exactly "Dune (2021)". |
| `Scenarios.DuneDefaultToggles` | src/Ombi.Notifications/Agents/DiscordNotification.cs:29-39 | Under the toggles a new agent reads for NewRequest, the embed has a thumbnail, no image, no description and no fields. Under those for RequestApproved, it has one mention field "Jo" and a footer naming "jo.smith". |
| `Scenarios.DuneQueueMessage` | src/Ombi.Notifications/Agents/DiscordNotification.cs:179 | The queue-retry text for the Dune request begins "Hello! The user 'Jo' has requested Dune", followed by the fixed retry sentence. It names the user by alias, not user name. |
| `Scenarios.NewRequestDisabledNotice` | src/Ombi.Notifications/Agents/DiscordNotification.cs:85 | The informational text for a disabled NewRequest template is exactly "Template NewRequest is disabled for Discord". |

## Left out

- `IDiscordApi.SendMessage` is not part of this model: it is a network call. `DiscordApi` only records each call and lets the environment decide whether it throws. Every exception it may throw is one kind, `SendMessageException`.
- async/await and the fan-out of one event to several channels are left out. The handlers run as plain sequential methods.
- `ILogger` formatting is left out. An entry keeps its level, the text, and for errors the event id and the kind of exception caught, not the exception object.
- `LoadTemplate`, placeholder substitution, the base class's dispatch and the `Customization` settings are not part of this model. The handlers take the parsed template and the customization settings as inputs. The base class's dispatch is what calls `ValidateConfiguration` before a handler, so the handlers themselves do not call it.
- The bodies of the `Token` and `WebHookId` getters are not part of this model. The settings carry each getter's outcome: None when it throws IndexOutOfRangeException, otherwise the string it returns.
- `DateTime.ToLongDateString` depends on the culture. It is the agent's `formatLongDate` function, supplied when the agent is built.
- The `OmbiUser.UserAlias` getter is not part of this model. Its value is a field of `OmbiUser`.
- The handlers' `RequestType` test is left out. A handler receives the request that the base class loaded for the request type: a movie request or a TV child request. So two fallbacks are left out. One is the null embed sent when the type is neither Movie nor TvShow. The other is the year 0 and null link when the request is neither a child request nor a movie request. `BaseRequest` has only those two kinds here.
- A null `MovieRequest`, `TvRequest`, `ParentRequest` or `RequestedUser` would raise a NullReferenceException outside the try block. That exception is not modelled: the entities are values that are always present.
- `NotificationName` is left out. It is a constant property, "DiscordNotification", and no operation here reads it.

/** The two collaborators the agent calls and whose implementations are not
    part of this model: the Discord API client, modelled as a recorder of
    the calls it receives whose outcome is chosen by the environment, and the
    logger, modelled as the list of entries written to it. */
module Collaborators {
  import opened DiscordModels

  /** One call to `IDiscordApi.SendMessage`: what was sent, with which
      credentials, and whether the call threw. */
  datatype ApiCall = ApiCall(body: DiscordWebhookBody, webHookId: NullableString, token: NullableString, failed: bool)

  class DiscordApi {
    var calls: seq<ApiCall>

    constructor ()
      ensures calls == []
    {
      calls := [];
    }

    /** Posts `body` to the webhook; `failed` reports that the call threw
        (network error, non-success response, rejected credentials). */
    method SendMessage(body: DiscordWebhookBody, webHookId: NullableString, token: NullableString)
      returns (failed: bool)
      modifies this
      ensures calls == old(calls) + [ApiCall(body, webHookId, token, failed)]
    {
      failed := *;
      calls := calls + [ApiCall(body, webHookId, token, failed)];
    }
  }

  class Logger {
    var entries: seq<LogEntry>

    constructor ()
      ensures entries == []
    {
      entries := [];
    }

    method LogInformation(message: string)
      modifies this
      ensures entries == old(entries) + [Information(message)]
    {
      entries := entries + [Information(message)];
    }

    method LogError(eventId: LoggingEvent, exception: Exception, message: string)
      modifies this
      ensures entries == old(entries) + [Error(eventId, exception, message)]
    {
      entries := entries + [Error(eventId, exception, message)];
    }
  }
}

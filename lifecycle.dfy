/** The webhook lifecycle of the Baserow trigger node: `checkExists`, `create`
    and `delete`, run by the host when a workflow is activated or deactivated. */
module BaserowTrigger {
  import opened Wrappers
  import opened Json
  import opened JsText
  import opened Events
  import opened BaserowApi

  const LocalhostMessage: string :=
    "The Webhook can not work on \"localhost\". Please, either setup n8n on a custom domain or start with \"--tunnel\"!"
  const UnexpectedResponseMessage: string :=
    "Baserow webhook creation response did not contain the expected data."

  /** What a lifecycle method throws. */
  datatype HookError =
    | NodeOperationError(message: string)
    | NodeApiError(response: Json, message: string)
    | Rethrown(error: ApiError)

  /** The callback URL points at localhost, which Baserow cannot reach. */
  predicate IsLocalhostUrl(webhookUrl: string)
  {
    Includes(webhookUrl, "//localhost")
  }

  /** A creation response `create` accepts: `id` is defined and `active` is exactly `true`.
      Only an object has properties; on any other value both read as undefined. */
  predicate IsActiveWebhook(response: Json)
  {
    response.JObject? && "id" in response.fields && Get(response.fields, "active") == Some(JBool(true))
  }

  /** The node's durable static data: the registered webhook's id and the events
      Baserow reported for it, each absent (`undefined`) until set. */
  class WebhookStaticData {
    var webhookId: Option<Json>
    var webhookEvents: Option<Json>

    /** The record a node starts with. */
    constructor ()
      ensures webhookId == None && webhookEvents == None
    {
      webhookId := None;
      webhookEvents := None;
    }

    /** Events are only ever recorded together with an id. */
    predicate Consistent()
      reads this
    {
      webhookEvents.Some? ==> webhookId.Some?
    }

    /** Asks Baserow whether the recorded webhook still exists. */
    method CheckExists(outcome: ApiOutcome) returns (r: Result<bool, HookError>, sent: Option<Request>)
      modifies this
      ensures old(webhookId).None? ==> r == Success(false) && sent == None && unchanged(this)
      ensures old(webhookId).Some? ==>
        sent == Some(Request(GET, WebhookEndpoint(old(webhookId).value), NoBody))
      ensures old(webhookId).Some? && outcome.Ok? ==> r == Success(true) && unchanged(this)
      ensures old(webhookId).Some? && outcome.Failed? && IsNotFound(outcome.error) ==>
        r == Success(false) && webhookId == None && webhookEvents == None
      ensures old(webhookId).Some? && outcome.Failed? && !IsNotFound(outcome.error) ==>
        r == Failure(Rethrown(outcome.error)) && unchanged(this)
      ensures old(Consistent()) ==> Consistent()
    {
      if webhookId.None? {
        return Success(false), None;
      }
      sent := Some(Request(GET, WebhookEndpoint(webhookId.value), NoBody));
      if outcome.Failed? {
        if IsNotFound(outcome.error) {
          webhookId := None;
          webhookEvents := None;
          return Success(false), sent;
        }
        return Failure(Rethrown(outcome.error)), sent;
      }
      r := Success(true);
    }

    /** Registers a webhook for the table and records what Baserow answered. */
    method Create(webhookUrl: string, tableId: string, events: seq<EventKind>,
                  workflowName: Option<string>, outcome: ApiOutcome)
      returns (r: Result<bool, HookError>, sent: Option<Request>)
      modifies this
      ensures IsLocalhostUrl(webhookUrl) ==>
        r == Failure(NodeOperationError(LocalhostMessage)) && sent == None && unchanged(this)
      ensures !IsLocalhostUrl(webhookUrl) ==>
        sent == Some(Request(POST, TableWebhooksEndpoint(tableId), NewWebhook(
          CreateWebhookBody(webhookUrl, false, events, "POST", WorkflowNameText(workflowName), true))))
      ensures !IsLocalhostUrl(webhookUrl) && outcome.Failed? ==>
        r == Failure(Rethrown(outcome.error)) && unchanged(this)
      ensures !IsLocalhostUrl(webhookUrl) && outcome.Ok? && !IsActiveWebhook(outcome.response) ==>
        r == Failure(NodeApiError(outcome.response, UnexpectedResponseMessage)) && unchanged(this)
      ensures !IsLocalhostUrl(webhookUrl) && outcome.Ok? && IsActiveWebhook(outcome.response) ==>
        r == Success(true)
        && webhookId == Some(outcome.response.fields["id"])
        && webhookEvents == Get(outcome.response.fields, "events")
      ensures r.Success? ==> r.value && webhookId.Some? && Consistent()
      ensures old(Consistent()) ==> Consistent()
    {
      if IsLocalhostUrl(webhookUrl) {
        return Failure(NodeOperationError(LocalhostMessage)), None;
      }
      var body := NewWebhookBody(webhookUrl, events, workflowName);
      sent := Some(Request(POST, TableWebhooksEndpoint(tableId), NewWebhook(body)));
      if outcome.Failed? {
        return Failure(Rethrown(outcome.error)), sent;
      }
      var response := outcome.response;
      if !IsActiveWebhook(response) {
        return Failure(NodeApiError(response, UnexpectedResponseMessage)), sent;
      }
      webhookId := Some(response.fields["id"]);
      webhookEvents := Get(response.fields, "events");
      r := Success(true);
    }

    /** Removes the recorded webhook from Baserow and forgets it. */
    method Delete(outcome: ApiOutcome) returns (r: bool, sent: Option<Request>)
      modifies this
      ensures old(webhookId).None? ==> r && sent == None && unchanged(this)
      ensures old(webhookId).Some? ==>
        sent == Some(Request(DELETE, WebhookEndpoint(old(webhookId).value), EmptyBody))
      ensures old(webhookId).Some? && (outcome.Ok? || IsNotFound(outcome.error)) ==>
        r && webhookId == None && webhookEvents == None
      ensures old(webhookId).Some? && outcome.Failed? && !IsNotFound(outcome.error) ==>
        !r && unchanged(this)
      ensures old(Consistent()) ==> Consistent()
    {
      if webhookId.Some? {
        sent := Some(Request(DELETE, WebhookEndpoint(webhookId.value), EmptyBody));
        if outcome.Failed? && !IsNotFound(outcome.error) {
          return false, sent;
        }
        webhookId := None;
        webhookEvents := None;
      } else {
        sent := None;
      }
      r := true;
    }
  }
}

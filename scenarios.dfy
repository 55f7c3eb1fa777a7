/** Activation and deactivation sequences, proved from the lifecycle methods' contracts. */
module Scenarios {
  import opened Wrappers
  import opened Json
  import opened Events
  import opened BaserowApi
  import opened BaserowTrigger

  /** A successful `create` then a successful `delete` leave the record empty,
      so a later `checkExists` answers false without a request. */
  method CreateDeleteCheck(priorId: Option<Json>, priorEvents: Option<Json>,
                           webhookUrl: string, tableId: string, events: seq<EventKind>,
                           workflowName: Option<string>, created: Json,
                           deleted: ApiOutcome, probed: ApiOutcome)
    returns (found: Result<bool, HookError>, sent: Option<Request>)
    requires !IsLocalhostUrl(webhookUrl) && IsActiveWebhook(created)
    requires deleted.Ok? || IsNotFound(deleted.error)
    ensures found == Success(false) && sent == None
  {
    var data := new WebhookStaticData();
    data.webhookId, data.webhookEvents := priorId, priorEvents;
    var c, _ := data.Create(webhookUrl, tableId, events, workflowName, Ok(created));
    var d, _ := data.Delete(deleted);
    found, sent := data.CheckExists(probed);
  }

  /** Right after a successful `create`, `checkExists` asks for the new id and,
      when Baserow confirms it, answers true. */
  method CreateThenCheck(webhookUrl: string, tableId: string, events: seq<EventKind>,
                         workflowName: Option<string>, created: Json, confirmed: Json)
    returns (found: Result<bool, HookError>, sent: Option<Request>)
    requires !IsLocalhostUrl(webhookUrl) && IsActiveWebhook(created)
    ensures found == Success(true)
    ensures sent == Some(Request(GET, WebhookEndpoint(created.fields["id"]), NoBody))
  {
    var data := new WebhookStaticData();
    var c, _ := data.Create(webhookUrl, tableId, events, workflowName, Ok(created));
    found, sent := data.CheckExists(Ok(confirmed));
  }

  /** Two `checkExists` calls against an unchanged remote answer the same. */
  method CheckTwice(id: Option<Json>, events: Option<Json>, outcome: ApiOutcome)
    returns (first: Result<bool, HookError>, second: Result<bool, HookError>)
    ensures first == second
    ensures first == Success(false) <==> (id.None? || (outcome.Failed? && IsNotFound(outcome.error)))
  {
    var data := new WebhookStaticData();
    data.webhookId, data.webhookEvents := id, events;
    var s1, s2;
    first, s1 := data.CheckExists(outcome);
    second, s2 := data.CheckExists(outcome);
  }

  /** Once `delete` has succeeded, another `delete` succeeds without a request. */
  method DeleteTwice(id: Option<Json>, events: Option<Json>, deleted: ApiOutcome, again: ApiOutcome)
    returns (second: bool, sent: Option<Request>)
    requires deleted.Ok? || IsNotFound(deleted.error)
    ensures second && sent == None
  {
    var data := new WebhookStaticData();
    data.webhookId, data.webhookEvents := id, events;
    var first, _ := data.Delete(deleted);
    second, sent := data.Delete(again);
  }

  /** A localhost callback URL is refused whatever the record and the API would say. */
  method LocalhostIsRefused(id: Option<Json>, events: Option<Json>, webhookUrl: string,
                            tableId: string, requested: seq<EventKind>,
                            workflowName: Option<string>, outcome: ApiOutcome)
    returns (r: Result<bool, HookError>, sent: Option<Request>, idAfter: Option<Json>)
    requires IsLocalhostUrl(webhookUrl)
    ensures r.Failure? && r.error.NodeOperationError? && sent == None && idAfter == id
  {
    var data := new WebhookStaticData();
    data.webhookId, data.webhookEvents := id, events;
    r, sent := data.Create(webhookUrl, tableId, requested, workflowName, outcome);
    idAfter := data.webhookId;
  }

  /** Whatever the API answers, a run of create, checkExists and delete never
      leaves events recorded without an id, provided the record started that way. */
  method ConsistentAcrossCycle(id: Option<Json>, events: Option<Json>, webhookUrl: string,
                               tableId: string, requested: seq<EventKind>,
                               workflowName: Option<string>,
                               created: ApiOutcome, probed: ApiOutcome, deleted: ApiOutcome)
    returns (idAfter: Option<Json>, eventsAfter: Option<Json>)
    requires events.Some? ==> id.Some?
    ensures eventsAfter.Some? ==> idAfter.Some?
  {
    var data := new WebhookStaticData();
    data.webhookId, data.webhookEvents := id, events;
    var c, _ := data.Create(webhookUrl, tableId, requested, workflowName, created);
    var e, _ := data.CheckExists(probed);
    var d, _ := data.Delete(deleted);
    idAfter, eventsAfter := data.webhookId, data.webhookEvents;
  }
}

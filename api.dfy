/** The boundary to the Baserow REST API: the requests the node issues and the
    outcomes it distinguishes. The transport itself is not modelled; each
    lifecycle operation is handed the outcome its request would get. */
module BaserowApi {
  import opened Wrappers
  import opened Json
  import opened JsText
  import opened Events

  datatype HttpMethod = GET | POST | DELETE

  /** The body posted to create a webhook. */
  datatype CreateWebhookBody = CreateWebhookBody(
    url: string,
    includeAllEvents: bool,
    events: seq<EventKind>,
    requestMethod: string,
    name: string,
    useUserFieldNames: bool)

  /** No body (GET), an empty object `{}` (DELETE), or a creation body (POST). */
  datatype RequestBody = NoBody | EmptyBody | NewWebhook(fields: CreateWebhookBody)

  datatype Request = Request(verb: HttpMethod, endpoint: string, body: RequestBody)

  /** A failed request, with the HTTP status of its response. */
  datatype ApiError = ApiError(status: int, message: string)

  /** What a request to the API comes back with: the parsed response body (any
      JSON value), or the error thrown. */
  datatype ApiOutcome = Ok(response: Json) | Failed(error: ApiError)

  predicate IsNotFound(e: ApiError)
  {
    e.status == 404
  }

  /** `/api/database/webhooks/${webhookId}/`. */
  function WebhookEndpoint(id: Json): string
  {
    "/api/database/webhooks/" + TemplateText(id) + "/"
  }

  /** `/api/database/webhooks/table/${tableId}/`. */
  function TableWebhooksEndpoint(tableId: string): string
  {
    "/api/database/webhooks/table/" + tableId + "/"
  }

  lemma StripAffixes(p: string, a: string, b: string, q: string)
    requires p + a + q == p + b + q
    ensures a == b
  {
    var s := p + a + q;
    assert a == s[|p|..|p| + |a|];
    assert b == (p + b + q)[|p|..|p| + |b|];
  }

  /** Webhooks with distinct numeric ids are addressed at distinct endpoints. */
  lemma WebhookEndpointNumberInjective(m: int, n: int)
    ensures WebhookEndpoint(JNumber(m)) == WebhookEndpoint(JNumber(n)) ==> m == n
  {
    if WebhookEndpoint(JNumber(m)) == WebhookEndpoint(JNumber(n)) {
      StripAffixes("/api/database/webhooks/", NumberText(m), NumberText(n), "/");
      NumberTextInjective(m, n);
    }
  }

  /** Webhooks with distinct string ids are addressed at distinct endpoints. */
  lemma WebhookEndpointStringInjective(a: string, b: string)
    ensures WebhookEndpoint(JString(a)) == WebhookEndpoint(JString(b)) ==> a == b
  {
    if WebhookEndpoint(JString(a)) == WebhookEndpoint(JString(b)) {
      StripAffixes("/api/database/webhooks/", a, b, "/");
    }
  }

  /** `${this.getWorkflow().name}`: the workflow name, or "undefined" when it has none. */
  function WorkflowNameText(name: Option<string>): string
  {
    match name
    case Some(s) => s
    case None => "undefined"
  }

  /** The creation body for the node's parameters. */
  function NewWebhookBody(webhookUrl: string, events: seq<EventKind>, workflowName: Option<string>): CreateWebhookBody
  {
    CreateWebhookBody(webhookUrl, false, events, "POST", WorkflowNameText(workflowName), true)
  }

  function EventsJson(events: seq<EventKind>): seq<Json>
  {
    if events == [] then [] else [JString(Value(events[0]))] + EventsJson(events[1..])
  }

  /** The creation body as the JSON object sent on the wire. */
  function BodyJson(b: CreateWebhookBody): Object
  {
    map[
      "url" := JString(b.url),
      "include_all_events" := JBool(b.includeAllEvents),
      "events" := JArray(EventsJson(b.events)),
      "request_method" := JString(b.requestMethod),
      "name" := JString(b.name),
      "use_user_field_names" := JBool(b.useUserFieldNames)
    ]
  }

  function ParseEvents(items: seq<Json>): Option<seq<EventKind>>
  {
    if items == [] then Some([])
    else if !items[0].JString? then None
    else match (Parse(items[0].s), ParseEvents(items[1..]))
      case (Some(k), Some(ks)) => Some([k] + ks)
      case _ => None
  }

  /** Reads a creation body back from its JSON object, as the API does. */
  function ParseBody(o: Object): Option<CreateWebhookBody>
  {
    if "url" in o && o["url"].JString?
      && "include_all_events" in o && o["include_all_events"].JBool?
      && "events" in o && o["events"].JArray?
      && "request_method" in o && o["request_method"].JString?
      && "name" in o && o["name"].JString?
      && "use_user_field_names" in o && o["use_user_field_names"].JBool?
    then
      match ParseEvents(o["events"].items)
      case Some(events) =>
        Some(CreateWebhookBody(o["url"].s, o["include_all_events"].b, events,
          o["request_method"].s, o["name"].s, o["use_user_field_names"].b))
      case None => None
    else None
  }

  lemma {:induction false} ParseEventsJson(events: seq<EventKind>)
    ensures ParseEvents(EventsJson(events)) == Some(events)
  {
    if events != [] {
      ParseEventsJson(events[1..]);
      ParseValue(events[0]);
      assert EventsJson(events)[1..] == EventsJson(events[1..]);
      assert [events[0]] + events[1..] == events;
    }
  }

  /** The JSON sent for a creation body has exactly the six documented keys and
      reads back to the same body, requested events in their order included. */
  lemma BodyJsonRoundTrip(b: CreateWebhookBody)
    ensures BodyJson(b).Keys == {"url", "include_all_events", "events", "request_method", "name", "use_user_field_names"}
    ensures ParseBody(BodyJson(b)) == Some(b)
  {
    ParseEventsJson(b.events);
  }
}

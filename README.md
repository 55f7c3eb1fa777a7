# Baserow trigger node: webhook lifecycle and delivery classifier

This project models the core of the n8n Baserow trigger node
(`nodes/BaserowTrigger/BaserowTrigger.node.ts`) in Dafny and proves properties of it.

- **Lifecycle.** The host activates and deactivates a workflow by calling three hook
  methods: `checkExists`, `create` and `delete`. They share the node's durable static
  data, a record with an optional `webhookId` and optional `webhookEvents`.
  `BaserowTrigger.WebhookStaticData` is a class holding those two fields, and the three
  hooks are its methods. Each method makes at most one Baserow API request. It is handed
  the outcome that request would get (`BaserowApi.ApiOutcome`: the parsed response
  body, or an error with its HTTP status). It returns what the hook returns or throws
  (`Result<bool, HookError>`) and the request it issued, if any (`Option<Request>`).
  Its contract says, for each branch of the source, whether a request is made, which
  fields are deleted or assigned, and the result.
- **Request shape.** `BaserowApi` models the endpoints (`/api/database/webhooks/${id}/`
  and `/api/database/webhooks/table/${tableId}/`) and the creation body. Id
  interpolation follows JavaScript's template-literal conversion (`JsText.TemplateText`).
  The body is a record with six fields, and its JSON form reads back to the same record.
- **Delivery classifier.** `Delivery.Webhook` is the `webhook` handler. A body with
  `hook_id` and no `action` gets the text response `OK` and starts no workflow. Any
  other body starts the workflow with one item that holds the body unchanged.
- **Scenarios.** The methods in module `Scenarios` each allocate their own record and
  run a sequence of hooks on it: create, then delete, then check; check twice; and so
  on. They prove what such sequences return, using only the hook contracts.

Behaviours of the code a reader might not expect:
- `delete` returns `true` after a 404. There is no partial-failure result.
- The localhost check is only a substring test for `//localhost`. Other loopback
  addresses such as `127.0.0.1` get through.
- The stored `webhookEvents` is whatever JSON the creation response's `events` holds.
  It is not a set of event kinds. If `events` is absent, the field becomes undefined,
  overwriting any earlier value.
- A successful creation response that is not an object (a string, number, boolean or
  array) has no `id`, so `create` throws the NodeApiError for it.

The record is two independent optional fields. As a side fact, every hook preserves
"events are recorded only together with an id" (`Consistent`), and
`Scenarios.ConsistentAcrossCycle` relies on that across a whole create, check and
delete run.

## Model

| member | source | states |
|---|---|---|
| Events.Parse | nodes/BaserowTrigger/BaserowTrigger.node.ts:75-88 | an option value names an event kind only if it is one of `rows.created`, `rows.deleted`, `rows.updated`, and then that kind's value is the string |
| Events.ParseValue | nodes/BaserowTrigger/BaserowTrigger.node.ts:75-88 | every event kind's option value parses back to that kind |
| JsText.IncludesIff | nodes/BaserowTrigger/BaserowTrigger.node.ts:145 | `includes` is true exactly when the substring occurs at some position of the URL |
| JsText.NumberTextRoundTrip | nodes/BaserowTrigger/BaserowTrigger.node.ts:131 | the decimal text substituted for a numeric webhook id reads back to that id |
| JsText.NumberTextInjective | nodes/BaserowTrigger/BaserowTrigger.node.ts:131 | distinct numeric ids render as distinct text |
| BaserowApi.WebhookEndpointNumberInjective | nodes/BaserowTrigger/BaserowTrigger.node.ts:131 | the GET/DELETE endpoints of distinct numeric webhook ids are distinct, so a request always addresses the recorded webhook |
| BaserowApi.WebhookEndpointStringInjective | nodes/BaserowTrigger/BaserowTrigger.node.ts:190 | the same for string ids |
| BaserowApi.BodyJsonRoundTrip | nodes/BaserowTrigger/BaserowTrigger.node.ts:156-163 | the creation body sent on the wire has exactly the keys `url`, `include_all_events`, `events`, `request_method`, `name`, `use_user_field_names`, and decodes back to the same body, including the requested events in order |
| BaserowTrigger.WebhookStaticData.constructor | nodes/BaserowTrigger/BaserowTrigger.node.ts:125 | a node's static data starts with neither `webhookId` nor `webhookEvents` |
| BaserowTrigger.WebhookStaticData.CheckExists | nodes/BaserowTrigger/BaserowTrigger.node.ts:124-141 | with no id: returns false, makes no request, changes nothing. Otherwise a GET to the id's endpoint. Success returns true, record unchanged. A 404 deletes both fields and returns false. Any other error is rethrown unchanged, record unchanged |
| BaserowTrigger.WebhookStaticData.Create | nodes/BaserowTrigger/BaserowTrigger.node.ts:142-184 | a URL containing `//localhost` throws the NodeOperationError message before any request, record unchanged. Otherwise a POST to the table's endpoint with body url, `include_all_events` false, the requested events, `request_method` "POST", the workflow name, `use_user_field_names` true. A failed request is rethrown unchanged. A response that is not an object, lacks `id`, or whose `active` is not exactly `true`, throws the NodeApiError message. In both failure cases the record is unchanged. On success the response's `id` and `events` (not the requested events) are stored and true is returned |
| BaserowTrigger.WebhookStaticData.Delete | nodes/BaserowTrigger/BaserowTrigger.node.ts:186-203 | with no id: returns true, makes no request, changes nothing. Otherwise a DELETE with body `{}` to the id's endpoint. Success or 404 deletes both fields and returns true. Any other error returns false, record unchanged |
| Delivery.Webhook | nodes/BaserowTrigger/BaserowTrigger.node.ts:207-224 | the response is the acknowledgment `OK` exactly when `hook_id` is present and `action` absent. Otherwise it is one output with one item whose JSON is the body |
| Delivery.ForwardedBodies | nodes/BaserowTrigger/BaserowTrigger.node.ts:209-223 | the workflow receives nothing from a probe and exactly the body from any other delivery |
| Delivery.ActionIsForwarded | nodes/BaserowTrigger/BaserowTrigger.node.ts:209-223 | a body carrying `action` is always forwarded verbatim |
| Delivery.MissingHookIdIsForwarded | nodes/BaserowTrigger/BaserowTrigger.node.ts:209-223 | a body without `hook_id` is forwarded verbatim, even without `action` |
| Delivery.ProbeExample | nodes/BaserowTrigger/BaserowTrigger.node.ts:209-213 | `{"hook_id": 42}` yields only `OK` and no workflow data |
| Delivery.EventExample | nodes/BaserowTrigger/BaserowTrigger.node.ts:221-223 | a `rows.created` delivery yields exactly one item, equal to the delivery |
| Scenarios.CreateDeleteCheck | nodes/BaserowTrigger/BaserowTrigger.node.ts:124-203 | after a successful create and a delete that succeeds or gets 404, from any prior record, checkExists returns false without a request |
| Scenarios.CreateThenCheck | nodes/BaserowTrigger/BaserowTrigger.node.ts:124-184 | right after a successful create, checkExists asks for the response's id and returns true when Baserow confirms it |
| Scenarios.CheckTwice | nodes/BaserowTrigger/BaserowTrigger.node.ts:124-141 | two checkExists calls against the same remote answer the same. The answer is false exactly when there is no id or the remote says 404 |
| Scenarios.DeleteTwice | nodes/BaserowTrigger/BaserowTrigger.node.ts:186-203 | once a delete has succeeded, another delete returns true without a request |
| Scenarios.ConsistentAcrossCycle | nodes/BaserowTrigger/BaserowTrigger.node.ts:124-203 | from a record with no events lacking an id, create, checkExists and delete, whatever the API answers, never leave events recorded without an id |
| Scenarios.LocalhostIsRefused | nodes/BaserowTrigger/BaserowTrigger.node.ts:143-150 | a localhost URL makes create throw a NodeOperationError with no request and the recorded id untouched, whatever the record and the API |

## Left out

- `getDatabaseIds` and `getTableIds`: thin wrappers over `baserowApiRequest` and `toOptions`, and `GenericFunctions` is not part of this model.
- The node `description` object: UI metadata. It is used only for the event vocabulary.
- `baserowApiRequest`, HTTP transport and credentials: each request is recorded as a `Request` value, and its outcome is a parameter.
- n8n plumbing (`getWorkflowStaticData`, `getNodeParameter`, `getNodeWebhookUrl`, `getWorkflow`): their values are parameters or the class's fields. `returnJsonArray` is modelled only for a single object, as one item.
- The `TypeError` raised when an error has no `response` (lines 133 and 195): this is a runtime fault, not designed behaviour. Every modelled error carries a status.
- The `returnData` array in `webhook`: it is built but never returned.
- Concurrency between activation and deactivation: the host serialises these calls.
- JSON numbers: `JNumber` stands for safe integers only (|n| <= 2^53 - 1). JavaScript numbers are doubles, so larger integers are rounded by `JSON.parse` and printed differently by `String`. Fractional numbers are not modelled either. `JsText.TemplateText` and `BaserowApi.WebhookEndpoint` are therefore right only for safe integer ids.
- A `null` creation response: reading `responseData.id` on it throws a `TypeError` in the source, while the model treats it like any other non-object response and throws the NodeApiError.

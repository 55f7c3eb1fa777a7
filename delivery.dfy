/** The trigger node's `webhook` handler: classifies an inbound delivery. */
module Delivery {
  import opened Json

  /** One item of workflow data, `{ json: ... }`. */
  datatype Item = Item(json: Object)

  /** Either an immediate text response and no workflow run, or the data the workflow starts with. */
  datatype WebhookResponse =
    | Acknowledge(webhookResponse: string)
    | Emit(workflowData: seq<seq<Item>>)

  /** A delivery that names its hook but carries no action: Baserow's test call. */
  predicate IsProbe(body: Object)
  {
    "hook_id" in body && "action" !in body
  }

  /** `helpers.returnJsonArray` on a single object: one item wrapping it. */
  function ReturnJsonArray(data: Object): seq<Item>
  {
    [Item(data)]
  }

  /** Classifies the inbound body: a probe is acknowledged with "OK"; anything
      else starts the workflow with a single item holding the body unchanged. */
  function Webhook(body: Object): (r: WebhookResponse)
    ensures r.Acknowledge? <==> IsProbe(body)
    ensures r.Acknowledge? ==> r.webhookResponse == "OK"
    ensures r.Emit? ==> |r.workflowData| == 1 && |r.workflowData[0]| == 1
    ensures r.Emit? ==> r.workflowData[0][0].json == body
  {
    if IsProbe(body) then Acknowledge("OK") else Emit([ReturnJsonArray(body)])
  }

  /** The JSON objects a response hands to the workflow, over all outputs. */
  function Forwarded(r: WebhookResponse): seq<Object>
  {
    match r
    case Acknowledge(_) => []
    case Emit(outputs) => Flatten(outputs)
  }

  function Flatten(outputs: seq<seq<Item>>): seq<Object>
  {
    if outputs == [] then []
    else seq(|outputs[0]|, i requires 0 <= i < |outputs[0]| => outputs[0][i].json) + Flatten(outputs[1..])
  }

  /** A probe forwards nothing; every other delivery forwards exactly its body. */
  lemma ForwardedBodies(body: Object)
    ensures Forwarded(Webhook(body)) == if IsProbe(body) then [] else [body]
  {
    if !IsProbe(body) {
      var outputs := Webhook(body).workflowData;
      assert Flatten(outputs[1..]) == [];
    }
  }

  /** A body carrying an action is forwarded verbatim, whatever else it holds. */
  lemma ActionIsForwarded(body: Object)
    requires "action" in body
    ensures Webhook(body) == Emit([[Item(body)]])
  {
  }

  /** A body without `hook_id` is forwarded verbatim, even without an action. */
  lemma MissingHookIdIsForwarded(body: Object)
    requires "hook_id" !in body
    ensures Webhook(body) == Emit([[Item(body)]])
  {
  }

  /** `{"hook_id": 42}` is only acknowledged. */
  lemma ProbeExample()
    ensures Webhook(map["hook_id" := JNumber(42)]) == Acknowledge("OK")
    ensures Forwarded(Webhook(map["hook_id" := JNumber(42)])) == []
  {
  }

  /** A rows.created delivery yields one item equal to the delivery. */
  lemma EventExample(items: seq<Json>)
    ensures var body := map["hook_id" := JNumber(42), "action" := JString("rows.created"), "items" := JArray(items)];
      Forwarded(Webhook(body)) == [body]
  {
    var body := map["hook_id" := JNumber(42), "action" := JString("rows.created"), "items" := JArray(items)];
    ForwardedBodies(body);
  }
}

/**
  The node handler registry: the result a handler produces, the handler type,
  and the nine handlers the server registers by type tag.
 */
module NodeHandlers {
  import opened Wrappers
  import opened Json

  /** Execution and node-log status. */
  datatype Status = PENDING | RUNNING | SUCCESS | ERROR

  /** What a handler is given: the node's id and type, its parameters (already `|| {}`) and its input. */
  datatype NodeExecutionData = NodeExecutionData(nodeId: string, nodeType: string, parameters: Json, input: Json)

  /** What a handler returns; `error` is `undefined` unless the handler reports one. */
  datatype NodeResult = NodeResult(nodeId: string, status: Status, output: Json, error: Option<string>)

  /** A handler call (or a node's whole traversal) ends by returning a result or by throwing. */
  datatype Invocation = Returned(result: NodeResult) | Raised(message: string)

  type Handler = NodeExecutionData -> Invocation

  /** The string-keyed handler table. */
  type Registry = map<string, Handler>

  function Succeed(data: NodeExecutionData, output: Json): Invocation {
    Returned(NodeResult(data.nodeId, SUCCESS, output, None))
  }

  /** The handler succeeded with an object output, keeping the node id and reporting no error. */
  predicate SucceededWith(data: NodeExecutionData, r: Invocation, fields: map<string, Json>) {
    r.Returned? && r.result.nodeId == data.nodeId && r.result.status == SUCCESS
    && r.result.error == None && r.result.output == JObj(fields)
  }

  function WebhookTrigger(data: NodeExecutionData, now: int): (r: Invocation)
    ensures r.Returned? && r.result.output.JObj?
    ensures SucceededWith(data, r, r.result.output.fields)
    ensures r.result.output.fields.Keys == {"message", "timestamp"}
    ensures r.result.output.fields["message"] == JStr("Webhook triggered")
  {
    Succeed(data, JObj(map["message" := JStr("Webhook triggered"), "timestamp" := JDate(now)]))
  }

  function ScheduleTrigger(data: NodeExecutionData, now: int): (r: Invocation)
    ensures r.Returned? && r.result.output.JObj?
    ensures SucceededWith(data, r, r.result.output.fields)
    ensures r.result.output.fields.Keys == {"message", "timestamp"}
    ensures r.result.output.fields["message"] == JStr("Schedule triggered")
  {
    Succeed(data, JObj(map["message" := JStr("Schedule triggered"), "timestamp" := JDate(now)]))
  }

  /** A mock response that echoes the input under `body.input`; no request is made. */
  function HttpRequest(data: NodeExecutionData): (r: Invocation)
    ensures r.Returned? && r.result.output.JObj?
    ensures SucceededWith(data, r, r.result.output.fields)
    ensures r.result.output.fields.Keys == {"statusCode", "headers", "body"}
    ensures r.result.output.fields["statusCode"] == JNum(200)
    ensures r.result.output.fields["body"].JObj?
    ensures "input" in r.result.output.fields["body"].fields
    ensures r.result.output.fields["body"].fields["input"] == data.input
  {
    Succeed(data, JObj(map[
      "statusCode" := JNum(200),
      "headers" := JObj(map["content-type" := JStr("application/json")]),
      "body" := JObj(map["message" := JStr("Mock HTTP response"), "input" := data.input])]))
  }

  /** `{...input, processedBy: 'code-node', timestamp}`. */
  function Code(data: NodeExecutionData, now: int): (r: Invocation)
    ensures r.Returned? && r.result.output.JObj?
    ensures SucceededWith(data, r, r.result.output.fields)
    ensures r.result.output.fields.Keys == Spread(data.input).Keys + {"processedBy", "timestamp"}
    ensures r.result.output.fields["processedBy"] == JStr("code-node")
    ensures forall k :: k in Spread(data.input) && k != "processedBy" && k != "timestamp" ==>
              r.result.output.fields[k] == Spread(data.input)[k]
  {
    Succeed(data, JObj(Spread(data.input) + map["processedBy" := JStr("code-node"), "timestamp" := JDate(now)]))
  }

  /** The message of the TypeError raised when a computed key has no primitive form. */
  const NoPrimitiveMessage: string := "Cannot convert object to primitive value"

  /**
    `{...input, [key]: value}` with `key` and `value` read from the parameters.
    A key that cannot be converted to a string throws inside the `try`, and
    the catch block returns ERROR with a null output.
   */
  function Set(data: NodeExecutionData): (r: Invocation)
    ensures r.Returned? && r.result.nodeId == data.nodeId
    ensures r.result.status == ERROR <==> ShadowsToString(Field(data.parameters, "key"))
    ensures r.result.status == ERROR ==> r.result.output == JNull && r.result.error == Some(NoPrimitiveMessage)
    ensures r.result.status != ERROR ==> r.result.output.JObj? && SucceededWith(data, r, r.result.output.fields)
    ensures ToPropertyKey(Field(data.parameters, "key")).Some? ==>
            var key := ToPropertyKey(Field(data.parameters, "key")).value;
            && r.result.output.JObj?
            && r.result.output.fields.Keys == Spread(data.input).Keys + {key}
            && r.result.output.fields[key] == Field(data.parameters, "value")
            && forall k :: k in Spread(data.input) && k != key ==>
                 r.result.output.fields[k] == Spread(data.input)[k]
  {
    ToPropertyKeyThrows(Field(data.parameters, "key"));
    match ToPropertyKey(Field(data.parameters, "key"))
    case None => Returned(NodeResult(data.nodeId, ERROR, JNull, Some(NoPrimitiveMessage)))
    case Some(key) => Succeed(data, JObj(Spread(data.input)[key := Field(data.parameters, "value")]))
  }

  /**
    `{...input, conditionResult, nextPath}`. The condition evaluator is a
    parameter because the source builds and runs code from a string; what it
    yields is stored as is, and `nextPath` follows its truthiness.
   */
  function If(data: NodeExecutionData, evalCondition: (Json, Json) -> Json): (r: Invocation)
    ensures r.Returned? && r.result.output.JObj?
    ensures SucceededWith(data, r, r.result.output.fields)
    ensures r.result.output.fields.Keys == Spread(data.input).Keys + {"conditionResult", "nextPath"}
    ensures var value := evalCondition(Field(data.parameters, "condition"), data.input);
            && r.result.output.fields["conditionResult"] == value
            && (r.result.output.fields["nextPath"] == JStr("true") <==> Truthy(value))
            && r.result.output.fields["nextPath"] in {JStr("true"), JStr("false")}
    ensures forall k :: k in Spread(data.input) && k != "conditionResult" && k != "nextPath" ==>
              r.result.output.fields[k] == Spread(data.input)[k]
  {
    var value := evalCondition(Field(data.parameters, "condition"), data.input);
    Succeed(data, JObj(Spread(data.input) + map[
      "conditionResult" := value,
      "nextPath" := JStr(if Truthy(value) then "true" else "false")]))
  }

  function EmailSend(data: NodeExecutionData): (r: Invocation)
    ensures r.Returned? && r.result.output.JObj?
    ensures SucceededWith(data, r, r.result.output.fields)
    ensures r.result.output.fields.Keys == {"message", "to", "subject"}
    ensures r.result.output.fields["to"] == Field(data.parameters, "to")
    ensures r.result.output.fields["subject"] == Field(data.parameters, "subject")
  {
    Succeed(data, JObj(map[
      "message" := JStr("Email sent successfully"),
      "to" := Field(data.parameters, "to"),
      "subject" := Field(data.parameters, "subject")]))
  }

  function Postgres(data: NodeExecutionData): (r: Invocation)
    ensures r.Returned? && r.result.output.JObj?
    ensures SucceededWith(data, r, r.result.output.fields)
    ensures r.result.output.fields.Keys == {"message", "query", "result"}
    ensures r.result.output.fields["query"] == Field(data.parameters, "query")
    ensures r.result.output.fields["result"] == JArr([])
  {
    Succeed(data, JObj(map[
      "message" := JStr("Query executed"),
      "query" := Field(data.parameters, "query"),
      "result" := JArr([])]))
  }

  function OpenAI(data: NodeExecutionData): (r: Invocation)
    ensures r.Returned? && r.result.output.JObj?
    ensures SucceededWith(data, r, r.result.output.fields)
    ensures r.result.output.fields.Keys == {"response", "model", "prompt"}
    ensures r.result.output.fields["model"] == Field(data.parameters, "model")
    ensures r.result.output.fields["prompt"] == Field(data.parameters, "prompt")
  {
    Succeed(data, JObj(map[
      "response" := JStr("This is a mock OpenAI response"),
      "model" := Field(data.parameters, "model"),
      "prompt" := Field(data.parameters, "prompt")]))
  }

  /** The nine registered type tags. */
  const SourceTags: set<string> := {
    "webhook-trigger", "schedule-trigger", "http-request", "code", "set",
    "if", "email-send", "postgres", "openai" }

  /**
    The server's `nodeExecutors` table. Every `new Date()` a handler writes is
    the abstract instant `now`; `evalCondition` stands for the condition evaluator.
   */
  function SourceRegistry(now: int, evalCondition: (Json, Json) -> Json): (r: Registry)
    ensures r.Keys == SourceTags
  {
    map[
      "webhook-trigger" := (d: NodeExecutionData) => WebhookTrigger(d, now),
      "schedule-trigger" := (d: NodeExecutionData) => ScheduleTrigger(d, now),
      "http-request" := (d: NodeExecutionData) => HttpRequest(d),
      "code" := (d: NodeExecutionData) => Code(d, now),
      "set" := (d: NodeExecutionData) => Set(d),
      "if" := (d: NodeExecutionData) => If(d, evalCondition),
      "email-send" := (d: NodeExecutionData) => EmailSend(d),
      "postgres" := (d: NodeExecutionData) => Postgres(d),
      "openai" := (d: NodeExecutionData) => OpenAI(d)]
  }

  /** The trigger tags and `http-request` dispatch to their own handlers. */
  lemma TriggerEntries(now: int, evalCondition: (Json, Json) -> Json, d: NodeExecutionData)
    ensures var r := SourceRegistry(now, evalCondition);
            && r["webhook-trigger"](d) == WebhookTrigger(d, now)
            && r["schedule-trigger"](d) == ScheduleTrigger(d, now)
            && r["http-request"](d) == HttpRequest(d)
  {
  }

  /** The tags that transform their input dispatch to their own handlers. */
  lemma TransformEntries(now: int, evalCondition: (Json, Json) -> Json, d: NodeExecutionData)
    ensures var r := SourceRegistry(now, evalCondition);
            && r["code"](d) == Code(d, now)
            && r["set"](d) == Set(d)
            && r["if"](d) == If(d, evalCondition)
  {
  }

  /** The communication, data and AI tags dispatch to their own handlers. */
  lemma IntegrationEntries(now: int, evalCondition: (Json, Json) -> Json, d: NodeExecutionData)
    ensures var r := SourceRegistry(now, evalCondition);
            && r["email-send"](d) == EmailSend(d)
            && r["postgres"](d) == Postgres(d)
            && r["openai"](d) == OpenAI(d)
  {
  }

  /** Each tag of the table dispatches to its own handler. */
  lemma SourceRegistryEntries(now: int, evalCondition: (Json, Json) -> Json, d: NodeExecutionData)
    ensures var r := SourceRegistry(now, evalCondition);
            && r["webhook-trigger"](d) == WebhookTrigger(d, now)
            && r["schedule-trigger"](d) == ScheduleTrigger(d, now)
            && r["http-request"](d) == HttpRequest(d)
            && r["code"](d) == Code(d, now)
            && r["set"](d) == Set(d)
            && r["if"](d) == If(d, evalCondition)
            && r["email-send"](d) == EmailSend(d)
            && r["postgres"](d) == Postgres(d)
            && r["openai"](d) == OpenAI(d)
  {
    TriggerEntries(now, evalCondition, d);
    TransformEntries(now, evalCondition, d);
    IntegrationEntries(now, evalCondition, d);
  }

  /**
    Only `set` can reach its catch branch, and only with a key that cannot be
    converted: otherwise each handler returns SUCCESS with a truthy object
    output, its own node id and no error.
   */
  lemma SourceHandlersSucceed(now: int, evalCondition: (Json, Json) -> Json, tag: string, data: NodeExecutionData)
    requires tag in SourceTags
    requires tag == "set" ==> !ShadowsToString(Field(data.parameters, "key"))
    ensures var r := SourceRegistry(now, evalCondition)[tag](data);
            r.Returned? && r.result.output.JObj? && SucceededWith(data, r, r.result.output.fields)
            && Truthy(r.result.output)
  {
    var reg := SourceRegistry(now, evalCondition);
    if tag == "webhook-trigger" { assert reg[tag](data) == WebhookTrigger(data, now); }
    else if tag == "schedule-trigger" { assert reg[tag](data) == ScheduleTrigger(data, now); }
    else if tag == "http-request" { assert reg[tag](data) == HttpRequest(data); }
    else if tag == "code" { assert reg[tag](data) == Code(data, now); }
    else if tag == "set" { assert reg[tag](data) == Set(data); }
    else if tag == "if" { assert reg[tag](data) == If(data, evalCondition); }
    else if tag == "email-send" { assert reg[tag](data) == EmailSend(data); }
    else if tag == "postgres" { assert reg[tag](data) == Postgres(data); }
    else { assert reg[tag](data) == OpenAI(data); }
  }
}

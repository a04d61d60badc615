/** Turning the result of a gRPC call into the HTTP response (`convertBody` and the call's callback). */
module Response {
  import opened Wrappers
  import opened Props
  import opened Json

  /** `bodyMap || '*'` is `'*'`: the whole answer is sent. */
  predicate WholeBody(bodyMap: Option<string>)
  {
    bodyMap.None? || bodyMap.value == "" || bodyMap.value == "*"
  }

  /** What `convertBody` yields: a JSON value or `undefined`, or it throws. */
  datatype Projection = Projected(v: Option<Value>) | Throws

  /**
   * `convertBody(value, bodyMap)`: with no body field (or `*`) the value
   * itself; otherwise its property named by the body field, which is
   * `undefined` when the value lacks it or is a primitive, and a `TypeError`
   * when the value is `null`.
   */
  function ConvertBody(value: Value, bodyMap: Option<string>): (r: Projection)
    ensures r.Throws? <==> !WholeBody(bodyMap) && value.Null?
    ensures WholeBody(bodyMap) ==> r == Projected(Some(value))
  {
    if WholeBody(bodyMap) then Projected(Some(value))
    else match value
      case Null => Throws
      case Obj(fields) => Projected(Get(fields, bodyMap.value))
      case _ => Projected(None)
  }

  /** A body field selects the field it names, and nothing is found for a field the answer lacks. */
  lemma ConvertBodyField(fields: Props<Value>, f: string)
    requires f != "" && f != "*"
    ensures ConvertBody(Obj(fields), Some(f)).Projected?
    ensures ConvertBody(Obj(fields), Some(f)).v.Some? <==> f in Keys(fields)
    ensures ConvertBody(Obj(fields), Some(f)).v == Get(fields, f)
  {
  }

  /** Projecting on a field gives back exactly what was stored under it. */
  lemma ConvertBodyAfterSet(fields: Props<Value>, f: string, v: Value)
    requires f != "" && f != "*"
    ensures ConvertBody(Obj(Set(fields, f, v)), Some(f)) == Projected(Some(v))
  {
    ConvertBodyField(Set(fields, f, v), f);
  }

  /** The `convertBody` tests: `{cool: true}` with `*` is itself, with `cool` is `true`. */
  lemma ConvertBodyExamples(value: Value)
    requires value == Obj([("cool", Bool(true))])
    ensures ConvertBody(value, Some("*")) == Projected(Some(value))
    ensures ConvertBody(value, Some("cool")) == Projected(Some(Bool(true)))
  {
  }

  /** What the gRPC client hands the callback: an error with its code and message, or the answer. */
  datatype RpcResult = RpcError(code: int, message: string) | RpcAnswer(ans: Value)

  /** What the callback does: send a response, or throw (nothing is sent). */
  datatype Reply = Sent(status: nat, body: Option<Value>) | Thrown

  /**
   * The callback of lines 97-102: an error becomes status 500 with
   * `{code, message}`; an answer becomes status 200 with `convertBody` of
   * it (an `undefined` projection is an empty body); a throwing projection
   * sends nothing.
   */
  function Respond(result: RpcResult, bodyMap: Option<string>): (r: Reply)
    ensures r.Sent? ==> (r.status == 500 <==> result.RpcError?)
    ensures r.Thrown? <==> result.RpcAnswer? && ConvertBody(result.ans, bodyMap).Throws?
    ensures result.RpcAnswer? && ConvertBody(result.ans, bodyMap).Projected? ==>
      r == Sent(200, ConvertBody(result.ans, bodyMap).v)
  {
    match result
    case RpcError(code, message) => Sent(500, Some(Obj([("code", Num(code)), ("message", Str(message))])))
    case RpcAnswer(ans) =>
      match ConvertBody(ans, bodyMap)
      case Throws => Thrown
      case Projected(v) => Sent(200, v)
  }

  /** An error reply carries the code and the message of the error and nothing else. */
  lemma ErrorReplyFields(code: int, message: string, bodyMap: Option<string>)
    ensures Respond(RpcError(code, message), bodyMap).Sent?
    ensures Respond(RpcError(code, message), bodyMap).body.Some?
    ensures Respond(RpcError(code, message), bodyMap).body.value.Obj?
    ensures Keys(Respond(RpcError(code, message), bodyMap).body.value.fields) == ["code", "message"]
    ensures Get(Respond(RpcError(code, message), bodyMap).body.value.fields, "code") == Some(Num(code))
    ensures Get(Respond(RpcError(code, message), bodyMap).body.value.fields, "message") == Some(Str(message))
  {
    var t := [("code", Num(code)), ("message", Str(message))];
    assert Keys(t) == ["code", "message"];
    assert t[1..] == [("message", Str(message))];
  }

  /**
   * An answer sent through a body field is a 200 carrying that field of the
   * answer, or an empty body when the answer lacks it.
   */
  lemma AnswerSentField(fields: Props<Value>, f: string)
    requires f != "" && f != "*"
    ensures Respond(RpcAnswer(Obj(fields)), Some(f)) == Sent(200, Get(fields, f))
  {
    ConvertBodyField(fields, f);
  }

  /** An answer with no body field is sent whole with status 200. */
  lemma AnswerSentWhole(ans: Value, bodyMap: Option<string>)
    requires WholeBody(bodyMap)
    ensures Respond(RpcAnswer(ans), bodyMap) == Sent(200, Some(ans))
  {
  }
}

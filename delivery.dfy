/**
 * The completion callback `message_sent`: classify what the host's process
 * runner reports for a submitted request.
 */
module Delivery {
  import opened Wrappers
  import opened Host
  import PyInt

  /** The scalar JSON values a top-level field of the response can hold. */
  datatype Json = JNull | JBool(b: bool) | JInt(i: int) | JText(s: string)

  /** The process output after `json.loads`. */
  datatype Body =
    | Unparseable                        // json.loads raises ValueError
    | NotAnObject                        // a JSON array, string, number or null
    | Object(fields: map<string, Json>)

  /** Python's `v == 1`, which also holds for `True`. */
  predicate IsOne(v: Json)
  {
    v == JInt(1) || v == JBool(true)
  }

  /** The provider accepted the message: the response's `status` is 1. */
  predicate Accepted(body: Body)
  {
    body.Object? && "status" in body.fields && IsOne(body.fields["status"])
  }

  /** `'{}'.format(v)` for a value `json.loads` produced. */
  function Render(v: Json): string
  {
    match v
    case JNull => "None"
    case JBool(b) => if b then "True" else "False"
    case JInt(i) => PyInt.IntToString(i)
    case JText(s) => s
  }

  /** The line printed for a failed delivery. */
  function FailureLine(request: Json): string
  {
    "pushover: Failed to send the message (Request: " + Render(request) + ")"
  }

  /**
   * `message_sent`: parse the output, report success when the process exited
   * with 0 and the provider accepted the message, otherwise log the
   * provider's request identifier and report an error.
   */
  function MessageSent(rc: int, body: Body): (r: Call<Option<string>>)
    ensures r == Returned(Ok, None) <==> rc == 0 && Accepted(body)
    ensures r.Returned? && r.rc == Error ==>
      body.Object? && "request" in body.fields && r.effect == Some(FailureLine(body.fields["request"]))
  {
    match body
    case Unparseable => Raised(ValueError)
    case NotAnObject => if rc == 0 then Raised(AttributeError) else Raised(TypeError)
    case Object(fields) =>
      if rc == 0 && "status" in fields && IsOne(fields["status"]) then Returned(Ok, None)
      else if "request" in fields then Returned(Error, Some(FailureLine(fields["request"])))
      else Raised(KeyError)
  }

  /**
   * Every rejection or failed transfer whose response has a `request` field,
   * whatever kind of JSON value it holds, returns ERROR and logs that value;
   * a text identifier appears verbatim in the line.
   */
  lemma RejectionLogged(rc: int, fields: map<string, Json>)
    requires !(rc == 0 && Accepted(Object(fields)))
    requires "request" in fields
    ensures MessageSent(rc, Object(fields)) == Returned(Error, Some(FailureLine(fields["request"])))
    ensures fields["request"].JText? ==>
      (MessageSent(rc, Object(fields))
       == Returned(Error, Some("pushover: Failed to send the message (Request: " + fields["request"].s + ")")))
  {
  }

  /** A failure response without a `request` field raises KeyError instead of logging. */
  lemma MissingRequestRaises(rc: int, fields: map<string, Json>)
    requires !(rc == 0 && Accepted(Object(fields)))
    requires "request" !in fields
    ensures MessageSent(rc, Object(fields)) == Raised(KeyError)
  {
  }

  /**
   * The output is parsed before the exit code is looked at: output that is
   * not JSON, such as the empty output of a refused connection, raises
   * ValueError whatever the exit code.
   */
  lemma UnparseableRaises(rc: int)
    ensures MessageSent(rc, Unparseable) == Raised(ValueError)
  {
  }
}

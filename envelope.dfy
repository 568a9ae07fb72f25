/** The two response validators of `PixivBase`. Each reduces a response to the
    payload the caller wants or to the empty dict `{}` (the failure sentinel the
    retry combinator reacts to), and may write one log line. A Python exception
    escaping a validator is an `Err` outcome. */
module Envelope {
  import opened Common
  import opened Json
  import opened Http

  /** The log line a validator writes before returning (the URL prefix of the
      line is left out). */
  datatype Log =
    | NoLog
    | JsonValueError          // the body did not decode
    | ErrorDetail(detail: Json)  // the endpoint reported an error; the value logged

  /** A validator's return value together with the line it logged. */
  datatype Checked = Checked(payload: Json, log: Log)

  /** Shape A's diagnostic, `json_.get("message", "") or json_.get("msg", "No msg.")`. */
  function DiagnosticA(m: map<string, Json>): Json
  {
    var message := if "message" in m then m["message"] else JStr("");
    if Truthy(message) then message
    else if "msg" in m then m["msg"]
    else JStr("No msg.")
  }

  /** `_check_response`: ajax endpoints answering `{error, message/msg, body}`. */
  function CheckA(res: Response): Result<Checked>
  {
    if res.status.None? then Ok(Checked(Empty, NoLog))
    else if res.body.None? then Ok(Checked(Empty, JsonValueError))
    else
      var j := res.body.value;
      var e :- Get(j, "error");
      if e == JBool(true) then Ok(Checked(Empty, ErrorDetail(DiagnosticA(j.fields))))
      else
        var b :- Get(j, "body");
        Ok(Checked(b, NoLog))
  }

  /** Python's `key in x` for a string key: dict membership, list membership,
      substring; a TypeError for anything else. */
  function PyContains(j: Json, key: string): Result<bool>
  {
    match j
    case JObj(m) => Ok(key in m)
    case JArr(xs) => Ok(JStr(key) in xs)
    case JStr(s) => Ok(IsSubstring(key, s))
    case _ => Err(TypeError)
  }

  /** `_check_response2`: ranking-style endpoints answering the object itself,
      with an `error` key only when something went wrong. */
  function CheckB(res: Response): Result<Checked>
  {
    if res.status.None? then Ok(Checked(Empty, NoLog))
    else if res.body.None? then Ok(Checked(Empty, JsonValueError))
    else
      var j := res.body.value;
      var hasError :- PyContains(j, "error");
      if hasError then
        var e :- Get(j, "error");
        Ok(Checked(Empty, ErrorDetail(e)))
      else Ok(Checked(j, NoLog))
  }

  // ---- both shapes -----------------------------------------------------------

  /** A transport failure (no status) gives `{}` without looking at the body. */
  lemma AbsentStatusIsEmpty(res: Response)
    requires res.status.None?
    ensures CheckA(res) == Ok(Checked(Empty, NoLog))
    ensures CheckB(res) == Ok(Checked(Empty, NoLog))
    ensures forall b :: CheckA(res.(body := b)) == CheckA(res) && CheckB(res.(body := b)) == CheckB(res)
  {
  }

  /** An undecodable body gives `{}` and a JSON error line. */
  lemma UndecodableIsEmpty(res: Response)
    requires res.status.Some? && res.body.None?
    ensures CheckA(res) == Ok(Checked(Empty, JsonValueError))
    ensures CheckB(res) == Ok(Checked(Empty, JsonValueError))
  {
  }

  // ---- shape A ---------------------------------------------------------------

  /** `error` being the boolean true gives `{}`, whatever else the object holds. */
  lemma ShapeAErrorTrue(res: Response, m: map<string, Json>)
    requires res.status.Some? && res.body == Some(JObj(m))
    requires "error" in m && m["error"] == JBool(true)
    ensures CheckA(res) == Ok(Checked(Empty, ErrorDetail(DiagnosticA(m))))
  {
  }

  /** The logged diagnostic prefers a truthy `message`, then `msg` (whatever its
      value), then the fixed text "No msg.". */
  lemma DiagnosticPreference(m: map<string, Json>)
    ensures "message" in m && Truthy(m["message"]) ==> DiagnosticA(m) == m["message"]
    ensures !("message" in m && Truthy(m["message"])) && "msg" in m ==> DiagnosticA(m) == m["msg"]
    ensures !("message" in m && Truthy(m["message"])) && "msg" !in m ==> DiagnosticA(m) == JStr("No msg.")
  {
  }

  /** Shape A hands back `json["body"]` with no log line exactly when the
      response has a status and decodes to an object whose `error` is present
      and not `true` and which has a `body`. */
  lemma ShapeAReturnsBodyIff(res: Response)
    ensures (res.status.Some? && CheckA(res).Ok? && CheckA(res).value.log == NoLog) <==>
            (res.status.Some? && res.body.Some? && res.body.value.JObj? &&
             "error" in res.body.value.fields && res.body.value.fields["error"] != JBool(true) &&
             "body" in res.body.value.fields)
    ensures res.status.Some? && CheckA(res).Ok? && CheckA(res).value.log == NoLog ==>
              CheckA(res).value.payload == res.body.value.fields["body"]
  {
  }

  /** A decoded body without `error` (or that is not an object) makes Shape A
      raise instead of returning: KeyError on an object, TypeError otherwise. */
  lemma ShapeARaisesWithoutErrorKey(res: Response)
    requires res.status.Some? && res.body.Some?
    requires !res.body.value.JObj? || "error" !in res.body.value.fields
    ensures CheckA(res) == Err(if res.body.value.JObj? then KeyError("error") else TypeError)
  {
  }

  /** Shape A's payload is either the sentinel or the nested `body`. */
  lemma ShapeAPayloadIsSentinelOrBody(res: Response)
    requires CheckA(res).Ok?
    ensures CheckA(res).value.payload == Empty ||
            (res.body.Some? && res.body.value.JObj? && "body" in res.body.value.fields &&
             CheckA(res).value.payload == res.body.value.fields["body"])
  {
  }

  /** A successful but empty `body` cannot be told apart from a transport
      failure: both give `{}` with no log line. */
  lemma EmptyBodyLooksLikeFailure(url: SplitUrl)
    ensures CheckA(Response(Some(200), Some(JObj(map["error" := JBool(false), "body" := Empty])), url)) ==
            CheckA(Response(None, None, url))
  {
  }

  // ---- shape B ---------------------------------------------------------------

  /** An `error` key with any value (even `false`) gives `{}` and logs that value. */
  lemma ShapeBErrorKeyAnyValue(res: Response, m: map<string, Json>)
    requires res.status.Some? && res.body == Some(JObj(m)) && "error" in m
    ensures CheckB(res) == Ok(Checked(Empty, ErrorDetail(m["error"])))
  {
  }

  /** Without an `error` key the decoded object comes back unchanged. */
  lemma ShapeBPassesObjectThrough(res: Response, m: map<string, Json>)
    requires res.status.Some? && res.body == Some(JObj(m)) && "error" !in m
    ensures CheckB(res) == Ok(Checked(JObj(m), NoLog))
  {
  }

  /** Shape B never unwraps: its payload is the sentinel or the whole decoded value. */
  lemma ShapeBPayloadIsSentinelOrWhole(res: Response)
    requires CheckB(res).Ok?
    ensures CheckB(res).value.payload == Empty || Some(CheckB(res).value.payload) == res.body
  {
  }

  /** On a decoded list holding the string "error", `"error" in json_` is true
      and the following `json_["error"]` raises TypeError. */
  lemma ShapeBListWithErrorString(url: SplitUrl)
    ensures CheckB(Response(Some(200), Some(JArr([JStr("error")])), url)) == Err(TypeError)
  {
  }
}

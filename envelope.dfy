/** The end of the comparison handler: turning the outcome of the one call
    to the completion service into the HTTP response, and the responses
    themselves. */
module Envelope {
  import opened Wrappers
  import opened JsValue

  const TooFewFunds: string := "At least 2 fund names are required"

  const GenerationFailed: string := "Failed to generate comparison"

  /** What the call to the completion service produced: either `fetch`
      itself rejected (network failure), or an answer arrived with a status
      code, a status text and the outcome of parsing its body as JSON (the
      body is only parsed when the status is a success). */
  datatype Upstream =
    | Unreachable(message: string)
    | Answered(status: int, statusText: string, body: Result<Json>)

  /** `response.ok`: a status in the range 200 .. 299. */
  predicate IsOk(status: int) {
    200 <= status <= 299
  }

  /** The three responses the handler sends: 400 for too few funds, 500
      for any thrown error, and the 200 comparison, whose fields hold what
      the service returned (`None` when it was `undefined`). */
  datatype Response =
    | Rejected(error: string)
    | Failed(error: string, details: string)
    | Compared(comparison: Option<Json>, model: Option<Json>, usage: Option<Json>)

  function Status(r: Response): int {
    match r
    case Rejected(_) => 400
    case Failed(_, _) => 500
    case Compared(_, _, _) => 200
  }

  /** `{key: v}` as `JSON.stringify` writes it: an `undefined` value
      leaves the key out. */
  function Entry(key: string, v: Option<Json>): map<string, Json> {
    if v.Some? then map[key := v.value] else map[]
  }

  /** The JSON body sent with the response. */
  function Body(r: Response): (j: Json)
    ensures j.JObj? && "success" in j.fields
    ensures j.fields["success"] == JBool(Status(r) == 200)
    ensures ("error" in j.fields) <==> Status(r) != 200
    ensures r.Rejected? ==> j.fields.Keys == {"success", "error"} && j.fields["error"] == JStr(r.error)
    ensures r.Failed? ==>
      j.fields.Keys == {"success", "error", "details"}
      && j.fields["error"] == JStr(r.error) && j.fields["details"] == JStr(r.details)
    ensures r.Compared? ==>
      && Lookup(j.fields, "comparison") == r.comparison
      && Lookup(j.fields, "model") == r.model
      && Lookup(j.fields, "usage") == r.usage
      && j.fields.Keys <= {"success", "comparison", "model", "usage"}
  {
    match r
    case Rejected(e) => JObj(map["success" := JBool(false), "error" := JStr(e)])
    case Failed(e, d) => JObj(map["success" := JBool(false), "error" := JStr(e), "details" := JStr(d)])
    case Compared(c, m, u) =>
      JObj(map["success" := JBool(true)] + Entry("comparison", c) + Entry("model", m) + Entry("usage", u))
  }

  /** The message of the error thrown for a non-ok answer: a fixed prefix,
      then the status in decimal, a space and the status text. */
  function UpstreamError(status: int, statusText: string): string {
    UpstreamErrorPrefix + IntToString(status) + " " + statusText
  }

  const UpstreamErrorPrefix: string := "Perplexity API error: "

  /** `data.choices[0].message.content`; each step throws when it reads
      off `undefined` or `null`. */
  function Comparison(data: Json): (r: Result<Option<Json>>)
    ensures r.Success? ==> data.JObj? && "choices" in data.fields
    ensures r.Failure? ==>
      exists what: string, p: Prop :: what in {"undefined", "null"} && r.error == ReadError(what, p)
    ensures data.JObj? && "choices" in data.fields && data.fields["choices"].JArr?
      && |data.fields["choices"].elems| > 0 && data.fields["choices"].elems[0].JObj?
      && "message" in data.fields["choices"].elems[0].fields
      && data.fields["choices"].elems[0].fields["message"].JObj?
      ==> r == Success(Lookup(data.fields["choices"].elems[0].fields["message"].fields, "content"))
  {
    var choices :- Get(Some(data), Name("choices"));
    var first :- Get(choices, Index(0));
    var message :- Get(first, Name("message"));
    Get(message, Name("content"))
  }

  /** The `try` block after the call: a non-ok answer throws, then the
      body is parsed and read; anything thrown becomes the 500 response
      with the error's message as `details`. */
  function MapUpstream(u: Upstream): (r: Response)
    ensures !r.Rejected?
    ensures r.Failed? ==> r.error == GenerationFailed
    ensures u.Unreachable? ==> r == Failed(GenerationFailed, u.message)
    ensures u.Answered? && !IsOk(u.status) ==> r == Failed(GenerationFailed, UpstreamError(u.status, u.statusText))
    ensures u.Answered? && IsOk(u.status) && u.body.Failure? ==> r == Failed(GenerationFailed, u.body.error)
    ensures u.Answered? && IsOk(u.status) && u.body.Success? && Comparison(u.body.value).Failure? ==>
      r == Failed(GenerationFailed, Comparison(u.body.value).error)
    ensures r.Compared? <==>
      u.Answered? && IsOk(u.status) && u.body.Success? && Comparison(u.body.value).Success?
    ensures r.Compared? ==>
      && r.comparison == Comparison(u.body.value).value
      && u.body.value.JObj?
      && r.model == Lookup(u.body.value.fields, "model")
      && r.usage == Lookup(u.body.value.fields, "usage")
  {
    match u
    case Unreachable(m) => Failed(GenerationFailed, m)
    case Answered(status, text, body) =>
      if !IsOk(status) then Failed(GenerationFailed, UpstreamError(status, text))
      else
        match body
        case Failure(m) => Failed(GenerationFailed, m)
        case Success(data) =>
          match Comparison(data)
          case Failure(m) => Failed(GenerationFailed, m)
          case Success(c) =>
            Compared(c, Get(Some(data), Name("model")).value, Get(Some(data), Name("usage")).value)
  }

  /** Every failure of the call is a 500 with the generic error; only a
      readable answer gives a 200. */
  lemma UpstreamOutcomeStatus(u: Upstream)
    ensures Status(MapUpstream(u)) in {200, 500}
    ensures Status(MapUpstream(u)) == 500 <==> MapUpstream(u).Failed?
    ensures Status(MapUpstream(u)) == 500 ==> Body(MapUpstream(u)).fields["error"] == JStr(GenerationFailed)
  {
  }

  /** The details of a non-ok answer end with the status code and the
      status text, separated by a space. */
  lemma NonOkDetailsCarryStatus(status: int, statusText: string, body: Result<Json>)
    requires !IsOk(status)
    ensures var r := MapUpstream(Answered(status, statusText, body));
      var tail := IntToString(status) + " " + statusText;
      && r.Failed? && |tail| <= |r.details|
      && r.details[|r.details| - |tail|..] == tail
  {
    var details := UpstreamError(status, statusText);
    var tail := IntToString(status) + " " + statusText;
    assert details[|UpstreamErrorPrefix|..] == tail;
  }

  /** A well-formed answer is passed through unchanged: the comparison is
      the first choice's message content, and model and usage are the
      answer's own fields. */
  lemma WellFormedAnswerPassesThrough(status: int, statusText: string, content: Json, model: Json, usage: Json,
      rest: seq<Json>)
    requires IsOk(status)
    ensures var data := JObj(map[
        "choices" := JArr([JObj(map["message" := JObj(map["content" := content])])] + rest),
        "model" := model, "usage" := usage]);
      MapUpstream(Answered(status, statusText, Success(data))) == Compared(Some(content), Some(model), Some(usage))
  {
  }
}

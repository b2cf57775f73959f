/** Turning what the transport produced into the client's result
    (`APIClient._handle_response`, and the `RequestException` handler that
    every verb wraps around its request). */
module Response {
  import opened Wrappers
  import opened Text
  import opened Json

  const UnknownError := "Unknown error"
  const RequestFailedPrefix := "Request failed: "

  /** Whether `response.json()` decoded the body, and to what. */
  datatype Body = Decoded(value: JsonValue) | NotJson

  /** A response: its status code, its body as JSON decoding saw it, and its
      text (`response.text`). */
  datatype HttpResponse = HttpResponse(status: int, body: Body, text: string)

  /** What the transport did: answered with a response, or raised a
      `RequestException` whose rendering is `reason`. */
  datatype Outcome = Received(response: HttpResponse) | Failed(reason: string)

  /** The `error` label of an HTTP error result, `f'HTTP {status}'`. */
  function HttpLabel(status: nat): (tag: string)
    ensures |tag| > 5 && tag[..5] == "HTTP " && AllDigits(tag[5..])
  {
    "HTTP " + Decimal(status)
  }

  /** Reads a status code back out of an `error` label. */
  function ParseHttpLabel(tag: string): Option<nat>
  {
    if |tag| > 5 && tag[..5] == "HTTP " && AllDigits(tag[5..])
    then Some(DigitsValue(tag[5..]))
    else None
  }

  /** The label names its status: reading it back gives the status code. */
  lemma HttpLabelRoundTrip(status: nat)
    ensures ParseHttpLabel(HttpLabel(status)) == Some(status)
  {
    assert HttpLabel(status)[5..] == Decimal(status);
    DecimalRoundTrip(status);
  }

  /** A decoded body that comes with an error status is a JSON object: on any
      other decoded value `_handle_response`'s `json_response.get` raises. */
  predicate ErrorBodyIsObject(r: HttpResponse) {
    r.status >= 400 && r.body.Decoded? ==> r.body.value.JObject?
  }

  /** A transport outcome that `_handle_response` gives a result for. */
  predicate Handles(outcome: Outcome) {
    outcome.Received? ==> ErrorBodyIsObject(outcome.response)
  }

  /** The four cases of `_handle_response`: decoded or not, times status
      below 400 or not. */
  function HandleResponse(r: HttpResponse): (out: JsonValue)
    requires ErrorBodyIsObject(r)
    // a decoded body with a success status is handed back unchanged
    ensures r.status < 400 && r.body.Decoded? ==> out == r.body.value
    // every other case builds a new object
    ensures !(r.status < 400 && r.body.Decoded?) ==> out.JObject?
    // an undecodable success body is wrapped under `content`, verbatim
    ensures r.status < 400 && r.body.NotJson? ==>
              out.fields.Keys == {"content"} && out.fields["content"] == JString(r.text)
    // an error status always yields `error` and `message`, plus `details` exactly when the body decoded
    ensures r.status >= 400 ==>
              && out.fields.Keys == (if r.body.Decoded? then {"error", "message", "details"} else {"error", "message"})
              && out.fields["error"] == JString(HttpLabel(r.status))
    // a decoded error body is kept whole under `details`, its `message` (if any) lifted out
    ensures r.status >= 400 && r.body.Decoded? ==>
              && out.fields["details"] == r.body.value
              && out.fields["message"] == GetOrDefault(r.body.value.fields, "message", JString(UnknownError))
    // an undecodable error body's text is the message, unless the text is empty
    ensures r.status >= 400 && r.body.NotJson? ==>
              out.fields["message"] == JString(if r.text != "" then r.text else UnknownError)
  {
    match r.body
    case Decoded(value) =>
      if r.status >= 400 then
        JObject(map[
          "error" := JString(HttpLabel(r.status)),
          "message" := GetOrDefault(value.fields, "message", JString(UnknownError)),
          "details" := value])
      else
        value
    case NotJson =>
      if r.status >= 400 then
        JObject(map[
          "error" := JString(HttpLabel(r.status)),
          "message" := JString(if r.text != "" then r.text else UnknownError)])
      else
        JObject(map["content" := JString(r.text)])
  }

  /** What a verb returns for what its transport did: a transport failure
      becomes a one-key `error` object and is never raised; a response is
      normalised by `HandleResponse`. */
  function NormalizeOutcome(outcome: Outcome): (out: JsonValue)
    requires Handles(outcome)
    ensures outcome.Failed? ==>
              && out.JObject? && out.fields.Keys == {"error"}
              && out.fields["error"] == JString(RequestFailedPrefix + outcome.reason)
    ensures outcome.Received? ==> out == HandleResponse(outcome.response)
  {
    match outcome
    case Failed(reason) => JObject(map["error" := JString(RequestFailedPrefix + reason)])
    case Received(response) => HandleResponse(response)
  }

  /** An HTTP error result names its status code in `error`, readably. */
  lemma ErrorNamesStatus(r: HttpResponse)
    requires ErrorBodyIsObject(r) && r.status >= 400
    ensures var out := HandleResponse(r);
            && out.JObject? && "error" in out.fields && out.fields["error"].JString?
            && ParseHttpLabel(out.fields["error"].str) == Some(r.status)
  {
    HttpLabelRoundTrip(r.status);
  }

  /** Error results for different status codes differ. */
  lemma ErrorStatusDistinguishes(r1: HttpResponse, r2: HttpResponse)
    requires ErrorBodyIsObject(r1) && ErrorBodyIsObject(r2)
    requires r1.status >= 400 && r2.status >= 400 && r1.status != r2.status
    ensures HandleResponse(r1) != HandleResponse(r2)
  {
    ErrorNamesStatus(r1);
    ErrorNamesStatus(r2);
  }

  /** A transport failure never looks like an HTTP error: it has no `message`. */
  lemma FailureUnlikeHttpError(reason: string, r: HttpResponse)
    requires ErrorBodyIsObject(r) && r.status >= 400
    ensures NormalizeOutcome(Failed(reason)) != NormalizeOutcome(Received(r))
  {
    assert "message" in HandleResponse(r).fields;
  }

  /** The failure's reason can be read back from the result. */
  lemma FailureKeepsReason(reason1: string, reason2: string)
    requires NormalizeOutcome(Failed(reason1)) == NormalizeOutcome(Failed(reason2))
    ensures reason1 == reason2
  {
    var e1 := RequestFailedPrefix + reason1;
    var e2 := RequestFailedPrefix + reason2;
    assert e1 == e2;
    assert reason1 == e1[|RequestFailedPrefix|..];
    assert reason2 == e2[|RequestFailedPrefix|..];
  }

  /** Results are not tagged: a success body that happens to look like a
      failure result is returned as it is, and the caller cannot tell them apart. */
  lemma SuccessMayMimicFailure(reason: string)
    ensures var body := JObject(map["error" := JString(RequestFailedPrefix + reason)]);
            HandleResponse(HttpResponse(200, Decoded(body), "")) == NormalizeOutcome(Failed(reason))
  {
  }

  /** An undecodable error body with empty text reads the same as one whose
      text is `Unknown error`. */
  lemma EmptyErrorTextIsUnknown(status: int)
    requires status >= 400
    ensures HandleResponse(HttpResponse(status, NotJson, "")) ==
            HandleResponse(HttpResponse(status, NotJson, UnknownError))
  {
  }

  /** The client's test cases: a 200 and a 201 JSON body pass through, a 404
      JSON body with a `message` becomes an error result, a 200 plain-text
      body is wrapped under `content`. */
  lemma HandleResponseExamples()
    ensures var body := JObject(map["status" := JString("success"),
                                    "data" := JArray([JNumber(1), JNumber(2), JNumber(3)])]);
            HandleResponse(HttpResponse(200, Decoded(body), "")) == body
    ensures var body := JObject(map["id" := JNumber(123), "status" := JString("created")]);
            HandleResponse(HttpResponse(201, Decoded(body), "")) == body
    ensures var body := JObject(map["message" := JString("Not found")]);
            HandleResponse(HttpResponse(404, Decoded(body), "")) ==
              JObject(map["error" := JString("HTTP 404"), "message" := JString("Not found"), "details" := body])
    ensures HandleResponse(HttpResponse(200, NotJson, "Plain text response")) ==
              JObject(map["content" := JString("Plain text response")])
  {
    assert Decimal(4) == "4";
    assert Decimal(40) == "40";
    assert Decimal(404) == "404";
    assert HttpLabel(404) == "HTTP 404";
    var body := JObject(map["message" := JString("Not found")]);
    assert GetOrDefault(body.fields, "message", JString(UnknownError)) == JString("Not found");
  }
}

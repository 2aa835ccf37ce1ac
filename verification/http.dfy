/**
 * The I/O boundary. Every `fetch` is answered by a script of outcomes
 * consumed in order: the n-th fetch a handler issues receives `script[n]`,
 * and once the script is used up every further fetch throws as a failed
 * network request does. Handlers return the calls they issued, so their
 * number, order, targets and payloads can be stated.
 */
module Http {
  import opened Wrappers
  import opened JsonValue
  import opened Bytes

  /** A thrown JavaScript error: its `name` and `message`. */
  datatype JsError = JsError(name: string, message: string)

  /** What a network failure makes `fetch` throw. */
  const NetworkFailure := JsError("TypeError", "fetch failed")

  /** The message Node gives the TypeError of reading `event_id` on `null`. */
  const NullEventIdRead := "Cannot read properties of null (reading 'event_id')"

  /** The result of one `fetch`: a thrown error, or a response with its status, status text and body text. */
  datatype Outcome = Thrown(error: JsError) | Response(status: int, statusText: string, body: string)

  /** `response.ok`. */
  predicate IsOk(o: Outcome) {
    o.Response? && 200 <= o.status <= 299
  }

  datatype Verb = GET | POST | HEAD

  /** A request body: none, `JSON.stringify(json)`, or a form with one file field. */
  datatype Body = NoBody | JsonBody(json: Json) | FileForm(field: string, file: Blob, fileName: string)

  /** One issued `fetch`: method, URL, `Authorization` header (if any) and body. */
  datatype Call = Call(verb: Verb, url: string, authorization: Option<string>, body: Body)

  /** The outcome the n-th fetch receives. */
  function Answer(script: seq<Outcome>, n: nat): Outcome {
    if n < |script| then script[n] else Thrown(NetworkFailure)
  }

  /** `NextResponse.json(body, { status })`. */
  datatype Reply = Reply(status: int, body: Json)

  /** An environment variable that is set and not empty (JavaScript truthiness of a string). */
  predicate Present(v: Option<string>) {
    v.Some? && v.value != ""
  }

  function Bearer(token: string): string {
    "Bearer " + token
  }

  /**
   * Functions of the platform the model takes as given: `JSON.parse`
   * (`None` when it throws) and the message of the SyntaxError it throws,
   * `atob` (`None` when it throws), and the base64 text of a response body
   * (`Buffer.from(await r.arrayBuffer()).toString('base64')`).
   */
  datatype Platform = Platform(
    parseJson: string -> Option<Json>,
    parseErrorMessage: string -> string,
    atob: string -> Option<string>,
    base64OfBody: string -> string)

  /** How many times `c` occurs in `log`. */
  function Count(log: seq<Call>, c: Call): nat {
    if |log| == 0 then 0 else Count(log[..|log| - 1], c) + (if log[|log| - 1] == c then 1 else 0)
  }

  lemma CountAppend(log: seq<Call>, more: seq<Call>, c: Call)
    ensures Count(log + more, c) == Count(log, c) + Count(more, c)
    decreases |more|
  {
    if |more| > 0 {
      assert (log + more)[..|log + more| - 1] == log + more[..|more| - 1];
      CountAppend(log, more[..|more| - 1], c);
    } else {
      assert log + more == log;
    }
  }
}

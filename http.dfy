/** What crosses the gateway's boundaries: the reply a handler sends, the
    upstream call it prepares, the upstream's answer, and the per-user secret
    store the handlers read provider keys from. */
module Http {
  import opened Json

  /** The reply a handler sends to its caller. */
  datatype Response =
    | Status(code: nat)                          // `response.sendStatus(code)`
    | Text(code: nat, text: string)              // `response.status(code).send(text)`
    | Body(code: nat, json: Value)               // `response.json(v)`, after `status(code)` when not 200
    | Audio(contentType: string, bytes: seq<bv8>) // `setHeader('Content-Type', t)` then `send(buffer)`

  /** What the catch-all of every gateway handler sends. */
  const InternalError: Response := Text(500, "Internal server error")

  /** `response.status(code).json({ error: message })` */
  function ErrorBody(code: nat, message: string): (r: Response) {
    Body(code, Obj(map["error" := Str(message)]))
  }

  /** One outgoing HTTP request: method, URL, headers and the JSON body before
      serialization (keys whose value is `undefined` are dropped when it is
      serialized). */
  datatype Call = Call(verb: string, url: string, headers: map<string, string>, body: Value)

  /** What comes back from the upstream: nothing when `fetch` itself rejects
      (the host cannot be reached, the URL is malformed), or an answer with its
      `ok` flag, the raw text, the body parsed as JSON (None when it does not
      parse, so that `result.json()` throws), the declared content type and the
      raw bytes. */
  datatype Reply =
    | Unreachable
    | Reply(ok: bool, text: string, json: Option<Value>, contentType: Option<string>, bytes: seq<bv8>)

  /** What a handler decides before touching the network: answer with a status
      at once, fail with an exception (caught as a 500), or send one call. */
  datatype Plan = Reject(code: nat) | Fault | Send(call: Call)

  /** The secret slots the gateway reads (`SECRET_KEYS.*`). */
  datatype SecretKey =
    | OpenAI | XAI | MistralAI | CustomKey | OpenRouter | Ooba | KoboldCpp | LlamaCpp
    | Vllm | AimlApi | Groq | Cohere | Moonshot | NanoGpt | ElectronHub | CustomOpenAiTts

  /** The requesting user's secrets. */
  type SecretStore = map<SecretKey, string>

  /** `readSecret(directories, k)`: the stored string, or nothing. */
  function ReadSecret(store: SecretStore, k: SecretKey): (r: Option<string>) {
    if k in store then Some(store[k]) else None
  }

  /** `!!key` for a key that is a string or nothing. */
  predicate KeyPresent(key: Option<string>) {
    key.Some? && key.value != ""
  }

  /** `${key}`: nothing interpolates as "undefined". */
  function KeyText(key: Option<string>): (r: string) {
    if key.Some? then key.value else "undefined"
  }

  /** The headers every JSON call starts from: `Content-Type` and a bearer token. */
  function JsonHeaders(key: Option<string>): (r: map<string, string>) {
    map["Content-Type" := "application/json", "Authorization" := "Bearer " + KeyText(key)]
  }

  /** How a binary (speech) reply reaches the caller: a non-ok upstream answer
      becomes a 500 carrying the upstream text, an ok one the audio bytes under
      the given content type, and an unreachable upstream the catch-all 500. */
  function AudioResult(plan: Plan, reply: Reply, contentType: string): (r: Response) {
    match plan
    case Reject(code) => Status(code)
    case Fault => InternalError
    case Send(_) =>
      if reply.Unreachable? then InternalError
      else if !reply.ok then Text(500, reply.text) else Audio(contentType, reply.bytes)
  }

  /** How a JSON reply reaches the caller, with `extract` applied to the parsed
      body: non-ok gives a 500 with the upstream text, an unreachable upstream
      or an unparsable body the catch-all 500. */
  function JsonResult(plan: Plan, reply: Reply, extract: Value -> Value): (r: Response) {
    match plan
    case Reject(code) => Status(code)
    case Fault => InternalError
    case Send(_) =>
      if reply.Unreachable? then InternalError
      else if !reply.ok then Text(500, reply.text)
      else if reply.json.None? then InternalError
      else Body(200, extract(reply.json.value))
  }

  /** A plan that rejects never sends, so the upstream reply cannot influence
      the response. */
  lemma RejectIgnoresReply(code: nat, r1: Reply, r2: Reply, contentType: string, extract: Value -> Value)
    ensures AudioResult(Reject(code), r1, contentType) == AudioResult(Reject(code), r2, contentType) == Status(code)
    ensures JsonResult(Reject(code), r1, extract) == JsonResult(Reject(code), r2, extract) == Status(code)
  {
  }

  /** A failed upstream call surfaces as a 500 whose body is the upstream text,
      verbatim. */
  lemma UpstreamFailureVerbatim(call: Call, reply: Reply, contentType: string, extract: Value -> Value)
    requires reply.Reply? && !reply.ok
    ensures AudioResult(Send(call), reply, contentType) == Text(500, reply.text)
    ensures JsonResult(Send(call), reply, extract) == Text(500, reply.text)
  {
  }

  /** A `fetch` that rejects is caught by the handler's catch-all: the caller
      gets the 500 "Internal server error", whatever the kind of reply. */
  lemma UnreachableIsInternalError(call: Call, contentType: string, extract: Value -> Value)
    ensures AudioResult(Send(call), Unreachable, contentType) == InternalError
    ensures JsonResult(Send(call), Unreachable, extract) == InternalError
  {
  }
}

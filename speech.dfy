/** The three text-to-speech proxies: OpenAI (`POST /generate-voice`),
    ElectronHub (`POST /electronhub/generate-voice`) and an OpenAI-compatible
    endpoint of the caller's choosing (`POST /custom/generate-voice`). Each
    reads a key, builds one JSON body and relays the audio bytes. */
module Speech {
  import opened Json
  import opened Http

  const OpenAiSpeechUrl := "https://api.openai.com/v1/audio/speech"
  const ElectronHubSpeechUrl := "https://api.electronhub.ai/v1/audio/speech"

  // ---------------------------------------------------------------------------
  // OpenAI

  /** The OpenAI speech body: the text as `input`, always mp3, voice, speed and
      model defaulting to alloy, 1 and tts-1 when the caller gives none, and
      `instructions` only when the caller gives a truthy one. */
  function OpenAiSpeechBody(body: map<string, Value>): (sent: map<string, Value>) {
    var fields := map[
      "input" := Field(body, "text"),
      "response_format" := Str("mp3"),
      "voice" := Coalesce(Field(body, "voice"), Str("alloy")),
      "speed" := Coalesce(Field(body, "speed"), Num(1.0)),
      "model" := Coalesce(Field(body, "model"), Str("tts-1"))];
    if Truthy(Field(body, "instructions")) then fields["instructions" := body["instructions"]] else fields
  }

  /** `/generate-voice` before the network: 400 without an OpenAI key. */
  function OpenAiSpeechPlan(secrets: SecretStore, body: map<string, Value>): (r: Plan) {
    var key := ReadSecret(secrets, OpenAI);
    if !KeyPresent(key) then Reject(400)
    else Send(Call("POST", OpenAiSpeechUrl, JsonHeaders(key), Obj(OpenAiSpeechBody(body))))
  }

  /** `/generate-voice` after the network: the bytes are always labelled
      `audio/mpeg`. */
  function OpenAiSpeechResult(plan: Plan, reply: Reply): (r: Response) {
    AudioResult(plan, reply, "audio/mpeg")
  }

  /** What the caller chooses and what the defaults fill in: a voice, speed or
      model the caller gives (anything but null or undefined, even a falsy one)
      is used as given; the format is mp3 whatever the caller asks; the key is
      the only reason to refuse. */
  lemma OpenAiSpeechDefaults(secrets: SecretStore, body: map<string, Value>, name: string, fallback: Value)
    requires (name, fallback) in {("voice", Str("alloy")), ("speed", Num(1.0)), ("model", Str("tts-1"))}
    ensures OpenAiSpeechPlan(secrets, body).Reject? <==> !KeyPresent(ReadSecret(secrets, OpenAI))
    ensures OpenAiSpeechPlan(secrets, body).Reject? ==> OpenAiSpeechPlan(secrets, body).code == 400
    ensures OpenAiSpeechPlan(secrets, body).Send? ==>
      var call := OpenAiSpeechPlan(secrets, body).call;
      var sent := call.body.fields;
      && call.url == OpenAiSpeechUrl
      && call.headers["Authorization"] == "Bearer " + secrets[OpenAI]
      && sent.Keys - {"instructions"} == {"input", "response_format", "voice", "speed", "model"}
      && sent["input"] == Field(body, "text")
      && sent[name] == (if name in body && !Nullish(body[name]) then body[name] else fallback)
      && sent["response_format"] == Str("mp3")
      && ("instructions" in sent <==> Truthy(Field(body, "instructions")))
      && ("instructions" in sent ==> sent["instructions"] == body["instructions"])
  {
  }

  // ---------------------------------------------------------------------------
  // ElectronHub

  /** The fields the ElectronHub body always starts with. */
  const HubFixedKeys: set<string> := {"input", "voice", "speed", "temperature", "model", "response_format"}

  /** What the ElectronHub body ends up holding under `k`, before `undefined`
      entries are dropped: the six fixed fields with their defaults, and the
      caller's value for every other key. */
  function HubValue(body: map<string, Value>, k: string): (v: Value) {
    if k == "speed" then Coalesce(Field(body, k), Num(1.0))
    else if k == "temperature" then Coalesce(Field(body, k), Undefined)
    else if k == "model" then OrElse(Field(body, k), Str("tts-1"))
    else if k == "response_format" then Str("mp3")
    else Field(body, k)
  }

  /** The ElectronHub body as a whole: every fixed field and every key of the
      request, each holding its `HubValue`, except those that hold `undefined`. */
  function ElectronHubBody(body: map<string, Value>): (r: map<string, Value>) {
    map k | k in HubFixedKeys + body.Keys && HubValue(body, k) != Undefined :: HubValue(body, k)
  }

  /** The ElectronHub body, built as the handler builds it: the fixed fields
      and the optional parameters, then every other key of the request, then
      the removal of `undefined` entries. */
  method ElectronHubSpeechBody(body: map<string, Value>) returns (sent: map<string, Value>)
    ensures sent == ElectronHubBody(body)
  {
    var typed := HubTypedFields(body);
    var forwarded := ForwardOtherKeys(body, typed);
    sent := DropUndefined(forwarded);
    assert forall k :: k in sent <==> k in HubFixedKeys + body.Keys && HubValue(body, k) != Undefined;
  }

  /** A partial ElectronHub body: the fixed fields, perhaps some keys of the
      request, each holding its `HubValue`. */
  predicate HubTyped(body: map<string, Value>, sent: map<string, Value>) {
    && HubFixedKeys <= sent.Keys <= HubFixedKeys + body.Keys
    && forall k :: k in sent ==> sent[k] == HubValue(body, k)
  }

  /** The fixed fields, then the optional provider parameters that pass their
      test: the text ones when truthy, the numeric ones when they are finite
      numbers (`Number(x)` of such an `x` is `x`). */
  method HubTypedFields(body: map<string, Value>) returns (sent: map<string, Value>)
    ensures HubTyped(body, sent)
  {
    sent := HubLiteral(body);
    sent := CopyWhen(body, sent, "instructions", Truthy(Field(body, "instructions")));
    sent := CopyWhen(body, sent, "speaker_transcript", Truthy(Field(body, "speaker_transcript")));
    sent := CopyWhen(body, sent, "cfg_scale", Field(body, "cfg_scale").Num?);
    sent := CopyWhen(body, sent, "cfg_filter_top_k", Field(body, "cfg_filter_top_k").Num?);
    sent := CopyWhen(body, sent, "speech_rate", Field(body, "speech_rate").Num?);
    sent := CopyWhen(body, sent, "pitch_adjustment", Field(body, "pitch_adjustment").Num?);
    sent := CopyWhen(body, sent, "emotional_style", Truthy(Field(body, "emotional_style")));
  }

  /** The object literal the handler starts from. */
  function HubLiteral(body: map<string, Value>): (sent: map<string, Value>)
    ensures HubTyped(body, sent)
  {
    map[
      "input" := Field(body, "input"),
      "voice" := Field(body, "voice"),
      "speed" := Coalesce(Field(body, "speed"), Num(1.0)),
      "temperature" := Coalesce(Field(body, "temperature"), Undefined),
      "model" := OrElse(Field(body, "model"), Str("tts-1")),
      "response_format" := Str("mp3")]
  }

  /** `if (test) requestBody[k] = request.body[k]` for an optional parameter. */
  method CopyWhen(body: map<string, Value>, sent: map<string, Value>, k: string, test: bool)
    returns (r: map<string, Value>)
    requires HubTyped(body, sent) && k !in HubFixedKeys
    requires test ==> k in body
    ensures HubTyped(body, r)
    ensures r == if test then sent[k := body[k]] else sent
  {
    r := sent;
    if test {
      r := r[k := body[k]];
    }
  }

  /** The `for...in` loop: every key of the request that the body does not
      hold yet is copied, unless its value is `undefined`. */
  method ForwardOtherKeys(body: map<string, Value>, typed: map<string, Value>) returns (sent: map<string, Value>)
    requires HubFixedKeys <= typed.Keys
    requires forall k :: k in typed ==> typed[k] == HubValue(body, k)
    ensures forall k :: k in sent <==> k in typed || (k in body && body[k] != Undefined)
    ensures forall k :: k in sent ==> sent[k] == HubValue(body, k)
  {
    sent := typed;
    var known := typed.Keys;
    var pending := body.Keys;
    while pending != {}
      invariant pending <= body.Keys
      invariant forall k :: k in sent <==> k in known || (k in body && k !in pending && body[k] != Undefined)
      invariant forall k :: k in sent ==> sent[k] == HubValue(body, k)
      decreases pending
    {
      var k :| k in pending;
      if k !in known && body[k] != Undefined {
        sent := sent[k := body[k]];
      }
      pending := pending - {k};
    }
  }

  /** The clean-up pass: every entry holding `undefined` is deleted. */
  method DropUndefined(m: map<string, Value>) returns (r: map<string, Value>)
    ensures forall k :: k in r <==> k in m && m[k] != Undefined
    ensures forall k :: k in r ==> r[k] == m[k]
  {
    r := m;
    var rest := m.Keys;
    while rest != {}
      invariant rest <= m.Keys
      invariant forall k :: k in r <==> k in m && (k in rest || m[k] != Undefined)
      invariant forall k :: k in r ==> r[k] == m[k]
      decreases rest
    {
      var k :| k in rest;
      if r[k] == Undefined {
        r := r - {k};
      }
      rest := rest - {k};
    }
  }

  /** `/electronhub/generate-voice` before the network: 400 without an
      ElectronHub key. */
  method PrepareElectronHubSpeech(secrets: SecretStore, body: map<string, Value>) returns (plan: Plan)
    ensures plan == if KeyPresent(ReadSecret(secrets, ElectronHub))
                    then Send(Call("POST", ElectronHubSpeechUrl, JsonHeaders(ReadSecret(secrets, ElectronHub)), Obj(ElectronHubBody(body))))
                    else Reject(400)
  {
    var key := ReadSecret(secrets, ElectronHub);
    if !KeyPresent(key) {
      return Reject(400);
    }
    var sent := ElectronHubSpeechBody(body);
    plan := Send(Call("POST", ElectronHubSpeechUrl, JsonHeaders(key), Obj(sent)));
  }

  /** The content type relayed from ElectronHub: the upstream's, or
      `audio/mpeg` when it declares none (or never answered). */
  function HubContentType(reply: Reply): (t: string)
    ensures t != ""
    ensures reply.Reply? && reply.contentType.Some? && reply.contentType.value != "" ==> t == reply.contentType.value
    ensures !(reply.Reply? && reply.contentType.Some? && reply.contentType.value != "") ==> t == "audio/mpeg"
  {
    if reply.Reply? && reply.contentType.Some? && reply.contentType.value != "" then reply.contentType.value else "audio/mpeg"
  }

  function ElectronHubSpeechResult(plan: Plan, reply: Reply): (r: Response) {
    AudioResult(plan, reply, HubContentType(reply))
  }

  /** What the ElectronHub body promises: no `undefined` entry; always mp3,
      whatever the caller asks; always a truthy model; a speed that is the
      caller's unless nullish; a null temperature left out. */
  lemma ElectronHubFixedFields(body: map<string, Value>)
    ensures forall k :: k in ElectronHubBody(body) ==> ElectronHubBody(body)[k] != Undefined
    ensures ElectronHubBody(body)["response_format"] == Str("mp3")
    ensures "model" in ElectronHubBody(body) && Truthy(ElectronHubBody(body)["model"])
    ensures ElectronHubBody(body)["model"] == OrElse(Field(body, "model"), Str("tts-1"))
    ensures ElectronHubBody(body)["speed"] == Coalesce(Field(body, "speed"), Num(1.0))
    ensures "temperature" in ElectronHubBody(body) <==> !Nullish(Field(body, "temperature"))
  {
    assert "response_format" in HubFixedKeys && "model" in HubFixedKeys && "speed" in HubFixedKeys;
  }

  /** Every other key of the request is forwarded as given, unless it is
      `undefined`; in particular an optional provider parameter that fails its
      own test (an empty `instructions`, a `cfg_scale` sent as a string) still
      reaches the provider unchanged. Nothing else is added. */
  lemma ElectronHubForwardsUnknown(body: map<string, Value>, k: string)
    requires k !in HubFixedKeys
    ensures k in ElectronHubBody(body) <==> k in body && body[k] != Undefined
    ensures k in ElectronHubBody(body) ==> ElectronHubBody(body)[k] == body[k]
  {
  }

  // ---------------------------------------------------------------------------
  // A caller-chosen OpenAI-compatible endpoint

  /** The custom speech body: every field defaulted with `??`. */
  function CustomSpeechBody(body: map<string, Value>): (r: map<string, Value>) {
    map[
      "input" := Coalesce(Field(body, "input"), Str("")),
      "response_format" := Coalesce(Field(body, "response_format"), Str("mp3")),
      "voice" := Coalesce(Field(body, "voice"), Str("alloy")),
      "speed" := Coalesce(Field(body, "speed"), Num(1.0)),
      "model" := Coalesce(Field(body, "model"), Str("tts-1"))]
  }

  /** `/custom/generate-voice` before the network: 400 without an endpoint; an
      endpoint that is not a string is refused by `fetch` (a failure, caught
      as a 500); no key is needed, and a missing one is sent as an empty bearer
      token. */
  function CustomSpeechPlan(secrets: SecretStore, body: map<string, Value>): (r: Plan) {
    var key := ReadSecret(secrets, CustomOpenAiTts);
    var endpoint := Field(body, "provider_endpoint");
    if !Truthy(endpoint) then Reject(400)
    else if !endpoint.Str? then Fault
    else
      var token := if key.Some? then key.value else "";
      Send(Call("POST", endpoint.s,
                map["Content-Type" := "application/json", "Authorization" := "Bearer " + token],
                Obj(CustomSpeechBody(body))))
  }

  function CustomSpeechResult(plan: Plan, reply: Reply): (r: Response) {
    AudioResult(plan, reply, "audio/mpeg")
  }

  /** The custom endpoint is refused with 400 exactly when it is falsy,
      whatever the key, and fails when it is not a string; it is called with
      the caller's URL and never with the word "undefined" as its token; the
      body holds exactly the five fields, each the caller's unless nullish and
      its default otherwise. */
  lemma CustomSpeechContract(secrets: SecretStore, body: map<string, Value>, name: string, fallback: Value)
    requires (name, fallback) in {("input", Str("")), ("response_format", Str("mp3")), ("voice", Str("alloy")),
                                  ("speed", Num(1.0)), ("model", Str("tts-1"))}
    ensures CustomSpeechPlan(secrets, body).Reject? <==> !Truthy(Field(body, "provider_endpoint"))
    ensures CustomSpeechPlan(secrets, body).Reject? ==> CustomSpeechPlan(secrets, body).code == 400
    ensures CustomSpeechPlan(secrets, body).Fault? <==>
      Truthy(Field(body, "provider_endpoint")) && !body["provider_endpoint"].Str?
    ensures CustomSpeechPlan(secrets, body).Send? ==>
      var call := CustomSpeechPlan(secrets, body).call;
      && Str(call.url) == body["provider_endpoint"]
      && call.headers["Authorization"] == "Bearer " + (if CustomOpenAiTts in secrets then secrets[CustomOpenAiTts] else "")
      && call.body.fields.Keys == {"input", "response_format", "voice", "speed", "model"}
      && call.body.fields[name] == (if name in body && !Nullish(body[name]) then body[name] else fallback)
  {
  }
}

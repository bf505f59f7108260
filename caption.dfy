/** The multimodal captioning endpoint (`POST /caption-image`): from the
    caller's request, the user's secrets and the server configuration it builds
    exactly one upstream chat-completion call, or rejects the request before any
    call is made; it then turns the upstream answer into `{ caption }` or an
    error.

    `PrepareCaption` follows the handler statement by statement (an `if` ladder
    in which the last assignment wins). `CaptionPlan` states the same outcome
    the other way round, as a table of providers and a precedence order; the
    method is proved to agree with it, and the lemmas below state what the
    precedence order means for each kind of provider. */
module Caption {
  import opened Json
  import opened Http

  /** The fields of the caption request. An absent `reverse_proxy`,
      `proxy_password` or `server_url` is the empty string; `includeBody` and
      `includeHeaders` are the parsed `custom_include_body` /
      `custom_include_headers`; `excludeKeys` are the keys the parsed
      `custom_exclude_body` names. */
  datatype CaptionRequest = CaptionRequest(
    api: string,
    model: Value,
    prompt: Value,
    image: Value,
    reverseProxy: string,
    proxyPassword: string,
    serverUrl: string,
    includeBody: map<string, Value>,
    includeHeaders: map<string, string>,
    excludeKeys: set<string>)

  /** Server-side inputs: the configured caption system prompt ("" when unset),
      `trimV1`, the headers `setAdditionalHeaders` adds for a target URL, and the
      fixed OpenRouter / AIML API header sets. `setAdditionalHeaders` also reads
      the request (its user's settings and secrets), but a configuration
      describes one request, so within it the added headers vary only with the
      target URL; `HeaderPrecedence` and `PollinationsBlankAuthorization` hold
      for every such function, so no choice of user settings escapes them
      (`additional-headers.js` is not part of this model). */
  datatype CaptionConfig = CaptionConfig(
    systemPrompt: string,
    trimV1: string -> string,
    additionalHeaders: string -> map<string, string>,
    openRouterHeaders: map<string, string>,
    aimlApiHeaders: map<string, string>)

  const OpenRouterUrl := "https://openrouter.ai/api/v1/chat/completions"
  const OpenAiUrl := "https://api.openai.com/v1/chat/completions"
  const AimlApiUrl := "https://api.aimlapi.com/v1/chat/completions"
  const GroqUrl := "https://api.groq.com/openai/v1/chat/completions"
  const MistralUrl := "https://api.mistral.ai/v1/chat/completions"
  const CohereUrl := "https://api.cohere.ai/v2/chat"
  const XaiUrl := "https://api.x.ai/v1/chat/completions"
  const PollinationsUrl := "https://text.pollinations.ai/openai/chat/completions"
  const MoonshotUrl := "https://api.moonshot.ai/v1/chat/completions"
  const NanoGptUrl := "https://nano-gpt.com/api/v1/chat/completions"
  const ElectronHubUrl := "https://api.electronhub.ai/v1/chat/completions"

  /** Providers that may be called without a key. */
  const NoKeyTypes: set<string> := {"custom", "ooba", "koboldcpp", "vllm", "llamacpp", "pollinations"}

  /** Self-hosted runtimes addressed through `server_url`. */
  const LocalRuntimes: set<string> := {"koboldcpp", "vllm", "llamacpp", "ooba"}

  // ---------------------------------------------------------------------------
  // The provider table: the specification side.

  /** Providers whose own secret is read whatever the proxy settings. */
  const OwnSecrets: map<string, SecretKey> := map[
    "custom" := CustomKey, "openrouter" := OpenRouter, "ooba" := Ooba,
    "koboldcpp" := KoboldCpp, "llamacpp" := LlamaCpp, "vllm" := Vllm,
    "aimlapi" := AimlApi, "groq" := Groq, "cohere" := Cohere,
    "moonshot" := Moonshot, "nanogpt" := NanoGpt, "electronhub" := ElectronHub]

  /** Providers whose secret is read only when no reverse proxy is given. */
  const DirectSecrets: map<string, SecretKey> := map["openai" := OpenAI, "xai" := XAI, "mistral" := MistralAI]

  /** Providers with a fixed endpoint that no reverse proxy can replace. */
  const FixedUrls: map<string, string> := map[
    "aimlapi" := AimlApiUrl, "groq" := GroqUrl, "mistral" := MistralUrl,
    "cohere" := CohereUrl, "xai" := XaiUrl, "pollinations" := PollinationsUrl,
    "moonshot" := MoonshotUrl, "nanogpt" := NanoGptUrl, "electronhub" := ElectronHubUrl]

  /** Providers with a default endpoint that a reverse proxy replaces. */
  const ProxyableUrls: map<string, string> := map["openrouter" := OpenRouterUrl, "openai" := OpenAiUrl]

  /** The key, by precedence: a provider's own secret; else the proxy password
      when a reverse proxy and a password are both given; else, without a
      reverse proxy, the OpenAI / xAI / Mistral secret; else the empty string. */
  function CaptionKey(req: CaptionRequest, secrets: SecretStore): (r: Option<string>) {
    if req.api in OwnSecrets then ReadSecret(secrets, OwnSecrets[req.api])
    else if req.reverseProxy != "" && req.proxyPassword != "" then Some(req.proxyPassword)
    else if req.reverseProxy == "" && req.api in DirectSecrets then ReadSecret(secrets, DirectSecrets[req.api])
    else Some("")
  }

  /** The request is refused when the key is falsy, no reverse proxy is given and
      the provider needs a key. */
  predicate MissingKey(req: CaptionRequest, key: Option<string>) {
    !KeyPresent(key) && req.reverseProxy == "" && req.api !in NoKeyTypes
  }

  /** The endpoint, by precedence: a self-hosted runtime's `server_url` (through
      `trimV1`) with `/v1/chat/completions`; a fixed provider endpoint; the
      custom `server_url` with `/chat/completions`; the reverse proxy with
      `/chat/completions`; the OpenAI / OpenRouter default; else "". */
  function CaptionUrl(req: CaptionRequest, cfg: CaptionConfig): (r: string) {
    if req.api in LocalRuntimes then cfg.trimV1(req.serverUrl) + "/v1/chat/completions"
    else if req.api in FixedUrls then FixedUrls[req.api]
    else if req.api == "custom" then req.serverUrl + "/chat/completions"
    else if req.reverseProxy != "" then req.reverseProxy + "/chat/completions"
    else if req.api in ProxyableUrls then ProxyableUrls[req.api]
    else ""
  }

  /** The provider's own headers, before the additional-header policy. */
  function ProviderHeaders(req: CaptionRequest, cfg: CaptionConfig): (r: map<string, string>) {
    if req.api == "custom" then req.includeHeaders
    else if req.api == "openrouter" then cfg.openRouterHeaders
    else if req.api == "aimlapi" then cfg.aimlApiHeaders
    else if req.api == "pollinations" then map["Authorization" := ""]
    else map[]
  }

  function Turn(role: string, content: Value): (r: Value) {
    Obj(map["role" := Str(role), "content" := content])
  }

  function TextPart(prompt: Value): (r: Value) {
    Obj(map["type" := Str("text"), "text" := prompt])
  }

  function ImagePart(image: Value): (r: Value) {
    Obj(map["type" := Str("image_url"), "image_url" := Obj(map["url" := image])])
  }

  /** The single user turn carrying the prompt and the image. */
  function UserTurn(prompt: Value, image: Value): (r: Value) {
    Turn("user", Arr([TextPart(prompt), ImagePart(image)]))
  }

  /** The two turns the ooba dialect wants instead: the prompt as plain content,
      then an empty content with the image as a sibling field. */
  function OobaTextTurn(prompt: Value): (r: Value) {
    Turn("user", prompt)
  }

  function OobaImageTurn(image: Value): (r: Value) {
    Obj(map["role" := Str("user"), "content" := Arr([]), "image_url" := image])
  }

  /** The leading turn a configured system prompt contributes, demoted to the
      user role for groq. */
  function Lead(req: CaptionRequest, cfg: CaptionConfig): (r: seq<Value>) {
    if cfg.systemPrompt == "" then []
    else [Turn(if req.api == "groq" then "user" else "system", Str(cfg.systemPrompt))]
  }

  /** The message list every provider but `custom` receives. */
  function ExpectedMessages(req: CaptionRequest, cfg: CaptionConfig): (r: seq<Value>) {
    Lead(req, cfg) +
    if req.api == "ooba" then [OobaTextTurn(req.prompt), OobaImageTurn(req.image)]
    else [UserTurn(req.prompt, req.image)]
  }

  /** `excludeKeysByYaml`: the body with the named keys deleted. */
  function WithoutKeys(body: map<string, Value>, keys: set<string>): (r: map<string, Value>)
    ensures r.Keys == body.Keys - keys
    ensures forall k :: k in r ==> r[k] == body[k]
  {
    map k | k in body && k !in keys :: body[k]
  }

  /** The custom provider's body before exclusion: the base body with the
      included fields spread over it. */
  function MergedCustomBody(req: CaptionRequest): (r: map<string, Value>) {
    map["model" := req.model, "messages" := Arr([UserTurn(req.prompt, req.image)])] + req.includeBody
  }

  /** The body, or None when the system prompt cannot be inserted because an
      included `messages` field is not a list. */
  function CaptionBody(req: CaptionRequest, cfg: CaptionConfig): (r: Option<map<string, Value>>) {
    if req.api == "custom" then
      var merged := MergedCustomBody(req);
      if cfg.systemPrompt == "" then Some(WithoutKeys(merged, req.excludeKeys))
      else if merged["messages"].Arr? then
        Some(WithoutKeys(merged["messages" := Arr([Turn("system", Str(cfg.systemPrompt))] + merged["messages"].items)], req.excludeKeys))
      else None
    else
      Some(map["model" := req.model, "messages" := Arr(ExpectedMessages(req, cfg))] + CaptionParams(req))
  }

  /** The fields spread over the base body: the custom provider's included
      fields, ooba's low temperature. */
  function CaptionParams(req: CaptionRequest): (r: map<string, Value>) {
    if req.api == "custom" then req.includeBody
    else if req.api == "ooba" then map["temperature" := Num(0.1)]
    else map[]
  }

  /** A configured system prompt as a leading system turn. */
  function SystemLead(cfg: CaptionConfig): (r: seq<Value>) {
    if cfg.systemPrompt == "" then [] else [Turn("system", Str(cfg.systemPrompt))]
  }

  /** The body once the system prompt is in and the custom exclusion applied,
      before the dialect adjustments. */
  function InitialBody(req: CaptionRequest, cfg: CaptionConfig): (r: Option<map<string, Value>>) {
    if req.api == "custom" then CaptionBody(req, cfg)
    else Some(map["model" := req.model, "messages" := Arr(SystemLead(cfg) + [UserTurn(req.prompt, req.image)])] + CaptionParams(req))
  }

  /** What the handler does before the network: reject, fail, or send. */
  function CaptionPlan(req: CaptionRequest, secrets: SecretStore, cfg: CaptionConfig): (plan: Plan) {
    var key := CaptionKey(req, secrets);
    if MissingKey(req, key) then Reject(400)
    else match CaptionBody(req, cfg)
      case None => Fault
      case Some(body) =>
        var url := CaptionUrl(req, cfg);
        Send(Call("POST", url, JsonHeaders(key) + (ProviderHeaders(req, cfg) + cfg.additionalHeaders(url)), Obj(body)))
  }

  // ---------------------------------------------------------------------------
  // The handler, step by step.

  /** Key selection: the first half of the ladder, which also merges the custom
      provider's included body fields and headers and ooba's temperature. */
  method SelectKey(req: CaptionRequest, secrets: SecretStore)
    returns (key: Option<string>, headers: map<string, string>, bodyParams: map<string, Value>)
    ensures key == CaptionKey(req, secrets)
    ensures headers == (if req.api == "custom" then req.includeHeaders else map[])
    ensures bodyParams == CaptionParams(req)
  {
    key := Some("");
    headers := map[];
    bodyParams := map[];
    var proxied := req.reverseProxy != "";

    if req.api == "openai" && !proxied {
      key := ReadSecret(secrets, OpenAI);
    }
    if req.api == "xai" && !proxied {
      key := ReadSecret(secrets, XAI);
    }
    if req.api == "mistral" && !proxied {
      key := ReadSecret(secrets, MistralAI);
    }
    if proxied && req.proxyPassword != "" {
      key := Some(req.proxyPassword);
    }
    if req.api == "custom" {
      key := ReadSecret(secrets, CustomKey);
      bodyParams := bodyParams + req.includeBody;
      headers := headers + req.includeHeaders;
    }
    if req.api == "openrouter" {
      key := ReadSecret(secrets, OpenRouter);
    }
    if req.api == "ooba" {
      key := ReadSecret(secrets, Ooba);
      bodyParams := bodyParams["temperature" := Num(0.1)];
    }
    if req.api == "koboldcpp" {
      key := ReadSecret(secrets, KoboldCpp);
    }
    if req.api == "llamacpp" {
      key := ReadSecret(secrets, LlamaCpp);
    }
    if req.api == "vllm" {
      key := ReadSecret(secrets, Vllm);
    }
    if req.api == "aimlapi" {
      key := ReadSecret(secrets, AimlApi);
    }
    if req.api == "groq" {
      key := ReadSecret(secrets, Groq);
    }
    if req.api == "cohere" {
      key := ReadSecret(secrets, Cohere);
    }
    if req.api == "moonshot" {
      key := ReadSecret(secrets, Moonshot);
    }
    if req.api == "nanogpt" {
      key := ReadSecret(secrets, NanoGpt);
    }
    if req.api == "electronhub" {
      key := ReadSecret(secrets, ElectronHub);
    }
    assert map[] + req.includeBody == req.includeBody;
    assert map[] + req.includeHeaders == req.includeHeaders;
  }

  /** Lines 94-118: the base body with the extra fields spread over it, the
      system prompt put in front of the messages, and the custom exclusion. */
  method AssembleBody(req: CaptionRequest, cfg: CaptionConfig, bodyParams: map<string, Value>)
    returns (body: Option<map<string, Value>>)
    requires bodyParams == CaptionParams(req)
    ensures body == InitialBody(req, cfg)
  {
    var fields: map<string, Value> := map["model" := req.model, "messages" := Arr([UserTurn(req.prompt, req.image)])] + bodyParams;

    if cfg.systemPrompt != "" {
      var messages := Field(fields, "messages");
      if !messages.Arr? {
        return None;   // `body.messages.unshift` is not a function
      }
      var inserted := Arr([Turn("system", Str(cfg.systemPrompt))] + messages.items);
      if req.api != "custom" {
        var base := map["model" := req.model, "messages" := messages];
        assert "messages" !in bodyParams;
        UpdateBeforeSpread(base, bodyParams, "messages", inserted);
        assert base["messages" := inserted] == map["model" := req.model, "messages" := Arr(SystemLead(cfg) + [UserTurn(req.prompt, req.image)])];
      }
      fields := fields["messages" := inserted];
    } else {
      assert SystemLead(cfg) + [UserTurn(req.prompt, req.image)] == [UserTurn(req.prompt, req.image)];
    }

    if req.api == "custom" {
      fields := WithoutKeys(fields, req.excludeKeys);
    }
    body := Some(fields);
  }

  /** Lines 120-182 for the URL and the headers: each provider's branch in
      turn, the last assignment winning. */
  method ResolveEndpoint(req: CaptionRequest, cfg: CaptionConfig, headers: map<string, string>)
    returns (apiUrl: string, outHeaders: map<string, string>)
    requires headers == (if req.api == "custom" then req.includeHeaders else map[])
    ensures apiUrl == CaptionUrl(req, cfg)
    ensures outHeaders == ProviderHeaders(req, cfg)
  {
    outHeaders := headers;
    apiUrl := "";

    if req.api == "openrouter" {
      apiUrl := OpenRouterUrl;
      outHeaders := outHeaders + cfg.openRouterHeaders;
    }
    if req.api == "openai" {
      apiUrl := OpenAiUrl;
    }
    if req.reverseProxy != "" {
      apiUrl := req.reverseProxy + "/chat/completions";
    }
    if req.api == "custom" {
      apiUrl := req.serverUrl + "/chat/completions";
    }
    if req.api == "aimlapi" {
      apiUrl := AimlApiUrl;
      outHeaders := outHeaders + cfg.aimlApiHeaders;
    }
    if req.api == "groq" {
      apiUrl := GroqUrl;
    }
    if req.api == "mistral" {
      apiUrl := MistralUrl;
    }
    if req.api == "cohere" {
      apiUrl := CohereUrl;
    }
    if req.api == "xai" {
      apiUrl := XaiUrl;
    }
    if req.api == "pollinations" {
      outHeaders := map["Authorization" := ""];
      apiUrl := PollinationsUrl;
    }
    if req.api == "moonshot" {
      apiUrl := MoonshotUrl;
    }
    if req.api == "nanogpt" {
      apiUrl := NanoGptUrl;
    }
    if req.api == "electronhub" {
      apiUrl := ElectronHubUrl;
    }
    if req.api in LocalRuntimes {
      apiUrl := cfg.trimV1(req.serverUrl) + "/v1/chat/completions";
    }
    assert map[] + cfg.openRouterHeaders == cfg.openRouterHeaders;
    assert map[] + cfg.aimlApiHeaders == cfg.aimlApiHeaders;
  }

  /** The two dialect adjustments of the message list: groq's demotion of a
      leading system turn (lines 146-148) and ooba's reshape of the last turn
      (lines 184-195). */
  method AdaptMessages(req: CaptionRequest, cfg: CaptionConfig, body: map<string, Value>)
    returns (adapted: map<string, Value>)
    requires req.api != "custom" && InitialBody(req, cfg) == Some(body)
    ensures CaptionBody(req, cfg) == Some(adapted)
  {
    var params := CaptionParams(req);
    var user := UserTurn(req.prompt, req.image);
    ghost var base := map["model" := req.model, "messages" := Arr(SystemLead(cfg) + [user])];
    assert "messages" !in params && body == base + params;
    adapted := body;
    if req.api == "groq" {
      var first := Element(Field(adapted, "messages"), 0);
      if Member(first, "role") == Str("system") {
        assert cfg.systemPrompt != "";
        var items := adapted["messages"].items;
        var demoted := Arr(items[0 := Obj(first.fields["role" := Str("user")])]);
        DemotedTurn(cfg.systemPrompt);
        assert demoted.items == ExpectedMessages(req, cfg);
        UpdateBeforeSpread(base, params, "messages", demoted);
        adapted := adapted["messages" := demoted];
        assert base["messages" := demoted] == map["model" := req.model, "messages" := Arr(ExpectedMessages(req, cfg))];
      } else {
        assert cfg.systemPrompt == "";
        assert SystemLead(cfg) + [user] == ExpectedMessages(req, cfg);
      }
    } else if req.api == "ooba" {
      var messages := adapted["messages"].items;
      var imgMessage := messages[|messages| - 1];
      OobaPopped(req.prompt, req.image);
      messages := messages[..|messages| - 1];
      messages := messages + [OobaTextTurn(Member(Element(Member(imgMessage, "content"), 0), "text"))];
      messages := messages + [OobaImageTurn(Member(Member(Element(Member(imgMessage, "content"), 1), "image_url"), "url"))];
      assert messages == ExpectedMessages(req, cfg);
      UpdateBeforeSpread(base, params, "messages", Arr(messages));
      adapted := adapted["messages" := Arr(messages)];
      assert base["messages" := Arr(messages)] == map["model" := req.model, "messages" := Arr(ExpectedMessages(req, cfg))];
    } else {
      assert SystemLead(cfg) + [user] == ExpectedMessages(req, cfg);
    }
  }

  /** The whole handler up to the upstream call. The dialect adjustments of the
      message list are applied after the URL ladder rather than inside its groq
      and ooba branches: the ladder touches only the URL and the headers, so the
      outcome is the same. */
  method PrepareCaption(req: CaptionRequest, secrets: SecretStore, cfg: CaptionConfig) returns (plan: Plan)
    ensures plan == CaptionPlan(req, secrets, cfg)
  {
    var key, headers, bodyParams := SelectKey(req, secrets);

    if !KeyPresent(key) && req.reverseProxy == "" && req.api !in NoKeyTypes {
      return Reject(400);
    }

    var assembled := AssembleBody(req, cfg, bodyParams);
    if assembled.None? {
      return Fault;
    }
    var body := assembled.value;

    var apiUrl;
    apiUrl, headers := ResolveEndpoint(req, cfg, headers);

    if req.api != "custom" {
      body := AdaptMessages(req, cfg, body);
    }

    headers := headers + cfg.additionalHeaders(apiUrl);
    plan := Send(Call("POST", apiUrl, JsonHeaders(key) + headers, Obj(body)));
  }

  /** Updating a key after spreading extra fields is updating it before the
      spread, when the extra fields do not carry that key. */
  lemma UpdateBeforeSpread<V>(base: map<string, V>, extra: map<string, V>, k: string, v: V)
    requires k !in extra
    ensures (base + extra)[k := v] == base[k := v] + extra
  {
  }

  /** Setting the role of a system turn to "user" leaves a user turn with the
      same content. */
  lemma DemotedTurn(prompt: string)
    ensures Obj(Turn("system", Str(prompt)).fields["role" := Str("user")]) == Turn("user", Str(prompt))
  {
    assert Turn("system", Str(prompt)).fields["role" := Str("user")] == map["role" := Str("user"), "content" := Str(prompt)];
  }

  /** What ooba's reshaping reads back from the popped user turn. */
  lemma OobaPopped(prompt: Value, image: Value)
    ensures Member(Element(Member(UserTurn(prompt, image), "content"), 0), "text") == prompt
    ensures Member(Member(Element(Member(UserTurn(prompt, image), "content"), 1), "image_url"), "url") == image
  {
  }

  // ---------------------------------------------------------------------------
  // The upstream answer.

  /** `data?.choices?.[0]?.message?.content ?? data?.message?.content?.[0]?.text` */
  function ExtractCaption(data: Value): (r: Value) {
    Coalesce(Member(Member(Element(Member(data, "choices"), 0), "message"), "content"),
             Member(Element(Member(Member(data, "message"), "content"), 0), "text"))
  }

  /** The caller's reply: a non-ok upstream gives its text with a 500, a falsy
      caption 'No caption found', otherwise `{ caption }`. */
  function CaptionResult(plan: Plan, reply: Reply): (res: Response) {
    match plan
    case Reject(code) => Status(code)
    case Fault => InternalError
    case Send(_) =>
      if reply.Unreachable? then InternalError
      else if !reply.ok then Text(500, reply.text)
      else if reply.json.None? then InternalError
      else
        var caption := ExtractCaption(reply.json.value);
        if !Truthy(caption) then Text(500, "No caption found")
        else Body(200, Obj(map["caption" := caption]))
  }

  // ---------------------------------------------------------------------------
  // What the precedence order means.

  /** The request is refused before any call exactly when the key is missing,
      and then always with 400. */
  lemma RejectExactlyWhenKeyMissing(req: CaptionRequest, secrets: SecretStore, cfg: CaptionConfig)
    ensures CaptionPlan(req, secrets, cfg).Reject? <==> MissingKey(req, CaptionKey(req, secrets))
    ensures CaptionPlan(req, secrets, cfg).Reject? ==> CaptionPlan(req, secrets, cfg).code == 400
  {
  }

  /** A reverse proxy, or a provider that needs no key, is never refused for a
      missing key. */
  lemma NeverRejectedWithProxyOrKeylessProvider(req: CaptionRequest, secrets: SecretStore, cfg: CaptionConfig)
    requires req.reverseProxy != "" || req.api in NoKeyTypes
    ensures !CaptionPlan(req, secrets, cfg).Reject?
  {
  }

  /** With a reverse proxy, OpenAI, xAI and Mistral never use their stored
      secret: the key is the proxy password, or the empty string without one. */
  lemma ProxySkipsDirectSecret(req: CaptionRequest, secrets: SecretStore)
    requires req.api in DirectSecrets && req.reverseProxy != ""
    ensures CaptionKey(req, secrets) == Some(req.proxyPassword)
  {
  }

  /** A provider with a secret of its own always uses it, proxy or not. */
  lemma OwnSecretWins(req: CaptionRequest, secrets: SecretStore, k: SecretKey)
    requires req.api in OwnSecrets && OwnSecrets[req.api] == k
    ensures CaptionKey(req, secrets) == ReadSecret(secrets, k)
  {
  }

  /** Which endpoint a reverse proxy redirects: a fixed provider, a
      self-hosted runtime and the custom provider keep their own; any other
      provider goes to the proxy, and without a proxy an unknown provider has no
      endpoint at all. */
  lemma ProxyRedirects(req: CaptionRequest, cfg: CaptionConfig)
    ensures req.api in FixedUrls ==> CaptionUrl(req, cfg) == FixedUrls[req.api]
    ensures req.api in LocalRuntimes ==> CaptionUrl(req, cfg) == cfg.trimV1(req.serverUrl) + "/v1/chat/completions"
    ensures req.api == "custom" ==> CaptionUrl(req, cfg) == req.serverUrl + "/chat/completions"
    ensures req.api !in FixedUrls && req.api !in LocalRuntimes && req.api != "custom" && req.reverseProxy != "" ==>
              CaptionUrl(req, cfg) == req.reverseProxy + "/chat/completions"
    ensures (req.api !in FixedUrls && req.api !in LocalRuntimes && req.api !in ProxyableUrls && req.api != "custom" &&
             req.reverseProxy == "") ==> CaptionUrl(req, cfg) == ""
  {
    assert LocalRuntimes !! FixedUrls.Keys && "custom" !in LocalRuntimes && "custom" !in FixedUrls;
  }

  /** The messages of a sent body. */
  function SentMessages(plan: Plan): (r: seq<Value>) {
    if plan.Send? && plan.call.body.Obj? && "messages" in plan.call.body.fields && plan.call.body.fields["messages"].Arr?
    then plan.call.body.fields["messages"].items
    else []
  }

  /** For every provider but `custom`, the call carries exactly the expected
      message list. */
  lemma SentMessagesExpected(req: CaptionRequest, secrets: SecretStore, cfg: CaptionConfig)
    requires req.api != "custom" && CaptionPlan(req, secrets, cfg).Send?
    ensures SentMessages(CaptionPlan(req, secrets, cfg)) == ExpectedMessages(req, cfg)
  {
    assert "messages" !in CaptionParams(req);
  }

  /** The expected message list carries the prompt and the image; a
      configured system prompt comes first, as a system turn except for groq,
      which gets it as a user turn and so never sees a system turn. */
  lemma ExpectedMessagesShape(req: CaptionRequest, cfg: CaptionConfig)
    ensures var m := ExpectedMessages(req, cfg);
      && |m| == (if cfg.systemPrompt == "" then 0 else 1) + (if req.api == "ooba" then 2 else 1)
      && (cfg.systemPrompt != "" ==> m[0] == Turn(if req.api == "groq" then "user" else "system", Str(cfg.systemPrompt)))
      && (req.api == "groq" ==> forall i :: 0 <= i < |m| ==> Member(m[i], "role") != Str("system"))
      && (req.api == "ooba" ==> m[|m| - 2..] == [OobaTextTurn(req.prompt), OobaImageTurn(req.image)])
      && (req.api != "ooba" ==> m[|m| - 1] == UserTurn(req.prompt, req.image))
  {
  }

  /** ooba alone is asked for a temperature, 0.1; other built-in providers get
      only the model and the messages. */
  lemma BuiltInBodyFields(req: CaptionRequest, cfg: CaptionConfig)
    requires req.api != "custom"
    ensures CaptionBody(req, cfg).Some?
    ensures var body := CaptionBody(req, cfg).value;
      && body.Keys == (if req.api == "ooba" then {"model", "messages", "temperature"} else {"model", "messages"})
      && body["model"] == req.model
      && (req.api == "ooba" ==> body["temperature"] == Num(0.1))
  {
  }

  /** The custom provider: an included field overrides the built one, and the
      system prompt goes in front of whatever message list results; when that
      is not a list the handler fails. */
  lemma CustomBodyMerge(req: CaptionRequest, cfg: CaptionConfig)
    requires req.api == "custom"
    ensures forall k :: k in req.includeBody ==> MergedCustomBody(req)[k] == req.includeBody[k]
    ensures forall k :: k in MergedCustomBody(req) && k !in req.includeBody ==> k == "model" || k == "messages"
    ensures CaptionBody(req, cfg).None? <==>
              cfg.systemPrompt != "" && "messages" in req.includeBody && !req.includeBody["messages"].Arr?
    ensures CaptionBody(req, cfg).Some? ==>
              var body := CaptionBody(req, cfg).value;
              && body.Keys == MergedCustomBody(req).Keys - req.excludeKeys
              && forall k :: k in body && (k != "messages" || cfg.systemPrompt == "") ==> body[k] == MergedCustomBody(req)[k]
    ensures cfg.systemPrompt != "" && "messages" !in req.excludeKeys && CaptionBody(req, cfg).Some? ==>
              CaptionBody(req, cfg).value["messages"]
                == Arr([Turn("system", Str(cfg.systemPrompt))] + MergedCustomBody(req)["messages"].items)
  {
  }

  /** The headers sent: the additional headers for the target URL win over the
      provider's own, which win over `Content-Type` and the bearer token. */
  lemma HeaderPrecedence(req: CaptionRequest, secrets: SecretStore, cfg: CaptionConfig, name: string)
    requires CaptionPlan(req, secrets, cfg).Send?
    ensures var call := CaptionPlan(req, secrets, cfg).call;
      var extra := cfg.additionalHeaders(call.url);
      var own := ProviderHeaders(req, cfg);
      var base := JsonHeaders(CaptionKey(req, secrets));
      && (name in extra ==> name in call.headers && call.headers[name] == extra[name])
      && (name !in extra && name in own ==> name in call.headers && call.headers[name] == own[name])
      && (name !in extra && name !in own && name in base ==> name in call.headers && call.headers[name] == base[name])
      && (name in call.headers <==> name in extra || name in own || name in base)
  {
  }

  /** pollinations is sent an empty `Authorization` unless the additional
      headers override it: its own key slot does not exist. */
  lemma PollinationsBlankAuthorization(req: CaptionRequest, secrets: SecretStore, cfg: CaptionConfig)
    requires req.api == "pollinations" && CaptionPlan(req, secrets, cfg).Send?
    requires "Authorization" !in cfg.additionalHeaders(PollinationsUrl)
    ensures CaptionPlan(req, secrets, cfg).call.url == PollinationsUrl
    ensures CaptionPlan(req, secrets, cfg).call.headers["Authorization"] == ""
  {
  }

  /** The OpenAI-style answer gives the first choice's content; the
      Cohere-style answer, with no choices, the first text part. */
  lemma ExtractCaptionShapes(content: Value, text: Value)
    ensures !Nullish(content) ==>
      ExtractCaption(Obj(map["choices" := Arr([Obj(map["message" := Obj(map["content" := content])])])])) == content
    ensures ExtractCaption(Obj(map["message" := Obj(map["content" := Arr([Obj(map["text" := text])])])])) == text
    ensures !Nullish(content) ==>
      ExtractCaption(Obj(map["choices" := Obj(map["0" := Obj(map["message" := Obj(map["content" := content])])])])) == content
  {
    assert IndexKey(0) == "0";
  }

  /** The caller gets `{ caption }` exactly when the call went out, succeeded,
      parsed, and yielded a truthy caption; every other outcome is an error
      status. */
  lemma CaptionResultCases(plan: Plan, reply: Reply)
    ensures CaptionResult(plan, reply).Body? <==>
      plan.Send? && reply.Reply? && reply.ok && reply.json.Some? && Truthy(ExtractCaption(reply.json.value))
    ensures CaptionResult(plan, reply).Body? ==>
      CaptionResult(plan, reply) == Body(200, Obj(map["caption" := ExtractCaption(reply.json.value)]))
    ensures plan.Send? && reply.Reply? && !reply.ok ==> CaptionResult(plan, reply) == Text(500, reply.text)
    ensures plan.Send? && reply.Unreachable? ==> CaptionResult(plan, reply) == InternalError
    ensures plan.Send? && reply.Reply? && reply.ok && reply.json.None? ==> CaptionResult(plan, reply) == InternalError
    ensures plan.Send? && reply.Reply? && reply.ok && reply.json.Some? && !Truthy(ExtractCaption(reply.json.value)) ==>
      CaptionResult(plan, reply) == Text(500, "No caption found")
    ensures plan.Reject? ==> CaptionResult(plan, reply) == Status(plan.code)
  {
  }
}

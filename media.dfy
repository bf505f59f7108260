/** The remaining OpenAI-family proxies: audio transcription
    (`POST /transcribe-audio`), image generation (`POST /generate-image`) and
    the ElectronHub model list (`POST /electronhub/models`). Each refuses the
    request before any call when its key, or its upload, is missing. */
module Media {
  import opened Json
  import opened Http

  const TranscriptionUrl := "https://api.openai.com/v1/audio/transcriptions"
  const ImageUrl := "https://api.openai.com/v1/images/generations"
  const ElectronHubModelsUrl := "https://api.electronhub.ai/v1/models"

  // ---------------------------------------------------------------------------
  // Transcription

  /** The multipart form sent for a transcription, as named fields: the
      uploaded file (named `audio.wav`, typed `audio/wav`), the model, and the
      language only when the caller gives a truthy one. */
  function TranscriptionForm(upload: string, body: map<string, Value>): (form: map<string, Value>) {
    var fields := map[
      "file" := Obj(map["path" := Str(upload), "filename" := Str("audio.wav"), "contentType" := Str("audio/wav")]),
      "model" := Field(body, "model")];
    if Truthy(Field(body, "language")) then fields["language" := body["language"]] else fields
  }

  /** `/transcribe-audio` before the network: 400 without an OpenAI key, then
      400 without an uploaded file (`upload` is its temporary path). */
  function TranscriptionPlan(secrets: SecretStore, upload: Option<string>, body: map<string, Value>): (plan: Plan)
    ensures plan.Reject? <==> !KeyPresent(ReadSecret(secrets, OpenAI)) || upload.None?
    ensures plan.Reject? ==> plan.code == 400
    ensures plan.Send? ==> plan.call.url == TranscriptionUrl && "Authorization" in plan.call.headers &&
                           plan.call.headers["Authorization"] == "Bearer " + secrets[OpenAI]
  {
    var key := ReadSecret(secrets, OpenAI);
    if !KeyPresent(key) then Reject(400)
    else if upload.None? then Reject(400)
    else Send(Call("POST", TranscriptionUrl, map["Authorization" := "Bearer " + key.value],
                   Obj(TranscriptionForm(upload.value, body))))
  }

  /** `/transcribe-audio` after the network: the caller's reply, and the
      temporary upload that is deleted, if any. The upload is deleted only once
      the upstream answered ok, before its body is parsed; a refused request or
      a failed call leaves it in place. */
  function TranscriptionResult(plan: Plan, upload: Option<string>, reply: Reply): (r: (Response, Option<string>)) {
    var removed := if plan.Send? && reply.Reply? && reply.ok then upload else None;
    (JsonResult(plan, reply, v => v), removed)
  }

  /** The upload is removed exactly when the call was made and succeeded; the
      transcription is relayed verbatim. */
  lemma TranscriptionCleanup(secrets: SecretStore, upload: Option<string>, body: map<string, Value>, reply: Reply)
    ensures var plan := TranscriptionPlan(secrets, upload, body);
      var (res, removed) := TranscriptionResult(plan, upload, reply);
      && (removed.Some? <==> plan.Send? && reply.Reply? && reply.ok)
      && (removed.Some? ==> removed == upload)
      && (plan.Send? && reply.Reply? && reply.ok && reply.json.Some? ==> res == Body(200, reply.json.value))
      && (plan.Send? && reply.Unreachable? ==> res == InternalError)
  {
  }

  /** The language travels only when truthy; the model always travels, as
      given. */
  lemma TranscriptionFormFields(upload: string, body: map<string, Value>)
    ensures "language" in TranscriptionForm(upload, body) <==> Truthy(Field(body, "language"))
    ensures TranscriptionForm(upload, body)["model"] == Field(body, "model")
    ensures TranscriptionForm(upload, body)["file"].fields["path"] == Str(upload)
  {
  }

  // ---------------------------------------------------------------------------
  // Image generation

  /** `/generate-image` before the network: 400 without an OpenAI key;
      otherwise the caller's body is forwarded untouched. */
  function ImagePlan(secrets: SecretStore, body: Value): (plan: Plan)
    ensures plan.Reject? <==> !KeyPresent(ReadSecret(secrets, OpenAI))
    ensures plan.Reject? ==> plan.code == 400
    ensures plan.Send? ==> plan.call == Call("POST", ImageUrl, JsonHeaders(ReadSecret(secrets, OpenAI)), body)
  {
    var key := ReadSecret(secrets, OpenAI);
    if !KeyPresent(key) then Reject(400)
    else Send(Call("POST", ImageUrl, JsonHeaders(key), body))
  }

  function ImageResult(plan: Plan, reply: Reply): (res: Response) {
    JsonResult(plan, reply, v => v)
  }

  // ---------------------------------------------------------------------------
  // ElectronHub model list

  /** `/electronhub/models` before the network: 400 without an ElectronHub
      key; the GET carries only the bearer token. */
  function ModelListPlan(secrets: SecretStore): (plan: Plan)
    ensures plan.Reject? <==> !KeyPresent(ReadSecret(secrets, ElectronHub))
    ensures plan.Reject? ==> plan.code == 400
    ensures plan.Send? ==> plan.call.verb == "GET" && plan.call.url == ElectronHubModelsUrl &&
                           plan.call.headers.Keys == {"Authorization"} &&
                           plan.call.headers["Authorization"] == "Bearer " + secrets[ElectronHub]
  {
    var key := ReadSecret(secrets, ElectronHub);
    if !KeyPresent(key) then Reject(400)
    else Send(Call("GET", ElectronHubModelsUrl, map["Authorization" := "Bearer " + key.value], Undefined))
  }

  /** `data && Array.isArray(data['data']) ? data['data'] : []` */
  function ModelsFrom(data: Value): (models: Value)
    ensures models.Arr?
    ensures Member(data, "data").Arr? ==> models == Member(data, "data")
    ensures !Member(data, "data").Arr? ==> models == Arr([])
  {
    if Truthy(data) && Member(data, "data").Arr? then Member(data, "data") else Arr([])
  }

  function ModelListResult(plan: Plan, reply: Reply): (res: Response) {
    JsonResult(plan, reply, ModelsFrom)
  }

  /** The caller always gets a list on success: the upstream's `data` list
      when there is one, an empty list otherwise. */
  lemma ModelListAlwaysList(secrets: SecretStore, reply: Reply)
    requires KeyPresent(ReadSecret(secrets, ElectronHub)) && reply.Reply? && reply.ok && reply.json.Some?
    ensures ModelListResult(ModelListPlan(secrets), reply).Body?
    ensures ModelListResult(ModelListPlan(secrets), reply).json.Arr?
  {
  }
}

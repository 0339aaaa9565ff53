/**
 The deterministic rules of the SiliconFlow image request: where the request
 goes and with which credential, what the JSON body holds, and how a
 response (or a thrown exception) settles the job into its terminal state.
 The network call, the upload service and `getBearerToken` stay outside:
 their results are inputs.
 */
module SdRequest {
  import opened JsValue
  import opened SdSchema

  datatype Status = Running | Success | Error

  /** A draw job. `imgData` and `error` are `Undefined` until set. */
  datatype Job = Job(id: string, model: string, params: ParamSet, status: Status,
                     imgData: Value, error: Value)

  /** What a caller hands to `sendTask`: the model id and a parameter snapshot. */
  datatype Draft = Draft(model: string, params: ParamSet)

  /** The constants `SILICONFLOW_BASE_URL`, `ApiPath.SiliconFlow` and
      `SiliconFlow.ImagePath`, whose definitions are not part of this model. */
  datatype Constants = Constants(siliconflowBaseUrl: string, apiPath: string, imagePath: string)

  /** What the access store and the client config report. The two tokens are
      `getBearerToken(siliconflowApiKey)` and
      `getBearerToken(ACCESS_CODE_PREFIX + accessCode)`. */
  datatype AccessConfig = AccessConfig(
    useCustomConfig: bool,
    siliconflowUrl: string,
    customKeyToken: string,
    accessControlEnabled: bool,
    accessCodeToken: string,
    isApp: bool)

  /** The POST request: target URL, headers, and the JSON body as an object. */
  datatype Request = Request(url: string, headers: map<string, string>, body: Dict)

  predicate StartsWith(s: string, p: string) {
    |p| <= |s| && s[..|p|] == p
  }

  predicate EndsWith(s: string, p: string) {
    |p| <= |s| && s[|s| - |p|..] == p
  }

  /** The base URL before normalisation. */
  function RawBase(cfg: AccessConfig, k: Constants): string {
    if cfg.useCustomConfig then
      (if cfg.siliconflowUrl != "" then cfg.siliconflowUrl else k.siliconflowBaseUrl)
    else if cfg.isApp then k.siliconflowBaseUrl
    else k.apiPath
  }

  /** The credential: a custom-config key first; the access-code token only
      when there is no token yet and access control is enabled. */
  function ResolvedBearer(cfg: AccessConfig): string {
    if cfg.useCustomConfig && cfg.customKeyToken != "" then cfg.customKeyToken
    else if cfg.accessControlEnabled then cfg.accessCodeToken
    else ""
  }

  predicate HasScheme(raw: string, apiPath: string) {
    StartsWith(raw, "http") || StartsWith(raw, apiPath)
  }

  /** `base` is `raw`, prefixed with "https://" unless it starts with "http"
      or the internal path, with one trailing slash removed if there is one. */
  predicate NormalisedBase(raw: string, apiPath: string, base: string) {
    var prefixed := if HasScheme(raw, apiPath) then raw else "https://" + raw;
    if EndsWith(prefixed, "/") then base + "/" == prefixed else base == prefixed
  }

  /** Step-by-step resolution of `baseUrl` and `bearerToken`. */
  method ResolveEndpoint(cfg: AccessConfig, k: Constants) returns (baseUrl: string, bearerToken: string)
    ensures NormalisedBase(RawBase(cfg, k), k.apiPath, baseUrl)
    ensures bearerToken == ResolvedBearer(cfg)
  {
    baseUrl := "";
    bearerToken := "";
    if cfg.useCustomConfig {
      baseUrl := if cfg.siliconflowUrl != "" then cfg.siliconflowUrl else k.siliconflowBaseUrl;
      bearerToken := cfg.customKeyToken;
    } else {
      baseUrl := if cfg.isApp then k.siliconflowBaseUrl else k.apiPath;
    }
    if bearerToken == "" && cfg.accessControlEnabled {
      bearerToken := cfg.accessCodeToken;
    }
    if !StartsWith(baseUrl, "http") && !StartsWith(baseUrl, k.apiPath) {
      baseUrl := "https://" + baseUrl;
    }
    if EndsWith(baseUrl, "/") {
      baseUrl := baseUrl[..|baseUrl| - 1];
    }
  }

  /** Normalisation is a function of the raw base: at most one result. */
  lemma NormalisedBaseUnique(raw: string, apiPath: string, b1: string, b2: string)
    requires NormalisedBase(raw, apiPath, b1) && NormalisedBase(raw, apiPath, b2)
    ensures b1 == b2
  {
    var prefixed := if HasScheme(raw, apiPath) then raw else "https://" + raw;
    if EndsWith(prefixed, "/") {
      assert b1 == (b1 + "/")[..|b1|] == prefixed[..|prefixed| - 1];
      assert b2 == (b2 + "/")[..|b2|] == prefixed[..|prefixed| - 1];
    }
  }

  /** Only one slash goes: a base ending in "//" keeps one, whether or not
      it was given the "https://" prefix. */
  lemma NormalisedBaseStripsOneSlash(raw: string, apiPath: string, base: string)
    requires EndsWith(raw, "//")
    requires NormalisedBase(raw, apiPath, base)
    ensures EndsWith(base, "/")
    ensures HasScheme(raw, apiPath) ==> base + "/" == raw
    ensures !HasScheme(raw, apiPath) ==> base + "/" == "https://" + raw
  {
    var prefixed := if HasScheme(raw, apiPath) then raw else "https://" + raw;
    assert prefixed[|prefixed| - 2..] == raw[|raw| - 2..];
    assert prefixed[|prefixed| - 1..] == "/" by {
      assert prefixed[|prefixed| - 1] == prefixed[|prefixed| - 2..][1];
    }
    assert base == (base + "/")[..|base|] == prefixed[..|prefixed| - 1];
    assert base[|base| - 1..] == "/" by {
      assert base[|base| - 1] == prefixed[|prefixed| - 2] == prefixed[|prefixed| - 2..][0];
    }
  }

  /** A schemeless base gets the "https://" prefix. */
  lemma NormalisedBaseAddsHttps(raw: string, apiPath: string, base: string)
    requires !HasScheme(raw, apiPath) && raw != "" && !EndsWith(raw, "/")
    requires NormalisedBase(raw, apiPath, base)
    ensures base == "https://" + raw
  {
    var prefixed := "https://" + raw;
    assert prefixed[|prefixed| - 1..] == raw[|raw| - 1..];
  }

  /** The headers: JSON content type and accept, `Authorization` exactly
      when a credential was resolved. */
  predicate IsHeaders(bearer: string, h: map<string, string>) {
    && h.Keys == {"Content-Type", "Accept"} + (if bearer != "" then {"Authorization"} else {})
    && h["Content-Type"] == "application/json"
    && h["Accept"] == "application/json"
    && (bearer != "" ==> h["Authorization"] == bearer)
  }

  method BuildHeaders(bearerToken: string) returns (headers: map<string, string>)
    ensures IsHeaders(bearerToken, headers)
  {
    headers := map["Content-Type" := "application/json", "Accept" := "application/json"];
    if bearerToken != "" {
      headers := headers["Authorization" := bearerToken];
    }
  }

  function BodyKeys(): set<string> {
    {"model", "prompt", "image_size", "batch_size",
     "negative_prompt", "seed", "num_inference_steps", "guidance_scale"}
  }

  /** The request body for a job: four fields always, the four optional ones
      each by its own rule (truthy; truthy and positive; truthy; not undefined). */
  predicate IsRequestBody(job: Job, body: Dict) {
    var p := job.params;
    && body.Keys <= BodyKeys()
    && "model" in body && body["model"] == Str(job.model)
    && "prompt" in body && body["prompt"] == Get(p, "prompt")
    && "image_size" in body
    && body["image_size"] == (if Truthy(Get(p, "image_size")) then Get(p, "image_size") else Str("1024x1024"))
    && "batch_size" in body && body["batch_size"] == Num(1.0)
    && ("negative_prompt" in body <==> Truthy(Get(p, "negative_prompt")))
    && ("negative_prompt" in body ==> body["negative_prompt"] == Get(p, "negative_prompt"))
    && ("seed" in body <==> Truthy(Get(p, "seed")) && Positive(Get(p, "seed")))
    && ("seed" in body ==> body["seed"] == Get(p, "seed"))
    && ("num_inference_steps" in body <==> Truthy(Get(p, "num_inference_steps")))
    && ("num_inference_steps" in body ==> body["num_inference_steps"] == Get(p, "num_inference_steps"))
    && ("guidance_scale" in body <==> !Get(p, "guidance_scale").Undefined?)
    && ("guidance_scale" in body ==> body["guidance_scale"] == Get(p, "guidance_scale"))
  }

  /** Step-by-step construction of `requestBody`. */
  method BuildBody(job: Job) returns (body: Dict)
    ensures IsRequestBody(job, body)
  {
    var p := job.params;
    body := map["model" := Str(job.model),
                "prompt" := Get(p, "prompt"),
                "image_size" := Or(Get(p, "image_size"), Str("1024x1024")),
                "batch_size" := Num(1.0)];
    if Truthy(Get(p, "negative_prompt")) {
      body := body["negative_prompt" := Get(p, "negative_prompt")];
    }
    if Truthy(Get(p, "seed")) && Positive(Get(p, "seed")) {
      body := body["seed" := Get(p, "seed")];
    }
    if Truthy(Get(p, "num_inference_steps")) {
      body := body["num_inference_steps" := Get(p, "num_inference_steps")];
    }
    if !Get(p, "guidance_scale").Undefined? {
      body := body["guidance_scale" := Get(p, "guidance_scale")];
    }
  }

  /** The body rule leaves no freedom: one body per job. */
  lemma RequestBodyUnique(job: Job, b1: Dict, b2: Dict)
    requires IsRequestBody(job, b1) && IsRequestBody(job, b2)
    ensures b1 == b2
  {
    assert b1.Keys == b2.Keys;
  }

  /** Parameters holding only a prompt and an image size, whatever their
      values: the four fixed fields, no optional one. */
  lemma BodyWithoutOptionalFields(job: Job, body: Dict, p: Value, s: Value)
    requires job.params == map["prompt" := p, "image_size" := s]
    requires IsRequestBody(job, body)
    ensures body == map["model" := Str(job.model), "prompt" := p,
                        "image_size" := Or(s, Str("1024x1024")), "batch_size" := Num(1.0)]
  {
    assert body.Keys == {"model", "prompt", "image_size", "batch_size"};
  }

  /** A zero seed is left out, a zero guidance scale is sent, and an empty
      image size falls back to "1024x1024". */
  lemma BodyZeroSeedAndGuidance(job: Job, body: Dict)
    requires Get(job.params, "seed") == Num(0.0) && Get(job.params, "guidance_scale") == Num(0.0)
    requires Get(job.params, "image_size") == Str("")
    requires IsRequestBody(job, body)
    ensures "seed" !in body
    ensures "guidance_scale" in body && body["guidance_scale"] == Num(0.0)
    ensures body["image_size"] == Str("1024x1024")
  {
  }

  /** The whole request: URL `<base>/<imagePath>` with the normalised base,
      the headers for the resolved credential, and the job's body. */
  predicate IsRequest(job: Job, cfg: AccessConfig, k: Constants, req: Request) {
    var suffix := "/" + k.imagePath;
    && EndsWith(req.url, suffix)
    && NormalisedBase(RawBase(cfg, k), k.apiPath, req.url[..|req.url| - |suffix|])
    && IsHeaders(ResolvedBearer(cfg), req.headers)
    && IsRequestBody(job, req.body)
  }

  /** The synchronous part of `siliconFlowRequestCall`, up to `fetch`. */
  method BuildRequest(job: Job, cfg: AccessConfig, k: Constants) returns (req: Request)
    ensures IsRequest(job, cfg, k, req)
  {
    var baseUrl, bearerToken := ResolveEndpoint(cfg, k);
    var headers := BuildHeaders(bearerToken);
    var url := baseUrl + "/" + k.imagePath;
    var body := BuildBody(job);
    req := Request(url, headers, body);
    assert url[..|url| - |"/" + k.imagePath|] == baseUrl;
    assert url[|url| - |"/" + k.imagePath|..] == "/" + k.imagePath;
  }

  /** One entry of the response's `images`. */
  datatype Image = Image(url: Value, b64Json: Value)

  /** The parsed response body; `images` is `None` when the key is absent. */
  datatype ResponseBody = ResponseBody(error: Value, message: Value, images: Option<seq<Image>>)

  /** What `uploadImage` settles to: the asset reference, or the rejection
      as `JSON.stringify` renders it. */
  datatype UploadResult = Uploaded(asset: Value) | UploadRejected(serialized: Value)

  /** How the request ended: a parsed response (with the upload result the
      upload service would give, consulted only on the inline-data path), or
      an exception from `fetch` or `response.json()`. */
  datatype Outcome =
    | Responded(ok: bool, body: ResponseBody, upload: UploadResult)
    | Threw(message: Value)

  /** `!response.ok || resData.error` does not hold. */
  predicate Accepted(o: Outcome) {
    o.Responded? && o.ok && !Truthy(o.body.error)
  }

  function FirstImage(b: ResponseBody): Option<Image> {
    if b.images.Some? && |b.images.value| > 0 then Some(b.images.value[0]) else None
  }

  /** The first image carries no URL but inline data, so the upload decides. */
  predicate UsesUpload(o: Outcome) {
    Accepted(o) && FirstImage(o.body).Some?
    && !Truthy(FirstImage(o.body).value.url) && Truthy(FirstImage(o.body).value.b64Json)
  }

  /** The job record `updateDraw` receives when the request ends. */
  function Settle(job: Job, o: Outcome): (r: Job)
    ensures r.id == job.id && r.model == job.model && r.params == job.params
    ensures r.status == Success || r.status == Error
    ensures r.status == Success <==>
              Accepted(o) && FirstImage(o.body).Some?
              && (Truthy(FirstImage(o.body).value.url) || (UsesUpload(o) && o.upload.Uploaded?))
    ensures (r.status == Success && Truthy(FirstImage(o.body).value.url))
              ==> r.imgData == FirstImage(o.body).value.url && r.error == job.error
    ensures (r.status == Success && UsesUpload(o)) ==> r.imgData == o.upload.asset && r.error == job.error
    ensures r.status == Error ==> r.imgData == job.imgData
    ensures (r.status == Error && o.Responded? && !UsesUpload(o)) ==> Truthy(r.error)
    ensures (o.Responded? && !Accepted(o))
              ==> r.error == Or(Or(o.body.message, o.body.error), Str("Request failed"))
    ensures (UsesUpload(o) && o.upload.UploadRejected?) ==> r.error == o.upload.serialized
    ensures o.Threw? ==> r.status == Error && r.error == o.message
  {
    match o
    case Threw(message) => job.(status := Error, error := message)
    case Responded(ok, body, upload) =>
      if !ok || Truthy(body.error) then
        job.(status := Error, error := Or(Or(body.message, body.error), Str("Request failed")))
      else if body.images.Some? && |body.images.value| > 0 then
        var imageData := body.images.value[0];
        if Truthy(imageData.url) then
          job.(status := Success, imgData := imageData.url)
        else if Truthy(imageData.b64Json) then
          match upload
          case Uploaded(asset) => job.(status := Success, imgData := asset)
          case UploadRejected(serialized) => job.(status := Error, error := serialized)
        else
          job.(status := Error, error := Str("No image data in response"))
      else
        job.(status := Error, error := Str("No images in response"))
  }

  /** A response without `images`, or with an empty list, is an error
      naming the missing images; a first image with neither a URL nor
      inline data is an error naming the missing data. */
  lemma SettleMissingImages(job: Job, o: Outcome)
    requires Accepted(o)
    ensures FirstImage(o.body).None? ==> Settle(job, o).error == Str("No images in response")
    ensures (FirstImage(o.body).Some? && !Truthy(FirstImage(o.body).value.url)
             && !Truthy(FirstImage(o.body).value.b64Json))
              ==> Settle(job, o).error == Str("No image data in response")
  {
  }

  /** A response with a URL succeeds with that URL; inline data whose upload
      fails ends with the serialised failure; an HTTP error with an `error`
      field carries that field. */
  lemma SettleScenarios(job: Job, u: UploadResult, failure: Value)
    ensures var o := Responded(true, ResponseBody(Undefined, Undefined, Some([Image(Str("http://x/y.png"), Undefined)])), u);
            Settle(job, o).status == Success && Settle(job, o).imgData == Str("http://x/y.png")
    ensures var o := Responded(true, ResponseBody(Undefined, Undefined, Some([Image(Undefined, Str("aGk="))])),
                               UploadRejected(failure));
            Settle(job, o).status == Error && Settle(job, o).error == failure
    ensures var o := Responded(false, ResponseBody(Str("bad request"), Undefined, None), u);
            Settle(job, o).status == Error && Settle(job, o).error == Str("bad request")
  {
  }
}

/** The request router of src/worker.js and its model catalogue. */
module Worker {
  import opened Wrappers
  import Session

  datatype ModelKind = TextModel | VisionModel

  /** One catalogue entry: `id`, display `name` and `type`. */
  datatype ModelInfo = ModelInfo(id: string, name: string, kind: ModelKind)

  const Models: seq<ModelInfo> := [
    ModelInfo("deepseek-v3.1:671b-cloud", "DeepSeek V3.1 (671B)", TextModel),
    ModelInfo("gpt-oss:120b-cloud", "GPT-OSS (120B)", TextModel),
    ModelInfo("qwen3-vl:235b-instruct-cloud", "Qwen3 VL Instruct (235B)", VisionModel),
    ModelInfo("qwen3-vl:235b-cloud", "Qwen3 VL (235B)", VisionModel),
    ModelInfo("qwen3-coder:480b-cloud", "Qwen3 Coder (480B)", TextModel),
    ModelInfo("glm-4.6:cloud", "GLM 4.6", TextModel),
    ModelInfo("minimax-m2:cloud", "MiniMax M2", TextModel),
    ModelInfo("gemini-3-pro-preview:latest", "Gemini 3 Pro Preview", VisionModel),
    ModelInfo("kimi-k2-thinking:cloud", "Kimi K2 Thinking", TextModel),
    ModelInfo("cogito-2.1:671b-cloud", "Cogito 2.1 (671B)", TextModel),
    ModelInfo("kimi-k2:1t-cloud", "Kimi K2 (1T)", TextModel)
  ]

  const IconUrl: string := "https://raw.githubusercontent.com/whobcode/logos/main/logohead.png"
  const JsonType: string := "application/json"
  const HtmlType: string := "text/html;charset=UTF-8"
  const ScriptType: string := "application/javascript;charset=UTF-8"
  const ManifestType: string := "application/json;charset=UTF-8"

  /** The embedded assets, whose text is not modelled. */
  datatype Asset = Html | AppJs | Manifest | ServiceWorker

  /** What the worker answers with. */
  datatype Response =
    | ModelList(models: seq<ModelInfo>, contentType: string)
    | HealthReport(status: string, modelCount: nat, contentType: string)
    | ToSession(sessionName: string)
    | StaticAsset(asset: Asset, contentType: string)
    | Proxied(url: string)
    | NotFound(code: nat, body: string)

  /** Every pathname the worker serves. */
  const ServedPaths: set<string> := {
    "/api/models", "/health", "/ws", "/", "/index.html", "/app.js",
    "/manifest.json", "/sw.js", "/favicon.ico", "/icon-192.png", "/icon-512.png"
  }

  /** The default-export `fetch`: exact pathname comparisons, first match
      wins. `sessionParam` is `url.searchParams.get('session')`, `freshId`
      the value `crypto.randomUUID()` would give. */
  function Route(pathname: string, sessionParam: Option<string>, freshId: string): (r: Response)
    ensures r.NotFound? <==> pathname !in ServedPaths
    ensures r.NotFound? ==> r == NotFound(404, "Not Found")
    ensures r.ToSession? <==> pathname == "/ws"
    ensures r.ToSession? ==> r.sessionName == if Truthy(sessionParam) then sessionParam.value else freshId
    ensures r.ModelList? <==> pathname == "/api/models"
    ensures r.ModelList? ==> r.models == Models && r.contentType == JsonType
    ensures r.HealthReport? <==> pathname == "/health"
    ensures r.HealthReport? ==>r.status == "ok" && r.modelCount == |Models| && r.contentType == JsonType
    ensures r.Proxied? <==> pathname in {"/favicon.ico", "/icon-192.png", "/icon-512.png"}
    ensures r.Proxied? ==> r.url == IconUrl
    ensures r == StaticAsset(Html, HtmlType) <==> pathname == "/" || pathname == "/index.html"
    ensures r == StaticAsset(AppJs, ScriptType) <==> pathname == "/app.js"
    ensures r == StaticAsset(Manifest, ManifestType) <==> pathname == "/manifest.json"
    ensures r == StaticAsset(ServiceWorker, ScriptType) <==> pathname == "/sw.js"
    ensures r.StaticAsset? <==> pathname in {"/", "/index.html", "/app.js", "/manifest.json", "/sw.js"}
  {
    if pathname == "/api/models" then ModelList(Models, JsonType)
    else if pathname == "/health" then HealthReport("ok", |Models|, JsonType)
    else if pathname == "/ws" then ToSession(if Truthy(sessionParam) then sessionParam.value else freshId)
    else if pathname == "/" || pathname == "/index.html" then StaticAsset(Html, HtmlType)
    else if pathname == "/app.js" then StaticAsset(AppJs, ScriptType)
    else if pathname == "/manifest.json" then StaticAsset(Manifest, ManifestType)
    else if pathname == "/sw.js" then StaticAsset(ServiceWorker, ScriptType)
    else if pathname == "/favicon.ico" then Proxied(IconUrl)
    else if pathname == "/icon-192.png" || pathname == "/icon-512.png" then Proxied(IconUrl)
    else NotFound(404, "Not Found")
  }

  /** A trailing slash is not stripped: such variants are not found. */
  lemma TrailingSlashNotFound(p: string, sessionParam: Option<string>, freshId: string)
    requires p in ServedPaths
    ensures Route(p + "/", sessionParam, freshId).NotFound?
  {
    var q := p + "/";
    assert q[|q| - 1] == '/';
  }

  /** The catalogue: eleven entries with distinct ids, among them the
      session's default model. */
  lemma CatalogueFacts()
    ensures |Models| == 11
    ensures exists i :: 0 <= i < |Models| && Models[i].id == Session.DefaultModel
    ensures forall i, j :: 0 <= i < j < |Models| ==> Models[i].id != Models[j].id
  {
    assert Models[0].id == Session.DefaultModel;
  }
}

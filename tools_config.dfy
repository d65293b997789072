/**
  The client's tool registry: tool name to executor, renderer component
  and render location. The two built-in executors call the demo routes
  over HTTP; `fetch`, the API base URL and `encodeURIComponent` are
  inputs of the model.
 */
module ToolsConfig {
  import opened Values

  /** The executors an entry can hold: the two built-in fetch executors, or one the host application registered. */
  datatype Executor = FetchCurrentTime | FetchSampleData | HostExecutor(tag: string)

  /** A renderer component, by name. */
  type Component = string

  datatype ToolEntry = ToolEntry(executor: Option<Executor>, component: Option<Component>, renderLocation: Option<string>)

  /** What `fetch` settles to: a rejection, or a response with its `ok` flag and the outcome of `response.json()`. */
  datatype FetchOutcome = NetworkError(message: string) | Reply(ok: bool, json: Result<Value, string>)

  /** What an executor sees of the outside world while it runs. */
  datatype World = World(
    baseUrl: string,
    fetch: string -> FetchOutcome,
    encode: Value -> string,
    host: (string, Value) -> Result<Value, string>)

  const TimeFailed: string := "Failed to fetch current time"
  const SampleDataFailed: string := "Failed to fetch sample data"
  const DestructureFailed: string := "Cannot destructure the parameters"

  /** `value ? `?key=${encodeURIComponent(value)}` : ''` */
  function QueryString(key: string, value: Value, encode: Value -> string): (q: string)
    ensures !Truthy(value) ==> q == ""
    ensures Truthy(value) ==> q == "?" + key + "=" + encode(value) && |q| > |key| + 1
  {
    if Truthy(value) then "?" + key + "=" + encode(value) else ""
  }

  /** The URL an executor fetches for its parameters. */
  function ExecutorUrl(baseUrl: string, path: string, key: string, parameters: Value, encode: Value -> string): string {
    baseUrl + path + QueryString(key, Prop(parameters, key), encode)
  }

  /** Fetch a URL; a response that is not ok rejects with `failure`, a network or JSON error propagates. */
  function FetchJson(url: string, failure: string, fetch: string -> FetchOutcome): (r: Result<Value, string>)
    ensures fetch(url).NetworkError? ==> r == Err(fetch(url).message)
    ensures fetch(url).Reply? && !fetch(url).ok ==> r == Err(failure)
    ensures fetch(url).Reply? && fetch(url).ok ==> r == fetch(url).json
  {
    match fetch(url)
    case NetworkError(m) => Err(m)
    case Reply(ok, json) => if !ok then Err(failure) else json
  }

  /** Running an executor on the given parameters. Destructuring `null` or `undefined` parameters throws. */
  function RunExecutor(e: Executor, parameters: Value, w: World): (r: Result<Value, string>)
    ensures e.HostExecutor? ==> r == w.host(e.tag, parameters)
    ensures !e.HostExecutor? && Nullish(parameters) ==> r == Err(DestructureFailed)
    ensures e.FetchCurrentTime? && r.Ok? ==>
              var reply := w.fetch(ExecutorUrl(w.baseUrl, "/api/time", "timezone", parameters, w.encode));
              reply.Reply? && reply.ok
    ensures e.FetchSampleData? && r.Ok? ==>
              var reply := w.fetch(ExecutorUrl(w.baseUrl, "/api/sample-data", "category", parameters, w.encode));
              reply.Reply? && reply.ok
  {
    match e
    case FetchCurrentTime =>
      if Nullish(parameters) then Err(DestructureFailed)
      else FetchJson(ExecutorUrl(w.baseUrl, "/api/time", "timezone", parameters, w.encode), TimeFailed, w.fetch)
    case FetchSampleData =>
      if Nullish(parameters) then Err(DestructureFailed)
      else FetchJson(ExecutorUrl(w.baseUrl, "/api/sample-data", "category", parameters, w.encode), SampleDataFailed, w.fetch)
    case HostExecutor(tag) => w.host(tag, parameters)
  }

  /** The built-in executors fetch their route with the parameter as the only query, and fail on a bad status. */
  lemma BuiltInExecutorUrls(parameters: Value, w: World)
    requires !Nullish(parameters)
    ensures var tz := Prop(parameters, "timezone");
            var url := w.baseUrl + "/api/time" + (if Truthy(tz) then "?timezone=" + w.encode(tz) else "");
            RunExecutor(FetchCurrentTime, parameters, w) == FetchJson(url, TimeFailed, w.fetch)
    ensures var cat := Prop(parameters, "category");
            var url := w.baseUrl + "/api/sample-data" + (if Truthy(cat) then "?category=" + w.encode(cat) else "");
            RunExecutor(FetchSampleData, parameters, w) == FetchJson(url, SampleDataFailed, w.fetch)
  {
    var tz := Prop(parameters, "timezone");
    var cat := Prop(parameters, "category");
    if Truthy(tz) {
      assert "?" + "timezone" + "=" + w.encode(tz) == "?timezone=" + w.encode(tz);
    }
    if Truthy(cat) {
      assert "?" + "category" + "=" + w.encode(cat) == "?category=" + w.encode(cat);
    }
  }

  const DefaultEntries: map<string, ToolEntry> := map[
    "getCurrentTime" := ToolEntry(Some(FetchCurrentTime), Some("TimeDisplay"), Some("drawer")),
    "getSampleData" := ToolEntry(Some(FetchSampleData), Some("SampleDataList"), Some("component-area"))]

  /** The module-level `toolsConfig` object, extended in place by `registerTool`. */
  class Registry {
    var entries: map<string, ToolEntry>

    constructor ()
      ensures entries == DefaultEntries
    {
      entries := DefaultEntries;
    }

    /** `registerTool(toolName, config)`: sets or overwrites one entry. */
    method RegisterTool(toolName: string, config: ToolEntry)
      modifies this
      ensures entries == old(entries)[toolName := config]
      ensures toolName in entries && entries[toolName] == config
      ensures forall n :: n != toolName ==> (n in entries <==> n in old(entries))
      ensures forall n :: n != toolName && n in old(entries) ==> entries[n] == old(entries)[n]
    {
      entries := entries[toolName := config];
    }
  }
}

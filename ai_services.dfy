/** The AI and platform service clients: AI Gateway, Vectorize, Analytics
    Engine, Secrets Store, Hyperdrive, Containers, Workflows, Durable Objects,
    AI Search and Browser Rendering. Every call here swallows its errors: a
    list gives `[]`, a single item `null`. */
module AiServices {
  import opened Common
  import opened Types
  import opened Api

  /** `listGateways()` */
  function ListGateways(accountId: string, get: string -> Fetch<seq<CfAiGateway>>): (r: seq<CfAiGateway>)
    ensures var f := get(AccountPath(accountId, "/ai-gateway/gateways"));
      && (f.Err? ==> r == [])
      && (f.Ok? ==> r == f.value.result.GetOr([]))
  {
    ListOrEmpty(get(AccountPath(accountId, "/ai-gateway/gateways")))
  }

  /** `getGateway(gatewayId)` */
  function GetGateway(accountId: string, gatewayId: string, get: string -> Fetch<CfAiGateway>): (r: Option<CfAiGateway>)
    ensures var f := get(AccountPath(accountId, "/ai-gateway/gateways/" + gatewayId));
      && (r.Some? <==> f.Ok? && f.value.result.Some?)
      && (r.Some? ==> r.value == f.value.result.value)
  {
    ItemOrNull(get(AccountPath(accountId, "/ai-gateway/gateways/" + gatewayId)))
  }

  /** `VectorizeClient.listIndexes()` */
  function ListVectorizeIndexes(accountId: string, get: string -> Fetch<seq<CfVectorizeIndex>>): (r: seq<CfVectorizeIndex>)
    ensures var f := get(AccountPath(accountId, "/vectorize/indexes"));
      && (f.Err? ==> r == [])
      && (f.Ok? ==> r == f.value.result.GetOr([]))
  {
    ListOrEmpty(get(AccountPath(accountId, "/vectorize/indexes")))
  }

  /** `VectorizeClient.getIndex(indexName)` */
  function GetVectorizeIndex(accountId: string, indexName: string, get: string -> Fetch<CfVectorizeIndex>): (r: Option<CfVectorizeIndex>)
    ensures var f := get(AccountPath(accountId, "/vectorize/indexes/" + indexName));
      && (r.Some? <==> f.Ok? && f.value.result.Some?)
      && (r.Some? ==> r.value == f.value.result.value)
  {
    ItemOrNull(get(AccountPath(accountId, "/vectorize/indexes/" + indexName)))
  }

  /** `listDatasets()` */
  function ListDatasets(accountId: string, get: string -> Fetch<seq<CfAnalyticsDataset>>): (r: seq<CfAnalyticsDataset>)
    ensures var f := get(AccountPath(accountId, "/analytics_engine/datasets"));
      && (f.Err? ==> r == [])
      && (f.Ok? ==> r == f.value.result.GetOr([]))
  {
    ListOrEmpty(get(AccountPath(accountId, "/analytics_engine/datasets")))
  }

  /** `listStores()`: store metadata only. */
  function ListStores(accountId: string, get: string -> Fetch<seq<CfSecretsStore>>): (r: seq<CfSecretsStore>)
    ensures var f := get(AccountPath(accountId, "/workers/secrets"));
      && (f.Err? ==> r == [])
      && (f.Ok? ==> r == f.value.result.GetOr([]))
  {
    ListOrEmpty(get(AccountPath(accountId, "/workers/secrets")))
  }

  /** `listConfigs()` */
  function ListConfigs(accountId: string, get: string -> Fetch<seq<CfHyperdrive>>): (r: seq<CfHyperdrive>)
    ensures var f := get(AccountPath(accountId, "/hyperdrive/configs"));
      && (f.Err? ==> r == [])
      && (f.Ok? ==> r == f.value.result.GetOr([]))
  {
    ListOrEmpty(get(AccountPath(accountId, "/hyperdrive/configs")))
  }

  /** `getConfig(configId)` */
  function GetConfig(accountId: string, configId: string, get: string -> Fetch<CfHyperdrive>): (r: Option<CfHyperdrive>)
    ensures var f := get(AccountPath(accountId, "/hyperdrive/configs/" + configId));
      && (r.Some? <==> f.Ok? && f.value.result.Some?)
      && (r.Some? ==> r.value == f.value.result.value)
  {
    ItemOrNull(get(AccountPath(accountId, "/hyperdrive/configs/" + configId)))
  }

  /** `listServices()` */
  function ListServices(accountId: string, get: string -> Fetch<seq<CfContainerService>>): (r: seq<CfContainerService>)
    ensures var f := get(AccountPath(accountId, "/workers/containers"));
      && (f.Err? ==> r == [])
      && (f.Ok? ==> r == f.value.result.GetOr([]))
  {
    ListOrEmpty(get(AccountPath(accountId, "/workers/containers")))
  }

  /** `listWorkflows()` */
  function ListWorkflows(accountId: string, get: string -> Fetch<seq<CfWorkflow>>): (r: seq<CfWorkflow>)
    ensures var f := get(AccountPath(accountId, "/workflows"));
      && (f.Err? ==> r == [])
      && (f.Ok? ==> r == f.value.result.GetOr([]))
  {
    ListOrEmpty(get(AccountPath(accountId, "/workflows")))
  }

  /** `getWorkflow(workflowId)` */
  function GetWorkflow(accountId: string, workflowId: string, get: string -> Fetch<CfWorkflow>): (r: Option<CfWorkflow>)
    ensures var f := get(AccountPath(accountId, "/workflows/" + workflowId));
      && (r.Some? <==> f.Ok? && f.value.result.Some?)
      && (r.Some? ==> r.value == f.value.result.value)
  {
    ItemOrNull(get(AccountPath(accountId, "/workflows/" + workflowId)))
  }

  /** The query parts `listRuns` collects: `from=` and then `to=`, each only
      when its value is not empty; the values are not encoded. */
  function RunsParams(from: Option<string>, to: Option<string>): (ps: seq<string>)
    ensures |ps| <= 2
    ensures ps == [] <==> !TruthyString(from) && !TruthyString(to)
  {
    (if TruthyString(from) then ["from=" + from.value] else [])
      + (if TruthyString(to) then ["to=" + to.value] else [])
  }

  /** The path `listRuns` requests. */
  function RunsPath(accountId: string, workflowId: string, from: Option<string>, to: Option<string>): string {
    var base := AccountPath(accountId, "/workflows/" + workflowId + "/runs");
    var ps := RunsParams(from, to);
    if |ps| > 0 then base + "?" + Join(ps, "&") else base
  }

  /** The four shapes of the `listRuns` path: the runs path, followed by
      `?from=..&to=..`, `?from=..`, `?to=..` or nothing. */
  lemma RunsPathShapes(accountId: string, workflowId: string, from: Option<string>, to: Option<string>)
    ensures var base := AccountPath(accountId, "/workflows/" + workflowId + "/runs");
      var p := RunsPath(accountId, workflowId, from, to);
      && (TruthyString(from) && TruthyString(to) ==> p == base + "?" + ("from=" + from.value) + "&" + ("to=" + to.value))
      && (TruthyString(from) && !TruthyString(to) ==> p == base + "?" + ("from=" + from.value))
      && (!TruthyString(from) && TruthyString(to) ==> p == base + "?" + ("to=" + to.value))
      && (!TruthyString(from) && !TruthyString(to) ==> p == base)
  {
    var ps := RunsParams(from, to);
    if TruthyString(from) && TruthyString(to) {
      var a, b := "from=" + from.value, "to=" + to.value;
      assert ps == [a, b];
      assert ps[1..] == [b];
      assert Join(ps, "&") == a + "&" + b;
    }
  }

  /** `listRuns(workflowId, from?, to?)`: the local `params` array grows by
      `push`, the local `path` gets `?` and the joined parts only when there
      are any; `[]` on any failure. */
  method ListRuns(accountId: string, workflowId: string, from: Option<string>, to: Option<string>,
                  get: string -> Fetch<seq<CfWorkflowRun>>)
    returns (runs: seq<CfWorkflowRun>, path: string)
    ensures path == RunsPath(accountId, workflowId, from, to)
    ensures var f := get(path);
      && (f.Err? ==> runs == [])
      && (f.Ok? ==> runs == f.value.result.GetOr([]))
  {
    path := AccountPath(accountId, "/workflows/" + workflowId + "/runs");
    var params: seq<string> := [];
    if TruthyString(from) {
      params := params + ["from=" + from.value];
    }
    if TruthyString(to) {
      params := params + ["to=" + to.value];
    }
    if |params| > 0 {
      path := path + "?" + Join(params, "&");
    }
    runs := ListOrEmpty(get(path));
  }

  /** `listClasses()` */
  function ListClasses(accountId: string, get: string -> Fetch<seq<CfDurableObject>>): (r: seq<CfDurableObject>)
    ensures var f := get(AccountPath(accountId, "/workers/durable_objects/namespaces"));
      && (f.Err? ==> r == [])
      && (f.Ok? ==> r == f.value.result.GetOr([]))
  {
    ListOrEmpty(get(AccountPath(accountId, "/workers/durable_objects/namespaces")))
  }

  /** `AISearchClient.listIndexes()` */
  function ListSearchIndexes(accountId: string, get: string -> Fetch<seq<CfAiSearchIndex>>): (r: seq<CfAiSearchIndex>)
    ensures var f := get(AccountPath(accountId, "/ai-search/indexes"));
      && (f.Err? ==> r == [])
      && (f.Ok? ==> r == f.value.result.GetOr([]))
  {
    ListOrEmpty(get(AccountPath(accountId, "/ai-search/indexes")))
  }

  /** `AISearchClient.getIndex(indexName)` */
  function GetSearchIndex(accountId: string, indexName: string, get: string -> Fetch<CfAiSearchIndex>): (r: Option<CfAiSearchIndex>)
    ensures var f := get(AccountPath(accountId, "/ai-search/indexes/" + indexName));
      && (r.Some? <==> f.Ok? && f.value.result.Some?)
      && (r.Some? ==> r.value == f.value.result.value)
  {
    ItemOrNull(get(AccountPath(accountId, "/ai-search/indexes/" + indexName)))
  }

  /** `getQuotas()` */
  function GetQuotas(accountId: string, get: string -> Fetch<CfBrowserRendering>): (r: Option<CfBrowserRendering>)
    ensures var f := get(AccountPath(accountId, "/browser-rendering/quotas"));
      && (r.Some? <==> f.Ok? && f.value.result.Some?)
      && (r.Some? ==> r.value == f.value.result.value)
  {
    ItemOrNull(get(AccountPath(accountId, "/browser-rendering/quotas")))
  }
}

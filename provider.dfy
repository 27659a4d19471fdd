/** `CloudflareEntityProvider`: connects to the catalog, and on every run
    discovers the enabled kinds of resource in a fixed order, maps them to
    entities and replaces the provider's whole set of entities in one
    mutation. The client calls are inputs (`DiscoveryEnv`): each list call
    and each per-item enrichment call yields a value or the error it threw.
    The catalog is a ghost log of the mutations applied. */
module EntityProvider {
  import opened Common
  import opened Types
  import opened Mappers
  import opened Selection

  /** `{ frequency: { minutes }, timeout: { minutes } }` */
  datatype Schedule = Schedule(frequencyMinutes: int, timeoutMinutes: int)

  /** `CloudflareEntityProviderConfig`; `importFlags` is the optional
      `import` object, whose keys are the kinds it mentions. */
  datatype ProviderConfig = ProviderConfig(
    accountId: string,
    apiToken: string,
    schedule: Option<Schedule>,
    importFlags: Option<map<Kind, bool>>,
    defaultOwner: Option<string>,
    defaultSystem: Option<string>)

  /** `this.config.import?.<kind> !== false` */
  predicate Enabled(config: ProviderConfig, k: Kind) {
    !(config.importFlags.Some? && k in config.importFlags.value && !config.importFlags.value[k])
  }

  /** A kind is skipped exactly when its flag is present and `false`; without
      an `import` object every kind is discovered. */
  lemma EnabledUnlessFalse(config: ProviderConfig, k: Kind)
    ensures config.importFlags.None? ==> Enabled(config, k)
    ensures config.importFlags.Some? && k !in config.importFlags.value ==> Enabled(config, k)
    ensures config.importFlags.Some? && k in config.importFlags.value ==> (Enabled(config, k) <==> config.importFlags.value[k])
  {
  }

  /** The configuration every mapper is built with. */
  function MapperConfig(config: ProviderConfig): (mc: EntityMapperConfig)
    ensures mc.accountId == config.accountId
    ensures mc.defaultOwner == config.defaultOwner && mc.defaultSystem == config.defaultSystem
  {
    EntityMapperConfig(config.accountId, config.defaultOwner, config.defaultSystem)
  }

  /** `getProviderName()` */
  function ProviderName(accountId: string): (name: string)
    ensures |name| == 27 + |accountId|
    ensures name[27..] == accountId
  {
    "cloudflare-entity-provider:" + accountId
  }

  /** Providers of different accounts have different names. */
  lemma ProviderNameInjective(a: string, b: string)
    requires ProviderName(a) == ProviderName(b)
    ensures a == b
  {
    assert a == ProviderName(a)[27..];
    assert b == ProviderName(b)[27..];
  }

  /** What each call of discovery yields, as a `Result` so that a throwing
      call can be followed. With the clients as they are, the AI kinds' list
      calls and the per-item calls (`latestDeployment`, `latestProduction`,
      `lifecycle`) never throw: their clients catch every error. */
  datatype DiscoveryEnv = DiscoveryEnv(
    scripts: Result<seq<CfWorkerScript>>,
    latestDeployment: string -> Result<Option<CfWorkerDeployment>>,
    projects: Result<seq<CfPagesProject>>,
    latestProduction: string -> Result<Option<CfPagesDeployment>>,
    buckets: Result<seq<CfR2Bucket>>,
    lifecycle: string -> Result<Option<CfR2Lifecycle>>,
    databases: Result<seq<CfD1Db>>,
    namespaces: Result<seq<CfKvNamespace>>,
    queues: Result<seq<CfQueue>>,
    gateways: Result<seq<CfAiGateway>>,
    indexes: Result<seq<CfVectorizeIndex>>,
    workflows: Result<seq<CfWorkflow>>,
    classes: Result<seq<CfDurableObject>>,
    searchIndexes: Result<seq<CfAiSearchIndex>>)

  /** What one item contributes: its entity when its calls succeeded and the
      mapper gave one, nothing otherwise. */
  function Kept(r: Result<Option<Entity>>): (es: seq<Entity>)
    ensures r.Ok? && r.value.Some? ==> es == [r.value.value]
    ensures !(r.Ok? && r.value.Some?) ==> es == []
  {
    if r.Ok? && r.value.Some? then [r.value.value] else []
  }

  /** The entities of a list, in list order: an item whose processing threw
      (`Err`) or whose mapper gave `null` (`Ok(None)`) is dropped. */
  function Collect<T>(xs: seq<T>, item: T -> Result<Option<Entity>>): (es: seq<Entity>)
    ensures |es| <= |xs|
  {
    if xs == [] then [] else Collect(xs[..|xs| - 1], item) + Kept(item(xs[|xs| - 1]))
  }

  /** Every entity comes from an item of the list that yielded it. */
  lemma {:induction false} CollectProvenance<T>(xs: seq<T>, item: T -> Result<Option<Entity>>, e: Entity)
    requires e in Collect(xs, item)
    ensures exists i :: 0 <= i < |xs| && item(xs[i]) == Ok(Some(e))
  {
    var init, last := xs[..|xs| - 1], xs[|xs| - 1];
    if e in Collect(init, item) {
      CollectProvenance(init, item, e);
      var i :| 0 <= i < |init| && item(init[i]) == Ok(Some(e));
      assert init[i] == xs[i];
    } else {
      assert item(xs[|xs| - 1]) == Ok(Some(e));
    }
  }

  /** Processing a list in two parts gives the two parts' entities in turn. */
  lemma {:induction false} CollectAppend<T>(xs: seq<T>, ys: seq<T>, item: T -> Result<Option<Entity>>)
    ensures Collect(xs + ys, item) == Collect(xs, item) + Collect(ys, item)
  {
    if ys == [] {
      assert xs + ys == xs;
    } else {
      var zs, init, last := xs + ys, ys[..|ys| - 1], ys[|ys| - 1];
      assert zs[..|zs| - 1] == xs + init && zs[|zs| - 1] == last;
      CollectAppend(xs, init, item);
      calc {
        Collect(zs, item);
        Collect(xs + init, item) + Kept(item(last));
        (Collect(xs, item) + Collect(init, item)) + Kept(item(last));
        Collect(xs, item) + (Collect(init, item) + Kept(item(last)));
      }
    }
  }

  /** An item whose processing throws is skipped, and only that item. */
  lemma FailureSkipsOnlyItem<T>(xs: seq<T>, x: T, ys: seq<T>, item: T -> Result<Option<Entity>>)
    requires item(x).Err?
    ensures Collect(xs + [x] + ys, item) == Collect(xs, item) + Collect(ys, item)
  {
    var one := [x];
    assert one[..0] == [] && one[0] == x;
    assert Collect(one, item) == [];
    CollectAppend(xs + one, ys, item);
    CollectAppend(xs, one, item);
  }

  /** When every item yields an entity, there is one entity per item, in order. */
  lemma {:induction false} CollectAllPresent<T>(xs: seq<T>, item: T -> Result<Option<Entity>>)
    requires forall i :: 0 <= i < |xs| ==> item(xs[i]).Ok? && item(xs[i]).value.Some?
    ensures |Collect(xs, item)| == |xs|
    ensures forall i :: 0 <= i < |xs| ==> Collect(xs, item)[i] == item(xs[i]).value.value
  {
    if xs != [] {
      var init := xs[..|xs| - 1];
      assert forall i :: 0 <= i < |init| ==> init[i] == xs[i];
      CollectAllPresent(init, item);
    }
  }

  /** A kind's entities: the list call's error, or the entities of the list. */
  function Over<T>(list: Result<seq<T>>, item: T -> Result<Option<Entity>>): (r: Result<seq<Entity>>)
    ensures r.Err? <==> list.Err?
    ensures list.Err? ==> r.error == list.error
    ensures list.Ok? ==> r.value == Collect(list.value, item)
  {
    match list
    case Err(e) => Err(e)
    case Ok(xs) => Ok(Collect(xs, item))
  }

  /** One script of `discoverWorkers`: its latest deployment (`null` passed
      on as `undefined`), then the mapper; a throwing call skips it. */
  function WorkerItem(mc: EntityMapperConfig, env: DiscoveryEnv): CfWorkerScript -> Result<Option<Entity>> {
    (script: CfWorkerScript) =>
      match env.latestDeployment(script.id)
      case Err(e) => Err(e)
      case Ok(deployment) => Ok(MapWorker(mc, script, deployment))
  }

  /** One project of `discoverPages`: its latest production deployment, then
      the mapper. */
  function PagesItem(mc: EntityMapperConfig, env: DiscoveryEnv): CfPagesProject -> Result<Option<Entity>> {
    (project: CfPagesProject) =>
      match env.latestProduction(project.name)
      case Err(e) => Err(e)
      case Ok(deployment) => Ok(MapPages(mc, project, deployment))
  }

  /** One bucket of `discoverR2`: its lifecycle rules, then the mapper. */
  function R2Item(mc: EntityMapperConfig, env: DiscoveryEnv): CfR2Bucket -> Result<Option<Entity>> {
    (bucket: CfR2Bucket) =>
      match env.lifecycle(bucket.name)
      case Err(e) => Err(e)
      case Ok(rules) => Ok(MapR2(mc, bucket, rules))
  }

  /** `discoverWorkers()`: a list failure propagates; each script is
      processed inside its own `try`. */
  method DiscoverWorkers(mc: EntityMapperConfig, env: DiscoveryEnv) returns (r: Result<seq<Entity>>)
    ensures r == Over(env.scripts, WorkerItem(mc, env))
  {
    if env.scripts.Err? {
      return Err(env.scripts.error);
    }
    var scripts := env.scripts.value;
    var entities: seq<Entity> := [];
    for i := 0 to |scripts|
      invariant entities == Collect(scripts[..i], WorkerItem(mc, env))
    {
      assert scripts[..i + 1][..i] == scripts[..i];
      var script := scripts[i];
      match env.latestDeployment(script.id)
      case Err(_) =>
      case Ok(deployment) =>
        var entity := MapWorker(mc, script, deployment);
        if entity.Some? {
          entities := entities + [entity.value];
        }
    }
    assert scripts[..|scripts|] == scripts;
    return Ok(entities);
  }

  /** `discoverPages()` */
  method DiscoverPages(mc: EntityMapperConfig, env: DiscoveryEnv) returns (r: Result<seq<Entity>>)
    ensures r == Over(env.projects, PagesItem(mc, env))
  {
    if env.projects.Err? {
      return Err(env.projects.error);
    }
    var projects := env.projects.value;
    var entities: seq<Entity> := [];
    for i := 0 to |projects|
      invariant entities == Collect(projects[..i], PagesItem(mc, env))
    {
      assert projects[..i + 1][..i] == projects[..i];
      var project := projects[i];
      match env.latestProduction(project.name)
      case Err(_) =>
      case Ok(deployment) =>
        var entity := MapPages(mc, project, deployment);
        if entity.Some? {
          entities := entities + [entity.value];
        }
    }
    assert projects[..|projects|] == projects;
    return Ok(entities);
  }

  /** `discoverR2()` */
  method DiscoverR2(mc: EntityMapperConfig, env: DiscoveryEnv) returns (r: Result<seq<Entity>>)
    ensures r == Over(env.buckets, R2Item(mc, env))
  {
    if env.buckets.Err? {
      return Err(env.buckets.error);
    }
    var buckets := env.buckets.value;
    var entities: seq<Entity> := [];
    for i := 0 to |buckets|
      invariant entities == Collect(buckets[..i], R2Item(mc, env))
    {
      assert buckets[..i + 1][..i] == buckets[..i];
      var bucket := buckets[i];
      match env.lifecycle(bucket.name)
      case Err(_) =>
      case Ok(rules) =>
        var entity := MapR2(mc, bucket, rules);
        if entity.Some? {
          entities := entities + [entity.value];
        }
    }
    assert buckets[..|buckets|] == buckets;
    return Ok(entities);
  }

  /** `discoverD1()`: `map` then `filter(Boolean)`; a list failure propagates. */
  function DiscoverD1(mc: EntityMapperConfig, env: DiscoveryEnv): Result<seq<Entity>> {
    Over(env.databases, (database: CfD1Db) => Ok(MapD1(mc, database)))
  }

  /** The mapper never gives `null`, so every listed record yields its entity, in order. */
  lemma DiscoverD1Maps(mc: EntityMapperConfig, env: DiscoveryEnv)
    ensures var r := DiscoverD1(mc, env);
      && (r.Err? <==> env.databases.Err?)
      && (env.databases.Err? ==> r.error == env.databases.error)
      && (r.Ok? ==> |r.value| == |env.databases.value|)
      && (r.Ok? ==> forall i :: 0 <= i < |r.value| ==> Some(r.value[i]) == MapD1(mc, env.databases.value[i]))
  {
    if env.databases.Ok? {
      CollectAllPresent(env.databases.value, (database: CfD1Db) => Ok(MapD1(mc, database)));
    }
  }

  /** `discoverKV()`: `map` then `filter(Boolean)`; a list failure propagates. */
  function DiscoverKV(mc: EntityMapperConfig, env: DiscoveryEnv): Result<seq<Entity>> {
    Over(env.namespaces, (namespace: CfKvNamespace) => Ok(MapKV(mc, namespace)))
  }

  /** The mapper never gives `null`, so every listed record yields its entity, in order. */
  lemma DiscoverKVMaps(mc: EntityMapperConfig, env: DiscoveryEnv)
    ensures var r := DiscoverKV(mc, env);
      && (r.Err? <==> env.namespaces.Err?)
      && (env.namespaces.Err? ==> r.error == env.namespaces.error)
      && (r.Ok? ==> |r.value| == |env.namespaces.value|)
      && (r.Ok? ==> forall i :: 0 <= i < |r.value| ==> Some(r.value[i]) == MapKV(mc, env.namespaces.value[i]))
  {
    if env.namespaces.Ok? {
      CollectAllPresent(env.namespaces.value, (namespace: CfKvNamespace) => Ok(MapKV(mc, namespace)));
    }
  }

  /** `discoverQueues()`: `map` then `filter(Boolean)`; a list failure propagates. */
  function DiscoverQueues(mc: EntityMapperConfig, env: DiscoveryEnv): Result<seq<Entity>> {
    Over(env.queues, (queue: CfQueue) => Ok(MapQueue(mc, queue)))
  }

  /** The mapper never gives `null`, so every listed record yields its entity, in order. */
  lemma DiscoverQueuesMaps(mc: EntityMapperConfig, env: DiscoveryEnv)
    ensures var r := DiscoverQueues(mc, env);
      && (r.Err? <==> env.queues.Err?)
      && (env.queues.Err? ==> r.error == env.queues.error)
      && (r.Ok? ==> |r.value| == |env.queues.value|)
      && (r.Ok? ==> forall i :: 0 <= i < |r.value| ==> Some(r.value[i]) == MapQueue(mc, env.queues.value[i]))
  {
    if env.queues.Ok? {
      CollectAllPresent(env.queues.value, (queue: CfQueue) => Ok(MapQueue(mc, queue)));
    }
  }

  /** `discoverAIGateway()`: `map` then `filter(Boolean)`; a list failure propagates. */
  function DiscoverAIGateway(mc: EntityMapperConfig, env: DiscoveryEnv): Result<seq<Entity>> {
    Over(env.gateways, (gateway: CfAiGateway) => Ok(MapAIGateway(mc, gateway)))
  }

  /** The mapper never gives `null`, so every listed record yields its entity, in order. */
  lemma DiscoverAIGatewayMaps(mc: EntityMapperConfig, env: DiscoveryEnv)
    ensures var r := DiscoverAIGateway(mc, env);
      && (r.Err? <==> env.gateways.Err?)
      && (env.gateways.Err? ==> r.error == env.gateways.error)
      && (r.Ok? ==> |r.value| == |env.gateways.value|)
      && (r.Ok? ==> forall i :: 0 <= i < |r.value| ==> Some(r.value[i]) == MapAIGateway(mc, env.gateways.value[i]))
  {
    if env.gateways.Ok? {
      CollectAllPresent(env.gateways.value, (gateway: CfAiGateway) => Ok(MapAIGateway(mc, gateway)));
    }
  }

  /** `discoverVectorize()`: `map` then `filter(Boolean)`; a list failure propagates. */
  function DiscoverVectorize(mc: EntityMapperConfig, env: DiscoveryEnv): Result<seq<Entity>> {
    Over(env.indexes, (index: CfVectorizeIndex) => Ok(MapVectorize(mc, index)))
  }

  /** The mapper never gives `null`, so every listed record yields its entity, in order. */
  lemma DiscoverVectorizeMaps(mc: EntityMapperConfig, env: DiscoveryEnv)
    ensures var r := DiscoverVectorize(mc, env);
      && (r.Err? <==> env.indexes.Err?)
      && (env.indexes.Err? ==> r.error == env.indexes.error)
      && (r.Ok? ==> |r.value| == |env.indexes.value|)
      && (r.Ok? ==> forall i :: 0 <= i < |r.value| ==> Some(r.value[i]) == MapVectorize(mc, env.indexes.value[i]))
  {
    if env.indexes.Ok? {
      CollectAllPresent(env.indexes.value, (index: CfVectorizeIndex) => Ok(MapVectorize(mc, index)));
    }
  }

  /** `discoverWorkflows()`: `map` then `filter(Boolean)`; a list failure propagates. */
  function DiscoverWorkflows(mc: EntityMapperConfig, env: DiscoveryEnv): Result<seq<Entity>> {
    Over(env.workflows, (workflow: CfWorkflow) => Ok(MapWorkflow(mc, workflow)))
  }

  /** The mapper never gives `null`, so every listed record yields its entity, in order. */
  lemma DiscoverWorkflowsMaps(mc: EntityMapperConfig, env: DiscoveryEnv)
    ensures var r := DiscoverWorkflows(mc, env);
      && (r.Err? <==> env.workflows.Err?)
      && (env.workflows.Err? ==> r.error == env.workflows.error)
      && (r.Ok? ==> |r.value| == |env.workflows.value|)
      && (r.Ok? ==> forall i :: 0 <= i < |r.value| ==> Some(r.value[i]) == MapWorkflow(mc, env.workflows.value[i]))
  {
    if env.workflows.Ok? {
      CollectAllPresent(env.workflows.value, (workflow: CfWorkflow) => Ok(MapWorkflow(mc, workflow)));
    }
  }

  /** `discoverDurableObjects()`: `map` then `filter(Boolean)`; a list failure propagates. */
  function DiscoverDurableObjects(mc: EntityMapperConfig, env: DiscoveryEnv): Result<seq<Entity>> {
    Over(env.classes, (durableObject: CfDurableObject) => Ok(MapDurableObject(mc, durableObject)))
  }

  /** The mapper never gives `null`, so every listed record yields its entity, in order. */
  lemma DiscoverDurableObjectsMaps(mc: EntityMapperConfig, env: DiscoveryEnv)
    ensures var r := DiscoverDurableObjects(mc, env);
      && (r.Err? <==> env.classes.Err?)
      && (env.classes.Err? ==> r.error == env.classes.error)
      && (r.Ok? ==> |r.value| == |env.classes.value|)
      && (r.Ok? ==> forall i :: 0 <= i < |r.value| ==> Some(r.value[i]) == MapDurableObject(mc, env.classes.value[i]))
  {
    if env.classes.Ok? {
      CollectAllPresent(env.classes.value, (durableObject: CfDurableObject) => Ok(MapDurableObject(mc, durableObject)));
    }
  }

  /** `discoverAISearch()`: `map` then `filter(Boolean)`; a list failure propagates. */
  function DiscoverAISearch(mc: EntityMapperConfig, env: DiscoveryEnv): Result<seq<Entity>> {
    Over(env.searchIndexes, (index: CfAiSearchIndex) => Ok(MapAISearch(mc, index)))
  }

  /** The mapper never gives `null`, so every listed record yields its entity, in order. */
  lemma DiscoverAISearchMaps(mc: EntityMapperConfig, env: DiscoveryEnv)
    ensures var r := DiscoverAISearch(mc, env);
      && (r.Err? <==> env.searchIndexes.Err?)
      && (env.searchIndexes.Err? ==> r.error == env.searchIndexes.error)
      && (r.Ok? ==> |r.value| == |env.searchIndexes.value|)
      && (r.Ok? ==> forall i :: 0 <= i < |r.value| ==> Some(r.value[i]) == MapAISearch(mc, env.searchIndexes.value[i]))
  {
    if env.searchIndexes.Ok? {
      CollectAllPresent(env.searchIndexes.value, (index: CfAiSearchIndex) => Ok(MapAISearch(mc, index)));
    }
  }

  /** The kinds in the order `run` visits them. */
  const KindOrder: seq<Kind> :=
    [Workers, Pages, R2, D1, KV, Queues, AIGateway, Vectorize, Workflows, DurableObjects, AISearch]

  /** Every kind is visited, once. */
  lemma KindOrderComplete(k: Kind)
    ensures exists i :: 0 <= i < |KindOrder| && KindOrder[i] == k
    ensures forall i, j :: 0 <= i < j < |KindOrder| ==> KindOrder[i] != KindOrder[j]
  {
    var i := match k
      case Workers => 0 case Pages => 1 case R2 => 2 case D1 => 3 case KV => 4 case Queues => 5
      case AIGateway => 6 case Vectorize => 7 case Workflows => 8 case DurableObjects => 9 case AISearch => 10;
    assert KindOrder[i] == k;
  }

  /** The entities of one kind. */
  function KindEntities(config: ProviderConfig, env: DiscoveryEnv, k: Kind): Result<seq<Entity>> {
    var mc := MapperConfig(config);
    match k
    case Workers => Over(env.scripts, WorkerItem(mc, env))
    case Pages => Over(env.projects, PagesItem(mc, env))
    case R2 => Over(env.buckets, R2Item(mc, env))
    case D1 => DiscoverD1(mc, env)
    case KV => DiscoverKV(mc, env)
    case Queues => DiscoverQueues(mc, env)
    case AIGateway => DiscoverAIGateway(mc, env)
    case Vectorize => DiscoverVectorize(mc, env)
    case Workflows => DiscoverWorkflows(mc, env)
    case DurableObjects => DiscoverDurableObjects(mc, env)
    case AISearch => DiscoverAISearch(mc, env)
  }

  /** Whether the list call of kind `k` threw. */
  predicate ListFailed(env: DiscoveryEnv, k: Kind) {
    match k
    case Workers => env.scripts.Err?
    case Pages => env.projects.Err?
    case R2 => env.buckets.Err?
    case D1 => env.databases.Err?
    case KV => env.namespaces.Err?
    case Queues => env.queues.Err?
    case AIGateway => env.gateways.Err?
    case Vectorize => env.indexes.Err?
    case Workflows => env.workflows.Err?
    case DurableObjects => env.classes.Err?
    case AISearch => env.searchIndexes.Err?
  }

  /** A kind fails exactly when its list call fails: failures of single
      items are absorbed. */
  lemma KindFailsOnlyOnList(config: ProviderConfig, env: DiscoveryEnv, k: Kind)
    ensures KindEntities(config, env, k).Err? <==> ListFailed(env, k)
  {
  }

  /** Every entity of kind `k` is a resource of that kind, named after one of
      the listed records. */
  lemma KindProvenance(config: ProviderConfig, env: DiscoveryEnv, k: Kind, e: Entity)
    requires KindEntities(config, env, k).Ok? && e in KindEntities(config, env, k).value
    ensures exists id :: IsResourceOf(MapperConfig(config), e, k, id)
  {
    var mc := MapperConfig(config);
    match k
    case Workers => WorkersProvenance(mc, env, e);
    case Pages => PagesProvenance(mc, env, e);
    case R2 => R2Provenance(mc, env, e);
    case D1 => D1Provenance(mc, env, e);
    case KV => KVProvenance(mc, env, e);
    case Queues => QueuesProvenance(mc, env, e);
    case AIGateway => AIGatewayProvenance(mc, env, e);
    case Vectorize => VectorizeProvenance(mc, env, e);
    case Workflows => WorkflowsProvenance(mc, env, e);
    case DurableObjects => DurableObjectsProvenance(mc, env, e);
    case AISearch => AISearchProvenance(mc, env, e);
  }

  lemma WorkersProvenance(mc: EntityMapperConfig, env: DiscoveryEnv, e: Entity)
    requires env.scripts.Ok? && e in Collect(env.scripts.value, WorkerItem(mc, env))
    ensures exists id :: IsResourceOf(mc, e, Workers, id)
  {
    var xs := env.scripts.value;
    CollectProvenance(xs, WorkerItem(mc, env), e);
    var i :| 0 <= i < |xs| && WorkerItem(mc, env)(xs[i]) == Ok(Some(e));
    var script := xs[i];
    assert MapWorker(mc, script, env.latestDeployment(script.id).value) == Some(e);
  }

  lemma PagesProvenance(mc: EntityMapperConfig, env: DiscoveryEnv, e: Entity)
    requires env.projects.Ok? && e in Collect(env.projects.value, PagesItem(mc, env))
    ensures exists id :: IsResourceOf(mc, e, Pages, id)
  {
    var xs := env.projects.value;
    CollectProvenance(xs, PagesItem(mc, env), e);
    var i :| 0 <= i < |xs| && PagesItem(mc, env)(xs[i]) == Ok(Some(e));
    var project := xs[i];
    assert MapPages(mc, project, env.latestProduction(project.name).value) == Some(e);
  }

  lemma R2Provenance(mc: EntityMapperConfig, env: DiscoveryEnv, e: Entity)
    requires env.buckets.Ok? && e in Collect(env.buckets.value, R2Item(mc, env))
    ensures exists id :: IsResourceOf(mc, e, R2, id)
  {
    var xs := env.buckets.value;
    CollectProvenance(xs, R2Item(mc, env), e);
    var i :| 0 <= i < |xs| && R2Item(mc, env)(xs[i]) == Ok(Some(e));
    var bucket := xs[i];
    assert MapR2(mc, bucket, env.lifecycle(bucket.name).value) == Some(e);
  }

  lemma D1Provenance(mc: EntityMapperConfig, env: DiscoveryEnv, e: Entity)
    requires DiscoverD1(mc, env).Ok? && e in DiscoverD1(mc, env).value
    ensures exists id :: IsResourceOf(mc, e, D1, id)
  {
    DiscoverD1Maps(mc, env);
    var es := DiscoverD1(mc, env).value;
    var i :| 0 <= i < |es| && es[i] == e;
    assert IsResourceOf(mc, e, D1, env.databases.value[i].uuid);
  }

  lemma KVProvenance(mc: EntityMapperConfig, env: DiscoveryEnv, e: Entity)
    requires DiscoverKV(mc, env).Ok? && e in DiscoverKV(mc, env).value
    ensures exists id :: IsResourceOf(mc, e, KV, id)
  {
    DiscoverKVMaps(mc, env);
    var es := DiscoverKV(mc, env).value;
    var i :| 0 <= i < |es| && es[i] == e;
    assert IsResourceOf(mc, e, KV, env.namespaces.value[i].id);
  }

  lemma QueuesProvenance(mc: EntityMapperConfig, env: DiscoveryEnv, e: Entity)
    requires DiscoverQueues(mc, env).Ok? && e in DiscoverQueues(mc, env).value
    ensures exists id :: IsResourceOf(mc, e, Queues, id)
  {
    DiscoverQueuesMaps(mc, env);
    var es := DiscoverQueues(mc, env).value;
    var i :| 0 <= i < |es| && es[i] == e;
    assert IsResourceOf(mc, e, Queues, env.queues.value[i].queueName);
  }

  lemma AIGatewayProvenance(mc: EntityMapperConfig, env: DiscoveryEnv, e: Entity)
    requires DiscoverAIGateway(mc, env).Ok? && e in DiscoverAIGateway(mc, env).value
    ensures exists id :: IsResourceOf(mc, e, AIGateway, id)
  {
    DiscoverAIGatewayMaps(mc, env);
    var es := DiscoverAIGateway(mc, env).value;
    var i :| 0 <= i < |es| && es[i] == e;
    assert IsResourceOf(mc, e, AIGateway, env.gateways.value[i].id);
  }

  lemma VectorizeProvenance(mc: EntityMapperConfig, env: DiscoveryEnv, e: Entity)
    requires DiscoverVectorize(mc, env).Ok? && e in DiscoverVectorize(mc, env).value
    ensures exists id :: IsResourceOf(mc, e, Vectorize, id)
  {
    DiscoverVectorizeMaps(mc, env);
    var es := DiscoverVectorize(mc, env).value;
    var i :| 0 <= i < |es| && es[i] == e;
    assert IsResourceOf(mc, e, Vectorize, env.indexes.value[i].name);
  }

  lemma WorkflowsProvenance(mc: EntityMapperConfig, env: DiscoveryEnv, e: Entity)
    requires DiscoverWorkflows(mc, env).Ok? && e in DiscoverWorkflows(mc, env).value
    ensures exists id :: IsResourceOf(mc, e, Workflows, id)
  {
    DiscoverWorkflowsMaps(mc, env);
    var es := DiscoverWorkflows(mc, env).value;
    var i :| 0 <= i < |es| && es[i] == e;
    assert IsResourceOf(mc, e, Workflows, env.workflows.value[i].name);
  }

  lemma DurableObjectsProvenance(mc: EntityMapperConfig, env: DiscoveryEnv, e: Entity)
    requires DiscoverDurableObjects(mc, env).Ok? && e in DiscoverDurableObjects(mc, env).value
    ensures exists id :: IsResourceOf(mc, e, DurableObjects, id)
  {
    DiscoverDurableObjectsMaps(mc, env);
    var es := DiscoverDurableObjects(mc, env).value;
    var i :| 0 <= i < |es| && es[i] == e;
    assert IsResourceOf(mc, e, DurableObjects, env.classes.value[i].className);
  }

  lemma AISearchProvenance(mc: EntityMapperConfig, env: DiscoveryEnv, e: Entity)
    requires DiscoverAISearch(mc, env).Ok? && e in DiscoverAISearch(mc, env).value
    ensures exists id :: IsResourceOf(mc, e, AISearch, id)
  {
    DiscoverAISearchMaps(mc, env);
    var es := DiscoverAISearch(mc, env).value;
    var i :| 0 <= i < |es| && es[i] == e;
    assert IsResourceOf(mc, e, AISearch, env.searchIndexes.value[i].name);
  }

  /** One guarded block of `run`, after the blocks before it produced `acc`:
      when kind `k` is enabled its discovery gives `found`, whose entities are
      appended or whose failure ends discovery; a failure already met stands. */
  function Step(config: ProviderConfig, acc: Result<seq<Entity>>, k: Kind, found: Result<seq<Entity>>): Result<seq<Entity>> {
    match acc
    case Err(e) => Err(e)
    case Ok(entities) =>
      if !Enabled(config, k) then Ok(entities)
      else
        match found
        case Err(e) => Err(e)
        case Ok(more) => Ok(entities + more)
  }

  /** The blocks for the kinds `ks`, in that order, after earlier blocks
      produced `acc`. */
  function Blocks(config: ProviderConfig, env: DiscoveryEnv, acc: Result<seq<Entity>>, ks: seq<Kind>): Result<seq<Entity>>
    decreases |ks|
  {
    if ks == [] then acc
    else Blocks(config, env, Step(config, acc, ks[0], KindEntities(config, env, ks[0])), ks[1..])
  }

  /** The eleven blocks of `run`, in its order, starting from no entities. */
  function Discovery(config: ProviderConfig, env: DiscoveryEnv): Result<seq<Entity>> {
    Blocks(config, env, Ok([]), KindOrder)
  }

  /** Running the first block, then the rest. */
  lemma BlocksStep(config: ProviderConfig, env: DiscoveryEnv, acc: Result<seq<Entity>>, ks: seq<Kind>)
    requires ks != []
    ensures Blocks(config, env, acc, ks) == Blocks(config, env, Step(config, acc, ks[0], KindEntities(config, env, ks[0])), ks[1..])
  {
  }

  /** Once a block fails, the later blocks do not run: the error stands. */
  lemma {:induction false} FailureStands(config: ProviderConfig, env: DiscoveryEnv, e: Error, ks: seq<Kind>)
    ensures Blocks(config, env, Err(e), ks) == Err(e)
    decreases |ks|
  {
    if ks != [] {
      FailureStands(config, env, e, ks[1..]);
    }
  }

  /** Running blocks `ks` then blocks `ls` is running blocks `ks + ls`. */
  lemma {:induction false} BlocksSplit(config: ProviderConfig, env: DiscoveryEnv, acc: Result<seq<Entity>>, ks: seq<Kind>, ls: seq<Kind>)
    ensures Blocks(config, env, acc, ks + ls) == Blocks(config, env, Blocks(config, env, acc, ks), ls)
    decreases |ks|
  {
    if ks == [] {
      assert ks + ls == ls;
    } else {
      assert (ks + ls)[0] == ks[0] && (ks + ls)[1..] == ks[1..] + ls;
      BlocksSplit(config, env, Step(config, acc, ks[0], KindEntities(config, env, ks[0])), ks[1..], ls);
    }
  }

  /** The blocks fail exactly when the list call of some enabled kind fails,
      and then with the error of the first such kind. */
  lemma {:induction false} BlocksFailure(config: ProviderConfig, env: DiscoveryEnv, entities: seq<Entity>, ks: seq<Kind>)
    ensures Blocks(config, env, Ok(entities), ks).Err?
        <==> exists i :: 0 <= i < |ks| && Enabled(config, ks[i]) && ListFailed(env, ks[i])
    ensures Blocks(config, env, Ok(entities), ks).Err? ==>
      exists i :: 0 <= i < |ks| && Enabled(config, ks[i])
        && KindEntities(config, env, ks[i]) == Err(Blocks(config, env, Ok(entities), ks).error)
        && forall j :: 0 <= j < i && Enabled(config, ks[j]) ==> !ListFailed(env, ks[j])
    decreases |ks|
  {
    if ks != [] {
      var k, rest := ks[0], ks[1..];
      assert forall i :: 0 <= i < |rest| ==> rest[i] == ks[i + 1];
      KindFailsOnlyOnList(config, env, k);
      var next := Step(config, Ok(entities), k, KindEntities(config, env, k));
      if next.Err? {
        FailureStands(config, env, next.error, rest);
      } else {
        BlocksFailure(config, env, next.value, rest);
        if Blocks(config, env, Ok(entities), ks).Err? {
          var i :| 0 <= i < |rest| && Enabled(config, rest[i])
            && KindEntities(config, env, rest[i]) == Err(Blocks(config, env, next, rest).error)
            && forall j :: 0 <= j < i && Enabled(config, rest[j]) ==> !ListFailed(env, rest[j]);
          assert ks[i + 1] == rest[i];
        }
      }
    }
  }

  /** Entities only accumulate: what came before is a prefix of what the
      blocks produce, when they succeed. */
  lemma {:induction false} BlocksGrow(config: ProviderConfig, env: DiscoveryEnv, entities: seq<Entity>, ks: seq<Kind>)
    requires Blocks(config, env, Ok(entities), ks).Ok?
    ensures entities <= Blocks(config, env, Ok(entities), ks).value
    decreases |ks|
  {
    if ks != [] {
      var next := Step(config, Ok(entities), ks[0], KindEntities(config, env, ks[0]));
      if next.Err? {
        FailureStands(config, env, next.error, ks[1..]);
      } else {
        BlocksGrow(config, env, next.value, ks[1..]);
      }
    }
  }

  /** What the blocks for the first `n` kinds found is a prefix of what all
      of them find, when those succeed. */
  lemma BlocksPrefix(config: ProviderConfig, env: DiscoveryEnv, entities: seq<Entity>, ks: seq<Kind>, n: nat)
    requires n <= |ks| && Blocks(config, env, Ok(entities), ks).Ok?
    ensures Blocks(config, env, Ok(entities), ks[..n]).Ok?
    ensures Blocks(config, env, Ok(entities), ks[..n]).value <= Blocks(config, env, Ok(entities), ks).value
  {
    var front, back := ks[..n], ks[n..];
    assert front + back == ks;
    BlocksSplit(config, env, Ok(entities), front, back);
    var mid := Blocks(config, env, Ok(entities), front);
    if mid.Err? {
      FailureStands(config, env, mid.error, back);
    } else {
      BlocksGrow(config, env, mid.value, back);
    }
  }

  /** Every entity the blocks add is a resource of an enabled kind. */
  lemma {:induction false} BlocksAddResources(config: ProviderConfig, env: DiscoveryEnv, entities: seq<Entity>, ks: seq<Kind>, e: Entity)
    requires Blocks(config, env, Ok(entities), ks).Ok? && e in Blocks(config, env, Ok(entities), ks).value
    ensures e in entities || exists k, id :: Enabled(config, k) && IsResourceOf(MapperConfig(config), e, k, id)
    decreases |ks|
  {
    if ks != [] {
      var next := Step(config, Ok(entities), ks[0], KindEntities(config, env, ks[0]));
      if next.Err? {
        FailureStands(config, env, next.error, ks[1..]);
      } else {
        BlocksAddResources(config, env, next.value, ks[1..], e);
        if e in next.value && e !in entities {
          var more := KindEntities(config, env, ks[0]).value;
          assert next.value == entities + more;
          KindProvenance(config, env, ks[0], e);
        }
      }
    }
  }

  /** Every discovered entity is a resource of an enabled kind. */
  lemma DiscoveredAreResources(config: ProviderConfig, env: DiscoveryEnv, e: Entity)
    requires Discovery(config, env).Ok? && e in Discovery(config, env).value
    ensures exists k, id :: Enabled(config, k) && IsResourceOf(MapperConfig(config), e, k, id)
  {
    BlocksAddResources(config, env, [], KindOrder, e);
  }

  /** Discovery fails exactly when the list call of some enabled kind fails. */
  lemma DiscoveryFailsOnlyOnLists(config: ProviderConfig, env: DiscoveryEnv)
    ensures Discovery(config, env).Err? <==> exists k :: Enabled(config, k) && ListFailed(env, k)
  {
    BlocksFailure(config, env, [], KindOrder);
    if exists k :: Enabled(config, k) && ListFailed(env, k) {
      var k :| Enabled(config, k) && ListFailed(env, k);
      KindOrderComplete(k);
    }
  }

  /** Entities of two different kinds never share a name: the name stems
      keep the kinds apart, whatever the identifiers. */
  lemma KindsNeverCollide(config: ProviderConfig, env: DiscoveryEnv, k1: Kind, k2: Kind, e1: Entity, e2: Entity)
    requires k1 != k2
    requires KindEntities(config, env, k1).Ok? && e1 in KindEntities(config, env, k1).value
    requires KindEntities(config, env, k2).Ok? && e2 in KindEntities(config, env, k2).value
    ensures e1.metadata.name != e2.metadata.name
  {
    var mc := MapperConfig(config);
    KindProvenance(config, env, k1, e1);
    KindProvenance(config, env, k2, e2);
    var id1 :| IsResourceOf(mc, e1, k1, id1);
    var id2 :| IsResourceOf(mc, e2, k2, id2);
    NamesDistinctAcrossKinds(k1, id1, k2, id2);
  }

  /** The discovery call of one guarded block of `run()`: `discoverWorkers()`
      for Workers, and so on. */
  method DiscoverKind(config: ProviderConfig, env: DiscoveryEnv, k: Kind) returns (r: Result<seq<Entity>>)
    ensures r == KindEntities(config, env, k)
  {
    var mc := MapperConfig(config);
    match k
    case Workers => r := DiscoverWorkers(mc, env);
    case Pages => r := DiscoverPages(mc, env);
    case R2 => r := DiscoverR2(mc, env);
    case D1 => r := DiscoverD1(mc, env);
    case KV => r := DiscoverKV(mc, env);
    case Queues => r := DiscoverQueues(mc, env);
    case AIGateway => r := DiscoverAIGateway(mc, env);
    case Vectorize => r := DiscoverVectorize(mc, env);
    case Workflows => r := DiscoverWorkflows(mc, env);
    case DurableObjects => r := DiscoverDurableObjects(mc, env);
    case AISearch => r := DiscoverAISearch(mc, env);
  }

  /** The guarded blocks of `run()`, up to the mutation, one pass per kind in
      `KindOrder`: an enabled kind is discovered and its entities appended;
      the first failure is rethrown. */
  method DiscoverAll(config: ProviderConfig, env: DiscoveryEnv) returns (r: Result<seq<Entity>>)
    ensures r == Discovery(config, env)
  {
    var entities: seq<Entity> := [];
    for i := 0 to |KindOrder|
      invariant Blocks(config, env, Ok(entities), KindOrder[i..]) == Discovery(config, env)
    {
      var k := KindOrder[i];
      BlocksStep(config, env, Ok(entities), KindOrder[i..]);
      if Enabled(config, k) {
        var found := DiscoverKind(config, env, k);
        if found.Err? {
          FailureStands(config, env, found.error, KindOrder[i + 1..]);
          return Err(found.error);
        }
        entities := entities + found.value;
      }
      assert KindOrder[i..][1..] == KindOrder[i + 1..];
    }
    return Ok(entities);
  }

  /** `{ entity, locationKey }` */
  datatype DeferredEntity = DeferredEntity(entity: Entity, locationKey: string)

  /** `{ type: 'full', entities }`: replaces everything this provider owns. */
  datatype Mutation = FullMutation(entities: seq<DeferredEntity>)

  /** The mutation `run` applies for the entities it found: one entry per
      entity, in order, each under the provider's name. */
  function FullMutationOf(accountId: string, entities: seq<Entity>): (m: Mutation)
    ensures |m.entities| == |entities|
    ensures forall i :: 0 <= i < |entities| ==>
      m.entities[i].entity == entities[i] && m.entities[i].locationKey == ProviderName(accountId)
  {
    FullMutation(seq(|entities|, i requires 0 <= i < |entities| => DeferredEntity(entities[i], ProviderName(accountId))))
  }

  /** The catalog connection `connect` receives. */
  datatype Connection = Connection(id: nat)

  /** A task handed to the scheduler: its id and its timing. */
  datatype ScheduledTask = ScheduledTask(id: string, schedule: Schedule)

  class CloudflareEntityProvider {
    const config: ProviderConfig
    /** Whether a scheduler was passed to the constructor. */
    const hasScheduler: bool
    var connection: Option<Connection>
    /** The tasks handed to the scheduler, oldest first. */
    var scheduled: seq<ScheduledTask>
    /** The mutations handed to `applyMutation`, oldest first. */
    ghost var mutations: seq<Mutation>

    constructor(config: ProviderConfig, hasScheduler: bool)
      ensures this.config == config && this.hasScheduler == hasScheduler
      ensures connection == None && scheduled == [] && mutations == []
    {
      this.config := config;
      this.hasScheduler := hasScheduler;
      connection := None;
      scheduled := [];
      mutations := [];
    }

    /** `connect(connection)`: stores the connection; with a scheduler and a
        schedule, schedules a task named after the provider. */
    method Connect(c: Connection)
      modifies this
      ensures connection == Some(c)
      ensures scheduled == old(scheduled)
        + (if hasScheduler && config.schedule.Some? then [ScheduledTask(ProviderName(config.accountId), config.schedule.value)] else [])
      ensures mutations == old(mutations)
    {
      connection := Some(c);
      if hasScheduler && config.schedule.Some? {
        scheduled := scheduled + [ScheduledTask(ProviderName(config.accountId), config.schedule.value)];
      }
    }

    /** `applyMutation({ type: 'full', entities })` after the entities are
        wrapped with this provider's location key; its failure is rethrown. */
    method ApplyFullMutation(entities: seq<Entity>, applyError: Option<Error>) returns (r: Result<()>)
      modifies this
      ensures connection == old(connection) && scheduled == old(scheduled)
      ensures mutations == old(mutations) + [FullMutationOf(config.accountId, entities)]
      ensures r == if applyError.Some? then Err(applyError.value) else Ok(())
    {
      mutations := mutations + [FullMutationOf(config.accountId, entities)];
      r := if applyError.Some? then Err(applyError.value) else Ok(());
    }

    /** `run()`. `applyError` is what `applyMutation` throws, if anything.
        Without a connection: `Not initialized` and no mutation. Otherwise
        the enabled kinds are discovered in order; a list failure is
        rethrown before any mutation; else exactly one full mutation is
        applied, and its failure is rethrown. */
    method Run(env: DiscoveryEnv, applyError: Option<Error>) returns (r: Result<()>)
      modifies this
      ensures connection == old(connection) && scheduled == old(scheduled)
      ensures old(connection).None? ==> r == Err(NotInitialized) && mutations == old(mutations)
      ensures old(connection).Some? ==>
        var d := Discovery(config, env);
        && (d.Err? ==> r == Err(d.error) && mutations == old(mutations))
        && (d.Ok? ==> mutations == old(mutations) + [FullMutationOf(config.accountId, d.value)])
        && (d.Ok? && applyError.None? ==> r == Ok(()))
        && (d.Ok? && applyError.Some? ==> r == Err(applyError.value))
    {
      if connection.None? {
        return Err(NotInitialized);
      }
      var found := DiscoverAll(config, env);
      match found
      case Err(e) =>
        r := Err(e);
      case Ok(entities) =>
        r := ApplyFullMutation(entities, applyError);
    }
  }
}

/** The entity mappers: each turns one provider record (and, for workers,
    Pages projects and R2 buckets, an optional enrichment) into a catalog
    `Resource` entity. `createBaseEntity` builds the common part; every mapper
    then completes `spec.parameters`. */
module Mappers {
  import opened Common
  import opened Types
  import opened Naming

  /** The eleven kinds of resource the provider discovers, one mapper each. */
  datatype Kind =
    | Workers | Pages | R2 | D1 | KV | Queues
    | AIGateway | Vectorize | Workflows | DurableObjects | AISearch

  /** The name of an entity of kind `k` is `sanitizeName(Stem(k) + "-" + identifier)`. */
  function Stem(k: Kind): string {
    match k
    case Workers => "cf-worker"
    case Pages => "cf-pages"
    case R2 => "cf-r2"
    case D1 => "cf-d1"
    case KV => "cf-kv"
    case Queues => "cf-queue"
    case AIGateway => "cf-ai-gateway"
    case Vectorize => "cf-vectorize"
    case Workflows => "cf-workflow"
    case DurableObjects => "cf-do"
    case AISearch => "cf-ai-search"
  }

  /** The fixed `spec.type` of each mapper. */
  function TypeName(k: Kind): string {
    match k
    case Workers => "cloudflare-worker"
    case Pages => "cloudflare-pages"
    case R2 => "cloudflare-r2"
    case D1 => "cloudflare-d1"
    case KV => "cloudflare-kv"
    case Queues => "cloudflare-queue"
    case AIGateway => "cloudflare-ai-gateway"
    case Vectorize => "cloudflare-vectorize"
    case Workflows => "cloudflare-workflow"
    case DurableObjects => "cloudflare-durable-object"
    case AISearch => "cloudflare-ai-search"
  }

  datatype EntityMapperConfig = EntityMapperConfig(
    accountId: string,
    defaultOwner: Option<string>,
    defaultSystem: Option<string>)

  datatype Metadata = Metadata(
    name: string,
    description: string,
    tags: seq<string>,
    annotations: map<string, string>)

  /** `system` is `None` when the object has no `system` key. */
  datatype EntitySpec = EntitySpec(
    resourceType: string,
    owner: string,
    system: Option<string>,
    parameters: map<string, Value>)

  datatype Entity = Entity(apiVersion: string, kind: string, metadata: Metadata, spec: EntitySpec)

  const ApiVersion := "backstage.io/v1alpha1"
  const AccountAnnotation := "cloudflare.com/account-id"

  /** `defaultOwner || 'unknown'` */
  function Owner(config: EntityMapperConfig): (owner: string)
    ensures owner != ""
    ensures TruthyString(config.defaultOwner) ==> owner == config.defaultOwner.value
  {
    if TruthyString(config.defaultOwner) then config.defaultOwner.value else "unknown"
  }

  /** `...(defaultSystem ? { system: defaultSystem } : {})` */
  function System(config: EntityMapperConfig): (system: Option<string>)
    ensures system.Some? <==> TruthyString(config.defaultSystem)
    ensures system.Some? ==> system == config.defaultSystem && system.value != ""
  {
    if TruthyString(config.defaultSystem) then config.defaultSystem else None
  }

  /** `createBaseEntity(kind, type, name, description?, tags?)` */
  function CreateBaseEntity(
    config: EntityMapperConfig, kind: string, resourceType: string, name: string,
    description: Option<string>, tags: Option<seq<string>>): (e: Entity)
    ensures e.apiVersion == ApiVersion && e.kind == kind && e.spec.resourceType == resourceType
    ensures e.metadata.name == SanitizeName(name) && IsSanitized(e.metadata.name)
    ensures TruthyString(description) ==> e.metadata.description == description.value
    ensures !TruthyString(description) ==> e.metadata.description == ""
    ensures tags.None? ==> e.metadata.tags == []
    ensures tags.Some? ==> e.metadata.tags == tags.value
    ensures e.metadata.annotations == map[AccountAnnotation := config.accountId]
    ensures e.spec.owner != ""
    ensures !TruthyString(config.defaultOwner) ==> e.spec.owner == "unknown"
    ensures TruthyString(config.defaultOwner) ==> e.spec.owner == config.defaultOwner.value
    ensures e.spec.system.Some? <==> TruthyString(config.defaultSystem)
    ensures e.spec.system.Some? ==> e.spec.system == config.defaultSystem
    ensures e.spec.parameters == map[]
  {
    Entity(
      ApiVersion,
      kind,
      Metadata(
        SanitizeName(name),
        if TruthyString(description) then description.value else "",
        tags.GetOr([]),
        map[AccountAnnotation := config.accountId]),
      EntitySpec(resourceType, Owner(config), System(config), map[]))
  }

  /** What every mapper guarantees of the entity it returns for a record of
      kind `k` whose identifier is `id`. */
  predicate IsResourceOf(config: EntityMapperConfig, e: Entity, k: Kind, id: string) {
    && e.apiVersion == ApiVersion
    && e.kind == "Resource"
    && e.spec.resourceType == TypeName(k)
    && e.metadata.name == SanitizeName(Stem(k) + "-" + id)
    && e.metadata.annotations == map[AccountAnnotation := config.accountId]
    && e.spec.owner == Owner(config)
    && e.spec.system == System(config)
    && "accountId" in e.spec.parameters
    && e.spec.parameters["accountId"] == Str(config.accountId)
  }

  /** What every mapper does: `createBaseEntity('Resource', TypeName(k),
      Stem(k) + '-' + id, description, tags)` with `spec.parameters` then
      filled in. */
  function ResourceEntity(
    config: EntityMapperConfig, k: Kind, id: string, description: string, tags: seq<string>,
    parameters: map<string, Value>): (e: Entity)
    requires "accountId" in parameters && parameters["accountId"] == Str(config.accountId)
    ensures IsResourceOf(config, e, k, id)
    ensures e.spec.parameters == parameters
    ensures description != "" ==> e.metadata.description == description
    ensures e.metadata.tags == tags
  {
    var base := CreateBaseEntity(config, "Resource", TypeName(k), Stem(k) + "-" + id, Some(description), Some(tags));
    base.(spec := base.spec.(parameters := parameters))
  }

  /** `{ key: v }` when the optional enrichment is there, `{}` otherwise:
      the spread `...(x && { key: v })`. */
  function Enrichment(key: string, present: bool, v: Value): map<string, Value> {
    if present then map[key := v] else map[]
  }

  function WorkerDeploymentValue(d: CfWorkerDeployment): Value {
    var commitSha := if d.metadata.Some? then d.metadata.value.commitSha else None;
    var ciRunUrl := if d.metadata.Some? then d.metadata.value.ciRunUrl else None;
    Obj(map[
      "id" := Str(d.id),
      "createdOn" := OptNum(d.createdOn),
      "commitSha" := OptStr(commitSha),
      "ciRunUrl" := OptStr(ciRunUrl)])
  }

  function PagesDeploymentValue(d: CfPagesDeployment): Value {
    var meta := if d.deploymentTrigger.Some? then d.deploymentTrigger.value.metadata else None;
    Obj(map[
      "id" := Str(d.id),
      "environment" := Str(d.environment),
      "createdOn" := Num(d.createdOn),
      "url" := OptStr(d.url),
      "commitHash" := OptStr(if meta.Some? then meta.value.commitHash else None),
      "branch" := OptStr(if meta.Some? then meta.value.branch else None)])
  }

  function LifecycleValue(l: CfR2Lifecycle): Value {
    Obj(map["rules" := Arr(l.rules)])
  }

  /** `WorkerEntityMapper.map(script, deployment?)` */
  function MapWorker(config: EntityMapperConfig, script: CfWorkerScript, deployment: Option<CfWorkerDeployment>): (r: Option<Entity>)
    ensures r.Some? && IsResourceOf(config, r.value, Workers, script.id)
    ensures r.value.spec.parameters.Keys
         == {"accountId", "scriptName", "usageModel"} + (if deployment.Some? then {"lastDeployment"} else {})
    ensures r.value.spec.parameters["scriptName"] == Str(script.id)
    ensures deployment.Some? ==> r.value.spec.parameters["lastDeployment"] == WorkerDeploymentValue(deployment.value)
  {
    var lastDeployment := if deployment.Some? then WorkerDeploymentValue(deployment.value) else Undefined;
    Some(ResourceEntity(config, Workers, script.id,
      "Cloudflare Worker: " + script.id, ["cloudflare", "worker"],
      map[
        "accountId" := Str(config.accountId),
        "scriptName" := Str(script.id),
        "usageModel" := OptStr(script.usageModel)]
      + Enrichment("lastDeployment", deployment.Some?, lastDeployment)))
  }

  /** The parameters `PagesEntityMapper.map` always sets; missing domains
      become `[]`. */
  function PagesParameters(config: EntityMapperConfig, project: CfPagesProject): (m: map<string, Value>)
    ensures m.Keys == {"accountId", "projectName", "subdomain", "domains", "productionBranch"}
    ensures m["accountId"] == Str(config.accountId) && m["projectName"] == Str(project.name)
    ensures project.domains.None? ==> m["domains"] == Arr([])
  {
    map[
      "accountId" := Str(config.accountId),
      "projectName" := Str(project.name),
      "subdomain" := OptStr(project.subdomain),
      "domains" := Strs(project.domains.GetOr([])),
      "productionBranch" := OptStr(project.productionBranch)]
  }

  /** `PagesEntityMapper.map(project, deployment?)` */
  function MapPages(config: EntityMapperConfig, project: CfPagesProject, deployment: Option<CfPagesDeployment>): (r: Option<Entity>)
    ensures r.Some? && IsResourceOf(config, r.value, Pages, project.name)
    ensures r.value.spec.parameters.Keys
         == {"accountId", "projectName", "subdomain", "domains", "productionBranch"}
            + (if deployment.Some? then {"lastDeployment"} else {})
    ensures r.value.spec.parameters["projectName"] == Str(project.name)
    ensures project.domains.None? ==> r.value.spec.parameters["domains"] == Arr([])
    ensures deployment.Some? ==> r.value.spec.parameters["lastDeployment"] == PagesDeploymentValue(deployment.value)
  {
    var lastDeployment := if deployment.Some? then PagesDeploymentValue(deployment.value) else Undefined;
    var parameters := PagesParameters(config, project);
    Some(ResourceEntity(config, Pages, project.name,
      "Cloudflare Pages: " + project.name, ["cloudflare", "pages"],
      parameters + Enrichment("lastDeployment", deployment.Some?, lastDeployment)))
  }

  /** `R2EntityMapper.map(bucket, lifecycleRules?)`; the orchestrator passes
      `lifecycle || undefined`, so the rules are present exactly when truthy. */
  function MapR2(config: EntityMapperConfig, bucket: CfR2Bucket, lifecycleRules: Option<CfR2Lifecycle>): (r: Option<Entity>)
    ensures r.Some? && IsResourceOf(config, r.value, R2, bucket.name)
    ensures r.value.spec.parameters.Keys
         == {"accountId", "bucketName", "creationDate"} + (if lifecycleRules.Some? then {"lifecycle"} else {})
    ensures r.value.spec.parameters["bucketName"] == Str(bucket.name)
    ensures lifecycleRules.Some? ==> r.value.spec.parameters["lifecycle"] == LifecycleValue(lifecycleRules.value)
  {
    var lifecycle := if lifecycleRules.Some? then LifecycleValue(lifecycleRules.value) else Undefined;
    Some(ResourceEntity(config, R2, bucket.name,
      "Cloudflare R2 Bucket: " + bucket.name, ["cloudflare", "r2", "storage"],
      map[
        "accountId" := Str(config.accountId),
        "bucketName" := Str(bucket.name),
        "creationDate" := Str(bucket.creationDate)]
      + Enrichment("lifecycle", lifecycleRules.Some?, lifecycle)))
  }

  /** `D1EntityMapper.map(database)`: named after the uuid, not the name. */
  function MapD1(config: EntityMapperConfig, database: CfD1Db): (r: Option<Entity>)
    ensures r.Some? && IsResourceOf(config, r.value, D1, database.uuid)
    ensures r.value.spec.parameters.Keys
         == {"accountId", "uuid", "name", "createdAt", "version", "numTables", "fileSize"}
    ensures r.value.spec.parameters["uuid"] == Str(database.uuid)
  {
    Some(ResourceEntity(config, D1, database.uuid,
      "Cloudflare D1 Database: " + database.name, ["cloudflare", "d1", "database"],
      map[
        "accountId" := Str(config.accountId),
        "uuid" := Str(database.uuid),
        "name" := Str(database.name),
        "createdAt" := Str(database.createdAt),
        "version" := OptStr(database.version),
        "numTables" := OptNum(database.numTables),
        "fileSize" := OptNum(database.fileSize)]))
  }

  /** `KVEntityMapper.map(namespace)`: named after the namespace id. */
  function MapKV(config: EntityMapperConfig, namespace: CfKvNamespace): (r: Option<Entity>)
    ensures r.Some? && IsResourceOf(config, r.value, KV, namespace.id)
    ensures r.value.spec.parameters.Keys == {"accountId", "namespaceId", "title", "keysApprox"}
    ensures r.value.spec.parameters["namespaceId"] == Str(namespace.id)
  {
    Some(ResourceEntity(config, KV, namespace.id,
      "Cloudflare KV Namespace: " + namespace.title, ["cloudflare", "kv", "storage"],
      map[
        "accountId" := Str(config.accountId),
        "namespaceId" := Str(namespace.id),
        "title" := Str(namespace.title),
        "keysApprox" := OptNum(namespace.keysApprox)]))
  }

  /** `QueueEntityMapper.map(queue)`: producers and consumers default to `[]`. */
  function MapQueue(config: EntityMapperConfig, queue: CfQueue): (r: Option<Entity>)
    ensures r.Some? && IsResourceOf(config, r.value, Queues, queue.queueName)
    ensures r.value.spec.parameters.Keys
         == {"accountId", "queueName", "queueId", "createdOn", "modifiedOn", "producers", "consumers"}
    ensures queue.producers.None? ==> r.value.spec.parameters["producers"] == Arr([])
    ensures queue.consumers.None? ==> r.value.spec.parameters["consumers"] == Arr([])
  {
    var producers := Strs(queue.producers.GetOr([]));
    var consumers := Strs(queue.consumers.GetOr([]));
    Some(ResourceEntity(config, Queues, queue.queueName,
      "Cloudflare Queue: " + queue.queueName, ["cloudflare", "queue"],
      map[
        "accountId" := Str(config.accountId),
        "queueName" := Str(queue.queueName),
        "queueId" := OptStr(queue.queueId),
        "createdOn" := OptStr(queue.createdOn),
        "modifiedOn" := OptStr(queue.modifiedOn),
        "producers" := producers,
        "consumers" := consumers]))
  }

  /** `AIGatewayEntityMapper.map(gateway)`: named after the gateway id. */
  function MapAIGateway(config: EntityMapperConfig, gateway: CfAiGateway): (r: Option<Entity>)
    ensures r.Some? && IsResourceOf(config, r.value, AIGateway, gateway.id)
    ensures r.value.spec.parameters.Keys
         == {"accountId", "gatewayId", "name", "providers", "caching", "retries"}
  {
    Some(ResourceEntity(config, AIGateway, gateway.id,
      "Cloudflare AI Gateway: " + gateway.name, ["cloudflare", "ai-gateway"],
      map[
        "accountId" := Str(config.accountId),
        "gatewayId" := Str(gateway.id),
        "name" := Str(gateway.name),
        "providers" := Strs(gateway.providers),
        "caching" := OptBool(gateway.caching),
        "retries" := OptBool(gateway.retries)]))
  }

  /** `VectorizeEntityMapper.map(index)` */
  function MapVectorize(config: EntityMapperConfig, index: CfVectorizeIndex): (r: Option<Entity>)
    ensures r.Some? && IsResourceOf(config, r.value, Vectorize, index.name)
    ensures r.value.spec.parameters.Keys
         == {"accountId", "indexName", "dimensions", "metric", "vectorCount"}
  {
    Some(ResourceEntity(config, Vectorize, index.name,
      "Cloudflare Vectorize Index: " + index.name, ["cloudflare", "vectorize", "ai"],
      map[
        "accountId" := Str(config.accountId),
        "indexName" := Str(index.name),
        "dimensions" := Num(index.dimensions),
        "metric" := OptStr(index.metric),
        "vectorCount" := OptNum(index.vectorCount)]))
  }

  /** `WorkflowEntityMapper.map(workflow)`: named after the workflow name. */
  function MapWorkflow(config: EntityMapperConfig, workflow: CfWorkflow): (r: Option<Entity>)
    ensures r.Some? && IsResourceOf(config, r.value, Workflows, workflow.name)
    ensures r.value.spec.parameters.Keys
         == {"accountId", "workflowId", "name", "steps", "retryPolicy"}
  {
    Some(ResourceEntity(config, Workflows, workflow.name,
      "Cloudflare Workflow: " + workflow.name, ["cloudflare", "workflow"],
      map[
        "accountId" := Str(config.accountId),
        "workflowId" := OptStr(workflow.id),
        "name" := Str(workflow.name),
        "steps" := OptNum(workflow.steps),
        "retryPolicy" := OptStr(workflow.retryPolicy)]))
  }

  /** `DurableObjectEntityMapper.map(durableObject)`: named after the class. */
  function MapDurableObject(config: EntityMapperConfig, durableObject: CfDurableObject): (r: Option<Entity>)
    ensures r.Some? && IsResourceOf(config, r.value, DurableObjects, durableObject.className)
    ensures r.value.spec.parameters.Keys == {"accountId", "className", "scriptName", "namespace"}
  {
    Some(ResourceEntity(config, DurableObjects, durableObject.className,
      "Cloudflare Durable Object: " + durableObject.className, ["cloudflare", "durable-object"],
      map[
        "accountId" := Str(config.accountId),
        "className" := Str(durableObject.className),
        "scriptName" := OptStr(durableObject.scriptName),
        "namespace" := OptStr(durableObject.namespace)]))
  }

  /** `AISearchEntityMapper.map(index)` */
  function MapAISearch(config: EntityMapperConfig, index: CfAiSearchIndex): (r: Option<Entity>)
    ensures r.Some? && IsResourceOf(config, r.value, AISearch, index.name)
    ensures r.value.spec.parameters.Keys
         == {"accountId", "indexName", "connectors", "lastCrawlAt", "documentCount"}
  {
    Some(ResourceEntity(config, AISearch, index.name,
      "Cloudflare AI Search: " + index.name, ["cloudflare", "ai-search"],
      map[
        "accountId" := Str(config.accountId),
        "indexName" := Str(index.name),
        "connectors" := Strs(index.connectors),
        "lastCrawlAt" := OptStr(index.lastCrawlAt),
        "documentCount" := OptNum(index.documentCount)]))
  }

  /** Two entities agree everywhere except on parameter `key`, which only
      the first has. */
  predicate OnlyAddsKey(with: Entity, without: Entity, key: string) {
    && with.apiVersion == without.apiVersion
    && with.kind == without.kind
    && with.metadata == without.metadata
    && with.spec.(parameters := map[]) == without.spec.(parameters := map[])
    && key in with.spec.parameters
    && key !in without.spec.parameters
    && with.spec.parameters - {key} == without.spec.parameters
  }

  /** An enrichment spread over parameters that lack its key adds that key
      and changes nothing else of the entity. */
  lemma EnrichmentOnlyAddsKey(
    config: EntityMapperConfig, k: Kind, id: string, description: string, tags: seq<string>,
    parameters: map<string, Value>, key: string, v: Value)
    requires "accountId" in parameters && parameters["accountId"] == Str(config.accountId)
    requires key !in parameters
    ensures OnlyAddsKey(
      ResourceEntity(config, k, id, description, tags, parameters + Enrichment(key, true, v)),
      ResourceEntity(config, k, id, description, tags, parameters + Enrichment(key, false, v)),
      key)
  {
    assert parameters + Enrichment(key, false, v) == parameters;
    assert (parameters + Enrichment(key, true, v)) - {key} == parameters;
  }

  /** A deployment only adds `lastDeployment`; every other key is as without it. */
  lemma WorkerEnrichmentOnlyAddsKey(config: EntityMapperConfig, script: CfWorkerScript, d: CfWorkerDeployment)
    ensures OnlyAddsKey(MapWorker(config, script, Some(d)).value, MapWorker(config, script, None).value, "lastDeployment")
  {
    EnrichmentOnlyAddsKey(config, Workers, script.id, "Cloudflare Worker: " + script.id, ["cloudflare", "worker"],
      map["accountId" := Str(config.accountId), "scriptName" := Str(script.id), "usageModel" := OptStr(script.usageModel)],
      "lastDeployment", WorkerDeploymentValue(d));
  }

  /** A deployment only adds `lastDeployment`; every other key is as without it. */
  lemma PagesEnrichmentOnlyAddsKey(config: EntityMapperConfig, project: CfPagesProject, d: CfPagesDeployment)
    ensures OnlyAddsKey(MapPages(config, project, Some(d)).value, MapPages(config, project, None).value, "lastDeployment")
  {
    EnrichmentOnlyAddsKey(config, Pages, project.name, "Cloudflare Pages: " + project.name, ["cloudflare", "pages"],
      PagesParameters(config, project), "lastDeployment", PagesDeploymentValue(d));
  }

  /** Lifecycle rules only add `lifecycle`; every other key is as without them. */
  lemma R2EnrichmentOnlyAddsKey(config: EntityMapperConfig, bucket: CfR2Bucket, l: CfR2Lifecycle)
    ensures OnlyAddsKey(MapR2(config, bucket, Some(l)).value, MapR2(config, bucket, None).value, "lifecycle")
  {
    EnrichmentOnlyAddsKey(config, R2, bucket.name, "Cloudflare R2 Bucket: " + bucket.name, ["cloudflare", "r2", "storage"],
      map["accountId" := Str(config.accountId), "bucketName" := Str(bucket.name), "creationDate" := Str(bucket.creationDate)],
      "lifecycle", LifecycleValue(l));
  }

  /** No stem is a prefix of another: characters 3 and 4 tell the stems
      apart, except `cf-worker`/`cf-workflow` (character 7) and
      `cf-ai-gateway`/`cf-ai-search` (character 6). */
  lemma StemsPrefixFree(k1: Kind, k2: Kind)
    requires k1 != k2
    ensures !(Stem(k1) <= Stem(k2))
  {
    var s1, s2 := Stem(k1), Stem(k2);
    if |s1| <= |s2| {
      var i := if s1[3] != s2[3] then 3 else if s1[4] != s2[4] then 4 else if s1[3] == 'w' then 7 else 6;
      assert i < |s1| && s1[i] != s2[i];
    }
  }

  lemma StemIsSanitized(k: Kind)
    ensures IsSanitized(Stem(k)) && Stem(k) != []
  {
  }

  /** Entities of two different kinds never share a name, whatever their
      identifiers; within one kind they can (see `Naming.SanitizeNotInjective`). */
  lemma NamesDistinctAcrossKinds(k1: Kind, id1: string, k2: Kind, id2: string)
    requires k1 != k2
    ensures SanitizeName(Stem(k1) + "-" + id1) != SanitizeName(Stem(k2) + "-" + id2)
  {
    StemIsSanitized(k1);
    StemIsSanitized(k2);
    StemsPrefixFree(k1, k2);
    StemsPrefixFree(k2, k1);
    DistinctStemsDistinctNames(Stem(k1), id1, Stem(k2), id2);
  }
}

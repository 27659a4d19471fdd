/** The record shapes of the provider API that the core reads. Optional
    fields are `Option`s; timestamps that the code compares (deployment
    creation times) are integers; other timestamps stay strings. Only the
    fields that some client or mapper reads are kept. */
module Types {
  import opened Common

  datatype CfWorkerScript = CfWorkerScript(id: string, usageModel: Option<string>)

  datatype DeploymentMetadata = DeploymentMetadata(commitSha: Option<string>, ciRunUrl: Option<string>)

  datatype CfWorkerDeployment = CfWorkerDeployment(
    id: string,
    createdOn: Option<int>,
    metadata: Option<DeploymentMetadata>)

  datatype CfPagesProject = CfPagesProject(
    name: string,
    subdomain: Option<string>,
    domains: Option<seq<string>>,
    productionBranch: Option<string>)

  datatype TriggerMetadata = TriggerMetadata(branch: Option<string>, commitHash: Option<string>)

  datatype DeploymentTrigger = DeploymentTrigger(metadata: Option<TriggerMetadata>)

  datatype CfPagesDeployment = CfPagesDeployment(
    id: string,
    environment: string,
    url: Option<string>,
    createdOn: int,
    deploymentTrigger: Option<DeploymentTrigger>)

  datatype CfR2Bucket = CfR2Bucket(name: string, creationDate: string)

  /** The `result` of the bucket list endpoint: `{ buckets }`. */
  datatype CfR2BucketList = CfR2BucketList(buckets: Option<seq<CfR2Bucket>>)

  /** A lifecycle configuration; its rules are carried as opaque JSON. */
  datatype CfR2Lifecycle = CfR2Lifecycle(rules: seq<Value>)

  datatype CfD1Db = CfD1Db(
    uuid: string,
    name: string,
    version: Option<string>,
    numTables: Option<int>,
    fileSize: Option<int>,
    createdAt: string)

  datatype CfKvNamespace = CfKvNamespace(id: string, title: string, keysApprox: Option<int>)

  datatype CfKvKey = CfKvKey(name: string)

  datatype CfQueue = CfQueue(
    queueId: Option<string>,
    queueName: string,
    createdOn: Option<string>,
    modifiedOn: Option<string>,
    producers: Option<seq<string>>,
    consumers: Option<seq<string>>)

  datatype CfAiGateway = CfAiGateway(
    id: string,
    name: string,
    providers: seq<string>,
    caching: Option<bool>,
    retries: Option<bool>)

  datatype CfVectorizeIndex = CfVectorizeIndex(
    name: string,
    dimensions: int,
    metric: Option<string>,
    vectorCount: Option<int>)

  datatype CfAnalyticsDataset = CfAnalyticsDataset(name: string, bindings: seq<string>)

  datatype CfSecretsStore = CfSecretsStore(id: string, name: Option<string>)

  datatype CfHyperdrive = CfHyperdrive(id: string, name: string)

  datatype CfContainerService = CfContainerService(name: string, images: seq<string>)

  datatype CfWorkflow = CfWorkflow(
    id: Option<string>,
    name: string,
    steps: Option<int>,
    retryPolicy: Option<string>)

  datatype CfWorkflowRun = CfWorkflowRun(id: string, status: string)

  datatype CfDurableObject = CfDurableObject(
    className: string,
    scriptName: Option<string>,
    namespace: Option<string>)

  datatype CfAiSearchIndex = CfAiSearchIndex(
    name: string,
    connectors: seq<string>,
    lastCrawlAt: Option<string>,
    documentCount: Option<int>)

  datatype CfBrowserRendering = CfBrowserRendering(pool: Option<string>, quota: Option<string>)

  datatype CfAccessAudit = CfAccessAudit(id: string, action: string, target: string, ts: string)
}

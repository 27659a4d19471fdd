/** `WorkersClient`: scripts and their deployments. `get` stands for
    `this.get` on a given path: the parsed response, or the error `request`
    threw. */
module Workers {
  import opened Common
  import opened Types
  import opened Api
  import opened Selection

  function ScriptsPath(accountId: string): string {
    AccountPath(accountId, "/workers/scripts")
  }

  function ScriptPath(accountId: string, scriptName: string): string {
    AccountPath(accountId, "/workers/scripts/" + scriptName)
  }

  function DeploymentsPath(accountId: string, scriptName: string): string {
    AccountPath(accountId, "/workers/scripts/" + scriptName + "/deployments")
  }

  /** `listScripts()`: errors propagate; a missing `result` gives `[]`. */
  function ListScripts(accountId: string, get: string -> Fetch<seq<CfWorkerScript>>): (r: Result<seq<CfWorkerScript>>)
    ensures var f := get(ScriptsPath(accountId));
      && (r.Err? <==> f.Err?)
      && (f.Err? ==> r.error == f.error)
      && (f.Ok? ==> r.value == f.value.result.GetOr([]))
  {
    ListOrFail(get(ScriptsPath(accountId)))
  }

  /** `getScript(scriptName)`: null on any failure. */
  function GetScript(accountId: string, scriptName: string, get: string -> Fetch<CfWorkerScript>): (r: Option<CfWorkerScript>)
    ensures var f := get(ScriptPath(accountId, scriptName));
      && (r.Some? <==> f.Ok? && f.value.result.Some?)
      && (r.Some? ==> r.value == f.value.result.value)
  {
    ItemOrNull(get(ScriptPath(accountId, scriptName)))
  }

  /** `listDeployments(scriptName)`: `[]` on any failure or a missing `result`. */
  function ListDeployments(accountId: string, scriptName: string, get: string -> Fetch<seq<CfWorkerDeployment>>): (r: seq<CfWorkerDeployment>)
    ensures var f := get(DeploymentsPath(accountId, scriptName));
      && (f.Err? ==> r == [])
      && (f.Ok? ==> r == f.value.result.GetOr([]))
  {
    ListOrEmpty(get(DeploymentsPath(accountId, scriptName)))
  }

  /** `new Date(d.created_on || 0).getTime()`: a missing creation time counts
      as time 0. */
  function CreatedOnKey(d: CfWorkerDeployment): int {
    d.createdOn.GetOr(0)
  }

  /** `getLatestDeployment(scriptName)`: null when there is no deployment,
      otherwise the deployment whose creation time is the greatest, the first
      one in response order among equals. */
  function GetLatestDeployment(accountId: string, scriptName: string, get: string -> Fetch<seq<CfWorkerDeployment>>): (r: Option<CfWorkerDeployment>)
    ensures var ds := ListDeployments(accountId, scriptName, get);
      && (r.None? <==> ds == [])
      && (r.Some? ==> exists i: nat :: IsFirstMax(ds, CreatedOnKey, i) && r.value == ds[i])
  {
    var ds := ListDeployments(accountId, scriptName, get);
    if |ds| == 0 then None else Some(Latest(ds, CreatedOnKey))
  }
}

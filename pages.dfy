/** `PagesClient`: projects and their deployments. */
module Pages {
  import opened Common
  import opened Types
  import opened Api
  import opened Selection
  import opened Encoding

  function ProjectsPath(accountId: string): string {
    AccountPath(accountId, "/pages/projects")
  }

  function ProjectPath(accountId: string, projectName: string): string {
    AccountPath(accountId, "/pages/projects/" + projectName)
  }

  /** `.../deployments?page=${page}&per_page=${perPage}` */
  function DeploymentsPath(accountId: string, projectName: string, page: int, perPage: int): string {
    AccountPath(accountId, "/pages/projects/" + projectName + "/deployments?page=" + IntToString(page)
      + "&per_page=" + IntToString(perPage))
  }

  function DeploymentPath(accountId: string, projectName: string, deploymentId: string): string {
    AccountPath(accountId, "/pages/projects/" + projectName + "/deployments/" + deploymentId)
  }

  const DefaultPage := 1
  const DefaultPerPage := 25

  /** `listProjects()`: errors propagate; a missing `result` gives `[]`. */
  function ListProjects(accountId: string, get: string -> Fetch<seq<CfPagesProject>>): (r: Result<seq<CfPagesProject>>)
    ensures var f := get(ProjectsPath(accountId));
      && (r.Err? <==> f.Err?)
      && (f.Err? ==> r.error == f.error)
      && (f.Ok? ==> r.value == f.value.result.GetOr([]))
  {
    ListOrFail(get(ProjectsPath(accountId)))
  }

  /** `getProject(projectName)`: null on any failure. */
  function GetProject(accountId: string, projectName: string, get: string -> Fetch<CfPagesProject>): (r: Option<CfPagesProject>)
    ensures var f := get(ProjectPath(accountId, projectName));
      && (r.Some? <==> f.Ok? && f.value.result.Some?)
      && (r.Some? ==> r.value == f.value.result.value)
  {
    ItemOrNull(get(ProjectPath(accountId, projectName)))
  }

  /** `listDeployments(projectName, page = 1, perPage = 25)`: the page and its
      size go into the path (an omitted argument takes its default); `[]` on
      any failure or a missing `result`. */
  function ListDeployments(
    accountId: string, projectName: string, page: Option<int>, perPage: Option<int>,
    get: string -> Fetch<seq<CfPagesDeployment>>): (r: seq<CfPagesDeployment>)
    ensures var f := get(DeploymentsPath(accountId, projectName, page.GetOr(DefaultPage), perPage.GetOr(DefaultPerPage)));
      && (f.Err? ==> r == [])
      && (f.Ok? ==> r == f.value.result.GetOr([]))
  {
    ListOrEmpty(get(DeploymentsPath(accountId, projectName, page.GetOr(DefaultPage), perPage.GetOr(DefaultPerPage))))
  }

  /** Without paging arguments the path asks for page 1 of 25; the latest
      production deployment is looked up on page 1 of 10. */
  lemma PagingPaths(accountId: string, projectName: string)
    ensures DeploymentsPath(accountId, projectName, DefaultPage, DefaultPerPage)
         == "/accounts/" + accountId + "/pages/projects/" + projectName + "/deployments?page=1&per_page=25"
    ensures DeploymentsPath(accountId, projectName, 1, 10)
         == "/accounts/" + accountId + "/pages/projects/" + projectName + "/deployments?page=1&per_page=10"
  {
    assert IntToString(25) == "25" && IntToString(10) == "10" && IntToString(1) == "1";
  }

  /** `getDeployment(projectName, deploymentId)`: null on any failure. */
  function GetDeployment(accountId: string, projectName: string, deploymentId: string, get: string -> Fetch<CfPagesDeployment>): (r: Option<CfPagesDeployment>)
    ensures var f := get(DeploymentPath(accountId, projectName, deploymentId));
      && (r.Some? <==> f.Ok? && f.value.result.Some?)
      && (r.Some? ==> r.value == f.value.result.value)
  {
    ItemOrNull(get(DeploymentPath(accountId, projectName, deploymentId)))
  }

  predicate IsProduction(d: CfPagesDeployment) {
    d.environment == "production"
  }

  function CreatedOn(d: CfPagesDeployment): int {
    d.createdOn
  }

  /** `getLatestProductionDeployment(projectName)`: looks only at the first
      page of ten deployments; null when none of them is a production
      deployment, otherwise the newest production deployment, the first in
      response order among equals. */
  function GetLatestProductionDeployment(accountId: string, projectName: string, get: string -> Fetch<seq<CfPagesDeployment>>): (r: Option<CfPagesDeployment>)
    ensures var ds := ListDeployments(accountId, projectName, Some(1), Some(10), get);
      && (r.None? <==> forall d :: d in ds ==> !IsProduction(d))
      && (r.Some? ==> exists i: nat :: IsFirstMax(Filter(ds, IsProduction), CreatedOn, i) && r.value == Filter(ds, IsProduction)[i])
  {
    var ds := ListDeployments(accountId, projectName, Some(1), Some(10), get);
    var production := Filter(ds, IsProduction);
    if |production| == 0 then None
    else
      assert production[0] in production;
      Some(Latest(production, CreatedOn))
  }

  /** The deployment found is a production deployment of the first page, no
      production deployment there is newer, and every production deployment
      listed before it is strictly older: ties go to response order. */
  lemma LatestProductionIsNewest(accountId: string, projectName: string, get: string -> Fetch<seq<CfPagesDeployment>>)
    ensures var ds := ListDeployments(accountId, projectName, Some(1), Some(10), get);
      var r := GetLatestProductionDeployment(accountId, projectName, get);
      && (r.Some? ==> IsProduction(r.value) && r.value in ds)
      && (r.Some? ==> forall d :: d in ds && IsProduction(d) ==> d.createdOn <= r.value.createdOn)
      && (r.Some? ==> exists n :: 0 <= n < |ds| && ds[n] == r.value
                       && forall j :: 0 <= j < n && IsProduction(ds[j]) ==> ds[j].createdOn < r.value.createdOn)
  {
    var ds := ListDeployments(accountId, projectName, Some(1), Some(10), get);
    var production := Filter(ds, IsProduction);
    var r := GetLatestProductionDeployment(accountId, projectName, get);
    if r.Some? {
      var i: nat :| IsFirstMax(production, CreatedOn, i) && r.value == production[i];
      assert production[i] in production;
      forall d | d in ds && IsProduction(d) ensures d.createdOn <= r.value.createdOn {
        assert d in production;
        var j :| 0 <= j < |production| && production[j] == d;
        assert CreatedOn(production[j]) <= CreatedOn(production[i]);
      }
      var n := FilterFirstMax(ds, IsProduction, CreatedOn, i);
    }
  }
}

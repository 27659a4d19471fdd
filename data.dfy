/** `D1Client`, `KVClient` and `QueuesClient`. */
module Data {
  import opened Common
  import opened Types
  import opened Api
  import opened Selection
  import opened Encoding

  function DatabasesPath(accountId: string): string {
    AccountPath(accountId, "/d1/database")
  }

  function DatabasePath(accountId: string, databaseId: string): string {
    AccountPath(accountId, "/d1/database/" + databaseId)
  }

  function NamespacesPath(accountId: string): string {
    AccountPath(accountId, "/storage/kv/namespaces")
  }

  function QueuesPath(accountId: string): string {
    AccountPath(accountId, "/queues")
  }

  function QueuePath(accountId: string, queueName: string): string {
    AccountPath(accountId, "/queues/" + queueName)
  }

  /** `listDatabases()`: errors propagate; a missing `result` gives `[]`. */
  function ListDatabases(accountId: string, get: string -> Fetch<seq<CfD1Db>>): (r: Result<seq<CfD1Db>>)
    ensures var f := get(DatabasesPath(accountId));
      && (r.Err? <==> f.Err?)
      && (f.Err? ==> r.error == f.error)
      && (f.Ok? ==> r.value == f.value.result.GetOr([]))
  {
    ListOrFail(get(DatabasesPath(accountId)))
  }

  /** `getDatabase(databaseId)`: null on any failure. */
  function GetDatabase(accountId: string, databaseId: string, get: string -> Fetch<CfD1Db>): (r: Option<CfD1Db>)
    ensures var f := get(DatabasePath(accountId, databaseId));
      && (r.Some? <==> f.Ok? && f.value.result.Some?)
      && (r.Some? ==> r.value == f.value.result.value)
  {
    ItemOrNull(get(DatabasePath(accountId, databaseId)))
  }

  /** `listNamespaces()`: errors propagate; a missing `result` gives `[]`. */
  function ListNamespaces(accountId: string, get: string -> Fetch<seq<CfKvNamespace>>): (r: Result<seq<CfKvNamespace>>)
    ensures var f := get(NamespacesPath(accountId));
      && (r.Err? <==> f.Err?)
      && (f.Err? ==> r.error == f.error)
      && (f.Ok? ==> r.value == f.value.result.GetOr([]))
  {
    ListOrFail(get(NamespacesPath(accountId)))
  }

  /** `getNamespace(namespaceId)`: the first listed namespace with that id;
      null when there is none or the list fails. */
  function GetNamespace(accountId: string, namespaceId: string, get: string -> Fetch<seq<CfKvNamespace>>): (r: Option<CfKvNamespace>)
    ensures var l := ListNamespaces(accountId, get);
      && (r.None? <==> l.Err? || forall ns :: ns in l.value ==> ns.id != namespaceId)
      && (r.Some? ==> l.Ok? && r.value.id == namespaceId)
      && (r.Some? ==> exists i :: 0 <= i < |l.value| && l.value[i] == r.value
                                  && forall j :: 0 <= j < i ==> l.value[j].id != namespaceId)
  {
    match ListNamespaces(accountId, get)
    case Err(_) => None
    case Ok(namespaces) => Find(namespaces, (ns: CfKvNamespace) => ns.id == namespaceId)
  }

  const DefaultKeysLimit := 100

  /** The path `listKeys` requests: `.../keys?limit=${limit}`, then
      `&prefix=` and the encoded prefix when the prefix is not empty;
      `encodeURIComponent` is `encode`, which is not modelled. */
  function KeysPath(accountId: string, namespaceId: string, limit: int, prefix: Option<string>, encode: string -> string): (path: string)
    ensures var base := AccountPath(accountId, "/storage/kv/namespaces/" + namespaceId + "/keys?limit=" + IntToString(limit));
      && (TruthyString(prefix) ==> path == base + "&prefix=" + encode(prefix.value))
      && (!TruthyString(prefix) ==> path == base)
  {
    var path := AccountPath(accountId, "/storage/kv/namespaces/" + namespaceId + "/keys?limit=" + IntToString(limit));
    if TruthyString(prefix) then path + "&prefix=" + encode(prefix.value) else path
  }

  /** Without a limit argument the path asks for 100 keys. */
  lemma DefaultKeysPath(accountId: string, namespaceId: string, encode: string -> string)
    ensures KeysPath(accountId, namespaceId, DefaultKeysLimit, None, encode)
         == "/accounts/" + accountId + "/storage/kv/namespaces/" + namespaceId + "/keys?limit=100"
  {
    assert IntToString(100) == "100";
  }

  /** `listKeys(namespaceId, limit = 100, prefix?)`: `[]` on any failure or a
      missing `result`. */
  function ListKeys(
    accountId: string, namespaceId: string, limit: Option<int>, prefix: Option<string>,
    encode: string -> string, get: string -> Fetch<seq<CfKvKey>>): (r: seq<CfKvKey>)
    ensures var f := get(KeysPath(accountId, namespaceId, limit.GetOr(DefaultKeysLimit), prefix, encode));
      && (f.Err? ==> r == [])
      && (f.Ok? ==> r == f.value.result.GetOr([]))
  {
    ListOrEmpty(get(KeysPath(accountId, namespaceId, limit.GetOr(DefaultKeysLimit), prefix, encode)))
  }

  /** `listQueues()`: errors propagate; a missing `result` gives `[]`. */
  function ListQueues(accountId: string, get: string -> Fetch<seq<CfQueue>>): (r: Result<seq<CfQueue>>)
    ensures var f := get(QueuesPath(accountId));
      && (r.Err? <==> f.Err?)
      && (f.Err? ==> r.error == f.error)
      && (f.Ok? ==> r.value == f.value.result.GetOr([]))
  {
    ListOrFail(get(QueuesPath(accountId)))
  }

  /** `getQueue(queueName)`: null on any failure. */
  function GetQueue(accountId: string, queueName: string, get: string -> Fetch<CfQueue>): (r: Option<CfQueue>)
    ensures var f := get(QueuePath(accountId, queueName));
      && (r.Some? <==> f.Ok? && f.value.result.Some?)
      && (r.Some? ==> r.value == f.value.result.value)
  {
    ItemOrNull(get(QueuePath(accountId, queueName)))
  }
}

/** `R2Client`: buckets, their lifecycle rules and the lifecycle export. */
module R2 {
  import opened Common
  import opened Types
  import opened Api
  import opened Selection
  import opened Encoding

  function BucketsPath(accountId: string): string {
    AccountPath(accountId, "/r2/buckets")
  }

  function LifecyclePath(accountId: string, bucketName: string): string {
    AccountPath(accountId, "/r2/buckets/" + bucketName + "/lifecycle")
  }

  /** `listBuckets()`: `result?.buckets || []`; errors propagate. */
  function ListBuckets(accountId: string, get: string -> Fetch<CfR2BucketList>): (r: Result<seq<CfR2Bucket>>)
    ensures var f := get(BucketsPath(accountId));
      && (r.Err? <==> f.Err?)
      && (f.Err? ==> r.error == f.error)
      && (f.Ok? && f.value.result.Some? && f.value.result.value.buckets.Some? ==> r.value == f.value.result.value.buckets.value)
      && (f.Ok? && (f.value.result.None? || f.value.result.value.buckets.None?) ==> r.value == [])
  {
    match get(BucketsPath(accountId))
    case Err(e) => Err(e)
    case Ok(response) =>
      if response.result.Some? then Ok(response.result.value.buckets.GetOr([])) else Ok([])
  }

  /** `getBucket(bucketName)`: the first listed bucket with exactly that
      name; null when there is none or the list fails. */
  function GetBucket(accountId: string, bucketName: string, get: string -> Fetch<CfR2BucketList>): (r: Option<CfR2Bucket>)
    ensures var l := ListBuckets(accountId, get);
      && (r.None? <==> l.Err? || forall b :: b in l.value ==> b.name != bucketName)
      && (r.Some? ==> l.Ok? && r.value.name == bucketName)
      && (r.Some? ==> exists i :: 0 <= i < |l.value| && l.value[i] == r.value
                                  && forall j :: 0 <= j < i ==> l.value[j].name != bucketName)
  {
    match ListBuckets(accountId, get)
    case Err(_) => None
    case Ok(buckets) => Find(buckets, (b: CfR2Bucket) => b.name == bucketName)
  }

  /** `getLifecycle(bucketName)`: never throws; null on any failure. */
  function GetLifecycle(accountId: string, bucketName: string, get: string -> Fetch<CfR2Lifecycle>): (r: Option<CfR2Lifecycle>)
    ensures var f := get(LifecyclePath(accountId, bucketName));
      && (r.Some? <==> f.Ok? && f.value.result.Some?)
      && (r.Some? ==> r.value == f.value.result.value)
  {
    ItemOrNull(get(LifecyclePath(accountId, bucketName)))
  }

  /** `'sha256:' + createHash('sha256').update(text).digest('hex')` */
  function DigestHash(digest: seq<Byte>): (hash: string)
    requires |digest| == 32
    ensures |hash| == 71 && hash[..7] == "sha256:"
    ensures forall i :: 7 <= i < 71 ==> IsHexChar(hash[i])
  {
    "sha256:" + Hex(digest)
  }

  /** The hash text determines the digest: two exports with the same hash
      had the same digest. */
  lemma DigestHashInjective(d1: seq<Byte>, d2: seq<Byte>)
    requires |d1| == 32 && |d2| == 32
    requires DigestHash(d1) == DigestHash(d2)
    ensures d1 == d2
  {
    assert Hex(d1) == DigestHash(d1)[7..];
    assert Hex(d2) == DigestHash(d2)[7..];
    HexRoundTrip(d1);
    HexRoundTrip(d2);
  }

  /** `exportLifecycle(bucketName)`: null when `getLifecycle` gave null;
      otherwise the lifecycle unchanged, the timestamp, and the SHA-256 of the
      serialised `{ lifecycle, timestamp }`. `timestamp` is the current time
      as an ISO string, `serialize` is `JSON.stringify(_, null, 2)` and
      `sha256` is the hash function, none of them modelled. */
  function ExportLifecycle(
    accountId: string, bucketName: string, get: string -> Fetch<CfR2Lifecycle>,
    timestamp: string, serialize: (CfR2Lifecycle, string) -> string, sha256: string -> seq<Byte>): (r: Option<Snapshot<CfR2Lifecycle>>)
    requires forall text :: |sha256(text)| == 32
    ensures var lifecycle := GetLifecycle(accountId, bucketName, get);
      && (r.None? <==> lifecycle.None?)
      && (r.Some? ==> r.value.data == lifecycle.value && r.value.timestamp == timestamp)
      && (r.Some? ==> r.value.hash == DigestHash(sha256(serialize(lifecycle.value, timestamp))))
  {
    match GetLifecycle(accountId, bucketName, get)
    case None => None
    case Some(lifecycle) =>
      var dataStr := serialize(lifecycle, timestamp);
      Some(Snapshot(lifecycle, DigestHash(sha256(dataStr)), timestamp))
  }
}

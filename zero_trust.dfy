/** `ZeroTrustClient`: audit logs, their export as a snapshot, and the users
    who recently authenticated. */
module ZeroTrust {
  import opened Common
  import opened Types
  import opened Api
  import opened Encoding
  import R2

  /** The optional `params` of `getAuditLogs`. */
  datatype AuditParams = AuditParams(
    actor: Option<string>,
    action: Option<string>,
    target: Option<string>,
    since: Option<string>,
    before: Option<string>,
    page: Option<int>,
    perPage: Option<int>)

  /** `{ since?, before? }`, the argument of `exportAuditLogs` and `getUsers`. */
  datatype TimeBounds = TimeBounds(since: Option<string>, before: Option<string>)

  /** `params?.x` when `params` itself may be absent. */
  function Params(params: Option<AuditParams>): AuditParams {
    params.GetOr(AuditParams(None, None, None, None, None, None, None))
  }

  /** `if (x) set(key, x)` for a string: only a non-empty string is set. */
  function StringSetting(v: Option<string>): Option<string> {
    if TruthyString(v) then Some(v.value) else None
  }

  /** `if (x) set(key, x.toString())` for a number: only a non-zero number is
      set, written in decimal. */
  function NumberSetting(v: Option<int>): Option<string> {
    if TruthyNumber(v) then Some(IntToString(v.value)) else None
  }

  /** The `set` calls of `getAuditLogs`, in order. */
  function AuditSettings(params: Option<AuditParams>): (s: Settings)
    ensures |s| == 7
  {
    var p := Params(params);
    [ ("actor.email", StringSetting(p.actor)), ("action.type", StringSetting(p.action)),
      ("resource.id", StringSetting(p.target)), ("since", StringSetting(p.since)),
      ("before", StringSetting(p.before)), ("page", NumberSetting(p.page)),
      ("per_page", NumberSetting(p.perPage)) ]
  }

  lemma AuditKeysDistinct(params: Option<AuditParams>)
    ensures DistinctKeys(AuditSettings(params))
  {
    var s := AuditSettings(params);
    forall a, b | 0 <= a < b < 7 ensures s[a].0 != s[b].0 {
      var x, y := s[a].0, s[b].0;
      // the keys differ in length, or else in their third or fifth character
      assert |x| != |y| || x[2] != y[2] || x[4] != y[4];
    }
  }

  /** The query of `getAuditLogs`. */
  function AuditQuery(params: Option<AuditParams>): Query {
    Entries(AuditSettings(params))
  }

  /** Each parameter lands under its own key, and only when it is truthy: an
      empty string or a page or page size of `0` is left out. */
  lemma AuditQueryLookup(params: Option<AuditParams>)
    ensures var q := AuditQuery(params); var p := Params(params);
      && Lookup(q, "actor.email") == (if TruthyString(p.actor) then Some(p.actor.value) else None)
      && Lookup(q, "action.type") == (if TruthyString(p.action) then Some(p.action.value) else None)
      && Lookup(q, "resource.id") == (if TruthyString(p.target) then Some(p.target.value) else None)
      && Lookup(q, "since") == (if TruthyString(p.since) then Some(p.since.value) else None)
      && Lookup(q, "before") == (if TruthyString(p.before) then Some(p.before.value) else None)
      && Lookup(q, "page") == (if TruthyNumber(p.page) then Some(IntToString(p.page.value)) else None)
      && Lookup(q, "per_page") == (if TruthyNumber(p.perPage) then Some(IntToString(p.perPage.value)) else None)
  {
    var s := AuditSettings(params);
    AuditKeysDistinct(params);
    EntriesLookup(s, 0); EntriesLookup(s, 1); EntriesLookup(s, 2); EntriesLookup(s, 3);
    EntriesLookup(s, 4); EntriesLookup(s, 5); EntriesLookup(s, 6);
  }

  /** `getAuditLogs` fills a fresh `URLSearchParams` by conditional `set`
      calls on distinct keys, so every call appends. */
  method BuildAuditQuery(params: Option<AuditParams>) returns (q: Query)
    ensures q == AuditQuery(params)
  {
    ghost var s := AuditSettings(params);
    AuditKeysDistinct(params);
    assert s[..0] == [];
    q := SetFilters(params, []);
    q := SetWindow(params, q);
    assert s[..7] == s;
  }

  /** The `actor`, `action` and `target` filters, the first three settings. */
  method SetFilters(params: Option<AuditParams>, q: Query) returns (q': Query)
    requires q == Entries(AuditSettings(params)[..0])
    ensures q' == Entries(AuditSettings(params)[..3])
  {
    var p := Params(params);
    ghost var s := AuditSettings(params);
    AuditKeysDistinct(params);
    q' := SetIfPresent(s, 0, q, "actor.email", StringSetting(p.actor));
    q' := SetIfPresent(s, 1, q', "action.type", StringSetting(p.action));
    q' := SetIfPresent(s, 2, q', "resource.id", StringSetting(p.target));
  }

  /** The time window and the paging, the last four settings. */
  method SetWindow(params: Option<AuditParams>, q: Query) returns (q': Query)
    requires q == Entries(AuditSettings(params)[..3])
    ensures q' == Entries(AuditSettings(params)[..7])
  {
    var p := Params(params);
    ghost var s := AuditSettings(params);
    AuditKeysDistinct(params);
    q' := SetIfPresent(s, 3, q, "since", StringSetting(p.since));
    q' := SetIfPresent(s, 4, q', "before", StringSetting(p.before));
    q' := SetIfPresent(s, 5, q', "page", NumberSetting(p.page));
    q' := SetIfPresent(s, 6, q', "per_page", NumberSetting(p.perPage));
  }

  /** `/accounts/${accountId}/audit_logs`, then `?` and the query when it is
      not empty. */
  function AuditLogsPath(accountId: string, params: Option<AuditParams>, encode: string -> string): string {
    WithQuery(AccountPath(accountId, "/audit_logs"), QueryString(AuditQuery(params), encode))
  }

  /** The path carries a query exactly when some parameter is truthy. */
  lemma AuditLogsPathBare(accountId: string, params: Option<AuditParams>, encode: string -> string)
    ensures var p := Params(params);
      AuditLogsPath(accountId, params, encode) == "/accounts/" + accountId + "/audit_logs"
      <==> !TruthyString(p.actor) && !TruthyString(p.action) && !TruthyString(p.target)
           && !TruthyString(p.since) && !TruthyString(p.before)
           && !TruthyNumber(p.page) && !TruthyNumber(p.perPage)
  {
    var s := AuditSettings(params);
    EntriesEmpty(s);
    assert (forall i :: 0 <= i < |s| ==> s[i].1.None?)
      <==> s[0].1.None? && s[1].1.None? && s[2].1.None? && s[3].1.None?
           && s[4].1.None? && s[5].1.None? && s[6].1.None?;
    var base := AccountPath(accountId, "/audit_logs");
    var query := QueryString(AuditQuery(params), encode);
    if query != "" {
      assert |base + "?" + query| > |base|;
    }
  }

  /** `getAuditLogs(params?)`: `[]` on any failure or a missing `result`. */
  method GetAuditLogs(accountId: string, params: Option<AuditParams>, encode: string -> string,
                      get: string -> Fetch<seq<CfAccessAudit>>)
    returns (logs: seq<CfAccessAudit>, path: string)
    ensures path == AuditLogsPath(accountId, params, encode)
    ensures var f := get(path);
      && (f.Err? ==> logs == [])
      && (f.Ok? ==> logs == f.value.result.GetOr([]))
  {
    var q := BuildAuditQuery(params);
    var query := QueryString(q, encode);
    path := AccountPath(accountId, "/audit_logs") + (if query != "" then "?" + query else "");
    logs := ListOrEmpty(get(path));
  }

  /** `exportAuditLogs` hands its `{ since, before }` on as the `params` of
      `getAuditLogs`. */
  function BoundsParams(bounds: Option<TimeBounds>): (params: Option<AuditParams>)
    ensures params.None? <==> bounds.None?
    ensures bounds.Some? ==> Params(params) == AuditParams(None, None, None, bounds.value.since, bounds.value.before, None, None)
  {
    match bounds
    case None => None
    case Some(b) => Some(AuditParams(None, None, None, b.since, b.before, None, None))
  }

  /** The text `JSON.stringify({ logs, timestamp, params }, null, 2)` always
      starts with. */
  const SnapshotHead := "{\n  \"logs\": "

  /** The hash `exportAuditLogs` computes from the UTF-8 bytes of that text:
      `sha256:` and the first sixteen characters of their base64 encoding. */
  function AuditHashAsWritten(text: seq<Byte>): (h: string)
    ensures |h| <= 23
  {
    "sha256:" + Prefix(Base64(text), 16)
  }

  /** Sixteen base64 characters cover twelve bytes, exactly the fixed head
      of the snapshot text: the hash is the same for every export. */
  lemma AuditHashIsConstant(text: seq<Byte>)
    requires AsciiBytes(SnapshotHead) <= text
    ensures AuditHashAsWritten(text) == "sha256:ewogICJsb2dzIjog"
  {
    var head := AsciiBytes(SnapshotHead);
    HeadBytes();
    HeadBase64(head);
    assert text == head + text[12..];
    Base64Concat(head, text[12..]);
    assert Base64(text)[..16] == Base64(head);
  }

  /** The UTF-8 bytes of the head. */
  lemma HeadBytes()
    ensures AsciiBytes(SnapshotHead) == [123, 10, 32, 32, 34, 108, 111, 103, 115, 34, 58, 32]
  {
    var h := SnapshotHead;
    assert |h| == 12;
    assert h[0] == '{' && h[1] == '\n' && h[2] == ' ' && h[3] == ' ' && h[4] == '"' && h[5] == 'l';
    assert h[6] == 'o' && h[7] == 'g' && h[8] == 's' && h[9] == '"' && h[10] == ':' && h[11] == ' ';
  }

  /** The base64 text of the head, half by half. */
  lemma HeadBase64(head: seq<Byte>)
    requires head == [123, 10, 32, 32, 34, 108, 111, 103, 115, 34, 58, 32]
    ensures Base64(head) == "ewogICJsb2dzIjog"
  {
    assert head == head[..6] + head[6..];
    Base64Concat(head[..6], head[6..]);
    HeadFirstHalf(head[..6]);
    HeadSecondHalf(head[6..]);
  }

  lemma HeadFirstHalf(half: seq<Byte>)
    requires half == [123, 10, 32, 32, 34, 108]
    ensures Base64(half) == "ewogICJs"
  {
    assert half == half[..3] + half[3..];
    Base64Concat(half[..3], half[3..]);
    assert half[..3] == [123, 10, 32] && half[3..] == [32, 34, 108];
    HeadGroup1(); HeadGroup2();
  }

  lemma HeadSecondHalf(half: seq<Byte>)
    requires half == [111, 103, 115, 34, 58, 32]
    ensures Base64(half) == "b2dzIjog"
  {
    assert half == half[..3] + half[3..];
    Base64Concat(half[..3], half[3..]);
    assert half[..3] == [111, 103, 115] && half[3..] == [34, 58, 32];
    HeadGroup3(); HeadGroup4();
  }

  lemma HeadGroup1()
    ensures Base64([123, 10, 32]) == "ewog"
  {
    Base64Triple(123, 10, 32);
    assert Base64Char(30) == 'e' && Base64Char(48) == 'w' && Base64Char(40) == 'o' && Base64Char(32) == 'g';
  }

  lemma HeadGroup2()
    ensures Base64([32, 34, 108]) == "ICJs"
  {
    Base64Triple(32, 34, 108);
    assert Base64Char(8) == 'I' && Base64Char(2) == 'C' && Base64Char(9) == 'J' && Base64Char(44) == 's';
  }

  lemma HeadGroup3()
    ensures Base64([111, 103, 115]) == "b2dz"
  {
    Base64Triple(111, 103, 115);
    assert Base64Char(27) == 'b' && Base64Char(54) == '2' && Base64Char(29) == 'd' && Base64Char(51) == 'z';
  }

  lemma HeadGroup4()
    ensures Base64([34, 58, 32]) == "Ijog"
  {
    Base64Triple(34, 58, 32);
    assert Base64Char(8) == 'I' && Base64Char(35) == 'j' && Base64Char(40) == 'o' && Base64Char(32) == 'g';
  }

  /** Three bytes make four characters. */
  lemma Base64Triple(a: Byte, b: Byte, c: Byte)
    ensures Base64([a, b, c]) == [Base64Char(a / 4), Base64Char(a % 4 * 16 + b / 16),
                                  Base64Char(b % 16 * 4 + c / 64), Base64Char(c % 64)]
  {
    assert [a, b, c][3..] == [];
  }

  /** `exportAuditLogs(params?)` as written: `data` is what `getAuditLogs`
      returned and `timestamp` the one serialised, but the hash does not
      depend on either. `json` gives the UTF-8 bytes of the indented
      serialisation, which always start with the snapshot head. */
  method ExportAuditLogsAsWritten(
    accountId: string, bounds: Option<TimeBounds>, encode: string -> string,
    get: string -> Fetch<seq<CfAccessAudit>>, timestamp: string,
    json: (seq<CfAccessAudit>, string, Option<TimeBounds>) -> seq<Byte>)
    returns (snapshot: Snapshot<seq<CfAccessAudit>>)
    requires forall logs, t, b :: AsciiBytes(SnapshotHead) <= json(logs, t, b)
    ensures var f := get(AuditLogsPath(accountId, BoundsParams(bounds), encode));
      && (f.Err? ==> snapshot.data == [])
      && (f.Ok? ==> snapshot.data == f.value.result.GetOr([]))
    ensures snapshot.timestamp == timestamp
    ensures snapshot.hash == "sha256:ewogICJsb2dzIjog"
  {
    var logs, _ := GetAuditLogs(accountId, BoundsParams(bounds), encode, get);
    var text := json(logs, timestamp, bounds);
    AuditHashIsConstant(text);
    snapshot := Snapshot(logs, AuditHashAsWritten(text), timestamp);
  }

  /** `exportAuditLogs(params?)` with the digest the `sha256:` label
      announces: the hex SHA-256 digest of the serialised snapshot, as
      `exportLifecycle` computes it. `serialize` is the indented
      `JSON.stringify`, `sha256` the digest of a text. */
  method ExportAuditLogs(
    accountId: string, bounds: Option<TimeBounds>, encode: string -> string,
    get: string -> Fetch<seq<CfAccessAudit>>, timestamp: string,
    serialize: (seq<CfAccessAudit>, string, Option<TimeBounds>) -> string,
    sha256: string -> seq<Byte>)
    returns (snapshot: Snapshot<seq<CfAccessAudit>>)
    requires forall text :: |sha256(text)| == 32
    ensures var f := get(AuditLogsPath(accountId, BoundsParams(bounds), encode));
      && (f.Err? ==> snapshot.data == [])
      && (f.Ok? ==> snapshot.data == f.value.result.GetOr([]))
    ensures snapshot.timestamp == timestamp
    ensures snapshot.hash == R2.DigestHash(sha256(serialize(snapshot.data, timestamp, bounds)))
    ensures |snapshot.hash| == 71
  {
    var logs, _ := GetAuditLogs(accountId, BoundsParams(bounds), encode, get);
    var digest := sha256(serialize(logs, timestamp, bounds));
    snapshot := Snapshot(logs, R2.DigestHash(digest), timestamp);
  }

  /** With a digest, snapshots whose serialisations have different digests
      get different hashes; as written, every pair of snapshots collides. */
  lemma ExportHashSeparates(d1: seq<Byte>, d2: seq<Byte>, t1: seq<Byte>, t2: seq<Byte>)
    requires |d1| == 32 && |d2| == 32 && d1 != d2
    requires AsciiBytes(SnapshotHead) <= t1 && AsciiBytes(SnapshotHead) <= t2
    ensures R2.DigestHash(d1) != R2.DigestHash(d2)
    ensures AuditHashAsWritten(t1) == AuditHashAsWritten(t2)
  {
    HexRoundTrip(d1);
    HexRoundTrip(d2);
    assert R2.DigestHash(d1)[7..] == Hex(d1) && R2.DigestHash(d2)[7..] == Hex(d2);
    AuditHashIsConstant(t1);
    AuditHashIsConstant(t2);
  }

  /** The `set` calls of `getUsers`, in order. */
  function UsersSettings(bounds: Option<TimeBounds>): (s: Settings)
    ensures |s| == 2 && DistinctKeys(s)
  {
    var b := bounds.GetOr(TimeBounds(None, None));
    [("since", StringSetting(b.since)), ("before", StringSetting(b.before))]
  }

  function UsersPath(accountId: string, bounds: Option<TimeBounds>, encode: string -> string): string {
    WithQuery(AccountPath(accountId, "/access/users"), QueryString(Entries(UsersSettings(bounds)), encode))
  }

  /** `since` and `before` land under their own keys, only when not empty. */
  lemma UsersQueryLookup(bounds: Option<TimeBounds>)
    ensures var q := Entries(UsersSettings(bounds)); var b := bounds.GetOr(TimeBounds(None, None));
      && Lookup(q, "since") == (if TruthyString(b.since) then Some(b.since.value) else None)
      && Lookup(q, "before") == (if TruthyString(b.before) then Some(b.before.value) else None)
      && (q == [] <==> !TruthyString(b.since) && !TruthyString(b.before))
  {
    var s := UsersSettings(bounds);
    EntriesLookup(s, 0);
    EntriesLookup(s, 1);
    EntriesEmpty(s);
  }

  /** `getUsers` sets `since` and `before` on a fresh `URLSearchParams`. */
  method BuildUsersQuery(bounds: Option<TimeBounds>) returns (q: Query)
    ensures q == Entries(UsersSettings(bounds))
  {
    var b := bounds.GetOr(TimeBounds(None, None));
    ghost var s := UsersSettings(bounds);
    assert s[..0] == [];
    q := SetIfPresent(s, 0, [], "since", StringSetting(b.since));
    q := SetIfPresent(s, 1, q, "before", StringSetting(b.before));
    assert s[..2] == s;
  }

  /** `getUsers(timeBounded?)`: `[]` on any failure or a missing `result`. */
  method GetUsers(accountId: string, bounds: Option<TimeBounds>, encode: string -> string,
                  get: string -> Fetch<seq<Value>>)
    returns (users: seq<Value>, path: string)
    ensures path == UsersPath(accountId, bounds, encode)
    ensures var f := get(path);
      && (f.Err? ==> users == [])
      && (f.Ok? ==> users == f.value.result.GetOr([]))
  {
    var q := BuildUsersQuery(bounds);
    var query := QueryString(q, encode);
    path := AccountPath(accountId, "/access/users") + (if query != "" then "?" + query else "");
    users := ListOrEmpty(get(path));
  }
}

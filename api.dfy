/** What every resource client does with `this.get(path)`: the response
    envelope, the three ways a client turns a response into its own result
    (propagate the error, swallow it into `[]`, swallow it into `null`), and
    the query strings the clients append to their paths. */
module Api {
  import opened Common

  /** `CloudflareApiResponse<T>`: the clients read `result` and nothing else;
      `success` is never looked at. */
  datatype ApiResponse<T> = ApiResponse(success: bool, result: Option<T>)

  /** What `await this.get(path)` gives: the parsed body, or what `request` threw. */
  type Fetch<T> = Result<ApiResponse<T>>

  /** `return (await this.get(path)).result || []` outside any `try`: an
      error propagates, a missing `result` becomes `[]`. */
  function ListOrFail<T>(r: Fetch<seq<T>>): (out: Result<seq<T>>)
    ensures out.Err? <==> r.Err?
    ensures r.Err? ==> out.error == r.error
    ensures r.Ok? && r.value.result.Some? ==> out.value == r.value.result.value
    ensures r.Ok? && r.value.result.None? ==> out.value == []
  {
    match r
    case Err(e) => Err(e)
    case Ok(response) => Ok(response.result.GetOr([]))
  }

  /** The same statement inside `try { ... } catch { return []; }`: never throws. */
  function ListOrEmpty<T>(r: Fetch<seq<T>>): (out: seq<T>)
    ensures out != [] ==> r.Ok? && r.value.result == Some(out)
    ensures r.Err? ==> out == []
    ensures r.Ok? ==> out == r.value.result.GetOr([])
  {
    match r
    case Err(_) => []
    case Ok(response) => response.result.GetOr([])
  }

  /** `try { return (await this.get(path)).result; } catch { return null; }` */
  function ItemOrNull<T>(r: Fetch<T>): (out: Option<T>)
    ensures out.Some? <==> r.Ok? && r.value.result.Some?
    ensures out.Some? ==> out.value == r.value.result.value
  {
    match r
    case Err(_) => None
    case Ok(response) => response.result
  }

  /** Swallowing a list error loses nothing else: `[]` on error, otherwise
      exactly what the propagating form returns. */
  lemma ListOrEmptyAgrees<T>(r: Fetch<seq<T>>)
    ensures ListOrEmpty(r) == (if ListOrFail(r).Ok? then ListOrFail(r).value else [])
  {
  }

  /** The envelope's `success` flag never changes what a client returns. */
  lemma SuccessIgnored<T>(a: ApiResponse<seq<T>>, b: ApiResponse<seq<T>>, c: ApiResponse<T>, d: ApiResponse<T>)
    requires a.result == b.result && c.result == d.result
    ensures ListOrFail(Ok(a)) == ListOrFail(Ok(b))
    ensures ListOrEmpty(Ok(a)) == ListOrEmpty(Ok(b))
    ensures ItemOrNull(Ok(c)) == ItemOrNull(Ok(d))
  {
  }

  /** `{ data, hash, timestamp }`: what the export calls return. */
  datatype Snapshot<T> = Snapshot(data: T, hash: string, timestamp: string)

  /** The entries of a `URLSearchParams` object, in order. */
  type Query = seq<(string, string)>

  function Keys(q: Query): (ks: seq<string>)
    ensures |ks| == |q|
    ensures forall i :: 0 <= i < |q| ==> ks[i] == q[i].0
  {
    seq(|q|, i requires 0 <= i < |q| => q[i].0)
  }

  /** `params.get(k)`: the value of the first entry named `k`. */
  function Lookup(q: Query, k: string): (r: Option<string>)
    ensures r.None? <==> k !in Keys(q)
  {
    if q == [] then None
    else if q[0].0 == k then Some(q[0].1)
    else
      assert Keys(q) == [q[0].0] + Keys(q[1..]);
      Lookup(q[1..], k)
  }

  function RemoveKey(q: Query, k: string): (r: Query)
    ensures k !in Keys(r)
    ensures forall k' :: k' != k ==> Lookup(r, k') == Lookup(q, k')
  {
    if q == [] then []
    else if q[0].0 == k then RemoveKey(q[1..], k)
    else
      var r := [q[0]] + RemoveKey(q[1..], k);
      assert Keys(r) == [q[0].0] + Keys(RemoveKey(q[1..], k));
      r
  }

  /** `params.set(k, v)`: the first entry named `k` takes the value `v` and
      later ones are removed; without one, the entry is appended. */
  function SetParam(q: Query, k: string, v: string): (r: Query)
    ensures Lookup(r, k) == Some(v)
    ensures forall k' :: k' != k ==> Lookup(r, k') == Lookup(q, k')
    ensures k !in Keys(q) ==> r == q + [(k, v)]
  {
    if q == [] then [(k, v)]
    else if q[0].0 == k then [(k, v)] + RemoveKey(q[1..], k)
    else
      assert Keys(q) == [q[0].0] + Keys(q[1..]);
      [q[0]] + SetParam(q[1..], k, v)
  }

  /** The conditional `set` calls a client makes on a fresh
      `URLSearchParams`, in order: a key and, when the caller's value is
      truthy, the text to set. */
  type Settings = seq<(string, Option<string>)>

  predicate DistinctKeys(s: Settings) {
    forall a, b :: 0 <= a < b < |s| ==> s[a].0 != s[b].0
  }

  /** The entries those calls leave, when every key is set at most once. */
  function Entries(s: Settings): (q: Query)
    ensures |q| <= |s|
  {
    if s == [] then []
    else
      var last := s[|s| - 1];
      Entries(s[..|s| - 1]) + (if last.1.Some? then [(last.0, last.1.value)] else [])
  }

  /** A key that no setting names does not occur in the entries. */
  lemma {:induction false} EntriesKeysFresh(s: Settings, k: string)
    requires forall i :: 0 <= i < |s| ==> s[i].0 != k
    ensures k !in Keys(Entries(s))
  {
    if s != [] {
      var init := s[..|s| - 1];
      assert forall i :: 0 <= i < |init| ==> init[i].0 == s[i].0;
      EntriesKeysFresh(init, k);
      var last := s[|s| - 1];
      var piece: Query := if last.1.Some? then [(last.0, last.1.value)] else [];
      assert Keys(Entries(s)) == Keys(Entries(init)) + Keys(piece);
    }
  }

  /** Looking up a key reads exactly its setting: the value when it was set,
      nothing otherwise. */
  lemma {:induction false} EntriesLookup(s: Settings, j: nat)
    requires DistinctKeys(s) && j < |s|
    ensures Lookup(Entries(s), s[j].0) == s[j].1
  {
    var init, last := s[..|s| - 1], s[|s| - 1];
    var front := Entries(init);
    var piece: Query := if last.1.Some? then [(last.0, last.1.value)] else [];
    assert Entries(s) == front + piece;
    LookupAppend(front, piece, s[j].0);
    if j < |s| - 1 {
      assert init[j] == s[j];
      EntriesLookup(init, j);
      assert Lookup(piece, s[j].0) == None;
    } else {
      assert forall i :: 0 <= i < |init| ==> init[i].0 != last.0;
      EntriesKeysFresh(init, last.0);
    }
  }

  /** No entry at all exactly when no setting is made. */
  lemma {:induction false} EntriesEmpty(s: Settings)
    ensures Entries(s) == [] <==> forall i :: 0 <= i < |s| ==> s[i].1.None?
  {
    if s != [] {
      var init := s[..|s| - 1];
      EntriesEmpty(init);
      assert forall i :: 0 <= i < |init| ==> init[i] == s[i];
    }
  }

  /** A lookup in a concatenation looks in the first part, then in the second. */
  lemma {:induction false} LookupAppend(q1: Query, q2: Query, k: string)
    ensures Lookup(q1 + q2, k) == if k in Keys(q1) then Lookup(q1, k) else Lookup(q2, k)
  {
    if q1 != [] {
      assert (q1 + q2)[0] == q1[0];
      assert (q1 + q2)[1..] == q1[1..] + q2;
      assert Keys(q1) == [q1[0].0] + Keys(q1[1..]);
      LookupAppend(q1[1..], q2, k);
    } else {
      assert q1 + q2 == q2;
    }
  }

  /** One conditional `set` call: with distinct keys the key is new, so the
      call appends its entry, and the entries so far follow the settings. */
  lemma SetStep(s: Settings, i: nat, q: Query)
    requires DistinctKeys(s) && i < |s| && q == Entries(s[..i])
    ensures s[i].1.Some? ==> SetParam(q, s[i].0, s[i].1.value) == Entries(s[..i + 1])
    ensures s[i].1.None? ==> q == Entries(s[..i + 1])
  {
    assert s[..i + 1][..i] == s[..i];
    assert forall a :: 0 <= a < i ==> s[..i][a].0 != s[i].0;
    EntriesKeysFresh(s[..i], s[i].0);
  }

  /** `if (value) params.set(key, value)`, as the `i`-th of the settings `s`:
      the entries so far follow the first `i` settings before the call and
      the first `i + 1` after it. */
  method SetIfPresent(ghost s: Settings, ghost i: nat, q: Query, key: string, value: Option<string>)
    returns (q': Query)
    requires DistinctKeys(s) && i < |s| && s[i] == (key, value)
    requires q == Entries(s[..i])
    ensures value.Some? ==> q' == SetParam(q, key, value.value)
    ensures value.None? ==> q' == q
    ensures q' == Entries(s[..i + 1])
  {
    SetStep(s, i, q);
    q' := q;
    if value.Some? {
      q' := SetParam(q, key, value.value);
    }
  }

  /** `parts.join(sep)` */
  function Join(parts: seq<string>, sep: string): (s: string)
    ensures parts == [] ==> s == ""
    ensures |parts| == 1 ==> s == parts[0]
    ensures parts != [] ==> |s| >= |parts[0]|
  {
    if parts == [] then ""
    else if |parts| == 1 then parts[0]
    else parts[0] + sep + Join(parts[1..], sep)
  }

  /** Joining non-empty parts gives the empty string exactly when there are none. */
  lemma {:induction false} JoinEmpty(parts: seq<string>, sep: string)
    requires forall i :: 0 <= i < |parts| ==> parts[i] != ""
    ensures Join(parts, sep) == "" <==> parts == []
  {
    if |parts| > 1 {
      assert |Join(parts, sep)| >= |parts[0]|;
    }
  }

  /** `params.toString()`: `key=value` pairs joined by `&`; `encode` is the
      form encoding, which is not modelled. */
  function QueryString(q: Query, encode: string -> string): (s: string)
    ensures s == "" <==> q == []
  {
    var parts := seq(|q|, i requires 0 <= i < |q| => encode(q[i].0) + "=" + encode(q[i].1));
    assert forall i :: 0 <= i < |parts| ==> parts[i] != "" by {
      forall i | 0 <= i < |parts| ensures parts[i] != "" {
        assert |parts[i]| >= 1;
      }
    }
    JoinEmpty(parts, "&");
    Join(parts, "&")
  }

  /** `${base}${query ? `?${query}` : ''}` */
  function WithQuery(base: string, query: string): string {
    if query != "" then base + "?" + query else base
  }

  /** `/accounts/${accountId}` followed by `rest`: every endpoint path starts so. */
  function AccountPath(accountId: string, rest: string): string {
    "/accounts/" + accountId + rest
  }
}

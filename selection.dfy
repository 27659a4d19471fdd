/** Choosing one element of a response list: `Array.prototype.find`, and the
    "latest" element picked by `sort((a, b) => key(b) - key(a))[0]`. The sort is
    stable, so the head of the sorted list is the first element whose key is
    maximal. */
module Selection {
  import opened Common

  /** The index of the first element satisfying `p`: what `find` returns. */
  function FindIndex<T>(xs: seq<T>, p: T -> bool): (r: Option<nat>)
    ensures r.Some? ==> r.value < |xs| && p(xs[r.value])
    ensures r.Some? ==> forall j :: 0 <= j < r.value ==> !p(xs[j])
    ensures r.None? <==> forall j :: 0 <= j < |xs| ==> !p(xs[j])
  {
    if xs == [] then None
    else if p(xs[0]) then Some(0)
    else
      match FindIndex(xs[1..], p)
      case None => None
      case Some(i) => Some(i + 1)
  }

  /** `xs.find(p) || null` */
  function Find<T>(xs: seq<T>, p: T -> bool): (r: Option<T>)
    ensures r.None? <==> forall j :: 0 <= j < |xs| ==> !p(xs[j])
    ensures r.Some? ==> exists i :: 0 <= i < |xs| && xs[i] == r.value && p(xs[i]) && forall j :: 0 <= j < i ==> !p(xs[j])
  {
    match FindIndex(xs, p)
    case None => None
    case Some(i) => Some(xs[i])
  }

  /** `xs.filter(p)`: with `FilterAppend`, the empty and the one-element
      cases below determine it, so the kept elements stay in list order. */
  function Filter<T(!new)>(xs: seq<T>, p: T -> bool): (r: seq<T>)
    ensures |r| <= |xs|
    ensures forall x :: x in r <==> x in xs && p(x)
    ensures xs == [] ==> r == []
    ensures |xs| == 1 ==> r == if p(xs[0]) then xs else []
  {
    if xs == [] then []
    else
      assert xs == [xs[0]] + xs[1..];
      (if p(xs[0]) then [xs[0]] else []) + Filter(xs[1..], p)
  }

  /** Filtering a concatenation filters each part, in order. */
  lemma {:induction false} FilterAppend<T(!new)>(xs: seq<T>, ys: seq<T>, p: T -> bool)
    ensures Filter(xs + ys, p) == Filter(xs, p) + Filter(ys, p)
  {
    if xs != [] {
      var head := if p(xs[0]) then [xs[0]] else [];
      assert (xs + ys)[0] == xs[0] && (xs + ys)[1..] == xs[1..] + ys;
      assert Filter(xs + ys, p) == head + Filter(xs[1..] + ys, p);
      FilterAppend(xs[1..], ys, p);
      assert Filter(xs, p) == head + Filter(xs[1..], p);
    } else {
      assert xs + ys == ys;
    }
  }

  /** The k-th kept element sits at some index i of the list, and the
      elements kept before it are exactly those kept from the list before i. */
  lemma {:induction false} FilterIndex<T(!new)>(xs: seq<T>, p: T -> bool, k: nat) returns (i: nat)
    requires k < |Filter(xs, p)|
    ensures i < |xs| && xs[i] == Filter(xs, p)[k] && p(xs[i])
    ensures Filter(xs[..i], p) == Filter(xs, p)[..k]
  {
    var head := if p(xs[0]) then [xs[0]] else [];
    var rest := Filter(xs[1..], p);
    assert Filter(xs, p) == head + rest;
    if p(xs[0]) && k == 0 {
      i := 0;
      assert xs[..0] == [];
    } else {
      var k' := k - |head|;
      i := FilterIndex(xs[1..], p, k');
      assert xs[1..][..i] == xs[..i + 1][1..];
      assert xs[..i + 1][0] == xs[0];
      assert Filter(xs[..i + 1], p) == head + Filter(xs[1..][..i], p);
      assert (head + rest)[..k] == head + rest[..k'];
      i := i + 1;
    }
  }

  /** `i` is the index the latest-selection must return: its key is maximal,
      and every earlier element has a strictly smaller key. */
  predicate IsFirstMax<T>(xs: seq<T>, key: T -> int, i: nat) {
    && i < |xs|
    && (forall j :: 0 <= j < |xs| ==> key(xs[j]) <= key(xs[i]))
    && (forall j :: 0 <= j < i ==> key(xs[j]) < key(xs[i]))
  }

  function FirstMaxIndex<T>(xs: seq<T>, key: T -> int): (i: nat)
    requires xs != []
    ensures IsFirstMax(xs, key, i)
  {
    if |xs| == 1 then 0
    else
      var k := FirstMaxIndex(xs[1..], key);
      if key(xs[1 + k]) <= key(xs[0]) then 0 else 1 + k
  }

  /** The first maximum of the kept elements, found back in the list: every
      kept element listed before it has a strictly smaller key. */
  lemma FilterFirstMax<T(!new)>(xs: seq<T>, p: T -> bool, key: T -> int, i: nat) returns (n: nat)
    requires IsFirstMax(Filter(xs, p), key, i)
    ensures n < |xs| && xs[n] == Filter(xs, p)[i]
    ensures forall j :: 0 <= j < n && p(xs[j]) ==> key(xs[j]) < key(xs[n])
  {
    var kept := Filter(xs, p);
    n := FilterIndex(xs, p, i);
    forall j | 0 <= j < n && p(xs[j]) ensures key(xs[j]) < key(xs[n]) {
      assert xs[j] == xs[..n][j];
      assert xs[j] in Filter(xs[..n], p);
      var m :| 0 <= m < i && kept[m] == xs[j];
    }
  }

  /** At most one index is the first maximum. */
  lemma FirstMaxUnique<T>(xs: seq<T>, key: T -> int, i: nat, j: nat)
    requires IsFirstMax(xs, key, i) && IsFirstMax(xs, key, j)
    ensures i == j
  {
    var ki, kj := key(xs[i]), key(xs[j]);
    assert i < j ==> ki < kj;
    assert j < i ==> kj < ki;
  }

  predicate SortedDesc<T>(xs: seq<T>, key: T -> int) {
    forall i, j :: 0 <= i < j < |xs| ==> key(xs[i]) >= key(xs[j])
  }

  /** One step of a stable insertion sort, descending: `x`, which came first in
      the input, goes before every element whose key is not greater. */
  function InsertDesc<T>(x: T, ys: seq<T>, key: T -> int): (r: seq<T>)
    ensures multiset(r) == multiset(ys) + multiset{x}
    ensures |r| == |ys| + 1
    ensures r[0] == (if ys == [] || key(ys[0]) <= key(x) then x else ys[0])
  {
    if ys == [] || key(ys[0]) <= key(x) then [x] + ys
    else
      assert ys == [ys[0]] + ys[1..];
      [ys[0]] + InsertDesc(x, ys[1..], key)
  }

  lemma {:induction false} InsertDescSorted<T>(x: T, ys: seq<T>, key: T -> int)
    requires SortedDesc(ys, key)
    ensures SortedDesc(InsertDesc(x, ys, key), key)
  {
    if ys == [] || key(ys[0]) <= key(x) {
    } else {
      var rest := InsertDesc(x, ys[1..], key);
      InsertDescSorted(x, ys[1..], key);
      forall j | 0 <= j < |rest| ensures key(ys[0]) >= key(rest[j]) {
        assert rest[j] in multiset(rest);
        assert rest[j] in multiset(ys[1..]) + multiset{x};
        if rest[j] in multiset(ys[1..]) {
          var m :| 1 <= m < |ys| && ys[m] == rest[j];
        }
      }
    }
  }

  /** The stable descending sort the code applies before taking `[0]`. */
  function SortDesc<T>(xs: seq<T>, key: T -> int): (r: seq<T>)
    ensures multiset(r) == multiset(xs)
    ensures |r| == |xs|
  {
    if xs == [] then []
    else
      assert xs == [xs[0]] + xs[1..];
      InsertDesc(xs[0], SortDesc(xs[1..], key), key)
  }

  /** The sort orders by decreasing key. */
  lemma {:induction false} SortDescSorted<T>(xs: seq<T>, key: T -> int)
    ensures SortedDesc(SortDesc(xs, key), key)
  {
    if xs != [] {
      SortDescSorted(xs[1..], key);
      InsertDescSorted(xs[0], SortDesc(xs[1..], key), key);
    }
  }

  /** The head of the stably sorted list is the first element of maximal key. */
  lemma {:induction false} SortDescHead<T>(xs: seq<T>, key: T -> int)
    requires xs != []
    ensures SortDesc(xs, key)[0] == xs[FirstMaxIndex(xs, key)]
  {
    if |xs| > 1 {
      SortDescHead(xs[1..], key);
    }
  }

  /** `sort((a, b) => key(b) - key(a))[0]` on a non-empty list. */
  function Latest<T>(xs: seq<T>, key: T -> int): (r: T)
    requires xs != []
    ensures exists i: nat :: IsFirstMax(xs, key, i) && xs[i] == r
  {
    SortDescHead(xs, key);
    SortDesc(xs, key)[0]
  }
}

/**
 * skills/median.py: every worker Maps its sorted numbers, the coordinator merges the partitions
 * and picks the middle. The result is the median of all the workers' numbers, by an
 * independent definition that does not mention sorting.
 */
module Median {
  import opened Wrappers
  import Storage
  import H = Handshake
  import R = Reduction
  import opened Pool

  predicate Ordered(s: seq<real>) {
    forall i, j :: 0 <= i < j < |s| ==> s[i] <= s[j]
  }

  // ----- what a median is -----

  /** How many numbers of s lie below v. */
  function Below(s: seq<real>, v: real): nat {
    if s == [] then 0 else Below(s[..|s| - 1], v) + (if s[|s| - 1] < v then 1 else 0)
  }

  /** v is the number with exactly k numbers before it when s is put in order. */
  ghost predicate IsKth(s: seq<real>, k: int, v: real) {
    v in s && Below(s, v) <= k < Below(s, v) + multiset(s)[v]
  }

  ghost predicate IsMedian(s: seq<real>, m: real) {
    var n := |s|;
    n > 0 && if n % 2 == 1 then IsKth(s, n / 2, m) else exists a, b :: Middle(s, a, b) && m == (a + b) / 2.0
  }

  ghost predicate Middle(s: seq<real>, a: real, b: real) {
    IsKth(s, |s| / 2 - 1, a) && IsKth(s, |s| / 2, b)
  }

  lemma {:induction false} BelowConcat(a: seq<real>, b: seq<real>, v: real)
    ensures Below(a + b, v) == Below(a, v) + Below(b, v)
  {
    if b == [] {
      assert a + b == a;
    } else {
      assert (a + b)[..|a + b| - 1] == a + b[..|b| - 1];
      BelowConcat(a, b[..|b| - 1], v);
    }
  }

  lemma TakeOut(s: seq<real>, i: nat, v: real)
    requires i < |s|
    ensures multiset(s) == multiset(s[..i] + s[i + 1..]) + multiset{s[i]}
    ensures Below(s, v) == Below(s[..i] + s[i + 1..], v) + if s[i] < v then 1 else 0
  {
    var x := [s[i]];
    assert s == s[..i] + x + s[i + 1..];
    BelowConcat(s[..i], x, v);
    BelowConcat(s[..i] + x, s[i + 1..], v);
    BelowConcat(s[..i], s[i + 1..], v);
    assert x[..0] == [];
    assert Below(x, v) == if s[i] < v then 1 else 0;
  }

  lemma PlaceOf(s: seq<real>, x: real) returns (i: nat)
    requires x in multiset(s)
    ensures i < |s| && s[i] == x
  {
    i :| i < |s| && s[i] == x;
  }

  /** Only the multiset of the numbers matters. */
  lemma {:induction false} BelowOfMultiset(a: seq<real>, b: seq<real>, v: real)
    requires multiset(a) == multiset(b)
    ensures Below(a, v) == Below(b, v)
    decreases |a|
  {
    if a == [] {
      assert |multiset(b)| == 0;
    } else {
      assert a[0] in multiset(a);
      var i := PlaceOf(b, a[0]);
      var a', b' := a[..0] + a[1..], b[..i] + b[i + 1..];
      TakeOut(a, 0, v);
      TakeOut(b, i, v);
      Cancel(multiset(a'), multiset(b'), a[0]);
      BelowOfMultiset(a', b', v);
    }
  }

  lemma KthOfMultiset(a: seq<real>, b: seq<real>, k: int, v: real)
    requires multiset(a) == multiset(b)
    ensures IsKth(a, k, v) <==> IsKth(b, k, v)
  {
    BelowOfMultiset(a, b, v);
    assert v in a <==> v in multiset(a);
    assert v in b <==> v in multiset(b);
  }

  lemma {:induction false} BelowMonotone(s: seq<real>, v: real, w: real)
    requires v < w
    ensures Below(s, v) + multiset(s)[v] <= Below(s, w)
  {
    if s != [] {
      assert s == s[..|s| - 1] + [s[|s| - 1]];
      BelowMonotone(s[..|s| - 1], v, w);
    }
  }

  lemma KthUnique(s: seq<real>, k: int, v: real, w: real)
    requires IsKth(s, k, v) && IsKth(s, k, w)
    ensures v == w
  {
    if v < w { BelowMonotone(s, v, w); }
    if w < v { BelowMonotone(s, w, v); }
  }

  /** Numbers have one median, whatever their order and however they are distributed. */
  lemma MedianUnique(a: seq<real>, b: seq<real>, m: real, n: real)
    requires multiset(a) == multiset(b) && IsMedian(a, m) && IsMedian(b, n)
    ensures m == n
  {
    assert |multiset(a)| == |a| && |multiset(b)| == |b|;
    var h := |a| / 2;
    if |a| % 2 == 1 {
      KthOfMultiset(a, b, h, n);
      KthUnique(a, h, m, n);
    } else {
      var x, y :| Middle(a, x, y) && m == (x + y) / 2.0;
      var z, w :| Middle(b, z, w) && n == (z + w) / 2.0;
      KthOfMultiset(a, b, h - 1, z);
      KthOfMultiset(a, b, h, w);
      KthUnique(a, h - 1, x, z);
      KthUnique(a, h, y, w);
    }
  }

  /** Below v in an ordered sequence: the numbers before the first v. */
  lemma {:induction false} KthOfOrdered(s: seq<real>, k: nat)
    requires Ordered(s) && k < |s|
    ensures IsKth(s, k, s[k])
  {
    BelowAt(s, k, s[k]);
  }

  lemma {:induction false} BelowAt(s: seq<real>, k: nat, v: real)
    requires Ordered(s) && k < |s| && s[k] == v
    ensures Below(s, v) <= k < Below(s, v) + multiset(s)[v]
    decreases |s|
  {
    var last := |s| - 1;
    assert s == s[..last] + [s[last]];
    if k == last {
      NoneAbove(s[..last], v);
    } else {
      BelowAt(s[..last], k, v);
    }
  }

  /** All of s is at most v. */
  lemma {:induction false} NoneAbove(s: seq<real>, v: real)
    requires forall i :: 0 <= i < |s| ==> s[i] <= v
    ensures Below(s, v) + multiset(s)[v] == |s|
  {
    if s != [] {
      assert s == s[..|s| - 1] + [s[|s| - 1]];
      NoneAbove(s[..|s| - 1], v);
    }
  }

  // ----- sorting and merging -----

  function Insert(x: real, s: seq<real>): (r: seq<real>)
    requires Ordered(s)
    ensures Ordered(r) && multiset(r) == multiset(s) + multiset{x}
  {
    if s == [] || s[|s| - 1] <= x then s + [x]
    else
      var r := Insert(x, s[..|s| - 1]);
      assert s == s[..|s| - 1] + [s[|s| - 1]];
      InsertBound(x, s[..|s| - 1], r, s[|s| - 1]);
      r + [s[|s| - 1]]
  }

  lemma InsertBound(x: real, s: seq<real>, r: seq<real>, top: real)
    requires multiset(r) == multiset(s) + multiset{x} && x <= top && forall i :: 0 <= i < |s| ==> s[i] <= top
    ensures forall i :: 0 <= i < |r| ==> r[i] <= top
  {
    forall i | 0 <= i < |r| ensures r[i] <= top {
      assert r[i] in multiset(r);
      assert r[i] in s || r[i] == x;
    }
  }

  /** Python's sorted(), as its result. */
  function Sorted(s: seq<real>): (r: seq<real>)
    ensures Ordered(r) && multiset(r) == multiset(s)
  {
    if s == [] then []
    else
      assert s == s[..|s| - 1] + [s[|s| - 1]];
      Insert(s[|s| - 1], Sorted(s[..|s| - 1]))
  }

  function Union(parts: seq<seq<real>>): multiset<real> {
    if parts == [] then multiset{} else Union(parts[..|parts| - 1]) + multiset(parts[|parts| - 1])
  }

  lemma {:induction false} UnionTake(parts: seq<seq<real>>, i: nat)
    requires i < |parts| && parts[i] != []
    ensures Union(parts) == Union(parts[i := parts[i][1..]]) + multiset{parts[i][0]}
  {
    var last := |parts| - 1;
    var rest := parts[i := parts[i][1..]];
    if i == last {
      assert rest[..last] == parts[..last];
      assert parts[i] == [parts[i][0]] + parts[i][1..];
    } else {
      assert rest[..last] == parts[..last][i := parts[i][1..]];
      UnionTake(parts[..last], i);
    }
  }

  lemma {:induction false} UnionEmpty(parts: seq<seq<real>>)
    requires forall i :: 0 <= i < |parts| ==> parts[i] == []
    ensures Union(parts) == multiset{}
  {
    if parts != [] { UnionEmpty(parts[..|parts| - 1]); }
  }

  predicate AllOrdered(parts: seq<seq<real>>) {
    forall i :: 0 <= i < |parts| ==> Ordered(parts[i])
  }

  /** v is at most everything that is left. */
  predicate LeastOf(parts: seq<seq<real>>, v: real) {
    forall i :: 0 <= i < |parts| && parts[i] != [] ==> v <= parts[i][0]
  }

  function Left(parts: seq<seq<real>>): nat {
    if parts == [] then 0 else Left(parts[..|parts| - 1]) + |parts[|parts| - 1]|
  }

  lemma {:induction false} LeftTake(parts: seq<seq<real>>, i: nat)
    requires i < |parts| && parts[i] != []
    ensures Left(parts[i := parts[i][1..]]) == Left(parts) - 1
  {
    var last := |parts| - 1;
    var rest := parts[i := parts[i][1..]];
    if i == last {
      assert rest[..last] == parts[..last];
    } else {
      assert rest[..last] == parts[..last][i := parts[i][1..]];
      LeftTake(parts[..last], i);
    }
  }

  /** The first of the iterators with the least head, which is what heapq.merge takes next. */
  method LeastHead(parts: seq<seq<real>>) returns (found: bool, best: nat)
    ensures !found <==> forall i :: 0 <= i < |parts| ==> parts[i] == []
    ensures found ==> best < |parts| && parts[best] != [] && LeastOf(parts, parts[best][0])
    ensures found ==> forall i :: 0 <= i < best && parts[i] != [] ==> parts[best][0] < parts[i][0]
  {
    found, best := false, 0;
    var i := 0;
    while i < |parts|
      invariant 0 <= i <= |parts|
      invariant !found <==> forall j :: 0 <= j < i ==> parts[j] == []
      invariant found ==> best < i && parts[best] != []
      invariant found ==> forall j :: 0 <= j < i && parts[j] != [] ==> parts[best][0] <= parts[j][0]
      invariant found ==> forall j :: 0 <= j < best && parts[j] != [] ==> parts[best][0] < parts[j][0]
    {
      if parts[i] != [] && (!found || parts[i][0] < parts[best][0]) {
        found, best := true, i;
      }
      i := i + 1;
    }
  }

  /** What the merge keeps: `merged` is in order and before everything left, and nothing is lost. */
  ghost predicate Merging(parts: seq<seq<real>>, merged: seq<real>, rest: seq<seq<real>>) {
    && AllOrdered(rest) && Ordered(merged)
    && (merged != [] ==> LeastOf(rest, merged[|merged| - 1]))
    && multiset(merged) + Union(rest) == Union(parts)
  }

  lemma TakeOrdered(merged: seq<real>, rest: seq<seq<real>>, i: nat)
    requires AllOrdered(rest) && i < |rest| && rest[i] != [] && LeastOf(rest, rest[i][0])
    requires Ordered(merged) && (merged != [] ==> LeastOf(rest, merged[|merged| - 1]))
    ensures AllOrdered(rest[i := rest[i][1..]]) && LeastOf(rest[i := rest[i][1..]], rest[i][0])
    ensures Ordered(merged + [rest[i][0]])
  {
    assert merged != [] ==> merged[|merged| - 1] <= rest[i][0];
  }

  lemma TakeMerging(parts: seq<seq<real>>, merged: seq<real>, rest: seq<seq<real>>, i: nat)
    requires Merging(parts, merged, rest) && i < |rest| && rest[i] != [] && LeastOf(rest, rest[i][0])
    ensures Merging(parts, merged + [rest[i][0]], rest[i := rest[i][1..]])
  {
    TakeOrdered(merged, rest, i);
    UnionTake(rest, i);
  }

  /** heapq.merge: everything from every partition, in order. */
  method Merge(parts: seq<seq<real>>) returns (merged: seq<real>)
    requires AllOrdered(parts)
    ensures Ordered(merged) && multiset(merged) == Union(parts)
  {
    var rest := parts;
    merged := [];
    var more: bool, i: nat;
    more, i := LeastHead(rest);
    while more
      invariant Merging(parts, merged, rest)
      invariant !more <==> forall j :: 0 <= j < |rest| ==> rest[j] == []
      invariant more ==> i < |rest| && rest[i] != [] && LeastOf(rest, rest[i][0])
      decreases Left(rest)
    {
      TakeMerging(parts, merged, rest, i);
      LeftTake(rest, i);
      merged := merged + [rest[i][0]];
      rest := rest[i := rest[i][1..]];
      more, i := LeastHead(rest);
    }
    UnionEmpty(rest);
  }

  /** The result for one gathering: the error for no data, or the median. */
  method Pick(parts: seq<seq<real>>, ghost all: seq<real>) returns (result: Option<real>)
    requires AllOrdered(parts) && multiset(all) == Union(parts)
    ensures result.None? <==> all == []
    ensures result.Some? ==> IsMedian(all, result.value)
  {
    var merged := Merge(parts);
    var n := |merged|;
    assert |multiset(merged)| == n && |multiset(all)| == |all|;
    if n == 0 { return None; }
    MiddleOfOrdered(merged, all);
    if n % 2 == 1 {
      return Some(merged[n / 2]);
    } else {
      return Some((merged[n / 2 - 1] + merged[n / 2]) / 2.0);
    }
  }

  lemma MiddleOfOrdered(s: seq<real>, all: seq<real>)
    requires Ordered(s) && s != [] && multiset(s) == multiset(all) && |s| == |all|
    ensures |s| % 2 == 1 ==> IsMedian(all, s[|s| / 2])
    ensures |s| % 2 == 0 ==> IsMedian(all, (s[|s| / 2 - 1] + s[|s| / 2]) / 2.0)
  {
    var h := |s| / 2;
    KthOfOrdered(s, h);
    KthOfMultiset(s, all, h, s[h]);
    if |s| % 2 == 0 {
      KthOfOrdered(s, h - 1);
      KthOfMultiset(s, all, h - 1, s[h - 1]);
      assert Middle(all, s[h - 1], s[h]);
    }
  }

  // ----- the distributed median -----

  /** The values of the gathered dictionary, in the order in which Redis listed its keys. */
  function ValuesOf(keys: seq<string>, gathered: map<string, seq<real>>): seq<seq<real>>
    requires forall w :: w in keys ==> w in gathered
  {
    seq(|keys|, i requires 0 <= i < |keys| => gathered[keys[i]])
  }

  lemma {:induction false} UnionOfWorkers(keys: seq<string>, local: map<string, seq<real>>,
    gathered: map<string, seq<real>>)
    requires forall w :: w in keys ==> w in local && w in gathered && gathered[w] == Sorted(local[w])
    ensures Union(ValuesOf(keys, gathered)) == multiset(Everything(keys, local))
    ensures AllOrdered(ValuesOf(keys, gathered))
  {
    if keys != [] {
      UnionOfWorkers(keys[..|keys| - 1], local, gathered);
      assert ValuesOf(keys, gathered)[..|keys| - 1] == ValuesOf(keys[..|keys| - 1], gathered);
    }
  }

  /** What the coordinator reports once it has gathered: _coordinate after its AllGather. */
  method Conclude(keys: seq<string>, gathered: map<string, seq<real>>, ghost local: map<string, seq<real>>)
    returns (result: Option<real>)
    requires forall w :: w in keys ==> w in local && w in gathered && gathered[w] == Sorted(local[w])
    ensures result.None? <==> Everything(keys, local) == []
    ensures result.Some? ==> IsMedian(Everything(keys, local), result.value)
  {
    UnionOfWorkers(keys, local, gathered);
    result := Pick(ValuesOf(keys, gathered), Everything(keys, local));
  }

  /** contribute: every worker's value is its own numbers, sorted. */
  predicate Contributions(cfg: H.Config, local: map<string, seq<real>>) {
    cfg.values.Keys == cfg.workers == local.Keys && forall w :: w in cfg.workers ==> cfg.values[w] == Sorted(local[w])
  }

  lemma MedianInAnyOrder(a: seq<string>, b: seq<string>, local: map<string, seq<real>>, m: real)
    requires R.SameKeys(a, b) && (forall w :: w in a ==> w in local) && IsMedian(Everything(a, local), m)
    ensures forall w :: w in b ==> w in local
    ensures IsMedian(Everything(b, local), m)
  {
    EverythingInAnyOrder(a, b, local);
    MedianOfMultiset(Everything(a, local), Everything(b, local), m);
  }

  lemma MedianOfMultiset(a: seq<real>, b: seq<real>, m: real)
    requires multiset(a) == multiset(b) && IsMedian(a, m)
    ensures IsMedian(b, m)
  {
    assert |multiset(a)| == |a| && |multiset(b)| == |b|;
    if |a| % 2 == 1 {
      KthOfMultiset(a, b, |a| / 2, m);
    } else {
      var x, y :| Middle(a, x, y) && m == (x + y) / 2.0;
      KthOfMultiset(a, b, |a| / 2 - 1, x);
      KthOfMultiset(a, b, |a| / 2, y);
      assert Middle(b, x, y);
    }
  }

  /**
   * The distributed median: in every run of the protocol in which the coordinator gathers `g` and
   * no contribution has run out, whatever the order `keys` in which Redis lists the keys, the
   * result is the median of all the workers' numbers, in whatever order these are put together -
   * or the error for no data, if there is not a single number.
   */
  method DistributedMedian(
    ghost cfg: H.Config, ghost store: Storage.Store<H.Value>, ghost run: seq<H.Action>, ghost at: int,
    g: map<string, H.Value>, keys: seq<string>, ghost local: map<string, seq<real>>)
    returns (result: Option<real>)
    requires H.Start(store) && H.Exec(cfg, store, run).Some?
    requires H.Exec(cfg, store, run).value.answer == Some(H.Gathered(g, at))
    requires at < store.now + store.expiry && Contributions(cfg, local)
    requires R.SameKeys(keys, keys) && forall w :: w in keys <==> w in g
    ensures result.None? <==> forall w :: w in cfg.workers ==> local[w] == []
    ensures result.Some? ==> forall order :: R.SameKeys(keys, order) ==>
      (forall w :: w in order ==> w in local) && IsMedian(Everything(order, local), result.value)
  {
    H.NothingIsLost(cfg, store, run, g, at);
    NoNumbers(keys, local);
    result := Conclude(keys, g, local);
    if result.Some? {
      forall order | R.SameKeys(keys, order)
        ensures (forall w :: w in order ==> w in local) && IsMedian(Everything(order, local), result.value)
      {
        MedianInAnyOrder(keys, order, local, result.value);
      }
    }
  }
}

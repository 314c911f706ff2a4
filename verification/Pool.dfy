/** The numbers of all the workers put together: what a distributed computation should be about. */
module Pool {
  import R = Reduction

  /** All the workers' numbers, worker by worker. */
  function Everything(workers: seq<string>, local: map<string, seq<real>>): seq<real>
    requires forall w :: w in workers ==> w in local
  {
    if workers == [] then [] else Everything(workers[..|workers| - 1], local) + local[workers[|workers| - 1]]
  }

  lemma EverythingLast(keys: seq<string>, local: map<string, seq<real>>)
    requires keys != [] && forall w :: w in keys ==> w in local
    ensures multiset(Everything(keys, local)) ==
      multiset(Everything(keys[..|keys| - 1], local)) + multiset(local[keys[|keys| - 1]])
  {
  }

  lemma WithoutKnown(keys: seq<string>, local: map<string, seq<real>>, i: nat)
    requires i < |keys| && forall w :: w in keys ==> w in local
    ensures forall w :: w in R.Without(keys, i) ==> w in local
  {
    forall w | w in R.Without(keys, i) ensures w in local {
      assert w in keys;
    }
  }

  lemma WithoutFront(keys: seq<string>, i: nat)
    requires i < |keys| - 1
    ensures var w := R.Without(keys, i); w != [] && w[|w| - 1] == keys[|keys| - 1]
    ensures var w := R.Without(keys, i); w[..|w| - 1] == R.Without(keys[..|keys| - 1], i)
  {
  }

  lemma Exchange(
    all: multiset<real>, front: multiset<real>, without: multiset<real>, rest: multiset<real>, one: multiset<real>,
    last: multiset<real>)
    requires all == front + last && front == rest + one && without == rest + last
    ensures all == without + one
  {
  }

  predicate Known(keys: seq<string>, local: map<string, seq<real>>) { forall w :: w in keys ==> w in local }

  /** The numbers of the worker at i can be counted last. */
  ghost predicate CountedLast(keys: seq<string>, local: map<string, seq<real>>, i: nat)
    requires i < |keys|
  {
    && Known(keys, local) && Known(R.Without(keys, i), local)
    && multiset(Everything(keys, local)) == multiset(Everything(R.Without(keys, i), local)) + multiset(local[keys[i]])
  }

  lemma LastCountedLast(keys: seq<string>, local: map<string, seq<real>>)
    requires keys != [] && Known(keys, local)
    ensures CountedLast(keys, local, |keys| - 1)
  {
    EverythingLast(keys, local);
    assert R.Without(keys, |keys| - 1) == keys[..|keys| - 1];
  }

  lemma NextCountedLast(keys: seq<string>, local: map<string, seq<real>>, i: nat)
    requires i < |keys| - 1 && Known(keys, local) && CountedLast(keys[..|keys| - 1], local, i)
    ensures CountedLast(keys, local, i)
  {
    var front, last, without := keys[..|keys| - 1], keys[|keys| - 1], R.Without(keys, i);
    WithoutKnown(keys, local, i);
    WithoutFront(keys, i);
    EverythingLast(keys, local);
    EverythingLast(without, local);
    Exchange(
      multiset(Everything(keys, local)), multiset(Everything(front, local)), multiset(Everything(without, local)),
      multiset(Everything(R.Without(front, i), local)), multiset(local[keys[i]]), multiset(local[last]));
  }

  lemma {:induction false} EverythingWithout(keys: seq<string>, local: map<string, seq<real>>, i: nat)
    requires i < |keys| && Known(keys, local)
    ensures CountedLast(keys, local, i)
  {
    if i == |keys| - 1 {
      LastCountedLast(keys, local);
    } else {
      EverythingWithout(keys[..|keys| - 1], local, i);
      NextCountedLast(keys, local, i);
    }
  }

  /** The order in which the workers are listed does not matter. */
  lemma {:induction false} EverythingInAnyOrder(a: seq<string>, b: seq<string>, local: map<string, seq<real>>)
    requires R.SameKeys(a, b) && forall w :: w in a ==> w in local
    ensures forall w :: w in b ==> w in local
    ensures multiset(Everything(a, local)) == multiset(Everything(b, local))
    decreases |a|
  {
    if a == [] {
      R.EmptyOrNot(b);
    } else {
      var last := |a| - 1;
      assert a[last] in b;
      var i :| 0 <= i < |b| && b[i] == a[last];
      R.WithoutLast(a, b, i);
      EverythingWithout(b, local, i);
      EverythingInAnyOrder(a[..last], R.Without(b, i), local);
    }
  }

  lemma {:induction false} NoNumbers(keys: seq<string>, local: map<string, seq<real>>)
    requires forall w :: w in keys ==> w in local
    ensures Everything(keys, local) == [] <==> forall w :: w in keys ==> local[w] == []
  {
    if keys != [] {
      NoNumbers(keys[..|keys| - 1], local);
      assert forall w :: w in keys <==> w in keys[..|keys| - 1] || w == keys[|keys| - 1];
    }
  }

  lemma Cancel(a: multiset<real>, b: multiset<real>, x: real)
    requires a + multiset{x} == b + multiset{x}
    ensures a == b
  {
    assert a == a + multiset{x} - multiset{x};
    assert b == b + multiset{x} - multiset{x};
  }
}

/**
 * Mapper.Reduce: folding the gathered values, in whatever order the keys come. A value is a
 * numpy array of numbers; operations apply element by element.
 */
module Reduction {
  type Value = seq<real>

  /** ScarletBase.SUM, MUL, MAX and MIN. */
  datatype Op = Sum | Mul | Max | Min

  function Element(op: Op, x: real, y: real): real {
    match op
    case Sum => x + y
    case Mul => x * y
    case Max => if x < y then y else x
    case Min => if x < y then x else y
  }

  /** performOperation on arrays of one length. */
  function Perform(op: Op, a: Value, b: Value): (r: Value)
    requires |a| == |b|
    ensures |r| == |a|
  {
    seq(|a|, i requires 0 <= i < |a| => Element(op, a[i], b[i]))
  }

  predicate Sized(values: map<string, Value>, keys: seq<string>, n: nat) {
    forall i :: 0 <= i < |keys| ==> keys[i] in values && |values[keys[i]]| == n
  }

  /** The loop of Reduce over the keys. */
  function Fold(op: Op, init: Value, values: map<string, Value>, keys: seq<string>): (r: Value)
    requires Sized(values, keys, |init|)
    ensures |r| == |init|
  {
    if keys == [] then init
    else Perform(op, values[keys[|keys| - 1]], Fold(op, init, values, keys[..|keys| - 1]))
  }

  lemma Swap(op: Op, a: Value, b: Value, c: Value)
    requires |a| == |b| == |c|
    ensures Perform(op, a, Perform(op, b, c)) == Perform(op, b, Perform(op, a, c))
  {
    forall i | 0 <= i < |a|
      ensures Element(op, a[i], Element(op, b[i], c[i])) == Element(op, b[i], Element(op, a[i], c[i]))
    {
      if op.Mul? { MulSwap(a[i], b[i], c[i]); }
    }
  }

  lemma MulSwap(x: real, y: real, z: real)
    ensures x * (y * z) == y * (x * z)
  {
  }

  function Without(keys: seq<string>, i: nat): seq<string>
    requires i < |keys|
  {
    keys[..i] + keys[i + 1..]
  }

  /** Any key may be folded in last. */
  lemma {:induction false} FoldLast(op: Op, init: Value, values: map<string, Value>, keys: seq<string>, i: nat)
    requires Sized(values, keys, |init|) && i < |keys|
    ensures Sized(values, Without(keys, i), |init|)
    ensures Fold(op, init, values, keys) == Perform(op, values[keys[i]], Fold(op, init, values, Without(keys, i)))
  {
    var last := |keys| - 1;
    if i == last {
      assert Without(keys, i) == keys[..last];
    } else {
      FoldLast(op, init, values, keys[..last], i);
      assert Without(keys, i)[..last - 1] == Without(keys[..last], i);
      Swap(op, values[keys[last]], values[keys[i]], Fold(op, init, values, Without(keys[..last], i)));
    }
  }

  predicate Distinct(keys: seq<string>) {
    forall i, j :: 0 <= i < j < |keys| ==> keys[i] != keys[j]
  }

  ghost predicate SameKeys(a: seq<string>, b: seq<string>) {
    Distinct(a) && Distinct(b) && forall k :: k in a <==> k in b
  }

  lemma WithoutLast(a: seq<string>, b: seq<string>, i: nat)
    requires SameKeys(a, b) && a != [] && i < |b| && b[i] == a[|a| - 1]
    ensures SameKeys(a[..|a| - 1], Without(b, i))
  {
    var c := Without(b, i);
    forall k ensures k in a[..|a| - 1] <==> k in c {
      if k in a[..|a| - 1] {
        assert k in b;
        var j :| 0 <= j < |b| && b[j] == k;
        assert c[if j < i then j else j - 1] == k;
      }
      if k in c {
        var j :| 0 <= j < |c| && c[j] == k;
        assert b[if j < i then j else j + 1] == k;
        assert k in a;
      }
    }
  }

  lemma EmptyOrNot(keys: seq<string>)
    ensures keys == [] || exists k :: k in keys
  {
    assert keys != [] ==> keys[0] in keys;
  }

  /** Reduce gives the same value for every order in which Redis may list the keys. */
  lemma {:induction false} OrderDoesNotMatter(op: Op, init: Value, values: map<string, Value>, a: seq<string>,
    b: seq<string>)
    requires Sized(values, a, |init|) && Sized(values, b, |init|) && SameKeys(a, b)
    ensures Fold(op, init, values, a) == Fold(op, init, values, b)
    decreases |a|
  {
    if a == [] {
      EmptyOrNot(b);
    } else {
      var last := |a| - 1;
      assert a[last] in b;
      var i :| 0 <= i < |b| && b[i] == a[last];
      FoldLast(op, init, values, b, i);
      WithoutLast(a, b, i);
      OrderDoesNotMatter(op, init, values, a[..last], Without(b, i));
    }
  }

  // ----- what a fold is -----

  /** The i-th numbers of all the values, in the order of the keys. */
  function Column(values: map<string, Value>, keys: seq<string>, n: nat, i: nat): (c: seq<real>)
    requires Sized(values, keys, n) && i < n
    ensures |c| == |keys| && forall k :: 0 <= k < |keys| ==> c[k] == values[keys[k]][i]
  {
    seq(|keys|, k requires 0 <= k < |keys| => values[keys[k]][i])
  }

  function SumOf(xs: seq<real>): real { if xs == [] then 0.0 else SumOf(xs[..|xs| - 1]) + xs[|xs| - 1] }

  function ProductOf(xs: seq<real>): real { if xs == [] then 1.0 else ProductOf(xs[..|xs| - 1]) * xs[|xs| - 1] }

  /** One of the numbers or the start, and no less than any of them. */
  predicate IsMax(m: real, start: real, xs: seq<real>) {
    && (m == start || exists k :: 0 <= k < |xs| && xs[k] == m)
    && start <= m && forall k :: 0 <= k < |xs| ==> xs[k] <= m
  }

  predicate IsMin(m: real, start: real, xs: seq<real>) {
    && (m == start || exists k :: 0 <= k < |xs| && xs[k] == m)
    && m <= start && forall k :: 0 <= k < |xs| ==> m <= xs[k]
  }

  lemma ProductMore(r: real, start: real, p: real, x: real)
    requires r == start * p
    ensures x * r == start * (p * x)
  {
  }

  /** Reduce works place by place: there it adds up, multiplies, or picks the largest or the smallest. */
  lemma {:induction false} FoldColumn(op: Op, init: Value, values: map<string, Value>, keys: seq<string>, i: nat)
    requires Sized(values, keys, |init|) && i < |init|
    ensures var r, c := Fold(op, init, values, keys)[i], Column(values, keys, |init|, i);
      match op
      case Sum => r == init[i] + SumOf(c)
      case Mul => r == init[i] * ProductOf(c)
      case Max => IsMax(r, init[i], c)
      case Min => IsMin(r, init[i], c)
  {
    if keys != [] {
      var last := |keys| - 1;
      FoldColumn(op, init, values, keys[..last], i);
      var c, before := Column(values, keys, |init|, i), Column(values, keys[..last], |init|, i);
      assert c[..last] == before && forall k :: 0 <= k < last ==> c[k] == before[k];
      ProductMore(init[i] * ProductOf(before), init[i], ProductOf(before), c[last]);
    }
  }

  predicate Zero(v: Value) { forall i :: 0 <= i < |v| ==> v[i] == 0.0 }

  lemma ZeroAddsNothing(v: Value, z: Value)
    requires Zero(z) && |z| == |v|
    ensures Perform(Sum, z, v) == v
  {
  }

  /** The keys that are not in `gone`, in order. */
  function Remaining(keys: seq<string>, gone: set<string>): seq<string> {
    if keys == [] then []
    else Remaining(keys[..|keys| - 1], gone) + (if keys[|keys| - 1] in gone then [] else [keys[|keys| - 1]])
  }

  /**
   * A chunk that runs out while Aggregate([0, 0]) is reading falls back to the zeros it starts
   * from, and so counts exactly as if its key had not been there.
   */
  lemma {:induction false} GoneCountsNothing(init: Value, values: map<string, Value>, keys: seq<string>,
    gone: set<string>)
    requires Sized(values, keys, |init|) && forall k :: k in gone && k in values ==> Zero(values[k])
    ensures Sized(values, Remaining(keys, gone), |init|)
    ensures Fold(Sum, init, values, keys) == Fold(Sum, init, values, Remaining(keys, gone))
  {
    if keys != [] {
      var before, k := keys[..|keys| - 1], keys[|keys| - 1];
      GoneCountsNothing(init, values, before, gone);
      if k in gone {
        ZeroAddsNothing(Fold(Sum, init, values, before), values[k]);
        assert Remaining(keys, gone) == Remaining(before, gone);
      } else {
        var rest := Remaining(keys, gone);
        assert rest[..|rest| - 1] == Remaining(before, gone);
      }
    }
  }
}

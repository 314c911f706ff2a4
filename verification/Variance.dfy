/**
 * skills/sum.py and the composition that its documentation promises: the sums of values and of
 * squares, combined, are the variance of all the workers' numbers.
 */
module Variance {
  import opened Wrappers
  import Storage
  import H = Handshake
  import R = Reduction
  import opened Pool
  import opened SafeEval

  datatype Transform = Identity | Square

  /** _TRANSFORMS.get(name, identity) */
  function TransformNamed(name: string): Transform { if name == "square" then Square else Identity }

  function Transformed(t: Transform, x: real): real { if t.Square? then x * x else x }

  function Total(t: Transform, xs: seq<real>): real {
    if xs == [] then 0.0 else Total(t, xs[..|xs| - 1]) + Transformed(t, xs[|xs| - 1])
  }

  /** contribute: what a worker Maps. */
  function Contribution(t: Transform, xs: seq<real>): R.Value { [Total(t, xs), |xs| as real] }

  lemma {:induction false} TotalConcat(t: Transform, a: seq<real>, b: seq<real>)
    ensures Total(t, a + b) == Total(t, a) + Total(t, b)
  {
    if b == [] {
      assert a + b == a;
    } else {
      assert (a + b)[..|a + b| - 1] == a + b[..|b| - 1];
      TotalConcat(t, a, b[..|b| - 1]);
    }
  }

  lemma TotalTakeOut(t: Transform, s: seq<real>, i: nat)
    requires i < |s|
    ensures Total(t, s) == Total(t, s[..i] + s[i + 1..]) + Transformed(t, s[i])
    ensures multiset(s) == multiset(s[..i] + s[i + 1..]) + multiset{s[i]}
  {
    var x := [s[i]];
    assert s == s[..i] + x + s[i + 1..];
    TotalConcat(t, s[..i], x);
    TotalConcat(t, s[..i] + x, s[i + 1..]);
    TotalConcat(t, s[..i], s[i + 1..]);
    assert x[..0] == [];
    assert Total(t, x) == Total(t, []) + Transformed(t, s[i]);
  }

  /** A total depends on the multiset of the numbers only. */
  lemma {:induction false} TotalOfMultiset(t: Transform, a: seq<real>, b: seq<real>)
    requires multiset(a) == multiset(b)
    ensures Total(t, a) == Total(t, b)
    decreases |a|
  {
    if a == [] {
      assert |multiset(b)| == 0;
    } else {
      assert a[0] in multiset(a);
      assert a[0] in multiset(b);
      var i :| 0 <= i < |b| && b[i] == a[0];
      TotalTakeOut(t, a, 0);
      TotalTakeOut(t, b, i);
      Cancel(multiset(a[..0] + a[1..]), multiset(b[..i] + b[i + 1..]), a[0]);
      TotalOfMultiset(t, a[..0] + a[1..], b[..i] + b[i + 1..]);
    }
  }

  const Zeros: R.Value := [0.0, 0.0]

  predicate Contributed(t: Transform, keys: seq<string>, local: map<string, seq<real>>, g: map<string, R.Value>) {
    forall i :: 0 <= i < |keys| ==> keys[i] in local && keys[i] in g && g[keys[i]] == Contribution(t, local[keys[i]])
  }

  /** Aggregate([0, 0]): the total and the count of all the numbers, no contribution twice. */
  lemma {:induction false} AggregateIsTotal(t: Transform, keys: seq<string>, local: map<string, seq<real>>,
    g: map<string, R.Value>)
    requires Contributed(t, keys, local, g)
    ensures forall w :: w in keys ==> w in local
    ensures R.Sized(g, keys, 2) && R.Fold(R.Sum, Zeros, g, keys) == Contribution(t, Everything(keys, local))
  {
    if keys != [] {
      var last := |keys| - 1;
      AggregateIsTotal(t, keys[..last], local, g);
      TotalConcat(t, Everything(keys[..last], local), local[keys[last]]);
    }
  }

  /** contribute of every worker, for the transform of the call. */
  predicate Contributions(cfg: H.Config, t: Transform, local: map<string, seq<real>>) {
    cfg.values.Keys == cfg.workers == local.Keys && forall w :: w in cfg.workers ==>
      cfg.values[w] == Contribution(t, local[w])
  }

  /** What one call of the sum skill reports if it gathers: `result` and `n`. */
  ghost predicate Reports(t: Transform, local: map<string, seq<real>>, order: seq<string>, result: real, n: int)
    requires forall w :: w in order ==> w in local
  {
    result == Total(t, Everything(order, local)) && n == |Everything(order, local)|
  }

  /**
   * The distributed sum: in every run in which the coordinator gathers `g` and nothing has run
   * out, the fold over `g` - in the order in which Redis lists its keys - is the total and the
   * count over all the workers' numbers, in whatever order these are put together. The request
   * names the transform; any name but "square" means the plain sum.
   */
  lemma DistributedSum(
    cfg: H.Config, store: Storage.Store<H.Value>, run: seq<H.Action>, g: map<string, H.Value>, at: int,
    transform: string, local: map<string, seq<real>>, keys: seq<string>, order: seq<string>)
    requires H.Start(store) && H.Exec(cfg, store, run).Some?
    requires H.Exec(cfg, store, run).value.answer == Some(H.Gathered(g, at))
    requires at < store.now + store.expiry && Contributions(cfg, TransformNamed(transform), local)
    requires R.SameKeys(keys, order) && forall w :: w in keys <==> w in g
    ensures R.Sized(g, keys, 2) && forall w :: w in order ==> w in local
    ensures var totals := R.Fold(R.Sum, Zeros, g, keys);
      Reports(if transform == "square" then Square else Identity, local, order, totals[0], totals[1].Floor)
  {
    var t := TransformNamed(transform);
    H.NothingIsLost(cfg, store, run, g, at);
    forall i | 0 <= i < |keys| ensures keys[i] in local && keys[i] in g
      && g[keys[i]] == Contribution(t, local[keys[i]]) {
      assert keys[i] in keys;
    }
    AggregateIsTotal(t, keys, local, g);
    EverythingInAnyOrder(keys, order, local);
    var all, pooled := Everything(keys, local), Everything(order, local);
    assert |multiset(all)| == |all| && |multiset(pooled)| == |pooled|;
    TotalOfMultiset(t, all, pooled);
  }

  // ----- variance -----

  function Mean(xs: seq<real>): real
    requires xs != []
  {
    Total(Identity, xs) / |xs| as real
  }

  /** The squared distances from m, added up. */
  function Deviations(xs: seq<real>, m: real): real {
    if xs == [] then 0.0 else Deviations(xs[..|xs| - 1], m) + (xs[|xs| - 1] - m) * (xs[|xs| - 1] - m)
  }

  /** The mean of the squared deviations from the mean. */
  function VarianceOf(xs: seq<real>): real
    requires xs != []
  {
    Deviations(xs, Mean(xs)) / |xs| as real
  }

  lemma {:induction false} DeviationsExpand(xs: seq<real>, m: real)
    ensures Deviations(xs, m) == Total(Square, xs) - 2.0 * m * Total(Identity, xs) + |xs| as real * (m * m)
  {
    if xs != [] {
      var x, before := xs[|xs| - 1], xs[..|xs| - 1];
      DeviationsExpand(before, m);
      assert (x - m) * (x - m) == x * x - 2.0 * m * x + m * m;
      assert |xs| as real * (m * m) == |before| as real * (m * m) + m * m;
      assert 2.0 * m * Total(Identity, xs) == 2.0 * m * Total(Identity, before) + 2.0 * m * x;
    }
  }

  lemma {:induction false} DeviationsNotNegative(xs: seq<real>, m: real)
    ensures Deviations(xs, m) >= 0.0
  {
    if xs != [] {
      DeviationsNotNegative(xs[..|xs| - 1], m);
      SquareNotNegative(xs[|xs| - 1] - m);
    }
  }

  /** s2 / n - (s1 / n) ** 2 */
  const VarianceNode :=
    Binary(Sub, Binary(Div, Name("s2"), Name("n")),
           Binary(Pow, Binary(Div, Name("s1"), Name("n")), Constant(Number(2.0))))

  const VarianceExpression := Parsed(VarianceNode)

  /** (s2 / n - (s1 / n) ** 2) ** 0.5 */
  const DeviationExpression := Parsed(Binary(Pow, VarianceNode, Constant(Number(0.5))))

  function Bindings(s1: real, s2: real, n: int): Variables {
    map["s1" := Number(s1), "s2" := Number(s2), "n" := Number(n as real)]
  }

  lemma Squared(pw: Powers, q: real)
    ensures Compute(pw, Pow, Real(q), Real(2.0)) == Value(Real(q * q))
  {
    var two := 2.0;
    assert two.Floor == 2 && Integral(two);
    assert Power(q, 0) == 1.0 && Power(q, 1) == q && Power(q, 2) == q * q;
    assert RealPower(pw, q, two) == Value(Real(Power(q, two.Floor)));
  }

  lemma EvaluateVariance(pw: Powers, s1: real, s2: real, n: int, q: real)
    requires n != 0 ==> q == s1 / n as real
    ensures n != 0 ==> Eval(pw, VarianceNode, Bindings(s1, s2, n)) == Value(Real(s2 / n as real - q * q))
    ensures n == 0 ==> Eval(pw, VarianceNode, Bindings(s1, s2, n)) == ZeroDivision
  {
    var vars, count := Bindings(s1, s2, n), Real(n as real);
    var first, mean := Binary(Div, Name("s2"), Name("n")), Binary(Div, Name("s1"), Name("n"));
    assert Eval(pw, Name("n"), vars) == Value(count);
    assert Eval(pw, Name("s1"), vars) == Value(Real(s1)) && Eval(pw, Name("s2"), vars) == Value(Real(s2));
    assert Eval(pw, first, vars) == Compute(pw, Div, Real(s2), count);
    assert Eval(pw, mean, vars) == Compute(pw, Div, Real(s1), count);
    if n != 0 {
      Squared(pw, q);
      assert Eval(pw, Binary(Pow, mean, Constant(Number(2.0))), vars) == Value(Real(q * q));
    }
  }

  /** Dividing by the count, as a product. */
  lemma Quotient(s1: real, n: real) returns (m: real)
    requires n > 0.0
    ensures m == s1 / n && m * n == s1
  {
    m := s1 / n;
  }

  lemma ExpandedAtMean(s1: real, s2: real, n: real, m: real, d: real)
    requires m * n == s1 && d == s2 - 2.0 * m * s1 + n * (m * m)
    ensures d == s2 - (m * m) * n
  {
    assert m * s1 == (m * m) * n by { assert m * (m * n) == (m * m) * n; }
    assert n * (m * m) == (m * m) * n;
    assert 2.0 * m * s1 == 2.0 * (m * s1);
  }

  lemma Divided(s2: real, n: real, p: real, d: real)
    requires n > 0.0 && d == s2 - p * n
    ensures d / n == s2 / n - p
  {
  }

  lemma DeviationsAt(xs: seq<real>, m: real, n: real, p: real)
    requires n == |xs| as real && m * n == Total(Identity, xs) && p == m * m
    ensures Deviations(xs, m) == Total(Square, xs) - p * n
  {
    DeviationsExpand(xs, m);
    ExpandedAtMean(Total(Identity, xs), Total(Square, xs), n, m, Deviations(xs, m));
  }

  lemma DeviationsDivided(xs: seq<real>, m: real, n: real, p: real)
    requires n == |xs| as real > 0.0 && Deviations(xs, m) == Total(Square, xs) - p * n
    ensures Deviations(xs, m) / n == Total(Square, xs) / n - p
  {
    Divided(Total(Square, xs), n, p, Deviations(xs, m));
  }

  lemma MeanTimesCount(xs: seq<real>)
    requires xs != []
    ensures Mean(xs) * |xs| as real == Total(Identity, xs)
  {
    var m := Quotient(Total(Identity, xs), |xs| as real);
  }

  lemma DeviationsAtMean(xs: seq<real>, m: real, n: real, p: real)
    requires xs != [] && n == |xs| as real && m == Mean(xs) && p == m * m
    ensures VarianceOf(xs) == Total(Square, xs) / n - p
  {
    MeanTimesCount(xs);
    DeviationsAt(xs, m, n, p);
    DeviationsDivided(xs, m, n, p);
  }

  lemma QuotientNotNegative(d: real, n: real)
    requires d >= 0.0 && n > 0.0
    ensures d / n >= 0.0
  {
  }

  lemma VarianceNotNegative(xs: seq<real>)
    requires xs != []
    ensures VarianceOf(xs) >= 0.0
  {
    DeviationsNotNegative(xs, Mean(xs));
    QuotientNotNegative(Deviations(xs, Mean(xs)), |xs| as real);
  }

  lemma EvaluatesToVariance(pw: Powers, xs: seq<real>, m: real)
    requires xs != [] ==> m == Mean(xs)
    ensures Eval(pw, VarianceNode, Bindings(Total(Identity, xs), Total(Square, xs), |xs|)) ==
      if xs == [] then ZeroDivision else Value(Real(VarianceOf(xs)))
  {
    EvaluateVariance(pw, Total(Identity, xs), Total(Square, xs), |xs|, m);
    if xs != [] { DeviationsAtMean(xs, m, |xs| as real, m * m); }
  }

  /** Two calls of sum, of values and of squares, report on the same numbers - maybe over different workers. */
  ghost predicate SameNumbers(
    local1: map<string, seq<real>>, order1: seq<string>, s1: real, n: int,
    local2: map<string, seq<real>>, order2: seq<string>, s2: real, n2: int)
  {
    && (forall w :: w in order1 ==> w in local1) && (forall w :: w in order2 ==> w in local2)
    && multiset(Everything(order1, local1)) == multiset(Everything(order2, local2))
    && Reports(Identity, local1, order1, s1, n) && Reports(Square, local2, order2, s2, n2)
  }

  /**
   * Variance from sums: for any two distributions of the same numbers over workers, combining the
   * totals of squares and of values is the mean of the squared deviations, hence never negative;
   * and without any number the division by n escapes.
   */
  lemma VarianceComposes(
    pw: Powers,
    local1: map<string, seq<real>>, order1: seq<string>, s1: real, n: int,
    local2: map<string, seq<real>>, order2: seq<string>, s2: real, n2: int)
    requires SameNumbers(local1, order1, s1, n, local2, order2, s2, n2)
    ensures var xs := Everything(order1, local1);
      Coordinate(pw, VarianceExpression, Bindings(s1, s2, n)) == if xs == [] then Escapes else Ok(Real(VarianceOf(xs)))
    ensures var xs := Everything(order1, local1); xs != [] ==> VarianceOf(xs) >= 0.0
  {
    var xs := Everything(order1, local1);
    TotalOfMultiset(Square, xs, Everything(order2, local2));
    EvaluatesToVariance(pw, xs, if xs == [] then 0.0 else Mean(xs));
    if xs != [] { VarianceNotNegative(xs); }
  }

  // ----- a pooled mean -----

  /** (n1 * m1 + n2 * m2) / (n1 + n2) */
  const PooledMeanNode :=
    Binary(Div, Binary(Add, Binary(Mult, Name("n1"), Name("m1")), Binary(Mult, Name("n2"), Name("m2"))),
           Binary(Add, Name("n1"), Name("n2")))

  function MeanBindings(m1: real, n1: int, m2: real, n2: int): Variables {
    map["m1" := Number(m1), "n1" := Number(n1 as real), "m2" := Number(m2), "n2" := Number(n2 as real)]
  }

  lemma EvaluatePooled(pw: Powers, m1: real, n1: int, m2: real, n2: int, p: real, q: real)
    requires p == n1 as real * m1 && q == n2 as real * m2
    ensures Eval(pw, PooledMeanNode, MeanBindings(m1, n1, m2, n2)) ==
      if n1 + n2 == 0 then ZeroDivision else Value(Real((p + q) / (n1 + n2) as real))
  {
    var vars := MeanBindings(m1, n1, m2, n2);
    var left, right := Binary(Mult, Name("n1"), Name("m1")), Binary(Mult, Name("n2"), Name("m2"));
    assert Eval(pw, Name("n1"), vars) == Value(Real(n1 as real)) && Eval(pw, Name("m1"), vars) == Value(Real(m1));
    assert Eval(pw, Name("n2"), vars) == Value(Real(n2 as real)) && Eval(pw, Name("m2"), vars) == Value(Real(m2));
    assert Eval(pw, left, vars) == Value(Real(p)) && Eval(pw, right, vars) == Value(Real(q));
    assert Eval(pw, Binary(Add, left, right), vars) == Value(Real(p + q));
    assert Eval(pw, Binary(Add, Name("n1"), Name("n2")), vars) == Value(Real(n1 as real + n2 as real));
    assert n1 as real + n2 as real == (n1 + n2) as real;
  }

  /** The mean of some numbers; without any, whatever was answered then. */
  predicate IsMean(m: real, xs: seq<real>) { xs != [] ==> m == Mean(xs) }

  lemma CountTimesMean(m: real, xs: seq<real>)
    requires IsMean(m, xs)
    ensures |xs| as real * m == Total(Identity, xs)
  {
    if xs == [] { assert |xs| as real * m == 0.0; } else { MeanTimesCount(xs); }
  }

  lemma MeanOfBoth(xs: seq<real>, ys: seq<real>)
    requires xs + ys != []
    ensures Mean(xs + ys) == (Total(Identity, xs) + Total(Identity, ys)) / (|xs| + |ys|) as real
  {
    var all, n := xs + ys, |xs| + |ys|;
    TotalConcat(Identity, xs, ys);
    assert |all| == n && Mean(all) == Total(Identity, all) / |all| as real;
  }

  /**
   * The means of two groups, weighted by their counts, are the mean of all their numbers; and
   * without any number the division by the sum of the counts escapes.
   */
  lemma PooledMeanComposes(pw: Powers, xs: seq<real>, m1: real, ys: seq<real>, m2: real)
    requires IsMean(m1, xs) && IsMean(m2, ys)
    ensures Coordinate(pw, Parsed(PooledMeanNode), MeanBindings(m1, |xs|, m2, |ys|)) ==
      if xs + ys == [] then Escapes else Ok(Real(Mean(xs + ys)))
  {
    CountTimesMean(m1, xs);
    CountTimesMean(m2, ys);
    if xs + ys != [] { MeanOfBoth(xs, ys); }
    EvaluatePooled(pw, m1, |xs|, m2, |ys|, Total(Identity, xs), Total(Identity, ys));
  }

  lemma RootOf(pw: Powers, node: Node, vars: Variables, v: real)
    requires Eval(pw, node, vars) == Value(Real(v)) && v >= 0.0
    ensures Coordinate(pw, Parsed(Binary(Pow, node, Constant(Number(0.5)))), vars) ==
      Ok(Real(if v == 0.0 then 0.0 else pw.root(v, 0.5)))
  {
    assert Eval(pw, Constant(Number(0.5)), vars) == Value(Real(0.5));
    assert (0.5 as real).Floor == 0;
  }

  /** Likewise the standard deviation: it is never complex, for the variance is never negative. */
  lemma DeviationComposes(
    pw: Powers,
    local1: map<string, seq<real>>, order1: seq<string>, s1: real, n: int,
    local2: map<string, seq<real>>, order2: seq<string>, s2: real, n2: int)
    requires SameNumbers(local1, order1, s1, n, local2, order2, s2, n2)
    requires Everything(order1, local1) != []
    ensures var v := VarianceOf(Everything(order1, local1));
      Coordinate(pw, DeviationExpression, Bindings(s1, s2, n)) == Ok(Real(if v == 0.0 then 0.0 else pw.root(v, 0.5)))
  {
    var xs := Everything(order1, local1);
    TotalOfMultiset(Square, xs, Everything(order2, local2));
    EvaluatesToVariance(pw, xs, Mean(xs));
    VarianceNotNegative(xs);
    RootOf(pw, VarianceNode, Bindings(s1, s2, n), VarianceOf(xs));
  }
}

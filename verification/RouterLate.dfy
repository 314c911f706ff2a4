/**
 * MessageRouter promises that a message which comes after the timeout is ignored. It is queued,
 * and on_key hands out queued messages oldest first. So it has no effect exactly as long as the
 * key is registered no more often than messages wait before it.
 */
module RouterLate {
  import opened Wrappers
  import opened Router
  import opened RouterRuns

  /** How often k is registered in a run. */
  function Registrations(run: seq<Action>, k: Key): nat {
    if run == [] then 0
    else (if run[0].OnKey? && run[0].k == k then 1 else 0) + Registrations(run[1..], k)
  }

  /** k is used through on_key alone: nobody else takes or drops its messages. */
  predicate OnKeyOnly(run: seq<Action>, k: Key) {
    forall i :: 0 <= i < |run| ==> !(run[i].ReceiveFor? && run[i].k == k) && !(run[i].Forget? && run[i].k == k)
  }

  predicate Called(s: State, m: nat) { m in s.went && s.went[m].ToCallback? }

  /** Message m waits for k behind n others. */
  predicate Behind(s: State, k: Key, m: nat, n: nat) {
    && k !in s.table.callbacks && m !in s.went
    && n < |QueueOf(s.table, k)| && QueueOf(s.table, k)[n] == m
  }

  /** A message that waits for k waits for no other key. */
  lemma NotElsewhere(s: State, k: Key, m: nat, n: nat, j: Key)
    requires Inv(s) && Behind(s, k, m, n)
    ensures m < |s.arrived| && s.arrived[m] == k
    ensures j != k ==> m !in QueueOf(s.table, j)
  {
    assert QueueExact(s, k, QueueOf(s.table, k)) && m in QueueOf(s.table, k);
    assert QueueExact(s, j, QueueOf(s.table, j));
  }

  lemma BehindOnKey(s: State, a: Action, k: Key, m: nat, n: nat, s': State)
    requires Inv(s) && Behind(s, k, m, n) && a.OnKey? && Apply(s, a) == Some(s')
    ensures if a.k != k then Behind(s', k, m, n) else if n == 0 then Called(s', m) else Behind(s', k, m, n - 1)
  {
    var q := QueueOf(s.table, a.k);
    NotElsewhere(s, k, m, n, a.k);
    assert QueueExact(s, a.k, q);
    assert q != [] ==> q[0] in q;
  }

  lemma BehindTaken(s: State, a: Action, k: Key, m: nat, n: nat, s': State)
    requires Inv(s) && Behind(s, k, m, n) && (a.ReceiveFor? || a.Forget?) && a.k != k && Apply(s, a) == Some(s')
    ensures Behind(s', k, m, n)
  {
    NotElsewhere(s, k, m, n, a.k);
  }

  lemma BehindRun(s: State, t: nat, k: Key, m: nat, n: nat, s': State)
    requires Behind(s, k, m, n) && Apply(s, Run(t)) == Some(s')
    ensures Behind(s', k, m, n)
  {
  }

  lemma BehindArrival(s: State, a: Action, k: Key, m: nat, n: nat, s': State)
    requires Inv(s) && Behind(s, k, m, n) && (a.Receive? || a.Tick? || a.Fire?) && Apply(s, a) == Some(s')
    ensures Behind(s', k, m, n)
  {
    NotElsewhere(s, k, m, n, k);
  }

  /** One registration hands out the message in front; nothing else moves m. */
  lemma BehindStep(s: State, a: Action, k: Key, m: nat, n: nat, s': State)
    requires Inv(s) && Behind(s, k, m, n) && Apply(s, a) == Some(s')
    requires !(a.ReceiveFor? && a.k == k) && !(a.Forget? && a.k == k)
    ensures if !(a.OnKey? && a.k == k) then Behind(s', k, m, n)
      else if n == 0 then Called(s', m) else Behind(s', k, m, n - 1)
  {
    if a.OnKey? { BehindOnKey(s, a, k, m, n, s'); }
    else if a.ReceiveFor? || a.Forget? { BehindTaken(s, a, k, m, n, s'); }
    else if a.Run? { BehindRun(s, a.t, k, m, n, s'); }
    else { BehindArrival(s, a, k, m, n, s'); }
  }

  lemma CalledStays(s: State, a: Action, m: nat, s': State)
    requires Inv(s) && Called(s, m) && Apply(s, a) == Some(s')
    ensures Called(s', m)
  {
    WentKept(s, a, s');
  }

  lemma {:induction false} CalledForGood(s: State, run: seq<Action>, m: nat, s': State)
    requires Inv(s) && Called(s, m) && Exec(s, run) == Some(s')
    ensures Called(s', m)
    decreases run
  {
    if run != [] {
      var next := Apply(s, run[0]).value;
      StepInv(s, run[0], next);
      CalledStays(s, run[0], m, next);
      CalledForGood(next, run[1..], m, s');
    }
  }

  lemma {:induction false} CalledIffBehind(s: State, run: seq<Action>, k: Key, m: nat, n: nat, s': State)
    requires Inv(s) && Behind(s, k, m, n) && Exec(s, run) == Some(s') && OnKeyOnly(run, k)
    ensures Called(s', m) <==> Registrations(run, k) > n
    decreases run
  {
    if run != [] {
      var next, rest := Apply(s, run[0]).value, run[1..];
      StepInv(s, run[0], next);
      BehindStep(s, run[0], k, m, n, next);
      assert forall i :: 0 <= i < |rest| ==> rest[i] == run[i + 1];
      if !(run[0].OnKey? && run[0].k == k) {
        CalledIffBehind(next, rest, k, m, n, s');
      } else if n > 0 {
        CalledIffBehind(next, rest, k, m, n - 1, s');
      } else {
        CalledForGood(next, rest, m, s');
      }
    }
  }

  lemma Arrives(s: State, k: Key)
    requires Inv(s) && k !in s.table.callbacks
    ensures Apply(s, Receive(k)).Some? && Behind(Apply(s, Receive(k)).value, k, |s.arrived|, |QueueOf(s.table, k)|)
  {
    assert |s.arrived| !in s.went;
  }

  /**
   * The exact condition. A message comes for a key for which no callback is parked - its timeout
   * has ended the wait, say. In every run in which the key is used through on_key alone, some
   * callback gets the message if and only if the key is registered again more often than
   * messages waited for it at that moment.
   */
  lemma LateMessageIff(s: State, k: Key, run: seq<Action>, s': State)
    requires Reachable(s) && k !in s.table.callbacks
    requires Exec(s, [Receive(k)] + run) == Some(s') && OnKeyOnly(run, k)
    ensures Called(s', |s.arrived|) <==> Registrations(run, k) > |QueueOf(s.table, k)|
  {
    ReachableInv(s);
    Arrives(s, k);
    var next := Apply(s, Receive(k)).value;
    StepInv(s, Receive(k), next);
    assert ([Receive(k)] + run)[1..] == run;
    CalledIffBehind(next, run, k, |s.arrived|, |QueueOf(s.table, k)|, s');
  }

  /** k is not registered in a run. */
  predicate Unregistered(run: seq<Action>, k: Key) {
    forall i :: 0 <= i < |run| ==> !(run[i].OnKey? && run[i].k == k)
  }

  /** Whatever else is done with the key, without a registration no callback gets the message. */
  lemma {:induction false} NobodyCalled(s: State, run: seq<Action>, k: Key, m: nat, s': State)
    requires Inv(s) && Uncalled(s, k, m)
    requires Exec(s, run) == Some(s') && Unregistered(run, k)
    ensures Uncalled(s', k, m)
    decreases run
  {
    if run != [] {
      var next, rest := Apply(s, run[0]).value, run[1..];
      StepInv(s, run[0], next);
      assert !(run[0].OnKey? && run[0].k == k);
      NotCalledYet(s, run[0], k, m, next);
      assert forall i :: 0 <= i < |rest| ==> rest[i] == run[i + 1];
      NobodyCalled(next, rest, k, m, s');
    }
  }

  /** No callback is parked for k, and m, a message for k, went to none. */
  predicate Uncalled(s: State, k: Key, m: nat) {
    k !in s.table.callbacks && m < |s.arrived| && s.arrived[m] == k && !Called(s, m)
  }

  lemma UncalledOnKey(s: State, a: Action, k: Key, m: nat, s': State)
    requires Inv(s) && Uncalled(s, k, m) && a.OnKey? && a.k != k && Apply(s, a) == Some(s')
    ensures Uncalled(s', k, m)
  {
    if QueueOf(s.table, a.k) != [] { OldestHere(s, a.k); }
  }

  lemma UncalledRun(s: State, t: nat, k: Key, m: nat, s': State)
    requires Uncalled(s, k, m) && Apply(s, Run(t)) == Some(s')
    ensures Uncalled(s', k, m)
  {
  }

  lemma UncalledOther(s: State, a: Action, k: Key, m: nat, s': State)
    requires Messages(s) && Uncalled(s, k, m) && !a.OnKey? && !a.Run? && Apply(s, a) == Some(s')
    ensures Uncalled(s', k, m)
  {
  }

  lemma NotCalledYet(s: State, a: Action, k: Key, m: nat, s': State)
    requires Inv(s) && Uncalled(s, k, m) && Apply(s, a) == Some(s') && !(a.OnKey? && a.k == k)
    ensures Uncalled(s', k, m)
  {
    if a.OnKey? { UncalledOnKey(s, a, k, m, s'); }
    else if a.Run? { UncalledRun(s, a.t, k, m, s'); }
    else { UncalledOther(s, a, k, m, s'); }
  }

  /** A late message is ignored by every continuation that does not register its key. */
  lemma LateMessageIgnored(s: State, k: Key, run: seq<Action>, s': State)
    requires Reachable(s) && k !in s.table.callbacks
    requires Exec(s, [Receive(k)] + run) == Some(s') && Unregistered(run, k)
    ensures !Called(s', |s.arrived|)
  {
    ReachableInv(s);
    Arrives(s, k);
    var next := Apply(s, Receive(k)).value;
    StepInv(s, Receive(k), next);
    assert ([Receive(k)] + run)[1..] == run;
    NobodyCalled(next, run, k, |s.arrived|, s');
  }

  /** The state after registration 0 of key 7 has timed out. */
  function TimedOutState(): State {
    var s1 := Apply(Init(), OnKey(7, Some(5))).value;
    var s2 := Apply(s1, Run(0)).value;                   // on_key schedules the deadline
    var s3 := Apply(s2, Tick(5)).value;
    var s4 := Apply(s3, Fire(7)).value;
    Apply(s4, Run(1)).value                              // the handler pops the callback
  }

  lemma TimedOutReachable()
    ensures Reachable(TimedOutState())
  {
    var run := [OnKey(7, Some(5)), Run(0), Tick(5), Fire(7), Run(1)];
    var s1 := Apply(Init(), run[0]).value;
    var s2 := Apply(s1, run[1]).value;
    var s3 := Apply(s2, run[2]).value;
    var s4 := Apply(s3, run[3]).value;
    var s5 := Apply(s4, run[4]).value;
    assert run[1..][1..][1..][1..][1..] == [];
    assert Exec(s4, run[1..][1..][1..][1..]) == Some(s5);
    assert Exec(s3, run[1..][1..][1..]) == Some(s5);
    assert Exec(s2, run[1..][1..]) == Some(s5);
    assert Exec(s1, run[1..]) == Some(s5);
    assert Exec(Init(), run) == Some(s5);
  }

  /** The promise fails: the message comes after the timeout of registration 0, and registration 1 gets it. */
  lemma LateMessageGetsThrough()
    ensures Reachable(TimedOutState()) && TimedOutState().fate == map[0 := TimedOut(0)]
    ensures var end := Exec(TimedOutState(), [Receive(7), OnKey(7, None)]);
      end.Some? && end.value.fate == map[0 := TimedOut(0), 1 := Fate.Called(0)]
  {
    TimedOutReachable();
    var s, run := TimedOutState(), [Receive(7), OnKey(7, None)];
    var s1 := Apply(s, run[0]).value;
    var s2 := Apply(s1, run[1]).value;
    assert run[1..][1..] == [];
    assert Exec(s1, run[1..]) == Some(s2);
  }
}

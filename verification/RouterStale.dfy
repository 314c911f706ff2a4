/**
 * MessageRouter promises that a timeout and a callback exclude each other for one registration.
 * on_key schedules its deadline after releasing the lock, so the deadline of a registration
 * whose message has already come can stay behind. Registering the key again then lets the old
 * deadline end the new registration. This module says exactly when that can happen.
 */
module RouterStale {
  import opened Wrappers
  import opened Router
  import opened RouterRuns

  /** A timeout on its way for key k: still to be scheduled, scheduled, or fired and about to run. */
  datatype Source = InThread(t: nat) | InDeadline

  predicate IsSource(s: State, k: Key, x: Source) {
    match x
    case InThread(t) =>
      && t in s.threads
      && (|| s.threads[t].Handler?
          || (s.threads[t].AfterPark? && s.threads[t].r < |s.regs| && s.regs[s.threads[t].r].delay.Some?))
      && s.threads[t].r < |s.regs| && s.regs[s.threads[t].r].key == k
    case InDeadline => k in s.table.deadlines
  }

  function RegOf(s: State, k: Key, x: Source): nat
    requires IsSource(s, k, x)
  {
    match x
    case InThread(t) => s.threads[t].r
    case InDeadline => s.table.deadlines[k].handler
  }

  /** Nothing is left of earlier registrations of k that could still time out. */
  ghost predicate Settledown(s: State, k: Key) {
    forall x :: !IsSource(s, k, x)
  }

  /** A registration ended by a timeout was ended by its own one. */
  predicate OwnTimeout(s: State, r: nat) {
    r in s.fate && s.fate[r].TimedOut? ==> s.fate[r].handler == r
  }

  /** As long as r is parked, every timeout on its way for its key is r's own. */
  ghost predicate Guarded(s: State, r: nat) {
    && OwnTimeout(s, r)
    && (Parked(s, r) ==> forall x :: IsSource(s, s.regs[r].key, x) ==> RegOf(s, s.regs[r].key, x) == r)
  }

  /** Everything but a new registration of k. */
  predicate LeavesAlone(a: Action, k: Key) { !(a.OnKey? && a.k == k) }

  predicate AllLeaveAlone(run: seq<Action>, k: Key) {
    forall i :: 0 <= i < |run| ==> LeavesAlone(run[i], k)
  }

  lemma StepGuarded(s: State, a: Action, r: nat, s': State)
    requires Inv(s) && r < |s.regs| && Guarded(s, r) && LeavesAlone(a, s.regs[r].key) && Apply(s, a) == Some(s')
    ensures Guarded(s', r)
  {
    var k := s.regs[r].key;
    ParkedBefore(s, a, r, s');
    FateKept(s, a, s');
    if Parked(s', r) {
      forall x | IsSource(s', k, x) ensures RegOf(s', k, x) == r {
        SourceBefore(s, a, k, x, s');
      }
    }
    if r in s'.fate && r !in s.fate && s'.fate[r].TimedOut? {
      EndedBy(s, a, r, s');
    }
  }

  lemma CallbacksBefore(s: State, a: Action, s': State)
    requires Apply(s, a) == Some(s')
    ensures s.regs <= s'.regs
    ensures forall k :: k in s'.table.callbacks ==>
      s'.table.callbacks[k] == |s.regs| || (k in s.table.callbacks && s'.table.callbacks[k] == s.table.callbacks[k])
  {
  }

  lemma ParkedBefore(s: State, a: Action, r: nat, s': State)
    requires r < |s.regs| && Apply(s, a) == Some(s')
    ensures r < |s'.regs| && s'.regs[r] == s.regs[r]
    ensures Parked(s', r) ==> Parked(s, r)
  {
    CallbacksBefore(s, a, s');
  }

  /** A source of k in the new state comes from a source of k for the same registration. */
  lemma SourceBefore(s: State, a: Action, k: Key, x: Source, s': State)
    requires Wired(s) && LeavesAlone(a, k) && Apply(s, a) == Some(s') && IsSource(s', k, x)
    ensures exists y :: IsSource(s, k, y) && RegOf(s, k, y) == RegOf(s', k, x)
  {
    match a
    case Run(t) => RunSourceBefore(s, t, k, x, s');
    case Fire(_) => FireSourceBefore(s, a, k, x, s');
    case OnKey(_, _) => OnKeySourceBefore(s, a, k, x, s');
    case _ => QuietSourceBefore(s, a, k, x, s');
  }

  lemma RunSourceBefore(s: State, t: nat, k: Key, x: Source, s': State)
    requires Wired(s) && Apply(s, Run(t)) == Some(s') && IsSource(s', k, x)
    ensures exists y :: IsSource(s, k, y) && RegOf(s, k, y) == RegOf(s', k, x)
  {
    if !IsSource(s, k, x) || RegOf(s, k, x) != RegOf(s', k, x) {
      assert IsSource(s, k, InThread(t));
    }
  }

  lemma FireSourceBefore(s: State, a: Action, k: Key, x: Source, s': State)
    requires Wired(s) && a.Fire? && Apply(s, a) == Some(s') && IsSource(s', k, x)
    ensures exists y :: IsSource(s, k, y) && RegOf(s, k, y) == RegOf(s', k, x)
  {
    if !IsSource(s, k, x) {
      assert IsSource(s, k, InDeadline);
    }
  }

  lemma OnKeySourceBefore(s: State, a: Action, k: Key, x: Source, s': State)
    requires Wired(s) && a.OnKey? && a.k != k && Apply(s, a) == Some(s') && IsSource(s', k, x)
    ensures exists y :: IsSource(s, k, y) && RegOf(s, k, y) == RegOf(s', k, x)
  {
    assert IsSource(s, k, x);
  }

  lemma QuietSourceBefore(s: State, a: Action, k: Key, x: Source, s': State)
    requires Wired(s) && !a.Run? && !a.Fire? && !a.OnKey? && Apply(s, a) == Some(s') && IsSource(s', k, x)
    ensures exists y :: IsSource(s, k, y) && RegOf(s, k, y) == RegOf(s', k, x)
  {
    assert IsSource(s, k, x);
  }

  /** Only the handler of a source of r's key ends r by a timeout. */
  /** Only a handler that pops the callback makes a registration time out. */
  lemma NewTimeout(s: State, a: Action, r: nat, s': State)
    requires Apply(s, a) == Some(s') && r !in s.fate && r in s'.fate && s'.fate[r].TimedOut?
    ensures a.Run? && a.t in s.threads && s.threads[a.t].Handler?
    ensures var h := s.threads[a.t].r;
      && h < |s.regs| && s'.fate[r].handler == h
      && s.regs[h].key in s.table.callbacks && s.table.callbacks[s.regs[h].key] == r
  {
  }

  lemma EndedBy(s: State, a: Action, r: nat, s': State)
    requires Wired(s) && r < |s.regs| && Guarded(s, r) && Apply(s, a) == Some(s')
    requires r in s'.fate && r !in s.fate && s'.fate[r].TimedOut?
    ensures s'.fate[r].handler == r
  {
    NewTimeout(s, a, r, s');
    assert MadeFor(s, r, s.regs[s.threads[a.t].r].key);
    assert Parked(s, r);
    assert IsSource(s, s.regs[r].key, InThread(a.t));
  }

  lemma {:induction false} RunGuarded(s: State, run: seq<Action>, r: nat, s': State)
    requires Inv(s) && r < |s.regs| && Guarded(s, r)
    requires AllLeaveAlone(run, s.regs[r].key) && Exec(s, run) == Some(s')
    ensures Guarded(s', r)
    decreases run
  {
    if run != [] {
      var next := Apply(s, run[0]).value;
      assert LeavesAlone(run[0], s.regs[r].key);
      StepInv(s, run[0], next);
      StepGuarded(s, run[0], r, next);
      ParkedBefore(s, run[0], r, next);
      assert forall i :: 0 <= i < |run[1..]| ==> run[1..][i] == run[i + 1];
      RunGuarded(next, run[1..], r, s');
    }
  }

  /**
   * Registering k in s, whatever happens afterwards short of registering k once more, only ends by
   * the registration's own timeout.
   */
  ghost predicate SafeToRegister(s: State, k: Key, delay: Option<nat>) {
    forall run, s' :: AllLeaveAlone(run, k) && Exec(s, [OnKey(k, delay)] + run) == Some(s') ==> OwnTimeout(s', |s.regs|)
  }

  lemma ExecFirst(s: State, a: Action, run: seq<Action>)
    ensures Exec(s, [a] + run) == if Apply(s, a).None? then None else Exec(Apply(s, a).value, run)
  {
    assert ([a] + run)[1..] == run;
  }

  lemma SafeWhenSettled(s: State, k: Key, delay: Option<nat>)
    requires Inv(s) && Settledown(s, k)
    ensures SafeToRegister(s, k, delay)
  {
    forall run, s' | AllLeaveAlone(run, k) && Exec(s, [OnKey(k, delay)] + run) == Some(s')
      ensures OwnTimeout(s', |s.regs|)
    {
      var next := Apply(s, OnKey(k, delay)).value;
      ExecFirst(s, OnKey(k, delay), run);
      StepInv(s, OnKey(k, delay), next);
      FreshGuarded(s, k, delay);
      RunGuarded(next, run, |s.regs|, s');
    }
  }

  lemma FreshGuarded(s: State, k: Key, delay: Option<nat>)
    requires Inv(s) && Settledown(s, k)
    ensures Guarded(Apply(s, OnKey(k, delay)).value, |s.regs|)
  {
    var next := Apply(s, OnKey(k, delay)).value;
    forall x | IsSource(next, k, x) && Parked(next, |s.regs|) ensures RegOf(next, k, x) == |s.regs| {
      assert !IsSource(s, k, x);
    }
  }

  // ----- and it is unsafe as soon as something is left -----

  /** The handler of an older registration runs while r is parked: r is over, and not by its own timeout. */
  lemma HandlerStrikes(s: State, t: nat, r: nat)
    requires Inv(s) && Parked(s, r)
    requires t in s.threads && s.threads[t].Handler? && s.threads[t].r < r
    requires s.regs[s.threads[t].r].key == s.regs[r].key
    ensures Apply(s, Run(t)).Some? && !OwnTimeout(Apply(s, Run(t)).value, r)
  {
  }

  lemma HandlerStrikesRun(s: State, t: nat, r: nat) returns (run: seq<Action>)
    requires Inv(s) && Parked(s, r)
    requires t in s.threads && s.threads[t].Handler? && s.threads[t].r < r
    requires s.regs[s.threads[t].r].key == s.regs[r].key
    ensures AllLeaveAlone(run, s.regs[r].key) && Exec(s, run).Some? && !OwnTimeout(Exec(s, run).value, r)
  {
    HandlerStrikes(s, t, r);
    run := [Run(t)] + [];
    ExecFirst(s, Run(t), []);
  }

  lemma Fired(s: State, r: nat)
    requires Parked(s, r) && s.regs[r].key in s.table.deadlines && s.table.deadlines[s.regs[r].key].at <= s.now
    ensures var k := s.regs[r].key; var s1 := Apply(s, Fire(k));
      && s1.Some? && s1.value.regs == s.regs && Parked(s1.value, r)
      && s.nextThread in s1.value.threads && s1.value.threads[s.nextThread] == Handler(s.table.deadlines[k].handler)
  {
  }

  /** A deadline of an older registration stands and is due while r is parked. */
  lemma DueStrikes(s: State, r: nat) returns (run: seq<Action>)
    requires Inv(s) && Parked(s, r)
    requires s.regs[r].key in s.table.deadlines && s.table.deadlines[s.regs[r].key].handler < r
    requires s.table.deadlines[s.regs[r].key].at <= s.now
    ensures AllLeaveAlone(run, s.regs[r].key) && Exec(s, run).Some? && !OwnTimeout(Exec(s, run).value, r)
  {
    var k := s.regs[r].key;
    assert MadeFor(s, s.table.deadlines[k].handler, k);
    Fired(s, r);
    var s1 := Apply(s, Fire(k)).value;
    StepInv(s, Fire(k), s1);
    var rest := HandlerStrikesRun(s1, s.nextThread, r);
    run := [Fire(k)] + rest;
    ExecFirst(s, Fire(k), rest);
  }

  lemma Ticked(s: State, d: nat, r: nat)
    requires Parked(s, r)
    ensures var s1 := Apply(s, Tick(d));
      s1.Some? && s1.value.regs == s.regs && s1.value.table == s.table && s1.value.now == s.now + d
    ensures Parked(Apply(s, Tick(d)).value, r)
  {
  }

  lemma DeadlineStrikes(s: State, r: nat) returns (run: seq<Action>)
    requires Inv(s) && Parked(s, r)
    requires s.regs[r].key in s.table.deadlines && s.table.deadlines[s.regs[r].key].handler < r
    ensures AllLeaveAlone(run, s.regs[r].key) && Exec(s, run).Some? && !OwnTimeout(Exec(s, run).value, r)
  {
    var at := s.table.deadlines[s.regs[r].key].at;
    var d := if at > s.now then at - s.now else 0;
    Ticked(s, d, r);
    var s1 := Apply(s, Tick(d)).value;
    StepInv(s, Tick(d), s1);
    var rest := DueStrikes(s1, r);
    run := [Tick(d)] + rest;
    ExecFirst(s, Tick(d), rest);
  }

  /** on_key of an older registration has yet to schedule while r is parked. */
  lemma ScheduleStrikes(s: State, t: nat, r: nat) returns (run: seq<Action>)
    requires Inv(s) && Parked(s, r) && IsSource(s, s.regs[r].key, InThread(t)) && s.threads[t].AfterPark?
    requires s.threads[t].r < r
    ensures AllLeaveAlone(run, s.regs[r].key) && Exec(s, run).Some? && !OwnTimeout(Exec(s, run).value, r)
  {
    var s1 := Apply(s, Run(t)).value;
    StepInv(s, Run(t), s1);
    Scheduled(s, t, r);
    var rest := DeadlineStrikes(s1, r);
    run := [Run(t)] + rest;
    ExecFirst(s, Run(t), rest);
  }

  lemma Scheduled(s: State, t: nat, r: nat)
    requires Parked(s, r) && IsSource(s, s.regs[r].key, InThread(t)) && s.threads[t].AfterPark?
    ensures var s1 := Apply(s, Run(t)).value; var k := s.regs[r].key;
      s1.regs == s.regs && Parked(s1, r) && k in s1.table.deadlines && s1.table.deadlines[k].handler == s.threads[t].r
  {
  }

  /** The new registration is parked, and the old timeout is still on its way. */
  lemma ParkedBeside(s: State, k: Key, delay: Option<nat>, x: Source)
    requires Inv(s) && QueueOf(s.table, k) == [] && IsSource(s, k, x)
    ensures Apply(s, OnKey(k, delay)).Some?
    ensures var next := Apply(s, OnKey(k, delay)).value;
      Parked(next, |s.regs|) && next.regs[|s.regs|].key == k && IsSource(next, k, x) && RegOf(next, k, x) < |s.regs|
  {
  }

  lemma LeftStrikes(s: State, r: nat, x: Source) returns (run: seq<Action>)
    requires Inv(s) && Parked(s, r) && IsSource(s, s.regs[r].key, x) && RegOf(s, s.regs[r].key, x) < r
    ensures AllLeaveAlone(run, s.regs[r].key) && Exec(s, run).Some? && !OwnTimeout(Exec(s, run).value, r)
  {
    if x.InDeadline? { run := DeadlineStrikes(s, r); }
    else if s.threads[x.t].Handler? { run := HandlerStrikesRun(s, x.t, r); }
    else { run := ScheduleStrikes(s, x.t, r); }
  }

  lemma UnsafeWhenLeft(s: State, k: Key, delay: Option<nat>, x: Source)
    requires Inv(s) && QueueOf(s.table, k) == [] && IsSource(s, k, x)
    ensures !SafeToRegister(s, k, delay)
  {
    var next := Apply(s, OnKey(k, delay)).value;
    StepInv(s, OnKey(k, delay), next);
    ParkedBeside(s, k, delay, x);
    var run := LeftStrikes(next, |s.regs|, x);
    ExecFirst(s, OnKey(k, delay), run);
  }

  /** If a message is queued, the registration is over at once, with that message. */
  lemma SafeWhenQueued(s: State, k: Key, delay: Option<nat>)
    requires Inv(s) && QueueOf(s.table, k) != []
    ensures SafeToRegister(s, k, delay)
  {
    forall run, s' | AllLeaveAlone(run, k) && Exec(s, [OnKey(k, delay)] + run) == Some(s')
      ensures OwnTimeout(s', |s.regs|)
    {
      var next := Apply(s, OnKey(k, delay)).value;
      ExecFirst(s, OnKey(k, delay), run);
      StepInv(s, OnKey(k, delay), next);
      assert next.fate[|s.regs|].Called?;
      RunGuarded(next, run, |s.regs|, s');
    }
  }

  /**
   * A key can be registered safely exactly when no timeout of an earlier registration of that key is
   * still on its way, or a message for it is already queued.
   */
  lemma SafeToRegisterIff(s: State, k: Key, delay: Option<nat>)
    requires Reachable(s)
    ensures SafeToRegister(s, k, delay) <==> Settledown(s, k) || QueueOf(s.table, k) != []
  {
    ReachableInv(s);
    if Settledown(s, k) {
      SafeWhenSettled(s, k, delay);
    } else if QueueOf(s.table, k) != [] {
      SafeWhenQueued(s, k, delay);
    } else {
      var x :| IsSource(s, k, x);
      UnsafeWhenLeft(s, k, delay, x);
    }
  }

  /** The state after the message for registration 0 came before its deadline was scheduled. */
  function StaleState(): State {
    var s1 := Apply(Init(), OnKey(7, Some(5))).value;   // registration 0 is parked
    var s2 := Apply(s1, Receive(7)).value;               // its message arrives, the callback wins
    var s3 := Apply(s2, Run(1)).value;                   // the poller cancels a deadline that is not there yet
    Apply(s3, Run(0)).value                              // on_key schedules it
  }

  /**
   * The documented exclusion fails: registration 0 got its message and its timeout still ends
   * registration 1 of the same key, which asked for no timeout at all.
   */
  lemma StaleDeadlineStrikes()
    ensures var run := [OnKey(7, None), Tick(5), Fire(7), Run(3)];
      && Exec(StaleState(), run).Some?
      && var s := Exec(StaleState(), run).value;
         s.fate == map[0 := Called(0), 1 := TimedOut(0)]
  {
    var s0 := StaleState();
    var run := [OnKey(7, None), Tick(5), Fire(7), Run(3)];
    var s1 := Apply(s0, run[0]).value;
    var s2 := Apply(s1, run[1]).value;
    var s3 := Apply(s2, run[2]).value;
    var s4 := Apply(s3, run[3]).value;
    assert run[1..][1..][1..][1..] == [];
    assert Exec(s3, run[1..][1..][1..]) == Some(s4);
    assert Exec(s2, run[1..][1..]) == Some(s4);
    assert Exec(s1, run[1..]) == Some(s4);
  }
}

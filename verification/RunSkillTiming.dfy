/**
 * on_key schedules its deadline after it has released the router's lock, so a deadline can
 * outlive the registration it was made for. This module shows that within run_skill such a
 * stale deadline never ends a wait it does not belong to.
 */
module RunSkillTiming {
  import opened Wrappers
  import opened RunSkill
  import opened RunSkillSafety

  /** Where a timeout for some attempt is on its way: a thread, or a deadline of the watcher. */
  datatype Source = InThread(t: nat) | InDeadline

  predicate IsSource(s: State, n: nat, x: Source) {
    match x
    case InThread(t) => t in s.threads && (s.threads[t].Schedule? || s.threads[t].TimeoutHandler?)
      && s.threads[t].n == n
    case InDeadline => Own(n) in s.table.deadlines
  }

  /** The registration a source belongs to. */
  function RegOf(s: State, n: nat, x: Source): nat
    requires IsSource(s, n, x)
  {
    match x
    case InThread(t) => s.threads[t].reg
    case InDeadline => s.table.deadlines[Own(n)].handler
  }

  /** Continuations from which the current attempt may still be registered (again). */
  predicate MayRegister(s: State, p: Place)
    requires IsLive(s, p)
  {
    match p
    case Thr(t) => s.threads[t].Dispatching? || s.threads[t].InProcess? || s.threads[t].Arm? || s.threads[t].OnTimeout?
    case Parked(_) => false
    case Open(_) => true
  }

  ghost predicate NoSource(s: State, n: nat) {
    forall x :: !IsSource(s, n, x)
  }

  /**
   * At most one timeout is on its way per attempt, a parked callback has its own timeout on
   * its way, and an attempt that may still be registered has none.
   */
  ghost predicate Timed(s: State, p: Place) {
    && (forall n, x, y :: IsSource(s, n, x) && IsSource(s, n, y) ==> x == y)
    && (forall n: nat :: Own(n) in s.table.callbacks ==> HasOwnTimeout(s, n))
    && (s.results == [] && IsLive(s, p) && MayRegister(s, p) ==> NoSource(s, AttemptOf(s, p)))
  }

  ghost predicate HasOwnTimeout(s: State, n: nat)
    requires Own(n) in s.table.callbacks
  {
    exists x :: IsSource(s, n, x) && RegOf(s, n, x) == s.table.callbacks[Own(n)]
  }

  /** Timed survives a step that keeps callbacks, adds no source and loses none of a parked key. */
  lemma Unhurried(s: State, s': State, p: Place, q: Place)
    requires Timed(s, p)
    requires forall n, x :: IsSource(s', n, x) ==> IsSource(s, n, x) && RegOf(s', n, x) == RegOf(s, n, x)
    requires forall n: nat :: Own(n) in s'.table.callbacks ==>
      && Own(n) in s.table.callbacks && s'.table.callbacks[Own(n)] == s.table.callbacks[Own(n)]
      && forall x :: IsSource(s, n, x) ==> IsSource(s', n, x)
    requires s'.results == [] && IsLive(s', q) && MayRegister(s', q) ==> NoSource(s', AttemptOf(s', q))
    ensures Timed(s', q)
  {
    forall n: nat | Own(n) in s'.table.callbacks ensures HasOwnTimeout(s', n) {
      var x :| IsSource(s, n, x) && RegOf(s, n, x) == s.table.callbacks[Own(n)];
      assert IsSource(s', n, x);
    }
  }

  lemma StepArmTimed(cfg: Config, s: State, t: nat, choice: Choice, p: Place, s': State, q: Place)
    requires Held(s, p) && Timed(s, p) && Held(s', q) && t in s.threads && s.threads[t].Arm?
    requires RunThread(cfg, s, t, s.threads[t], choice) == Some(s')
    ensures Timed(s', q)
  {
    assert IsLive(s, Thr(t));
    var n := s.threads[t].n;
    assert NoSource(s, n);
    if s'.threads[t].OnReply? {
      assert IsLive(s', Thr(t));
      Unhurried(s, s', p, q);
    } else {
      assert IsLive(s', Parked(n));
      assert IsSource(s', n, InThread(t)) && RegOf(s', n, InThread(t)) == s'.table.callbacks[Own(n)];
      forall m: nat | Own(m) in s'.table.callbacks ensures HasOwnTimeout(s', m) {
        assert m != n ==> IsLive(s, Parked(m));
      }
      forall m, x, y | IsSource(s', m, x) && IsSource(s', m, y) ensures x == y {
        assert x != InThread(t) ==> IsSource(s, m, x);
        assert y != InThread(t) ==> IsSource(s, m, y);
      }
    }
  }

  lemma StepScheduleTimed(cfg: Config, s: State, t: nat, choice: Choice, p: Place, s': State, q: Place)
    requires Held(s, p) && Timed(s, p) && Held(s', q) && t in s.threads && s.threads[t].Schedule?
    requires RunThread(cfg, s, t, s.threads[t], choice) == Some(s')
    ensures Timed(s', q)
  {
    var n := s.threads[t].n;
    assert IsSource(s, n, InThread(t));
    assert IsSource(s', n, InDeadline);
    forall m, x, y | IsSource(s', m, x) && IsSource(s', m, y) ensures x == y {
      assert (x == InDeadline && m == n) || IsSource(s, m, x);
      assert (y == InDeadline && m == n) || IsSource(s, m, y);
    }
    forall m: nat | Own(m) in s'.table.callbacks ensures HasOwnTimeout(s', m) {
      var x :| IsSource(s, m, x) && RegOf(s, m, x) == s.table.callbacks[Own(m)];
      assert IsSource(s', m, if m == n then InDeadline else x);
    }
    if s'.results == [] && MayRegister(s', q) {
      assert IsLive(s, q) && MayRegister(s, q) && q == p;
      var k := AttemptOf(s', q);
      forall x ensures !IsSource(s', k, x) {
        assert !IsSource(s, k, x) && !IsSource(s, k, InThread(t));
      }
    }
  }

  lemma FireTimed(cfg: Config, s: State, a: Action, p: Place, s': State, q: Place)
    requires Held(s, p) && Timed(s, p) && Held(s', q) && a.Fire? && Apply(cfg, s, a) == Some(s')
    ensures Timed(s', q)
  {
    var n, t := a.n, s.nextThread;
    assert IsSource(s, n, InDeadline);
    assert IsSource(s', n, InThread(t));
    forall m, x, y | IsSource(s', m, x) && IsSource(s', m, y) ensures x == y {
      assert (x == InThread(t) && m == n) || IsSource(s, m, x);
      assert (y == InThread(t) && m == n) || IsSource(s, m, y);
    }
    forall m: nat | Own(m) in s'.table.callbacks ensures HasOwnTimeout(s', m) {
      var x :| IsSource(s, m, x) && RegOf(s, m, x) == s.table.callbacks[Own(m)];
      assert IsSource(s', m, if m == n then InThread(t) else x);
    }
    if s'.results == [] && MayRegister(s', q) {
      assert IsLive(s, q) && MayRegister(s, q) && q == p;
      var k := AttemptOf(s', q);
      forall x ensures !IsSource(s', k, x) {
        assert !IsSource(s, k, x) && !IsSource(s, k, InDeadline);
      }
    }
  }

  /** The handler that pops the callback is the handler of that very registration. */
  lemma StepHandlerTimed(cfg: Config, s: State, t: nat, choice: Choice, p: Place, s': State, q: Place)
    requires Held(s, p) && Timed(s, p) && Held(s', q) && t in s.threads && s.threads[t].TimeoutHandler?
    requires RunThread(cfg, s, t, s.threads[t], choice) == Some(s')
    ensures Timed(s', q)
    ensures Own(s.threads[t].n) in s.table.callbacks ==> s.table.callbacks[Own(s.threads[t].n)] == s.threads[t].reg
  {
    var n := s.threads[t].n;
    assert IsSource(s, n, InThread(t));
    if Own(n) in s.table.callbacks {
      var x :| IsSource(s, n, x) && RegOf(s, n, x) == s.table.callbacks[Own(n)];
      assert x == InThread(t);
      assert IsLive(s', Thr(t));
      forall y ensures !IsSource(s', n, y) { assert IsSource(s', n, y) ==> IsSource(s, n, y); }
    } else if s.results == [] {
      assert IsLive(s', p);
    }
    Unhurried(s, s', p, q);
  }

  /** Before the first registration of an attempt. */
  lemma StepBeginningTimed(cfg: Config, s: State, t: nat, choice: Choice, p: Place, s': State, q: Place)
    requires Held(s, p) && Timed(s, p) && Held(s', q) && t in s.threads
    requires s.threads[t].Survey? || s.threads[t].Dispatching? || s.threads[t].InProcess?
    requires RunThread(cfg, s, t, s.threads[t], choice) == Some(s')
    ensures Timed(s', q)
  {
    assert IsLive(s, Thr(t));
    if t in s'.threads { assert IsLive(s', Thr(t)); }
    forall m: nat | Own(m) in s'.table.callbacks ensures false { assert IsLive(s, Parked(m)); }
    Unhurried(s, s', p, q);
  }

  /** Threads that hold the continuation and touch no timeout except to cancel a settled one. */
  lemma StepOwingTimed(cfg: Config, s: State, t: nat, choice: Choice, p: Place, s': State, q: Place)
    requires Held(s, p) && Timed(s, p) && Held(s', q) && t in s.threads
    requires s.threads[t].Deliver? || s.threads[t].OnReply? || s.threads[t].Handle? || s.threads[t].Cancelling?
    requires RunThread(cfg, s, t, s.threads[t], choice) == Some(s')
    ensures Timed(s', q)
  {
    assert IsLive(s, Thr(t));
    if t in s'.threads { assert IsLive(s', Thr(t)); }
    forall m: nat | Own(m) in s'.table.callbacks ensures false { assert IsLive(s, Parked(m)); }
    Unhurried(s, s', p, q);
  }

  lemma StepOnTimeoutTimed(cfg: Config, s: State, t: nat, choice: Choice, p: Place, s': State, q: Place)
    requires Held(s, p) && Timed(s, p) && Held(s', q) && t in s.threads && s.threads[t].OnTimeout?
    requires RunThread(cfg, s, t, s.threads[t], choice) == Some(s')
    ensures Timed(s', q)
  {
    assert IsLive(s, Thr(t));
    var n := s.threads[t].n;
    if s'.threads[t].Handle? { assert IsLive(s', Thr(t)); } else { assert IsLive(s', Open(|s.checkIns|)); }
    forall x | IsSource(s', n, x) ensures false { assert IsSource(s, n, x); }
    Unhurried(s, s', p, q);
  }

  lemma StepTimerTimed(cfg: Config, s: State, t: nat, choice: Choice, p: Place, s': State, q: Place)
    requires Held(s, p) && Timed(s, p) && Held(s', q) && t in s.threads
    requires s.threads[t].Timer?
    requires RunThread(cfg, s, t, s.threads[t], choice) == Some(s')
    ensures Timed(s', q)
  {
    var c := s.threads[t].c;
    if t in s'.threads {
      assert IsLive(s, Open(c)) && IsLive(s', Thr(t));
    } else if s.results == [] {
      assert IsLive(s', p);
    }
    if s'.results == [] && MayRegister(s', q) {
      forall x ensures !IsSource(s', AttemptOf(s', q), x) {
        assert !IsSource(s, AttemptOf(s, p), x);
      }
    }
    Unhurried(s, s', p, q);
  }

  /** A decision in a check-in changes no timeout. */
  lemma DecidedSources(cfg: Config, s: State, t: nat, choice: Choice, s': State)
    requires t in s.threads && s.threads[t].Deliberating? && RunThread(cfg, s, t, s.threads[t], choice) == Some(s')
    ensures s'.table == s.table
    ensures forall n, x :: IsSource(s', n, x) <==> IsSource(s, n, x)
    ensures forall n, x :: IsSource(s', n, x) ==> RegOf(s', n, x) == RegOf(s, n, x)
  {
  }

  lemma StepDeliberatingTimed(cfg: Config, s: State, t: nat, choice: Choice, p: Place, s': State, q: Place)
    requires Held(s, p) && Timed(s, p) && Held(s', q) && t in s.threads
    requires s.threads[t].Deliberating?
    requires RunThread(cfg, s, t, s.threads[t], choice) == Some(s')
    ensures Timed(s', q)
  {
    DecidedSources(cfg, s, t, choice, s');
    if t in s'.threads {
      assert IsLive(s, Open(s.threads[t].c)) && IsLive(s', Thr(t));
    } else if s.results == [] {
      assert IsLive(s', p);
    }
    Unhurried(s, s', p, q);
  }

  lemma StepTalkTimed(cfg: Config, s: State, t: nat, choice: Choice, p: Place, s': State, q: Place)
    requires Held(s, p) && Timed(s, p) && Held(s', q) && t in s.threads
    requires s.threads[t].OpenCheckIn? || s.threads[t].BindConv? || s.threads[t].CheckInReply?
    requires RunThread(cfg, s, t, s.threads[t], choice) == Some(s')
    ensures Timed(s', q)
  {
    if s.results == [] { assert IsLive(s', p); }
    if s'.results == [] && MayRegister(s', q) {
      forall x ensures !IsSource(s', AttemptOf(s', q), x) {
        assert !IsSource(s, AttemptOf(s, p), x);
      }
    }
    Unhurried(s, s', p, q);
  }

  lemma ReceiveTimed(cfg: Config, s: State, a: Action, p: Place, s': State, q: Place)
    requires Held(s, p) && Timed(s, p) && Held(s', q) && a.Receive? && Apply(cfg, s, a) == Some(s')
    ensures Timed(s', q)
  {
    if s'.nextThread != s.nextThread {
      assert IsLive(s, Parked(a.n)) && IsLive(s', Thr(s.nextThread));
    } else if s.results == [] {
      assert IsLive(s', p);
    }
    Unhurried(s, s', p, q);
  }

  lemma AmbientTimed(cfg: Config, s: State, a: Action, p: Place, s': State, q: Place)
    requires Held(s, p) && Timed(s, p) && Held(s', q) && (a.Tick? || a.AgentMessage? || a.Others?)
    requires Apply(cfg, s, a) == Some(s')
    ensures Timed(s', q)
  {
    if s.results == [] { assert IsLive(s', p); }
    Unhurried(s, s', p, q);
  }

  lemma StepTimed(cfg: Config, s: State, a: Action, p: Place, s': State, q: Place)
    requires Held(s, p) && Timed(s, p) && Held(s', q) && Apply(cfg, s, a) == Some(s')
    ensures Timed(s', q)
  {
    match a
    case Run(t, choice) =>
      var th := s.threads[t];
      if th.Arm? { StepArmTimed(cfg, s, t, choice, p, s', q); }
      else if th.OnTimeout? { StepOnTimeoutTimed(cfg, s, t, choice, p, s', q); }
      else if th.Survey? || th.Dispatching? || th.InProcess? { StepBeginningTimed(cfg, s, t, choice, p, s', q); }
      else if Owes(th) { StepOwingTimed(cfg, s, t, choice, p, s', q); }
      else if th.Schedule? { StepScheduleTimed(cfg, s, t, choice, p, s', q); }
      else if th.TimeoutHandler? { StepHandlerTimed(cfg, s, t, choice, p, s', q); }
      else if th.Timer? { StepTimerTimed(cfg, s, t, choice, p, s', q); }
      else if th.Deliberating? { StepDeliberatingTimed(cfg, s, t, choice, p, s', q); }
      else { StepTalkTimed(cfg, s, t, choice, p, s', q); }
    case Fire(_) => FireTimed(cfg, s, a, p, s', q);
    case Receive(_, _) => ReceiveTimed(cfg, s, a, p, s', q);
    case _ => AmbientTimed(cfg, s, a, p, s', q);
  }
}

/** The promises of run_skill, over all runs: every interleaving, and any late, early or duplicate reply. */
module RunSkillTheorems {
  import opened Wrappers
  import opened Router
  import opened RunSkill
  import opened RunSkillSafety
  import opened RunSkillTiming
  import opened RunSkillTalk
  import opened RunSkillTraffic
  import opened RunSkillResults

  ghost predicate Everything(cfg: Config, s: State, p: Place) {
    Held(s, p) && Timed(s, p) && Civil(cfg, s) && Guarded(s) && Ledger(s, p) && Honest(cfg, s)
  }

  lemma InitHolds(cfg: Config)
    ensures Everything(cfg, Init(), Thr(0))
  {
    var s := Init();
    assert Thr(0).t in s.threads && IsLive(s, Thr(0));
    forall q | IsLive(s, q) ensures q == Thr(0) {}
    forall n: nat ensures HonestQueue(s, n, QueueOf(s.table, Own(n))) {}
    assert Ledger(s, Thr(0));
  }

  lemma StepHolds(cfg: Config, s: State, a: Action, p: Place, s': State) returns (q: Place)
    requires Everything(cfg, s, p) && Apply(cfg, s, a) == Some(s')
    ensures Everything(cfg, s', q)
  {
    q := Step(cfg, s, a, p, s');
    StepTimed(cfg, s, a, p, s', q);
    StepCivil(cfg, s, a, s');
    StepGuarded(cfg, s, a, s');
    StepLedger(cfg, s, a, p, s', q);
    StepHonest(cfg, s, a, p, s');
  }

  lemma {:induction false} RunHolds(cfg: Config, s: State, run: seq<Action>, p: Place, s': State) returns (q: Place)
    requires Everything(cfg, s, p) && Exec(cfg, s, run) == Some(s')
    ensures Everything(cfg, s', q)
    decreases run
  {
    q := p;
    if run != [] {
      var next := Apply(cfg, s, run[0]).value;
      q := StepHolds(cfg, s, run[0], p, next);
      q := RunHolds(cfg, next, run[1..], q, s');
    }
  }

  lemma Everywhere(cfg: Config, s: State) returns (p: Place)
    requires Reachable(cfg, s)
    ensures Everything(cfg, s, p)
  {
    var run :| Exec(cfg, Init(), run) == Some(s);
    InitHolds(cfg);
    p := RunHolds(cfg, Init(), run, Thr(0), s);
  }

  // ----- exactly once -----

  /** on_result is called at most once; until then exactly one continuation is live, afterwards none. */
  lemma ExactlyOnce(cfg: Config, s: State)
    requires Reachable(cfg, s)
    ensures |s.results| <= 1
    ensures s.results == [] ==> exists p :: Token(s, p)
    ensures s.results != [] ==> NoToken(s)
  {
    var p := Everywhere(cfg, s);
  }

  /** Without any further message, some thread can run or some deadline can pass. */
  ghost predicate CanGoOn(cfg: Config, s: State) {
    || (exists t, choice :: Apply(cfg, s, Run(t, choice)).Some?)
    || (exists n, d :: CanFireAfter(cfg, s, n, d))
    || (exists t, d :: CanRunAfter(cfg, s, t, d))
  }

  /** A timer whose time comes. */
  ghost predicate CanRunAfter(cfg: Config, s: State, t: nat, d: nat) {
    Apply(cfg, s, Tick(d)).Some? && Apply(cfg, Apply(cfg, s, Tick(d)).value, Run(t, Go)).Some?
  }

  ghost predicate CanFireAfter(cfg: Config, s: State, n: nat, d: nat) {
    Apply(cfg, s, Tick(d)).Some? && Apply(cfg, Apply(cfg, s, Tick(d)).value, Fire(n)).Some?
  }

  /** A call that has not reported can always go on by itself, so a call that cannot go on has reported. */
  lemma NeverStuck(cfg: Config, s: State)
    requires Reachable(cfg, s)
    ensures !CanGoOn(cfg, s) ==> |s.results| == 1
  {
    var p := Everywhere(cfg, s);
    if s.results == [] {
      match p
      case Thr(t) => OwingEnabled(cfg, s, t);
      case Parked(n) =>
        var x :| IsSource(s, n, x) && RegOf(s, n, x) == s.table.callbacks[Own(n)];
        if x.InThread? {
          assert Apply(cfg, s, Run(x.t, Go)).Some?;
        } else {
          var at := s.table.deadlines[Own(n)].at;
          assert CanFireAfter(cfg, s, n, if at > s.now then at - s.now else 0);
        }
      case Open(c) =>
        var t :| t in s.threads && IsTimer(s.threads[t], c);
        var due := s.threads[t].due;
        assert CanRunAfter(cfg, s, t, if due > s.now then due - s.now else 0);
    }
  }

  lemma OwingEnabled(cfg: Config, s: State, t: nat)
    requires Shape(s) && t in s.threads && Owes(s.threads[t])
    ensures CanGoOn(cfg, s)
  {
    var choice := if s.threads[t].Survey? then Workers([], 0)
                  else if s.threads[t].InProcess? then Outcome(Answer(true, false, 0)) else Go;
    assert Apply(cfg, s, Run(t, choice)).Some?;
  }

  /** A timeout handler that finds a callback finds the one it was scheduled for. */
  lemma StaleDeadlineHarmless(cfg: Config, s: State, t: nat)
    requires Reachable(cfg, s)
    requires t in s.threads && s.threads[t].TimeoutHandler? && Own(s.threads[t].n) in s.table.callbacks
    ensures s.table.callbacks[Own(s.threads[t].n)] == s.threads[t].reg
  {
    var p := Everywhere(cfg, s);
    var n := s.threads[t].n;
    var x :| IsSource(s, n, x) && RegOf(s, n, x) == s.table.callbacks[Own(n)];
    assert IsSource(s, n, InThread(t));
  }

  // ----- retries -----

  /** At most max(1, max_attempts) attempts, at most max(1, check_in_max_turns) questions in a check-in. */
  lemma Bounded(cfg: Config, s: State)
    requires Reachable(cfg, s)
    ensures |s.attempts| <= AtLeastOne(cfg.maxAttempts)
    ensures forall c :: 0 <= c < |s.checkIns| ==> s.checkIns[c].turns <= AtLeastOne(cfg.checkInMaxTurns)
  {
    var p := Everywhere(cfg, s);
  }

  /** An attempt is followed by another only after a retryable failure of its own. */
  lemma RetryJustified(cfg: Config, s: State, n: nat)
    requires Reachable(cfg, s) && 1 <= n < |s.attempts|
    ensures n in s.superseded && Supersedes(s, n, s.superseded[n])
  {
    var p := Everywhere(cfg, s);
  }

  /** In a check-in, at most one message or computation is outstanding. */
  lemma OneSpeaker(cfg: Config, s: State, c: nat, x: Speaker, y: Speaker)
    requires Reachable(cfg, s) && Speaks(s, c, x) && Speaks(s, c, y)
    ensures x == y
  {
    var p := Everywhere(cfg, s);
  }

  /**
   * The bus traffic is, attempt by attempt, the dispatch to the surveyed workers and then the
   * cancels to exactly those workers. An attempt is begun only when every earlier one was
   * cancelled in full.
   */
  lemma TrafficInOrder(cfg: Config, s: State)
    requires Reachable(cfg, s)
    ensures s.log <= Closed(s.attempts)
    ensures s.attempts != [] ==> Closed(s.attempts[..|s.attempts| - 1]) <= s.log
  {
    var p := Everywhere(cfg, s);
    if s.attempts != [] {
      var n, a := |s.attempts|, s.attempts[|s.attempts| - 1];
      var before, begun := Closed(s.attempts[..n - 1]), DispatchTo(n, a.workers, a.coordinator);
      assert Closed(s.attempts) == before + (begun + CancelAt(n, a.workers));
      if s.results == [] && p.Thr? {
        match s.threads[p.t]
        case Dispatching(_, todo) => PrefixOfDispatch(before, s.log, n, todo, a);
        case Cancelling(_, todo) => PrefixOfCancel(Begun(s.attempts), s.log, n, todo, a);
        case _ =>
      }
    }
  }

  lemma PrefixOfCancel(before: seq<Sent>, log: seq<Sent>, n: nat, todo: seq<Agent>, a: Attempt)
    requires log + CancelAt(n, todo) == before + CancelAt(n, a.workers)
    requires |todo| <= |a.workers|
    ensures before <= log
  {
    CancelEach(n, todo);
    CancelEach(n, a.workers);
    assert before == (before + CancelAt(n, a.workers))[..|before|];
    assert log[..|before|] == (log + CancelAt(n, todo))[..|before|];
  }

  /** One cancel for each worker, in their order. */
  lemma {:induction false} CancelEach(n: nat, workers: seq<Agent>)
    ensures |CancelAt(n, workers)| == |workers|
    ensures forall i :: 0 <= i < |workers| ==> CancelAt(n, workers)[i] == Cancel(n, workers[i])
  {
    if workers != [] { CancelEach(n, workers[1..]); }
  }

  /** A log that lacks a suffix of the dispatch still contains what came before the dispatch. */
  lemma PrefixOfDispatch(before: seq<Sent>, log: seq<Sent>, n: nat, todo: seq<Agent>, a: Attempt)
    requires log + DispatchTo(n, todo, a.coordinator) == before + DispatchTo(n, a.workers, a.coordinator)
    requires |todo| <= |a.workers|
    ensures before <= log
  {
    DispatchEach(n, todo, a.coordinator);
    DispatchEach(n, a.workers, a.coordinator);
    assert before == (before + DispatchTo(n, a.workers, a.coordinator))[..|before|];
    assert log[..|before|] == (log + DispatchTo(n, todo, a.coordinator))[..|before|];
  }

  /** One dispatch for each worker, in their order, and only the coordinator is told to coordinate. */
  lemma {:induction false} DispatchEach(n: nat, workers: seq<Agent>, coordinator: Agent)
    ensures |DispatchTo(n, workers, coordinator)| == |workers|
    ensures forall i :: 0 <= i < |workers| ==>
      DispatchTo(n, workers, coordinator)[i] == Dispatch(n, workers[i], workers[i] == coordinator)
  {
    if workers != [] { DispatchEach(n, workers[1..], coordinator); }
  }
}

/** Runs of run_skill that do happen: a reply in time, a reply before the wait, a retry, silence. */
module RunSkillRuns {
  import opened Wrappers
  import opened Router
  import opened RunSkill
  import opened RunSkillSafety
  import opened RunSkillTalk
  import opened RunSkillTheorems
  import opened RunSkillCheckInLimit

  lemma Go1(cfg: Config, s: State, t: nat) returns (s': State)
    requires Reachable(cfg, s) && Apply(cfg, s, Run(t, Go)).Some?
    ensures Apply(cfg, s, Run(t, Go)) == Some(s') && Reachable(cfg, s')
  {
    s' := Apply(cfg, s, Run(t, Go)).value;
    ReachMore(cfg, s, Run(t, Go), s');
  }

  /** Attempt 1 is the only one, and thread t has the reply r to it. */
  ghost predicate Has(cfg: Config, s: State, t: nat, r: Result) {
    Reachable(cfg, s) && |s.attempts| == 1 && s.results == [] && t in s.threads && s.threads[t] == OnReply(1, r)
  }

  lemma NotYet(cfg: Config, s: State, t: nat)
    requires Reachable(cfg, s) && t in s.threads && Owes(s.threads[t])
    ensures s.results == []
  {
    var p := Everywhere(cfg, s);
    assert IsLive(s, Thr(t));
  }

  lemma EarlyReply(cfg: Config, r: Result) returns (s: State)
    requires r.Answer?
    ensures Has(cfg, s, 0, r)
  {
    var s0 := Start(cfg);
    assert Own(1) !in s0.table.callbacks by {
      var p := Everywhere(cfg, s0);
      assert IsLive(s0, Thr(0));
      assert !IsLive(s0, Parked(1));
    }
    var s1 := Apply(cfg, s0, Receive(1, r)).value;
    ReachMore(cfg, s0, Receive(1, r), s1);
    s := Go1(cfg, s1, 0);
    NotYet(cfg, s, 0);
  }

  lemma ReplyInTime(cfg: Config, r: Result) returns (s: State, t: nat)
    requires r.Answer?
    ensures Has(cfg, s, t, r)
  {
    var s0 := Start(cfg);
    var s1 := Go1(cfg, s0, 0);
    var s2 := Apply(cfg, s1, Receive(1, r)).value;
    ReachMore(cfg, s1, Receive(1, r), s2);
    t := s1.nextThread;
    s := Go1(cfg, s2, t);
    NotYet(cfg, s, t);
  }

  /** A reply that cannot or may not be retried is what on_result gets, whether it comes early or not. */
  lemma AnswerIsReported(cfg: Config, r: Result, early: bool) returns (s: State)
    requires r.Answer? && (r.success || !r.again || cfg.maxAttempts <= 1)
    ensures Reachable(cfg, s) && s.results == [r]
  {
    var t: nat := 0;
    if early { s := EarlyReply(cfg, r); } else { s, t := ReplyInTime(cfg, r); }
    s := Go1(cfg, s, t);
    s := Go1(cfg, s, t);
  }

  /** A retryable failure leads to a second attempt, dispatched to whatever workers there are then. */
  lemma RetryHappens(cfg: Config, r: Result, w: Agent) returns (s: State)
    requires r.Answer? && !r.success && r.again && cfg.maxAttempts > 1
    ensures Reachable(cfg, s) && |s.attempts| == 2 && s.attempts[1] == Attempt([w], w)
    ensures 1 in s.superseded && s.superseded[1] == r
  {
    var s0, t := ReplyInTime(cfg, r);
    var s1 := Go1(cfg, s0, t);
    var s2 := Go1(cfg, s1, t);
    s := SecondAttempt(cfg, s2, t, w);
  }

  lemma {:induction false} SecondAttempt(cfg: Config, s: State, t: nat, w: Agent) returns (s': State)
    requires Reachable(cfg, s) && |s.attempts| == 1 && t in s.threads && s.threads[t].Cancelling?
    requires s.threads[t].n == 1
    ensures Reachable(cfg, s') && |s'.attempts| == 2 && s'.attempts[1] == Attempt([w], w)
    ensures s'.superseded == s.superseded
    decreases |s.threads[t].todo|
  {
    var s1 := Go1(cfg, s, t);
    if s.threads[t].todo != [] {
      s' := SecondAttempt(cfg, s1, t, w);
    } else {
      s' := Apply(cfg, s1, Run(t, Workers([w], w))).value;
      ReachMore(cfg, s1, Run(t, Workers([w], w)), s');
    }
  }

  /** Silence, without a check-in: the timeout is what on_result gets. */
  lemma SilenceIsReported(cfg: Config) returns (s: State)
    requires NeverChecksIn(cfg) && cfg.maxAttempts <= 1
    ensures Reachable(cfg, s) && s.results == [TimedOut]
  {
    var s0 := Start(cfg);
    var s1, t := TimeOut(cfg, s0, 0, 0);
    NotYet(cfg, s1, t);
    s := Go1(cfg, s1, t);
    s := Go1(cfg, s, t);
  }

  // ----- the bounds are reached -----

  /** Nothing has come for attempt n or a later one. */
  ghost predicate Quiet(s: State, n: nat) { forall m :: m >= n ==> QueueOf(s.table, Own(m)) == [] }

  /** Attempt n is about to be armed for the first time. */
  ghost predicate Attempting(cfg: Config, s: State, t: nat, n: nat) {
    && Reachable(cfg, s) && t in s.threads && s.threads[t] == Arm(n)
    && 1 <= n == |s.attempts| && s.attempts[n - 1].workers == [cfg.agent + 1] && Quiet(s, n)
  }

  lemma Surveys(cfg: Config, s: State, t: nat, n: nat) returns (s': State)
    requires Reachable(cfg, s) && t in s.threads && s.threads[t] == Survey(n)
    requires 1 <= n == |s.attempts| + 1 && Quiet(s, n)
    ensures Attempting(cfg, s', t, n)
  {
    var w := cfg.agent + 1;
    var s1 := Apply(cfg, s, Run(t, Workers([w], w))).value;
    ReachMore(cfg, s, Run(t, Workers([w], w)), s1);
    var s2 := Go1(cfg, s1, t);
    s' := Go1(cfg, s2, t);
  }

  lemma FirstAttempt(cfg: Config) returns (s: State)
    ensures Attempting(cfg, s, 0, 1)
  {
    assert Exec(cfg, Init(), []) == Some(Init());
    s := Surveys(cfg, Init(), 0, 1);
  }

  /** A failure that may be retried is received. */
  lemma FailureComes(cfg: Config, s: State, t: nat, n: nat, r: Result) returns (s': State, t': nat)
    requires Attempting(cfg, s, t, n) && r.Answer?
    ensures Reachable(cfg, s') && t' in s'.threads && s'.threads[t'] == Deliver(n, r)
    ensures s'.attempts == s.attempts && Quiet(s', n + 1)
  {
    var s1 := Go1(cfg, s, t);
    assert Own(n) in s1.table.callbacks;
    s' := Apply(cfg, s1, Receive(n, r)).value;
    ReachMore(cfg, s1, Receive(n, r), s');
    t' := s1.nextThread;
  }

  lemma FailureArrives(cfg: Config, s: State, t: nat, n: nat, r: Result) returns (s': State)
    requires Reachable(cfg, s) && t in s.threads && s.threads[t] == Deliver(n, r) && Quiet(s, n + 1)
    ensures Reachable(cfg, s') && t in s'.threads && s'.threads[t] == Handle(n, r)
    ensures s'.attempts == s.attempts && Quiet(s', n + 1)
  {
    var s1 := Go1(cfg, s, t);
    s' := Go1(cfg, s1, t);
  }

  lemma FailureIsHandled(cfg: Config, s: State, t: nat, n: nat) returns (s': State)
    requires Reachable(cfg, s) && t in s.threads && s.threads[t] == Handle(n, Answer(false, true, 0))
    requires 1 <= n == |s.attempts| && n < cfg.maxAttempts && s.attempts[n - 1].workers == [cfg.agent + 1]
    requires Quiet(s, n + 1)
    ensures Reachable(cfg, s') && t in s'.threads && s'.threads[t] == Cancelling(n, [cfg.agent + 1])
    ensures s'.attempts == s.attempts && Quiet(s', n + 1)
  {
    s' := Go1(cfg, s, t);
  }

  /** The next attempt is dispatched. */
  lemma BeginsAgain(cfg: Config, s: State, t: nat, n: nat) returns (s': State)
    requires Reachable(cfg, s) && t in s.threads && s.threads[t] == Cancelling(n, [cfg.agent + 1])
    requires |s.attempts| == n && Quiet(s, n + 1)
    ensures Attempting(cfg, s', t, n + 1)
  {
    var s1 := Go1(cfg, s, t);
    var s2 := Go1(cfg, s1, t);
    s' := Surveys(cfg, s2, t, n + 1);
  }

  lemma {:induction false} AnyAttempt(cfg: Config, n: nat) returns (s: State, t: nat)
    requires 1 <= n && (n == 1 || n <= cfg.maxAttempts)
    ensures Attempting(cfg, s, t, n)
  {
    if n == 1 {
      t := 0;
      s := FirstAttempt(cfg);
    } else {
      s, t := AnyAttempt(cfg, n - 1);
      s, t := FailureComes(cfg, s, t, n - 1, Answer(false, true, 0));
      s := FailureArrives(cfg, s, t, n - 1, Answer(false, true, 0));
      s := FailureIsHandled(cfg, s, t, n - 1);
      s := BeginsAgain(cfg, s, t, n - 1);
    }
  }

  /** The bound on attempts is reached by some run. */
  lemma AttemptsAreUsed(cfg: Config) returns (s: State)
    ensures Reachable(cfg, s) && |s.attempts| == AtLeastOne(cfg.maxAttempts)
  {
    var t;
    s, t := AnyAttempt(cfg, AtLeastOne(cfg.maxAttempts));
  }

  /** In the one check-in so far, q questions were asked and the coordinator's answer to the last is awaited. */
  ghost predicate Talking(cfg: Config, s: State, q: int) {
    && Reachable(cfg, s) && |s.checkIns| == 1
    && s.checkIns[0].bound && s.checkIns[0].waiting && s.checkIns[0].turns == q
  }

  lemma OpeningQuestion(cfg: Config) returns (s: State)
    requires !NeverChecksIn(cfg)
    ensures Talking(cfg, s, 1)
  {
    var s0 := Start(cfg);
    var s1, t := TimeOut(cfg, s0, 0, 0);
    var s2 := Asked(cfg, s1, t, 0);
    s := Go1(cfg, s2, t);
  }

  lemma AsksMore()
    ensures Decide("ASK:?", true) == FollowUp("?")
  {
    var said := "ASK:?";
    assert Strip(said) == said && said[4..] == "?" && Strip("?") == "?";
    assert Upper(said)[..4] == "ASK:";
  }

  /** The coordinator answers, and another question is still allowed. */
  lemma MayAsk(cfg: Config, s: State, q: int) returns (s': State, t: nat)
    requires Talking(cfg, s, q) && q < cfg.checkInMaxTurns
    ensures Reachable(cfg, s') && t in s'.threads && s'.threads[t] == Deliberating(0, true)
    ensures |s'.checkIns| == 1 && s'.checkIns[0].bound && s'.checkIns[0].turns == q
  {
    var s1 := Apply(cfg, s, AgentMessage(0)).value;
    ReachMore(cfg, s, AgentMessage(0), s1);
    t := s.nextThread;
    s' := Go1(cfg, s1, t);
  }

  lemma NextQuestion(cfg: Config, s: State, q: int) returns (s': State)
    requires Talking(cfg, s, q) && q < cfg.checkInMaxTurns
    ensures Talking(cfg, s', q + 1)
  {
    var s1, t := MayAsk(cfg, s, q);
    AsksMore();
    s' := Apply(cfg, s1, Run(t, Text("ASK:?"))).value;
    ReachMore(cfg, s1, Run(t, Text("ASK:?")), s');
  }

  lemma {:induction false} AnyQuestion(cfg: Config, q: nat) returns (s: State)
    requires !NeverChecksIn(cfg) && 1 <= q && (q == 1 || q <= cfg.checkInMaxTurns)
    ensures Talking(cfg, s, q)
  {
    if q == 1 {
      s := OpeningQuestion(cfg);
    } else {
      s := AnyQuestion(cfg, q - 1);
      s := NextQuestion(cfg, s, q - 1);
    }
  }

  /** And so is the bound on the questions of a check-in, wherever check-ins are possible. */
  lemma QuestionsAreUsed(cfg: Config) returns (s: State)
    requires !NeverChecksIn(cfg)
    ensures Reachable(cfg, s) && |s.checkIns| == 1 && s.checkIns[0].turns == AtLeastOne(cfg.checkInMaxTurns)
  {
    s := AnyQuestion(cfg, AtLeastOne(cfg.checkInMaxTurns));
  }

  // ----- nobody hangs -----

  /** In every reachable state every thread has a step, at once or when its time comes. */
  lemma NoThreadHangs(cfg: Config, s: State, t: nat) returns (d: nat, choice: Choice)
    requires Reachable(cfg, s) && t in s.threads
    ensures Apply(cfg, s, Tick(d)).Some? && Apply(cfg, Apply(cfg, s, Tick(d)).value, Run(t, choice)).Some?
  {
    var p := Everywhere(cfg, s);
    assert Placed(s, s.threads[t]);
    d := if s.threads[t].Timer? && s.threads[t].due > s.now then s.threads[t].due - s.now else 0;
    choice := match s.threads[t]
      case Survey(_) => Workers([], 0)
      case InProcess(_) => Outcome(Answer(true, false, 0))
      case Deliberating(_, _) => Text("")
      case _ => Go;
  }

  // ----- other calls -----

  /**
   * Other calls on the same router are not held up: whatever one of its blocks does to a foreign
   * key may happen at any moment.
   */
  lemma OthersMayWait(cfg: Config, s: State, id: nat, reg: nat, at: int)
    ensures Apply(cfg, s, Others(OnKeyBlock(s.table, Foreign(id), reg).0)).Some?
    ensures Apply(cfg, s, Others(ScheduleBlock(s.table, Foreign(id), Deadline(at, reg)))).Some?
  {
  }

  lemma OthersMayBeServed(cfg: Config, s: State, id: nat, m: Result)
    ensures Apply(cfg, s, Others(DeliverBlock(s.table, Foreign(id), m).0)).Some?
    ensures Apply(cfg, s, Others(TimeoutBlock(s.table, Foreign(id)).0)).Some?
  {
  }

  lemma OthersMayForget(cfg: Config, s: State, id: nat)
    ensures Apply(cfg, s, Others(ForgetBlock(s.table, Foreign(id)))).Some?
    ensures Apply(cfg, s, Others(CancelBlock(s.table, Foreign(id)))).Some?
  {
  }
}

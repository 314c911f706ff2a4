/** A whole run of run_skill: how often responsibility for the result can change hands. */
module RunSkillTermination {
  import opened Wrappers
  import opened RunSkill
  import opened RunSkillSafety
  import opened RunSkillTalk
  import opened RunSkillResults
  import opened RunSkillProgress
  import opened RunSkillTheorems

  lemma ThreadProgress(cfg: Config, b: nat, w: nat, s: State, t: nat, choice: Choice, p: Place, s': State, q: Place)
    requires Held(s, p) && Honest(cfg, s) && Held(s', q) && Within(b, w, s')
    requires t in s.threads && RunThread(cfg, s, t, s.threads[t], choice) == Some(s') && s'.results == []
    requires !(s.threads[t].Cancelling? && s.threads[t].todo == [])
    ensures Closer(b, s, p, s', q) || Same(s, p, s', q)
  {
    match s.threads[t]
    case Survey(_) => SendingProgress(cfg, b, w, s, t, choice, p, s', q);
    case Dispatching(_, _) => SendingProgress(cfg, b, w, s, t, choice, p, s', q);
    case InProcess(_) => AnsweringProgress(cfg, b, w, s, t, choice, p, s', q);
    case Deliver(_, _) => AnsweringProgress(cfg, b, w, s, t, choice, p, s', q);
    case OnReply(_, _) => AnsweringProgress(cfg, b, w, s, t, choice, p, s', q);
    case Handle(_, _) => AnsweringProgress(cfg, b, w, s, t, choice, p, s', q);
    case Arm(_) => WaitingProgress(cfg, b, w, s, t, choice, p, s', q);
    case OnTimeout(_, _) => WaitingProgress(cfg, b, w, s, t, choice, p, s', q);
    case Cancelling(_, _) => CancellingProgress(cfg, b, w, s, t, choice, p, s', q);
    case TimeoutHandler(_, _) => HandlerProgress(cfg, b, w, s, t, choice, p, s', q);
    case Timer(_, _) => TimerProgress(cfg, b, w, s, t, choice, p, s', q);
    case Deliberating(_, _) => DecisionProgress(cfg, b, w, s, t, choice, p, s', q);
    case _ => TalkProgress(cfg, b, w, s, t, choice, p, s', q);
  }

  /** The next attempt begins. */
  predicate Retried(cfg: Config, b: nat, s: State, p: Place, s': State, q: Place) {
    && IsLive(s, p) && IsLive(s', q) && s'.waits == s.waits
    && AttemptOf(s', q) == AttemptOf(s, p) + 1
    && Local(b, s', q) < Local(b, s, p) + (2 * b + 12)
  }

  lemma StepKind(cfg: Config, b: nat, w: nat, s: State, a: Action, p: Place, s': State, q: Place)
    requires Held(s, p) && Honest(cfg, s) && Held(s', q) && Within(b, w, s')
    requires Apply(cfg, s, a) == Some(s') && s'.results == []
    ensures Same(s, p, s', q) || Closer(b, s, p, s', q) || Retried(cfg, b, s, p, s', q)
  {
    if a.Run? {
      if s.threads[a.t].Cancelling? && s.threads[a.t].todo == [] {
        RetryProgress(cfg, b, w, s, a.t, a.choice, p, s', q);
      } else {
        ThreadProgress(cfg, b, w, s, a.t, a.choice, p, s', q);
      }
    } else {
      AmbientProgress(cfg, b, s, a, p, s', q);
    }
  }

  lemma CloserLeavesLess(cfg: Config, b: nat, w: nat, s: State, p: Place, s': State, q: Place)
    requires Closer(b, s, p, s', q)
    ensures Left(cfg, b, w, s', q) < Left(cfg, b, w, s, p)
  {
  }

  lemma RetriedLeavesLess(cfg: Config, b: nat, w: nat, s: State, p: Place, s': State, q: Place)
    requires Retried(cfg, b, s, p, s', q)
    ensures Left(cfg, b, w, s', q) < Left(cfg, b, w, s, p)
  {
    var k := AtLeastOne(cfg.maxAttempts) - AttemptOf(s, p);
    assert (k - 1) * (2 * b + 12) == k * (2 * b + 12) - (2 * b + 12);
  }

  lemma SameLeavesSame(cfg: Config, b: nat, w: nat, s: State, p: Place, s': State, q: Place)
    requires Same(s, p, s', q) && Held(s, p) && Held(s', q) && s.results == [] && s'.results == []
    ensures Left(cfg, b, w, s', q) == Left(cfg, b, w, s, p) && !Moved(s, s')
  {
    assert Token(s, p) && Token(s', q);
  }

  /** Either nothing happens to the continuation, or the number of moves left falls. */
  lemma StepProgress(cfg: Config, b: nat, w: nat, s: State, a: Action, p: Place, s': State, q: Place)
    requires Held(s, p) && Honest(cfg, s) && Held(s', q) && Within(b, w, s')
    requires Apply(cfg, s, a) == Some(s') && s.results == [] && s'.results == []
    ensures (if Moved(s, s') then 1 else 0) + Left(cfg, b, w, s', q) <= Left(cfg, b, w, s, p)
  {
    StepKind(cfg, b, w, s, a, p, s', q);
    if Same(s, p, s', q) { SameLeavesSame(cfg, b, w, s, p, s', q); }
    else if Closer(b, s, p, s', q) { CloserLeavesLess(cfg, b, w, s, p, s', q); }
    else { RetriedLeavesLess(cfg, b, w, s, p, s', q); }
  }

  lemma LeftIsNatural(cfg: Config, b: nat, w: nat, s: State, p: Place)
    requires Held(s, p) && Honest(cfg, s) && s.results == [] && s.waits <= w
    ensures Left(cfg, b, w, s, p) >= 0
  {
    var k := AtLeastOne(cfg.maxAttempts) - AttemptOf(s, p);
    assert k >= 0;
    assert k * (2 * b + 12) >= 0;
  }

  /** The continuation changed its place or what it has to do (reporting the result included). */
  ghost predicate Moved(s: State, s': State) {
    s.results == [] && (s'.results == [] ==> forall p, q :: Token(s, p) && Token(s', q) ==> !Same(s, p, s', q))
  }

  ghost function Moves(cfg: Config, s: State, run: seq<Action>): nat
    decreases run
  {
    if run == [] || Apply(cfg, s, run[0]).None? then 0
    else
      var next := Apply(cfg, s, run[0]).value;
      (if Moved(s, next) then 1 else 0) + Moves(cfg, next, run[1..])
  }

  lemma {:induction false} DoneStaysDone(cfg: Config, s: State, run: seq<Action>, p: Place)
    requires Everything(cfg, s, p) && s.results != []
    ensures Moves(cfg, s, run) == 0
    decreases run
  {
    if run != [] && Apply(cfg, s, run[0]).Some? {
      var next := Apply(cfg, s, run[0]).value;
      ResultsKept(cfg, s, run[0], next);
      var q := StepHolds(cfg, s, run[0], p, next);
      DoneStaysDone(cfg, next, run[1..], q);
    }
  }

  lemma ResultsKept(cfg: Config, s: State, a: Action, s': State)
    requires Apply(cfg, s, a) == Some(s')
    ensures s.results <= s'.results
  {
  }

  lemma HistoryGrows(cfg: Config, s: State, a: Action, s': State)
    requires Apply(cfg, s, a) == Some(s')
    ensures s.waits <= s'.waits && s.attempts <= s'.attempts
  {
  }

  lemma {:induction false} RunGrows(cfg: Config, s: State, run: seq<Action>, s': State)
    requires Exec(cfg, s, run) == Some(s')
    ensures s.waits <= s'.waits && s.attempts <= s'.attempts
    decreases run
  {
    if run != [] {
      var next := Apply(cfg, s, run[0]).value;
      HistoryGrows(cfg, s, run[0], next);
      RunGrows(cfg, next, run[1..], s');
    }
  }

  lemma WithinEarlier(b: nat, w: nat, s: State, s': State)
    requires s.waits <= s'.waits && s.attempts <= s'.attempts && Within(b, w, s')
    ensures Within(b, w, s)
  {
    forall i | 0 <= i < |s.attempts| ensures |s.attempts[i].workers| <= b {
      assert s.attempts[i] == s'.attempts[i];
    }
  }

  lemma {:induction false} MovesBounded(cfg: Config, b: nat, w: nat, s: State, run: seq<Action>, p: Place, s': State)
    requires Everything(cfg, s, p) && s.results == []
    requires Exec(cfg, s, run) == Some(s') && Within(b, w, s')
    ensures Moves(cfg, s, run) <= Left(cfg, b, w, s, p) + 1
    decreases run
  {
    RunGrows(cfg, s, run, s');
    LeftIsNatural(cfg, b, w, s, p);
    if run != [] {
      var next, rest := Apply(cfg, s, run[0]).value, run[1..];
      var q := StepHolds(cfg, s, run[0], p, next);
      RunGrows(cfg, next, rest, s');
      WithinEarlier(b, w, next, s');
      if next.results == [] {
        StepProgress(cfg, b, w, s, run[0], p, next, q);
        MovesBounded(cfg, b, w, next, rest, q, s');
      } else {
        DoneStaysDone(cfg, next, rest, q);
      }
    }
  }

  /** How often the model says WAIT. */
  function WaitsIn(run: seq<Action>): nat {
    if run == [] then 0
    else
      var said := run[0].Run? && run[0].choice.Text? && Decide(run[0].choice.answer, false).Wait?;
      (if said then 1 else 0) + WaitsIn(run[1..])
  }

  lemma StepWaits(cfg: Config, s: State, a: Action, s': State)
    requires Apply(cfg, s, a) == Some(s')
    ensures s'.waits <= s.waits + (if a.Run? && a.choice.Text? && Decide(a.choice.answer, false).Wait? then 1 else 0)
  {
  }

  lemma {:induction false} WaitsAreSaid(cfg: Config, s: State, run: seq<Action>, s': State)
    requires Exec(cfg, s, run) == Some(s')
    ensures s'.waits <= s.waits + WaitsIn(run)
    decreases run
  {
    if run != [] {
      var next := Apply(cfg, s, run[0]).value;
      StepWaits(cfg, s, run[0], next);
      WaitsAreSaid(cfg, next, run[1..], s');
    }
  }

  /**
   * In any run in which no survey finds more than b workers and the model says WAIT w times,
   * responsibility changes hands at most max(1, max_attempts) * (2b + 12) + 4w times.
   */
  lemma RunIsBounded(cfg: Config, b: nat, run: seq<Action>, s: State)
    requires Exec(cfg, Init(), run) == Some(s) && forall i :: 0 <= i < |s.attempts| ==> |s.attempts[i].workers| <= b
    ensures Moves(cfg, Init(), run) <= AtLeastOne(cfg.maxAttempts) * (2 * b + 12) + 4 * WaitsIn(run)
  {
    var w := WaitsIn(run);
    WaitsAreSaid(cfg, Init(), run, s);
    InitHolds(cfg);
    MovesBounded(cfg, b, w, Init(), run, Thr(0), s);
    OneLess(AtLeastOne(cfg.maxAttempts), 2 * b + 12);
  }

  lemma OneLess(k: int, n: int)
    ensures (k - 1) * n == k * n - n
  {
  }
}

/**
 * conv_id in a check-in is assigned only when dialogue.start has returned, which may be after the
 * coordinator's answer. A follow-up question that is decided on before is lost.
 */
module RunSkillBinding {
  import opened Wrappers
  import opened RunSkill
  import opened RunSkillSafety
  import opened RunSkillTalk
  import opened RunSkillTheorems
  import opened RunSkillCheckInLimit
  import opened RunSkillRuns

  /** Thread t has still to open check-in c or to assign its conv_id. */
  predicate Opens(s: State, t: nat, c: nat) {
    t in s.threads && (s.threads[t].OpenCheckIn? || s.threads[t].BindConv?) && s.threads[t].c == c
  }

  ghost predicate Opened(s: State, c: nat) { forall t :: !Opens(s, t, c) }

  ghost predicate Binding(s: State) {
    && (forall c, t, u :: Opens(s, t, c) && Opens(s, u, c) ==> t == u)
    && (forall c :: 0 <= c < |s.checkIns| ==> (s.checkIns[c].bound <==> Opened(s, c)))
  }

  lemma Unbound(s: State, s': State)
    requires Binding(s) && |s'.checkIns| == |s.checkIns|
    requires forall c :: 0 <= c < |s.checkIns| ==> s'.checkIns[c].bound == s.checkIns[c].bound
    requires forall t, c :: Opens(s', t, c) <==> Opens(s, t, c)
    ensures Binding(s')
  {
    forall c | 0 <= c < |s'.checkIns| ensures s'.checkIns[c].bound <==> Opened(s', c) {
      assert Opened(s, c) <==> Opened(s', c);
    }
  }

  lemma StepOnTimeout(cfg: Config, s: State, t: nat, choice: Choice, s': State)
    requires Shape(s) && Binding(s) && t in s.threads && s.threads[t].OnTimeout?
    requires RunThread(cfg, s, t, s.threads[t], choice) == Some(s')
    ensures Binding(s')
  {
    if s'.threads[t].Handle? {
      Unbound(s, s');
    } else {
      var n := |s.checkIns|;
      assert Opens(s', t, n);
      assert forall u :: !Opens(s, u, n);
      assert forall u, c :: c != n ==> (Opens(s', u, c) <==> Opens(s, u, c));
      forall c | 0 <= c < n ensures s'.checkIns[c].bound <==> Opened(s', c) {
        assert Opened(s, c) <==> Opened(s', c);
      }
    }
  }

  lemma StepOpen(cfg: Config, s: State, t: nat, choice: Choice, s': State)
    requires Binding(s) && t in s.threads && s.threads[t].OpenCheckIn?
    requires RunThread(cfg, s, t, s.threads[t], choice) == Some(s')
    ensures Binding(s')
  {
    Unbound(s, s');
  }

  lemma StepBind(cfg: Config, s: State, t: nat, choice: Choice, s': State)
    requires Binding(s) && t in s.threads && s.threads[t].BindConv?
    requires RunThread(cfg, s, t, s.threads[t], choice) == Some(s')
    ensures Binding(s')
  {
    var n := s.threads[t].c;
    assert Opens(s, t, n);
    assert forall u, c :: Opens(s', u, c) <==> Opens(s, u, c) && u != t;
    forall c | 0 <= c < |s.checkIns| ensures s'.checkIns[c].bound <==> Opened(s', c) {
      assert c != n ==> (Opened(s, c) <==> Opened(s', c));
    }
  }

  lemma StepTalking(cfg: Config, s: State, t: nat, choice: Choice, s': State)
    requires Binding(s) && t in s.threads
    requires s.threads[t].Timer? || s.threads[t].CheckInReply? || s.threads[t].Deliberating?
    requires RunThread(cfg, s, t, s.threads[t], choice) == Some(s')
    ensures Binding(s')
  {
    Unbound(s, s');
  }

  lemma StepElsewhere(cfg: Config, s: State, t: nat, choice: Choice, s': State)
    requires Binding(s) && t in s.threads && !s.threads[t].OnTimeout? && Owes(s.threads[t])
    requires RunThread(cfg, s, t, s.threads[t], choice) == Some(s')
    ensures Binding(s')
  {
    Unbound(s, s');
  }

  lemma StepTimeout(cfg: Config, s: State, t: nat, choice: Choice, s': State)
    requires Binding(s) && t in s.threads && (s.threads[t].Schedule? || s.threads[t].TimeoutHandler?)
    requires RunThread(cfg, s, t, s.threads[t], choice) == Some(s')
    ensures Binding(s')
  {
    Unbound(s, s');
  }

  lemma Ambient(cfg: Config, s: State, a: Action, s': State)
    requires Shape(s) && Binding(s) && !a.Run? && Apply(cfg, s, a) == Some(s')
    ensures Binding(s')
  {
    Unbound(s, s');
  }

  lemma StepBinding(cfg: Config, s: State, a: Action, s': State)
    requires Shape(s) && Binding(s) && Apply(cfg, s, a) == Some(s')
    ensures Binding(s')
  {
    if !a.Run? { Ambient(cfg, s, a, s'); }
    else {
      var t, choice, th := a.t, a.choice, s.threads[a.t];
      if th.OnTimeout? { StepOnTimeout(cfg, s, t, choice, s'); }
      else if th.OpenCheckIn? { StepOpen(cfg, s, t, choice, s'); }
      else if th.BindConv? { StepBind(cfg, s, t, choice, s'); }
      else if th.Timer? || th.CheckInReply? || th.Deliberating? { StepTalking(cfg, s, t, choice, s'); }
      else if th.Schedule? || th.TimeoutHandler? { StepTimeout(cfg, s, t, choice, s'); }
      else { StepElsewhere(cfg, s, t, choice, s'); }
    }
  }

  lemma {:induction false} RunBinding(cfg: Config, s: State, run: seq<Action>, p: Place, s': State)
    requires Everything(cfg, s, p) && Binding(s) && Exec(cfg, s, run) == Some(s')
    ensures Binding(s')
    decreases run
  {
    if run != [] {
      var next := Apply(cfg, s, run[0]).value;
      StepBinding(cfg, s, run[0], next);
      var q := StepHolds(cfg, s, run[0], p, next);
      RunBinding(cfg, next, run[1..], q, s');
    }
  }

  /** In every reachable state conv_id is assigned exactly when no thread has still to open the check-in. */
  lemma BoundIffOpened(cfg: Config, s: State, c: nat)
    requires Reachable(cfg, s) && c < |s.checkIns|
    ensures s.checkIns[c].bound <==> Opened(s, c)
  {
    var run :| Exec(cfg, Init(), run) == Some(s);
    InitHolds(cfg);
    RunBinding(cfg, Init(), run, Thr(0), s);
  }

  /**
   * A follow-up is asked, and its answer awaited, if and only if start has returned by then. Else
   * the question is lost, although it counts: nobody speaks in this check-in any more, and only its
   * timer can end it.
   */
  lemma FollowUpIff(cfg: Config, s: State, t: nat, answer: string)
    requires Reachable(cfg, s) && t in s.threads && s.threads[t].Deliberating?
    requires Decide(answer, s.threads[t].allow).FollowUp?
    ensures Apply(cfg, s, Run(t, Text(answer))).Some?
    ensures var s', c := Apply(cfg, s, Run(t, Text(answer))).value, s.threads[t].c;
      && s'.checkIns[c].turns == s.checkIns[c].turns + 1
      && (s'.checkIns[c].waiting <==> Opened(s, c))
      && (!Opened(s, c) ==> forall x :: !Speaks(s', c, x))
  {
    var p := Everywhere(cfg, s);
    var c := s.threads[t].c;
    BoundIffOpened(cfg, s, c);
    assert Speaks(s, c, Mine(t));
    assert !Speaks(s, c, Theirs);
    var s' := Apply(cfg, s, Run(t, Text(answer))).value;
    forall x ensures Speaks(s', c, x) ==> x == Theirs {
      assert Speaks(s', c, x) && x != Theirs ==> Speaks(s, c, x) && x != Mine(t);
    }
  }

  /** The opening question is out, and thread u has still to assign conv_id. */
  lemma QuestionOut(cfg: Config) returns (s: State, u: nat)
    requires !NeverChecksIn(cfg)
    ensures Cycle(cfg, s, u, BindConv(0), 1) && u < s.nextThread
    ensures s.checkIns[0].waiting && s.checkIns[0].turns == 1 && !s.checkIns[0].resolved
  {
    var s0 := Start(cfg);
    var s1, t := TimeOut(cfg, s0, 0, 0);
    s := Asked(cfg, s1, t, 0);
    u := t;
    var p := Everywhere(cfg, s);
  }

  lemma AnsweredAtOnce(cfg: Config) returns (s: State, t: nat)
    requires !NeverChecksIn(cfg) && cfg.checkInMaxTurns > 1
    ensures Reachable(cfg, s) && t in s.threads && s.threads[t] == Deliberating(0, true) && !Opened(s, 0)
    ensures |s.checkIns| == 1 && s.checkIns[0].turns == 1 && !s.checkIns[0].resolved
  {
    var s0, u := QuestionOut(cfg);
    var s1 := Apply(cfg, s0, AgentMessage(0)).value;
    ReachMore(cfg, s0, AgentMessage(0), s1);
    t := s0.nextThread;
    s := Go1(cfg, s1, t);
    assert Opens(s, u, 0);
  }

  /** A run in which a follow-up is lost: the coordinator answers before start has returned. */
  lemma FollowUpIsLost(cfg: Config) returns (s: State)
    requires !NeverChecksIn(cfg) && cfg.checkInMaxTurns > 1
    ensures Reachable(cfg, s) && |s.checkIns| == 1 && s.checkIns[0].turns == 2 && !s.checkIns[0].resolved
    ensures forall x :: !Speaks(s, 0, x)
  {
    var s1, t := AnsweredAtOnce(cfg);
    AsksMore();
    FollowUpIff(cfg, s1, t, "ASK:?");
    s := Apply(cfg, s1, Run(t, Text("ASK:?"))).value;
    ReachMore(cfg, s1, Run(t, Text("ASK:?")), s);
  }
}

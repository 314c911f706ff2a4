/** Turn-taking and bounds of the check-in conversations a call of run_skill holds. */
module RunSkillTalk {
  import opened Wrappers
  import opened RunSkill
  import opened RunSkillSafety

  /** Who is to speak next in a check-in: a thread of this agent, or the coordinator (the waiter is registered). */
  datatype Speaker = Mine(t: nat) | Theirs

  predicate Speaks(s: State, c: nat, x: Speaker) {
    match x
    case Mine(t) =>
      && t in s.threads
      && (s.threads[t].OpenCheckIn? || s.threads[t].CheckInReply? || s.threads[t].Deliberating?)
      && s.threads[t].c == c
    case Theirs => c < |s.checkIns| && s.checkIns[c].waiting
  }

  function AtLeastOne(n: int): int { if n < 1 then 1 else n }

  predicate NeverChecksIn(cfg: Config) { !cfg.deliberate || cfg.maxCheckIns <= 0 }

  ghost predicate Civil(cfg: Config, s: State) {
    // one outstanding message or computation per check-in
    && (forall c, x, y :: Speaks(s, c, x) && Speaks(s, c, y) ==> x == y)
    // the opening question comes before every follow-up
    && (forall t :: t in s.threads && s.threads[t].OpenCheckIn? && s.threads[t].c < |s.checkIns| ==>
          s.checkIns[s.threads[t].c].turns == 0)
    // a follow-up is only allowed within the bound
    && (forall t | t in s.threads && s.threads[t].Deliberating? && s.threads[t].allow ::
          s.threads[t].c < |s.checkIns| ==> s.checkIns[s.threads[t].c].turns < cfg.checkInMaxTurns)
    && (forall c :: 0 <= c < |s.checkIns| ==> s.checkIns[c].turns <= AtLeastOne(cfg.checkInMaxTurns))
    && (NeverChecksIn(cfg) ==> s.checkIns == [] && forall t :: t in s.threads ==> !s.threads[t].OpenCheckIn?)
  }

  /** A step that adds no speaker and asks no question stays civil. */
  lemma Silent(cfg: Config, s: State, s': State)
    requires Shape(s) && Civil(cfg, s)
    requires forall c, x :: Speaks(s', c, x) ==> Speaks(s, c, x)
    requires forall t :: t in s'.threads && (s'.threads[t].OpenCheckIn? || s'.threads[t].Deliberating?) ==>
      t in s.threads && s.threads[t] == s'.threads[t]
    requires |s'.checkIns| == |s.checkIns|
    requires forall c :: 0 <= c < |s.checkIns| ==> s'.checkIns[c].turns == s.checkIns[c].turns
    ensures Civil(cfg, s')
  {
  }

  lemma StepOpenCivil(cfg: Config, s: State, t: nat, choice: Choice, s': State)
    requires Shape(s) && Civil(cfg, s) && t in s.threads && s.threads[t].OpenCheckIn?
    requires RunThread(cfg, s, t, s.threads[t], choice) == Some(s')
    ensures Civil(cfg, s')
  {
    var c := s.threads[t].c;
    assert Speaks(s, c, Mine(t));
    forall d, x, y | Speaks(s', d, x) && Speaks(s', d, y) ensures x == y {
      assert (x == Theirs && d == c) || Speaks(s, d, x);
      assert (y == Theirs && d == c) || Speaks(s, d, y);
    }
    forall u ensures !(u in s'.threads && s'.threads[u].Deliberating? && s'.threads[u].c == c) {
      assert Speaks(s, c, Mine(u)) ==> u == t;
    }
    forall u ensures !(u in s'.threads && s'.threads[u].OpenCheckIn? && s'.threads[u].c == c) {
      assert Speaks(s, c, Mine(u)) ==> u == t;
    }
  }

  lemma StepReplyCivil(cfg: Config, s: State, t: nat, choice: Choice, s': State)
    requires Shape(s) && Civil(cfg, s) && t in s.threads && s.threads[t].CheckInReply?
    requires RunThread(cfg, s, t, s.threads[t], choice) == Some(s')
    ensures Civil(cfg, s')
  {
    forall c, x | Speaks(s', c, x) ensures Speaks(s, c, x) {}
  }

  lemma StepDeliberatingCivil(cfg: Config, s: State, t: nat, choice: Choice, s': State)
    requires Shape(s) && Civil(cfg, s) && t in s.threads && s.threads[t].Deliberating?
    requires RunThread(cfg, s, t, s.threads[t], choice) == Some(s')
    ensures Civil(cfg, s')
  {
    var c := s.threads[t].c;
    assert Speaks(s, c, Mine(t));
    if Decide(choice.answer, s.threads[t].allow).FollowUp? {
      forall d, x, y | Speaks(s', d, x) && Speaks(s', d, y) ensures x == y {
        assert (x == Theirs && d == c) || Speaks(s, d, x);
        assert (y == Theirs && d == c) || Speaks(s, d, y);
      }
      forall u ensures !(u in s'.threads && s'.threads[u].Deliberating? && s'.threads[u].c == c) {
        assert Speaks(s, c, Mine(u)) ==> u == t;
      }
      forall u ensures !(u in s'.threads && s'.threads[u].OpenCheckIn? && s'.threads[u].c == c) {
        assert Speaks(s, c, Mine(u)) ==> u == t;
      }
    } else {
      Silent(cfg, s, s');
    }
  }

  /** Nobody speaks in a check-in that has not been opened. */
  lemma NobodyYet(s: State, x: Speaker)
    requires Shape(s)
    ensures !Speaks(s, |s.checkIns|, x)
  {
  }

  lemma NewCheckInCivil(cfg: Config, s: State, t: nat, choice: Choice, s': State)
    requires Shape(s) && Civil(cfg, s) && t in s.threads && s.threads[t].OnTimeout?
    requires RunThread(cfg, s, t, s.threads[t], choice) == Some(s') && s'.threads[t].OpenCheckIn?
    ensures Civil(cfg, s')
  {
    var c := |s.checkIns|;
    forall d, x, y | Speaks(s', d, x) && Speaks(s', d, y) ensures x == y {
      assert (x == Mine(t) && d == c) || Speaks(s, d, x);
      assert (y == Mine(t) && d == c) || Speaks(s, d, y);
      NobodyYet(s, x);
      NobodyYet(s, y);
    }
  }

  lemma StepOnTimeoutCivil(cfg: Config, s: State, t: nat, choice: Choice, s': State)
    requires Shape(s) && Civil(cfg, s) && t in s.threads && s.threads[t].OnTimeout?
    requires RunThread(cfg, s, t, s.threads[t], choice) == Some(s')
    ensures Civil(cfg, s')
  {
    if s'.threads[t].OpenCheckIn? { NewCheckInCivil(cfg, s, t, choice, s'); } else { Silent(cfg, s, s'); }
  }

  lemma AgentMessageCivil(cfg: Config, s: State, a: Action, s': State)
    requires Shape(s) && Civil(cfg, s) && a.AgentMessage? && Apply(cfg, s, a) == Some(s')
    ensures Civil(cfg, s')
  {
    assert Speaks(s, a.c, Theirs);
    forall d, x, y | Speaks(s', d, x) && Speaks(s', d, y) ensures x == y {
      assert (x == Mine(s.nextThread) && d == a.c) || Speaks(s, d, x);
      assert (y == Mine(s.nextThread) && d == a.c) || Speaks(s, d, y);
    }
  }

  lemma StepCivil(cfg: Config, s: State, a: Action, s': State)
    requires Shape(s) && Civil(cfg, s) && Apply(cfg, s, a) == Some(s')
    ensures Civil(cfg, s')
  {
    match a
    case Run(t, choice) =>
      var th := s.threads[t];
      if th.OpenCheckIn? { StepOpenCivil(cfg, s, t, choice, s'); }
      else if th.CheckInReply? { StepReplyCivil(cfg, s, t, choice, s'); }
      else if th.Deliberating? { StepDeliberatingCivil(cfg, s, t, choice, s'); }
      else if th.OnTimeout? { StepOnTimeoutCivil(cfg, s, t, choice, s'); }
      else if th.Arm? { StepArmCivil(cfg, s, t, choice, s'); }
      else if Begins(th) { StepBeginningCivil(cfg, s, t, choice, s'); }
      else if Owes(th) { StepOwingCivil(cfg, s, t, choice, s'); }
      else { StepOtherCivil(cfg, s, t, choice, s'); }
    case AgentMessage(_) => AgentMessageCivil(cfg, s, a, s');
    case _ => Silent(cfg, s, s');
  }

  predicate Begins(th: Thread) { th.Survey? || th.Dispatching? || th.InProcess? || th.Arm? }

  lemma StepBeginningCivil(cfg: Config, s: State, t: nat, choice: Choice, s': State)
    requires Shape(s) && Civil(cfg, s) && t in s.threads && Begins(s.threads[t]) && !s.threads[t].Arm?
    requires RunThread(cfg, s, t, s.threads[t], choice) == Some(s')
    ensures Civil(cfg, s')
  {
    Silent(cfg, s, s');
  }

  lemma StepArmCivil(cfg: Config, s: State, t: nat, choice: Choice, s': State)
    requires Shape(s) && Civil(cfg, s) && t in s.threads && s.threads[t].Arm?
    requires RunThread(cfg, s, t, s.threads[t], choice) == Some(s')
    ensures Civil(cfg, s')
  {
    Silent(cfg, s, s');
  }

  lemma StepOwingCivil(cfg: Config, s: State, t: nat, choice: Choice, s': State)
    requires Shape(s) && Civil(cfg, s) && t in s.threads
    requires var th := s.threads[t]; Owes(th) && !th.OnTimeout? && !Begins(th)
    requires RunThread(cfg, s, t, s.threads[t], choice) == Some(s')
    ensures Civil(cfg, s')
  {
    Silent(cfg, s, s');
  }

  lemma StepOtherCivil(cfg: Config, s: State, t: nat, choice: Choice, s': State)
    requires Shape(s) && Civil(cfg, s) && t in s.threads
    requires var th := s.threads[t]; !Owes(th) && !th.OpenCheckIn? && !th.CheckInReply? && !th.Deliberating?
    requires RunThread(cfg, s, t, s.threads[t], choice) == Some(s')
    ensures Civil(cfg, s')
  {
    Silent(cfg, s, s');
  }

  // ----- an open check-in always has its timer -----

  predicate IsTimer(th: Thread, c: nat) { th.Timer? && th.c == c }

  ghost predicate TimerPending(s: State, c: nat) {
    exists t :: t in s.threads && IsTimer(s.threads[t], c)
  }

  ghost predicate Guarded(s: State) {
    forall c :: 0 <= c < |s.checkIns| && !s.checkIns[c].resolved ==> TimerPending(s, c)
  }

  lemma TimersKept(s: State, s': State)
    requires Guarded(s) && |s.checkIns| <= |s'.checkIns|
    requires forall c :: 0 <= c < |s.checkIns| && !s'.checkIns[c].resolved ==> !s.checkIns[c].resolved
    requires forall c :: |s.checkIns| <= c < |s'.checkIns| ==> TimerPending(s', c)
    requires forall t | t in s.threads && s.threads[t].Timer? && s.threads[t].c < |s.checkIns| ::
      !s'.checkIns[s.threads[t].c].resolved ==> t in s'.threads && s'.threads[t] == s.threads[t]
    ensures Guarded(s')
  {
    forall c | 0 <= c < |s'.checkIns| && !s'.checkIns[c].resolved ensures TimerPending(s', c) {
      if c < |s.checkIns| {
        var t :| t in s.threads && IsTimer(s.threads[t], c);
        assert t in s'.threads && IsTimer(s'.threads[t], c);
      }
    }
  }

  lemma StepOnTimeoutGuarded(cfg: Config, s: State, t: nat, choice: Choice, s': State)
    requires Shape(s) && Guarded(s) && t in s.threads && s.threads[t].OnTimeout?
    requires RunThread(cfg, s, t, s.threads[t], choice) == Some(s')
    ensures Guarded(s')
  {
    if s'.threads[t].OpenCheckIn? {
      assert IsTimer(s'.threads[s.nextThread], |s.checkIns|);
    }
    TimersKept(s, s');
  }

  lemma StepCheckInGuarded(cfg: Config, s: State, t: nat, choice: Choice, s': State)
    requires Shape(s) && Guarded(s) && t in s.threads
    requires s.threads[t].Timer? || s.threads[t].Deliberating? || s.threads[t].OpenCheckIn? || s.threads[t].BindConv?
    requires RunThread(cfg, s, t, s.threads[t], choice) == Some(s')
    ensures Guarded(s')
  {
    TimersKept(s, s');
  }

  lemma StepOwingGuarded(cfg: Config, s: State, t: nat, choice: Choice, s': State)
    requires Shape(s) && Guarded(s) && t in s.threads && Owes(s.threads[t]) && !s.threads[t].OnTimeout?
    requires RunThread(cfg, s, t, s.threads[t], choice) == Some(s')
    ensures Guarded(s')
  {
    TimersKept(s, s');
  }

  lemma StepGuarded(cfg: Config, s: State, a: Action, s': State)
    requires Shape(s) && Guarded(s) && Apply(cfg, s, a) == Some(s')
    ensures Guarded(s')
  {
    if a.Run? {
      var t, choice, th := a.t, a.choice, s.threads[a.t];
      if th.OnTimeout? { StepOnTimeoutGuarded(cfg, s, t, choice, s'); }
      else if Owes(th) { StepOwingGuarded(cfg, s, t, choice, s'); }
      else if th.Timer? || th.Deliberating? || th.OpenCheckIn? || th.BindConv? {
        StepCheckInGuarded(cfg, s, t, choice, s');
      }
      else { TimersKept(s, s'); }
    } else {
      TimersKept(s, s');
    }
  }
}

/** What a call of run_skill puts on the bus, how many attempts it makes and which result it reports. */
module RunSkillTraffic {
  import opened Wrappers
  import opened RunSkill
  import opened RunSkillSafety

  /** The dispatch of attempt n to `workers`, in order: the coordinator coordinates, the others contribute. */
  function DispatchTo(n: nat, workers: seq<Agent>, coordinator: Agent): seq<Sent> {
    if workers == [] then []
    else [Dispatch(n, workers[0], workers[0] == coordinator)] + DispatchTo(n, workers[1..], coordinator)
  }

  function CancelAt(n: nat, workers: seq<Agent>): seq<Sent> {
    if workers == [] then [] else [Cancel(n, workers[0])] + CancelAt(n, workers[1..])
  }

  /** Attempts that were all given up: each one dispatched to its workers, then cancelled at exactly those. */
  function Closed(attempts: seq<Attempt>): seq<Sent>
    decreases |attempts|, 1
  {
    if attempts == [] then []
    else Begun(attempts) + CancelAt(|attempts|, attempts[|attempts| - 1].workers)
  }

  /** The same, but the last attempt is still standing. */
  function Begun(attempts: seq<Attempt>): seq<Sent>
    requires attempts != []
    decreases |attempts|, 0
  {
    var a := attempts[|attempts| - 1];
    Closed(attempts[..|attempts| - 1]) + DispatchTo(|attempts|, a.workers, a.coordinator)
  }

  /** The log, completed by what the live continuation still has to send, has one of the two forms. */
  ghost predicate Ledger(s: State, p: Place) {
    if s.results != [] then s.log == Closed(s.attempts) || (s.attempts != [] && s.log == Begun(s.attempts))
    else if !IsLive(s, p) then false
    else match p
      case Thr(t) =>
        (match s.threads[t]
         case Survey(_) => s.log == Closed(s.attempts)
         case Dispatching(n, todo) =>
           && s.attempts != []
           && |todo| <= |s.attempts[|s.attempts| - 1].workers|
           && s.log + DispatchTo(n, todo, s.attempts[|s.attempts| - 1].coordinator) == Begun(s.attempts)
         case Cancelling(n, todo) =>
           && s.attempts != []
           && |todo| <= |s.attempts[|s.attempts| - 1].workers|
           && s.log + CancelAt(n, todo) == Closed(s.attempts)
         case _ => s.attempts != [] && s.log == Begun(s.attempts))
      case _ => s.attempts != [] && s.log == Begun(s.attempts)
  }

  lemma StepSurveyLedger(cfg: Config, s: State, t: nat, choice: Choice, p: Place, s': State, q: Place)
    requires Held(s, p) && Ledger(s, p) && Held(s', q) && t in s.threads && s.threads[t].Survey?
    requires RunThread(cfg, s, t, s.threads[t], choice) == Some(s')
    ensures Ledger(s', q)
  {
    assert IsLive(s, Thr(t));
    if choice.workers != [] {
      assert IsLive(s', Thr(t));
      assert s'.attempts[..|s.attempts|] == s.attempts;
    }
  }

  lemma StepSendLedger(cfg: Config, s: State, t: nat, choice: Choice, p: Place, s': State, q: Place)
    requires Held(s, p) && Ledger(s, p) && Held(s', q) && t in s.threads
    requires s.threads[t].Dispatching? || s.threads[t].Cancelling?
    requires RunThread(cfg, s, t, s.threads[t], choice) == Some(s')
    ensures Ledger(s', q)
  {
    assert IsLive(s, Thr(t)) && IsLive(s', Thr(t));
    if s.threads[t].todo == [] {
      assert s.log + [] == s.log;
    } else if s.threads[t].Dispatching? {
      var m := Dispatch(s.threads[t].n, s.threads[t].todo[0],
        s.threads[t].todo[0] == s.attempts[|s.attempts| - 1].coordinator);
      var rest := DispatchTo(s.threads[t].n, s.threads[t].todo[1..], s.attempts[|s.attempts| - 1].coordinator);
      assert (s.log + [m]) + rest == s.log + ([m] + rest);
    } else {
      var m := Cancel(s.threads[t].n, s.threads[t].todo[0]);
      var rest := CancelAt(s.threads[t].n, s.threads[t].todo[1..]);
      assert (s.log + [m]) + rest == s.log + ([m] + rest);
    }
  }

  lemma StepHandleLedger(cfg: Config, s: State, t: nat, choice: Choice, p: Place, s': State, q: Place)
    requires Held(s, p) && Ledger(s, p) && Held(s', q) && t in s.threads && s.threads[t].Handle?
    requires RunThread(cfg, s, t, s.threads[t], choice) == Some(s')
    ensures Ledger(s', q)
  {
    assert IsLive(s, Thr(t));
    if s'.results == [] {
      assert IsLive(s', Thr(t));
    }
  }

  /** A place whose continuation neither surveys nor sends. */
  predicate Idle(s: State, p: Place)
    requires IsLive(s, p)
  {
    p.Thr? ==> !s.threads[p.t].Survey? && !s.threads[p.t].Dispatching? && !s.threads[p.t].Cancelling?
  }

  lemma StillIdle(s: State, p: Place, s': State, q: Place)
    requires Held(s, p) && Ledger(s, p) && Held(s', q)
    requires s'.results == s.results && s'.log == s.log && s'.attempts == s.attempts
    requires s.results == [] ==> (Idle(s, p) && Idle(s', q)) || (p == q && p.Thr? && s'.threads[p.t] == s.threads[p.t])
    ensures Ledger(s', q)
  {
  }

  lemma StepOwingLedger(cfg: Config, s: State, t: nat, choice: Choice, p: Place, s': State, q: Place)
    requires Held(s, p) && Ledger(s, p) && Held(s', q) && t in s.threads
    requires var th := s.threads[t]; Owes(th) && !th.Survey? && !th.Dispatching? && !th.Cancelling? && !th.Handle?
    requires RunThread(cfg, s, t, s.threads[t], choice) == Some(s')
    ensures Ledger(s', q)
  {
    assert IsLive(s, Thr(t));
    assert s'.results == [] && q.Thr? && q.t != t ==> IsLive(s, q);
    StillIdle(s, p, s', q);
  }

  lemma StepTimerLedger(cfg: Config, s: State, t: nat, choice: Choice, p: Place, s': State, q: Place)
    requires Held(s, p) && Ledger(s, p) && Held(s', q) && t in s.threads && s.threads[t].Timer?
    requires RunThread(cfg, s, t, s.threads[t], choice) == Some(s')
    ensures Ledger(s', q)
  {
    assert s.results == [] && p.Thr? ==> IsLive(s', p);
    assert s'.results == [] && q.Thr? && q.t != t ==> IsLive(s, q);
    StillIdle(s, p, s', q);
  }

  lemma StepDeliberatingLedger(cfg: Config, s: State, t: nat, choice: Choice, p: Place, s': State, q: Place)
    requires Held(s, p) && Ledger(s, p) && Held(s', q) && t in s.threads && s.threads[t].Deliberating?
    requires RunThread(cfg, s, t, s.threads[t], choice) == Some(s')
    ensures Ledger(s', q)
  {
    assert s.results == [] && p.Thr? ==> IsLive(s', p);
    assert s'.results == [] && q.Thr? && q.t != t ==> IsLive(s, q);
    StillIdle(s, p, s', q);
  }

  lemma StepTalkLedger(cfg: Config, s: State, t: nat, choice: Choice, p: Place, s': State, q: Place)
    requires Held(s, p) && Ledger(s, p) && Held(s', q) && t in s.threads
    requires s.threads[t].OpenCheckIn? || s.threads[t].BindConv? || s.threads[t].CheckInReply?
    requires RunThread(cfg, s, t, s.threads[t], choice) == Some(s')
    ensures Ledger(s', q)
  {
    assert s.results == [] && p.Thr? ==> IsLive(s', p);
    assert s'.results == [] && q.Thr? && q.t != t ==> IsLive(s, q);
    StillIdle(s, p, s', q);
  }

  lemma StepTimeoutLedger(cfg: Config, s: State, t: nat, choice: Choice, p: Place, s': State, q: Place)
    requires Held(s, p) && Ledger(s, p) && Held(s', q) && t in s.threads
    requires s.threads[t].Schedule? || s.threads[t].TimeoutHandler?
    requires RunThread(cfg, s, t, s.threads[t], choice) == Some(s')
    ensures Ledger(s', q)
  {
    assert s.results == [] && p.Thr? ==> IsLive(s', p);
    assert s'.results == [] && q.Thr? && q.t != t ==> IsLive(s, q);
    StillIdle(s, p, s', q);
  }

  lemma AmbientLedger(cfg: Config, s: State, a: Action, p: Place, s': State, q: Place)
    requires Held(s, p) && Ledger(s, p) && Held(s', q) && !a.Run? && Apply(cfg, s, a) == Some(s')
    ensures Ledger(s', q)
  {
    if s.results == [] {
      assert IsLive(s', p) || (a.Receive? && IsLive(s', Thr(s.nextThread)) && IsLive(s, Parked(a.n)));
    }
    StillIdle(s, p, s', q);
  }

  lemma StepLedger(cfg: Config, s: State, a: Action, p: Place, s': State, q: Place)
    requires Held(s, p) && Ledger(s, p) && Held(s', q) && Apply(cfg, s, a) == Some(s')
    ensures Ledger(s', q)
  {
    if a.Run? {
      var t, choice, th := a.t, a.choice, s.threads[a.t];
      if th.Survey? { StepSurveyLedger(cfg, s, t, choice, p, s', q); }
      else if th.Dispatching? || th.Cancelling? { StepSendLedger(cfg, s, t, choice, p, s', q); }
      else if th.Handle? { StepHandleLedger(cfg, s, t, choice, p, s', q); }
      else if Owes(th) { StepOwingLedger(cfg, s, t, choice, p, s', q); }
      else if th.Timer? { StepTimerLedger(cfg, s, t, choice, p, s', q); }
      else if th.Deliberating? { StepDeliberatingLedger(cfg, s, t, choice, p, s', q); }
      else if th.Schedule? || th.TimeoutHandler? { StepTimeoutLedger(cfg, s, t, choice, p, s', q); }
      else { StepTalkLedger(cfg, s, t, choice, p, s', q); }
    } else {
      AmbientLedger(cfg, s, a, p, s', q);
    }
  }
}

/**
 * Time in run_skill: an attempt is said to have timed out only when its wait, counted from its
 * latest arming, has lasted coordinate_timeout + reply_slack, and a check-in has
 * check_in_timeout to come to a decision.
 */
module RunSkillClock {
  import opened Wrappers
  import opened RunSkill
  import opened RunSkillSafety
  import opened RunSkillTiming
  import opened RunSkillTalk
  import opened RunSkillResults
  import opened RunSkillTheorems

  /** When a check-in was opened, and when the wait that led to it had been armed. */
  datatype Opening = Opening(at: int, armed: Option<int>)

  /** What an observer with a clock writes down: when callbacks are parked, deadlines set, check-ins opened. */
  datatype History = History(armed: imap<nat, int>, scheduled: imap<nat, int>, openings: seq<Opening>)

  function At(times: imap<nat, int>, n: nat): Option<int> {
    if n in times then Some(times[n]) else None
  }

  predicate Parks(s: State, s': State, n: nat) {
    Own(n) in s'.table.callbacks
      && (Own(n) in s.table.callbacks ==> s.table.callbacks[Own(n)] != s'.table.callbacks[Own(n)])
  }

  predicate Schedules(s: State, s': State, n: nat) {
    Own(n) in s'.table.deadlines
      && (Own(n) in s.table.deadlines ==> s.table.deadlines[Own(n)] != s'.table.deadlines[Own(n)])
  }

  ghost function Note(h: History, s: State, s': State): History {
    History(
      imap n: nat | n in h.armed || Parks(s, s', n) :: if Parks(s, s', n) then s'.now else h.armed[n],
      imap n: nat | n in h.scheduled || Schedules(s, s', n) :: if Schedules(s, s', n) then s'.now else h.scheduled[n],
      if |s'.checkIns| <= |s.checkIns| then h.openings
      else h.openings + [Opening(s'.now, At(h.armed, s'.checkIns[|s'.checkIns| - 1].attempt))])
  }

  /** What is written down in the course of a run. */
  ghost function Observed(cfg: Config, s: State, h: History, run: seq<Action>): History
    decreases run
  {
    if run == [] || Apply(cfg, s, run[0]).None? then h
    else
      var next := Apply(cfg, s, run[0]).value;
      Observed(cfg, next, Note(h, s, next), run[1..])
  }

  ghost function Unwritten(): History { History(imap[], imap[], []) }

  /** The whole reply timeout of attempt n has passed since its callback was last parked. */
  ghost predicate Waited(cfg: Config, h: History, s: State, n: nat) {
    At(h.armed, n).Some? && At(h.armed, n).value + cfg.replyTimeout <= s.now
  }

  /** A thread that acts on a timeout of its attempt, or says that there was one. */
  predicate SaysTimedOut(th: Thread) {
    th.TimeoutHandler? || th.OnTimeout? || (th.Handle? && th.r.TimedOut?)
  }

  ghost predicate ThreadInTime(cfg: Config, h: History, s: State, th: Thread) {
    && (SaysTimedOut(th) ==> Waited(cfg, h, s, th.n))
    && (th.Schedule? ==> At(h.armed, th.n).Some?)
    && (th.Timer? && th.c < |h.openings| ==> th.due == h.openings[th.c].at + cfg.checkInTimeout)
  }

  /** A deadline lies a full timeout after the moment it was set, which was not before the arming. */
  ghost predicate DeadlineInTime(cfg: Config, h: History, s: State, n: nat)
    requires Own(n) in s.table.deadlines
  {
    && At(h.armed, n).Some? && At(h.scheduled, n).Some?
    && At(h.armed, n).value <= At(h.scheduled, n).value <= s.now
    && s.table.deadlines[Own(n)].at == At(h.scheduled, n).value + cfg.replyTimeout
  }

  /** A check-in was opened after a full wait. While it is open, that wait is the latest one. */
  ghost predicate OpeningInTime(cfg: Config, h: History, s: State, c: nat)
    requires c < |s.checkIns| == |h.openings|
  {
    var o := h.openings[c];
    && o.armed.Some? && o.armed.value + cfg.replyTimeout <= o.at <= s.now
    && (!s.checkIns[c].resolved ==> o.armed == At(h.armed, s.checkIns[c].attempt))
    && (TimerPending(s, c) || o.at + cfg.checkInTimeout <= s.now)
  }

  /** Time is kept: by every deadline, thread, check-in, retry and result. */
  ghost predicate InTime(cfg: Config, h: History, s: State) {
    && (forall n :: n in h.armed ==> h.armed[n] <= s.now)
    && (forall n: nat :: Own(n) in s.table.deadlines ==> DeadlineInTime(cfg, h, s, n))
    && (forall t :: t in s.threads ==> ThreadInTime(cfg, h, s, s.threads[t]))
    && |h.openings| == |s.checkIns|
    && (forall c :: 0 <= c < |s.checkIns| ==> OpeningInTime(cfg, h, s, c))
    && (forall n :: n in s.superseded && s.superseded[n].TimedOut? ==> Waited(cfg, h, s, n))
    && (s.results == [TimedOut] ==> Waited(cfg, h, s, |s.attempts|))
  }

  /** Attempt n is not the current one, or the continuation is about to begin the next. */
  predicate Leaves(s: State, p: Place, n: nat)
    requires IsLive(s, p)
  {
    n != |s.attempts| || (p.Thr? && (s.threads[p.t].Cancelling? || s.threads[p.t].Survey?))
  }

  /** A superseded attempt is over: it is not the one that is to be armed. */
  ghost predicate OverWith(s: State, p: Place) {
    forall n :: n in s.superseded ==> Minted(s, n) && (s.results == [] && IsLive(s, p) ==> Leaves(s, p, n))
  }

  ghost predicate Clocked(cfg: Config, h: History, s: State, p: Place) {
    Everything(cfg, s, p) && InTime(cfg, h, s) && OverWith(s, p)
  }

  lemma OthersDoNotPark(cfg: Config, s: State, t: nat, choice: Choice, s': State, n: nat)
    requires t in s.threads && !Owes(s.threads[t]) && RunThread(cfg, s, t, s.threads[t], choice) == Some(s')
    ensures s'.regs == s.regs && !Parks(s, s', n)
  {
  }

  lemma OnlyArmParks(cfg: Config, s: State, t: nat, choice: Choice, s': State, n: nat)
    requires t in s.threads && !s.threads[t].Arm? && RunThread(cfg, s, t, s.threads[t], choice) == Some(s')
    ensures s'.regs == s.regs && !Parks(s, s', n)
  {
    if !Owes(s.threads[t]) { OthersDoNotPark(cfg, s, t, choice, s', n); }
  }

  /** A callback is parked under a new number: numbers only grow, and tell any two registrations apart. */
  lemma NumbersAreNew(cfg: Config, s: State, a: Action, s': State, n: nat)
    requires Apply(cfg, s, a) == Some(s')
    ensures s.regs <= s'.regs
    ensures Parks(s, s', n) ==> s'.table.callbacks[Own(n)] == s.regs < s'.regs
  {
    if a.Run? && !s.threads[a.t].Arm? { OnlyArmParks(cfg, s, a.t, a.choice, s', n); }
  }

  // ----- one step -----

  lemma Unparked(h: History, s: State, s': State)
    requires forall n: nat :: !Parks(s, s', n)
    ensures Note(h, s, s').armed == h.armed
  {
  }

  lemma Unscheduled(h: History, s: State, s': State)
    requires forall n: nat :: !Schedules(s, s', n)
    ensures Note(h, s, s').scheduled == h.scheduled
  {
  }

  /** A step that parks nothing and sets no deadline keeps time, if its own thread and check-ins do. */
  lemma Ticking(cfg: Config, h: History, s: State, s': State)
    requires InTime(cfg, h, s) && s.now <= s'.now
    requires forall n: nat :: !Parks(s, s', n)
    requires forall n: nat :: Own(n) in s'.table.deadlines ==>
      Own(n) in s.table.deadlines && s'.table.deadlines[Own(n)] == s.table.deadlines[Own(n)]
    requires forall t :: t in s'.threads ==>
      (t in s.threads && s'.threads[t] == s.threads[t]) || ThreadInTime(cfg, h, s', s'.threads[t])
    requires |s'.checkIns| == |s.checkIns|
    requires forall c :: 0 <= c < |s.checkIns| ==> s'.checkIns[c].attempt == s.checkIns[c].attempt
    requires forall c :: 0 <= c < |s.checkIns| && s.checkIns[c].resolved ==> s'.checkIns[c].resolved
    requires forall t :: t in s.threads && s.threads[t].Timer? ==>
      (t in s'.threads && s'.threads[t] == s.threads[t]) || s.threads[t].due <= s'.now
    requires forall n :: n in s'.superseded && s'.superseded[n].TimedOut? ==>
      (n in s.superseded && s.superseded[n].TimedOut?) || Waited(cfg, h, s', n)
    requires s'.results == [TimedOut] ==>
      (s.results == [TimedOut] && s'.attempts == s.attempts) || Waited(cfg, h, s', |s'.attempts|)
    ensures InTime(cfg, Note(h, s, s'), s')
  {
    Unparked(h, s, s');
    Unscheduled(h, s, s');
    assert Note(h, s, s') == h;
    forall c | 0 <= c < |s'.checkIns| ensures OpeningInTime(cfg, h, s', c) {
      assert OpeningInTime(cfg, h, s, c);
      if TimerPending(s, c) {
        var t :| t in s.threads && IsTimer(s.threads[t], c);
        assert t in s'.threads && s'.threads[t] == s.threads[t] ==> IsTimer(s'.threads[t], c);
      }
    }
  }

  /** The callback of attempt n is parked, and no timeout of that attempt is on its way. */
  lemma Arming(cfg: Config, h: History, s: State, n: nat, s': State)
    requires InTime(cfg, h, s) && s.now == s'.now
    requires forall m: nat :: Parks(s, s', m) <==> m == n
    requires s'.table.deadlines == s.table.deadlines && Own(n) !in s.table.deadlines
    requires forall t :: t in s'.threads && s'.threads[t] != Schedule(n, s.regs) ==>
      t in s.threads && s'.threads[t] == s.threads[t] && !(SaysTimedOut(s.threads[t]) && s.threads[t].n == n)
    requires forall t :: t in s.threads && s.threads[t].Timer? ==> t in s'.threads && s'.threads[t] == s.threads[t]
    requires s'.checkIns == s.checkIns && forall c :: 0 <= c < |s.checkIns| ==> s.checkIns[c].resolved
    requires s'.superseded == s.superseded && n !in s.superseded
    requires s'.results == []
    ensures InTime(cfg, Note(h, s, s'), s')
  {
    var h' := Note(h, s, s');
    Unscheduled(h, s, s');
    forall c | 0 <= c < |s'.checkIns| ensures OpeningInTime(cfg, h', s', c) {
      assert OpeningInTime(cfg, h, s, c);
      if TimerPending(s, c) {
        var u :| u in s.threads && IsTimer(s.threads[u], c);
        assert u in s'.threads && IsTimer(s'.threads[u], c);
      }
    }
  }

  /** Whoever says that attempt n timed out is a source of its timeout, or the continuation. */
  lemma NobodyElse(s: State, t: nat, n: nat, p: Place)
    requires Held(s, p) && NoSource(s, n) && p.Thr? && p.t != t
    requires s.results == []
    ensures !(t in s.threads && SaysTimedOut(s.threads[t]) && s.threads[t].n == n)
  {
    assert !IsSource(s, n, InThread(t));
    assert IsLive(s, Thr(t)) ==> Thr(t) == p;
  }

  lemma AllResolved(s: State, t: nat, p: Place)
    requires Held(s, p) && t in s.threads && Owes(s.threads[t])
    ensures forall c :: 0 <= c < |s.checkIns| ==> s.checkIns[c].resolved
  {
    assert IsLive(s, Thr(t));
    forall c | 0 <= c < |s.checkIns| ensures s.checkIns[c].resolved { assert !IsLive(s, Open(c)); }
  }

  lemma StepArm(cfg: Config, h: History, s: State, t: nat, choice: Choice, p: Place, s': State)
    requires Held(s, p) && Timed(s, p) && OverWith(s, p) && InTime(cfg, h, s)
    requires t in s.threads && s.threads[t].Arm?
    requires RunThread(cfg, s, t, s.threads[t], choice) == Some(s')
    ensures InTime(cfg, Note(h, s, s'), s')
  {
    assert IsLive(s, Thr(t)) && p == Thr(t);
    var n := s.threads[t].n;
    if s'.threads[t].OnReply? {
      Ticking(cfg, h, s, s');
    } else {
      assert NoSource(s, n) && !IsSource(s, n, InDeadline);
      assert !IsLive(s, Parked(n));
      AllResolved(s, t, p);
      forall u | u != t ensures !(u in s.threads && SaysTimedOut(s.threads[u]) && s.threads[u].n == n) {
        NobodyElse(s, u, n, p);
      }
      Arming(cfg, h, s, n, s');
    }
  }

  /** The deadline is set, some time after the arming. */
  lemma StepSchedule(cfg: Config, h: History, s: State, t: nat, choice: Choice, s': State)
    requires InTime(cfg, h, s) && t in s.threads && s.threads[t].Schedule?
    requires RunThread(cfg, s, t, s.threads[t], choice) == Some(s')
    ensures InTime(cfg, Note(h, s, s'), s')
  {
    Unparked(h, s, s');
    var h' := Note(h, s, s');
    forall c | 0 <= c < |s'.checkIns| ensures OpeningInTime(cfg, h', s', c) {
      assert OpeningInTime(cfg, h, s, c);
      if TimerPending(s, c) {
        var u :| u in s.threads && IsTimer(s.threads[u], c);
        assert u in s'.threads && IsTimer(s'.threads[u], c);
      }
    }
  }

  /** A check-in is opened, on the word of a timeout. */
  lemma CheckInOpens(cfg: Config, h: History, s: State, t: nat, choice: Choice, s': State)
    requires Shape(s) && InTime(cfg, h, s) && t in s.threads && s.threads[t].OnTimeout?
    requires RunThread(cfg, s, t, s.threads[t], choice) == Some(s') && !s'.threads[t].Handle?
    ensures InTime(cfg, Note(h, s, s'), s')
  {
    Unparked(h, s, s');
    Unscheduled(h, s, s');
    var h' := Note(h, s, s');
    forall c | 0 <= c < |s'.checkIns| ensures OpeningInTime(cfg, h', s', c) {
      if c < |s.checkIns| {
        assert OpeningInTime(cfg, h, s, c);
        if TimerPending(s, c) {
          var u :| u in s.threads && IsTimer(s.threads[u], c);
          assert u in s'.threads && IsTimer(s'.threads[u], c);
        }
      } else {
        assert IsTimer(s'.threads[s.nextThread], c);
      }
    }
  }

  lemma StepOnTimeout(cfg: Config, h: History, s: State, t: nat, choice: Choice, s': State)
    requires Shape(s) && InTime(cfg, h, s) && t in s.threads && s.threads[t].OnTimeout?
    requires RunThread(cfg, s, t, s.threads[t], choice) == Some(s')
    ensures InTime(cfg, Note(h, s, s'), s')
  {
    if s'.threads[t].Handle? { Ticking(cfg, h, s, s'); } else { CheckInOpens(cfg, h, s, t, choice, s'); }
  }

  lemma StepTimeoutHandler(cfg: Config, h: History, s: State, t: nat, choice: Choice, s': State)
    requires InTime(cfg, h, s) && t in s.threads && s.threads[t].TimeoutHandler?
    requires RunThread(cfg, s, t, s.threads[t], choice) == Some(s')
    ensures InTime(cfg, Note(h, s, s'), s')
  {
    Ticking(cfg, h, s, s');
  }

  lemma StepTalk(cfg: Config, h: History, s: State, t: nat, choice: Choice, s': State)
    requires InTime(cfg, h, s) && t in s.threads
    requires s.threads[t].OpenCheckIn? || s.threads[t].BindConv? || s.threads[t].CheckInReply?
    requires RunThread(cfg, s, t, s.threads[t], choice) == Some(s')
    ensures InTime(cfg, Note(h, s, s'), s')
  {
    Ticking(cfg, h, s, s');
  }

  /** A check-in that is still open stands for the latest wait of its attempt. */
  lemma StepTimer(cfg: Config, h: History, s: State, t: nat, choice: Choice, s': State)
    requires InTime(cfg, h, s) && t in s.threads && s.threads[t].Timer?
    requires RunThread(cfg, s, t, s.threads[t], choice) == Some(s')
    ensures InTime(cfg, Note(h, s, s'), s')
  {
    var c := s.threads[t].c;
    assert OpeningInTime(cfg, h, s, c);
    Ticking(cfg, h, s, s');
  }

  lemma StepDeliberating(cfg: Config, h: History, s: State, t: nat, choice: Choice, s': State)
    requires InTime(cfg, h, s) && t in s.threads && s.threads[t].Deliberating?
    requires RunThread(cfg, s, t, s.threads[t], choice) == Some(s')
    ensures InTime(cfg, Note(h, s, s'), s')
  {
    var c := s.threads[t].c;
    assert OpeningInTime(cfg, h, s, c);
    Ticking(cfg, h, s, s');
  }

  /** Threads that carry a reply, or none. */
  lemma StepAnswer(cfg: Config, h: History, s: State, t: nat, choice: Choice, p: Place, s': State)
    requires Held(s, p) && Honest(cfg, s) && InTime(cfg, h, s) && t in s.threads
    requires s.threads[t].InProcess? || s.threads[t].Deliver? || s.threads[t].OnReply?
    requires RunThread(cfg, s, t, s.threads[t], choice) == Some(s')
    ensures InTime(cfg, Note(h, s, s'), s')
  {
    assert IsLive(s, Thr(t));
    Ticking(cfg, h, s, s');
  }

  lemma StepDispatching(cfg: Config, h: History, s: State, t: nat, choice: Choice, s': State)
    requires InTime(cfg, h, s) && t in s.threads && s.threads[t].Dispatching?
    requires RunThread(cfg, s, t, s.threads[t], choice) == Some(s')
    ensures InTime(cfg, Note(h, s, s'), s')
  {
    Ticking(cfg, h, s, s');
  }

  lemma StepCancelling(cfg: Config, h: History, s: State, t: nat, choice: Choice, s': State)
    requires InTime(cfg, h, s) && t in s.threads && s.threads[t].Cancelling?
    requires RunThread(cfg, s, t, s.threads[t], choice) == Some(s')
    ensures InTime(cfg, Note(h, s, s'), s')
  {
    Ticking(cfg, h, s, s');
  }

  lemma StepSurvey(cfg: Config, h: History, s: State, t: nat, choice: Choice, p: Place, s': State)
    requires Held(s, p) && InTime(cfg, h, s) && t in s.threads && s.threads[t].Survey?
    requires RunThread(cfg, s, t, s.threads[t], choice) == Some(s')
    ensures InTime(cfg, Note(h, s, s'), s')
  {
    assert IsLive(s, Thr(t)) && s.results == [];
    assert s'.results == [] || s'.results[0] == NoWorkers;
    Ticking(cfg, h, s, s');
  }

  lemma StepHandle(cfg: Config, h: History, s: State, t: nat, choice: Choice, p: Place, s': State)
    requires Held(s, p) && InTime(cfg, h, s) && t in s.threads && s.threads[t].Handle?
    requires RunThread(cfg, s, t, s.threads[t], choice) == Some(s')
    ensures InTime(cfg, Note(h, s, s'), s')
  {
    assert IsLive(s, Thr(t));
    assert s.threads[t].n == |s.attempts| && s.results == [];
    assert s'.results == [] || s'.results[0] == s.threads[t].r;
    Ticking(cfg, h, s, s');
  }

  lemma Fired(cfg: Config, h: History, s: State, a: Action, s': State)
    requires Shape(s) && InTime(cfg, h, s) && a.Fire? && Apply(cfg, s, a) == Some(s')
    ensures InTime(cfg, Note(h, s, s'), s')
  {
    assert DeadlineInTime(cfg, h, s, a.n);
    Ticking(cfg, h, s, s');
  }

  lemma Ambient(cfg: Config, h: History, s: State, a: Action, s': State)
    requires Shape(s) && InTime(cfg, h, s) && !a.Run? && !a.Fire? && Apply(cfg, s, a) == Some(s')
    ensures InTime(cfg, Note(h, s, s'), s')
  {
    Ticking(cfg, h, s, s');
  }

  lemma StepInTime(cfg: Config, h: History, s: State, a: Action, p: Place, s': State)
    requires Held(s, p) && Timed(s, p) && Honest(cfg, s) && OverWith(s, p) && InTime(cfg, h, s)
    requires Apply(cfg, s, a) == Some(s')
    ensures InTime(cfg, Note(h, s, s'), s')
  {
    if a.Run? {
      var t, choice, th := a.t, a.choice, s.threads[a.t];
      if th.Arm? { StepArm(cfg, h, s, t, choice, p, s'); }
      else if th.Schedule? { StepSchedule(cfg, h, s, t, choice, s'); }
      else if th.TimeoutHandler? { StepTimeoutHandler(cfg, h, s, t, choice, s'); }
      else if th.OnTimeout? { StepOnTimeout(cfg, h, s, t, choice, s'); }
      else if th.Handle? { StepHandle(cfg, h, s, t, choice, p, s'); }
      else if th.Survey? { StepSurvey(cfg, h, s, t, choice, p, s'); }
      else if th.Dispatching? { StepDispatching(cfg, h, s, t, choice, s'); }
      else if th.Cancelling? { StepCancelling(cfg, h, s, t, choice, s'); }
      else if Owes(th) { StepAnswer(cfg, h, s, t, choice, p, s'); }
      else if th.Timer? { StepTimer(cfg, h, s, t, choice, s'); }
      else if th.Deliberating? { StepDeliberating(cfg, h, s, t, choice, s'); }
      else { StepTalk(cfg, h, s, t, choice, s'); }
    } else if a.Fire? {
      Fired(cfg, h, s, a, s');
    } else {
      Ambient(cfg, h, s, a, s');
    }
  }

  /** An attempt is superseded by its own continuation, which then leaves it. */
  lemma StillOverWith(s: State, p: Place, s': State, q: Place)
    requires OverWith(s, p) && s'.superseded == s.superseded && s'.attempts == s.attempts && s'.results == s.results
    requires s.results == [] ==> IsLive(s, p) && IsLive(s', q)
    requires s.results == [] && p.Thr? ==> q == p && s'.threads[q.t] == s.threads[p.t]
    ensures OverWith(s', q)
  {
    forall n | n in s'.superseded && s'.results == [] ensures Leaves(s', q, n) {
      assert Leaves(s, p, n);
    }
  }

  predicate Leaving(th: Thread) { th.Survey? || th.Handle? || th.Cancelling? }

  lemma LeavingOverWith(cfg: Config, s: State, t: nat, choice: Choice, p: Place, s': State, q: Place)
    requires Held(s, p) && OverWith(s, p) && Held(s', q) && t in s.threads && Leaving(s.threads[t])
    requires RunThread(cfg, s, t, s.threads[t], choice) == Some(s')
    ensures OverWith(s', q)
  {
    assert IsLive(s, Thr(t));
    assert t in s'.threads ==> IsLive(s', Thr(t));
  }

  lemma OwingOverWith(cfg: Config, s: State, t: nat, choice: Choice, p: Place, s': State, q: Place)
    requires Held(s, p) && OverWith(s, p) && Held(s', q) && t in s.threads
    requires Owes(s.threads[t]) && !Leaving(s.threads[t])
    requires RunThread(cfg, s, t, s.threads[t], choice) == Some(s')
    ensures OverWith(s', q)
  {
    assert IsLive(s, Thr(t));
    assert forall n :: n in s.superseded ==> n != |s.attempts|;
  }

  lemma ResolvingOverWith(cfg: Config, s: State, t: nat, choice: Choice, p: Place, s': State, q: Place)
    requires Held(s, p) && OverWith(s, p) && Held(s', q) && t in s.threads
    requires s.threads[t].Timer? || s.threads[t].Deliberating?
    requires RunThread(cfg, s, t, s.threads[t], choice) == Some(s')
    ensures OverWith(s', q)
  {
    assert s.results == [] && p.Thr? ==> IsLive(s', p);
    StillOverWith(s, p, s', q);
  }

  lemma OtherOverWith(cfg: Config, s: State, t: nat, choice: Choice, p: Place, s': State, q: Place)
    requires Held(s, p) && OverWith(s, p) && Held(s', q) && t in s.threads
    requires var th := s.threads[t]; !Owes(th) && !th.Timer? && !th.Deliberating?
    requires RunThread(cfg, s, t, s.threads[t], choice) == Some(s')
    ensures OverWith(s', q)
  {
    assert s.results == [] && p.Thr? ==> IsLive(s', p);
    StillOverWith(s, p, s', q);
  }

  lemma AmbientOverWith(cfg: Config, s: State, a: Action, p: Place, s': State, q: Place)
    requires Held(s, p) && OverWith(s, p) && Held(s', q) && !a.Run? && Apply(cfg, s, a) == Some(s')
    ensures OverWith(s', q)
  {
    assert s.results == [] && p.Thr? ==> IsLive(s', p);
    StillOverWith(s, p, s', q);
  }

  lemma StepOverWith(cfg: Config, s: State, a: Action, p: Place, s': State, q: Place)
    requires Held(s, p) && OverWith(s, p) && Held(s', q) && Apply(cfg, s, a) == Some(s')
    ensures OverWith(s', q)
  {
    if !a.Run? { AmbientOverWith(cfg, s, a, p, s', q); }
    else if Leaving(s.threads[a.t]) { LeavingOverWith(cfg, s, a.t, a.choice, p, s', q); }
    else if Owes(s.threads[a.t]) { OwingOverWith(cfg, s, a.t, a.choice, p, s', q); }
    else if s.threads[a.t].Timer? || s.threads[a.t].Deliberating? {
      ResolvingOverWith(cfg, s, a.t, a.choice, p, s', q);
    }
    else { OtherOverWith(cfg, s, a.t, a.choice, p, s', q); }
  }

  // ----- whole runs -----

  lemma {:induction false} RunInTime(cfg: Config, s: State, h: History, run: seq<Action>, p: Place, s': State)
    requires Clocked(cfg, h, s, p) && Exec(cfg, s, run) == Some(s')
    ensures InTime(cfg, Observed(cfg, s, h, run), s')
    decreases run
  {
    if run != [] {
      var next := Apply(cfg, s, run[0]).value;
      var q := StepHolds(cfg, s, run[0], p, next);
      StepInTime(cfg, h, s, run[0], p, next);
      StepOverWith(cfg, s, run[0], p, next, q);
      RunInTime(cfg, next, Note(h, s, next), run[1..], q, s');
    }
  }

  /**
   * In every run: a deadline lies reply_timeout after the moment it was set, and a handler, a
   * check-in, a superseding or a reported timeout of an attempt exists only if that time has
   * passed since its callback was last parked.
   */
  lemma TimeIsKept(cfg: Config, run: seq<Action>, s: State)
    requires Exec(cfg, Init(), run) == Some(s)
    ensures InTime(cfg, Observed(cfg, Init(), Unwritten(), run), s)
  {
    InitHolds(cfg);
    RunInTime(cfg, Init(), Unwritten(), run, Thr(0), s);
  }

  /**
   * What on_result gets: an answer that came for the last attempt, or an error the call may end
   * with. A timeout is reported only when the whole reply timeout of the last attempt has passed.
   */
  lemma FinalResult(cfg: Config, run: seq<Action>, s: State)
    requires Exec(cfg, Init(), run) == Some(s) && s.results != []
    ensures Final(cfg, s, s.results[0])
    ensures s.results[0].Answer? ==> Given(run, |s.attempts|, s.results[0])
    ensures s.results[0].TimedOut? ==> Waited(cfg, Observed(cfg, Init(), Unwritten(), run), s, |s.attempts|)
  {
    TimeIsKept(cfg, run, s);
    AllGiven(cfg, Init(), run, s);
    assert Reachable(cfg, s);
    var p := Everywhere(cfg, s);
  }
}

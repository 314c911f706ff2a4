/** Exactly-once delivery of run_skill's result, over every run of the protocol. */
module RunSkillSafety {
  import opened Wrappers
  import opened RunSkill

  /** The places where responsibility for the call's result can rest. */
  datatype Place = Thr(t: nat) | Parked(n: nat) | Open(c: nat)

  /** Threads that still owe the caller a result. The others only schedule, time or talk. */
  predicate Owes(th: Thread) {
    match th
    case Schedule(_, _) => false
    case TimeoutHandler(_, _) => false
    case OpenCheckIn(_) => false
    case BindConv(_) => false
    case Timer(_, _) => false
    case CheckInReply(_) => false
    case Deliberating(_, _) => false
    case _ => true
  }

  predicate IsLive(s: State, p: Place) {
    match p
    case Thr(t) => t in s.threads && Owes(s.threads[t])
    case Parked(n) => Own(n) in s.table.callbacks
    case Open(c) => c < |s.checkIns| && !s.checkIns[c].resolved
  }

  /** `p` is the one and only live continuation. */
  ghost predicate Token(s: State, p: Place) {
    IsLive(s, p) && forall q :: IsLive(s, q) ==> q == p
  }

  ghost predicate NoToken(s: State) {
    forall q :: !IsLive(s, q)
  }

  /** Attempt number and check-in of a thread refer to things that exist. */
  predicate Placed(s: State, th: Thread) {
    match th
    case Survey(n) => n == |s.attempts| + 1
    case OpenCheckIn(c) => c < |s.checkIns|
    case BindConv(c) => c < |s.checkIns|
    case Timer(c, _) => c < |s.checkIns|
    case CheckInReply(c) => c < |s.checkIns|
    case Deliberating(c, _) => c < |s.checkIns|
    case OnTimeout(n, num) => num == 0 && Minted(s, n)
    case _ => Minted(s, th.n)
  }

  ghost predicate Shape(s: State) {
    && (forall t :: t in s.threads ==> t < s.nextThread && Placed(s, s.threads[t]))
    && (forall n: nat :: Own(n) in s.table.callbacks ==> Minted(s, n))
    && (forall n: nat :: Own(n) in s.table.deadlines ==> Minted(s, n))
    && (forall c :: 0 <= c < |s.checkIns| ==> Minted(s, s.checkIns[c].attempt))
  }

  /** The attempt a live continuation belongs to. */
  function AttemptOf(s: State, p: Place): nat
    requires IsLive(s, p)
  {
    match p
    case Thr(t) => s.threads[t].n
    case Parked(n) => n
    case Open(c) => s.checkIns[c].attempt
  }

  /** The live continuation always belongs to the latest attempt (or is about to start the next). */
  predicate Current(s: State, p: Place) {
    IsLive(s, p) && (Minted(s, AttemptOf(s, p)) ==> AttemptOf(s, p) == |s.attempts|)
  }

  /** What every reachable state satisfies, with `p` the live continuation while there is no result. */
  ghost predicate Held(s: State, p: Place) {
    && Shape(s)
    && if s.results == [] then Token(s, p) && Current(s, p) else |s.results| == 1 && NoToken(s)
  }

  /**
   * A step that makes nothing live but q hands the continuation from p to q. Once the
   * result is out, such a step cannot bring a continuation back.
   */
  lemma HandOver(s: State, s': State, p: Place, q: Place)
    requires Held(s, p) && s'.results == s.results
    requires forall x :: IsLive(s', x) ==> IsLive(s, x) || (x == q && s.results == [])
    requires s.results == [] ==> IsLive(s', q) && (p == q || !IsLive(s', p))
    ensures if s.results == [] then Token(s', q) else NoToken(s')
  {
  }

  /** Reporting takes the continuation out of the system for good. */
  lemma Reported(s: State, t: nat, r: Result, p: Place)
    requires Held(s, p) && t in s.threads && Owes(s.threads[t])
    ensures Held(Report(s, t, r), p)
  {
    assert IsLive(s, Thr(t));
    var s' := Report(s, t, r);
    forall x ensures !IsLive(s', x) {
      assert IsLive(s', x) ==> IsLive(s, x);
    }
  }

  // ----- steps of a thread that holds the continuation -----

  lemma StepSurvey(cfg: Config, s: State, t: nat, choice: Choice, p: Place, s': State)
    requires Held(s, p) && t in s.threads && s.threads[t].Survey?
    requires RunThread(cfg, s, t, s.threads[t], choice) == Some(s')
    ensures Held(s', p)
  {
    assert IsLive(s, Thr(t));
    forall u | u in s'.threads && u != t ensures Placed(s', s'.threads[u]) {
      assert !IsLive(s, Thr(u));
    }
    if choice.workers == [] { Reported(s, t, NoWorkers, p); } else { HandOver(s, s', p, p); }
  }

  lemma StepDispatching(cfg: Config, s: State, t: nat, choice: Choice, p: Place, s': State)
    requires Held(s, p) && t in s.threads && (s.threads[t].Dispatching? || s.threads[t].InProcess?)
    requires RunThread(cfg, s, t, s.threads[t], choice) == Some(s')
    ensures Held(s', p)
  {
    assert IsLive(s, Thr(t));
    HandOver(s, s', p, p);
  }

  lemma StepReply(cfg: Config, s: State, t: nat, choice: Choice, p: Place, s': State)
    requires Held(s, p) && t in s.threads && (s.threads[t].Deliver? || s.threads[t].OnReply?)
    requires RunThread(cfg, s, t, s.threads[t], choice) == Some(s')
    ensures Held(s', p)
  {
    assert IsLive(s, Thr(t));
    HandOver(s, s', p, p);
  }

  lemma StepArm(cfg: Config, s: State, t: nat, choice: Choice, p: Place, s': State) returns (q: Place)
    requires Held(s, p) && t in s.threads && s.threads[t].Arm?
    requires RunThread(cfg, s, t, s.threads[t], choice) == Some(s')
    ensures Held(s', q)
  {
    assert IsLive(s, Thr(t));
    q := if s'.threads[t].Schedule? then Parked(s.threads[t].n) else p;
    HandOver(s, s', p, q);
  }

  lemma StepOnTimeout(cfg: Config, s: State, t: nat, choice: Choice, p: Place, s': State) returns (q: Place)
    requires Held(s, p) && t in s.threads && s.threads[t].OnTimeout?
    requires RunThread(cfg, s, t, s.threads[t], choice) == Some(s')
    ensures Held(s', q)
  {
    assert IsLive(s, Thr(t));
    q := if s'.threads[t].Handle? then p else Open(|s.checkIns|);
    HandOver(s, s', p, q);
  }

  lemma StepHandle(cfg: Config, s: State, t: nat, choice: Choice, p: Place, s': State)
    requires Held(s, p) && t in s.threads && s.threads[t].Handle?
    requires RunThread(cfg, s, t, s.threads[t], choice) == Some(s')
    ensures Held(s', p)
  {
    assert IsLive(s, Thr(t));
    if s'.results != [] { Reported(s, t, s.threads[t].r, p); } else { HandOver(s, s', p, p); }
  }

  lemma StepCancelling(cfg: Config, s: State, t: nat, choice: Choice, p: Place, s': State)
    requires Held(s, p) && t in s.threads && s.threads[t].Cancelling?
    requires RunThread(cfg, s, t, s.threads[t], choice) == Some(s')
    ensures Held(s', p)
  {
    assert IsLive(s, Thr(t));
    HandOver(s, s', p, p);
  }

  // ----- steps of the other threads -----

  lemma StepSchedule(cfg: Config, s: State, t: nat, choice: Choice, p: Place, s': State)
    requires Held(s, p) && t in s.threads && s.threads[t].Schedule?
    requires RunThread(cfg, s, t, s.threads[t], choice) == Some(s')
    ensures Held(s', p)
  {
    HandOver(s, s', p, p);
  }

  lemma StepTimeoutHandler(cfg: Config, s: State, t: nat, choice: Choice, p: Place, s': State) returns (q: Place)
    requires Held(s, p) && t in s.threads && s.threads[t].TimeoutHandler?
    requires RunThread(cfg, s, t, s.threads[t], choice) == Some(s')
    ensures Held(s', q)
  {
    q := if t in s'.threads then Thr(t) else p;
    assert t in s'.threads ==> IsLive(s, Parked(s.threads[t].n));
    HandOver(s, s', p, q);
  }

  lemma StepCheckInSetup(cfg: Config, s: State, t: nat, choice: Choice, p: Place, s': State)
    requires Held(s, p) && t in s.threads
      && (s.threads[t].OpenCheckIn? || s.threads[t].BindConv? || s.threads[t].CheckInReply?)
    requires RunThread(cfg, s, t, s.threads[t], choice) == Some(s')
    ensures Held(s', p)
  {
    HandOver(s, s', p, p);
  }

  lemma Resolution(s: State, t: nat, c: nat, th: Thread, p: Place) returns (q: Place)
    requires Held(s, p) && t in s.threads && !Owes(s.threads[t]) && c < |s.checkIns|
    requires Owes(th) && !th.Survey? && Placed(s, th) && th.n == s.checkIns[c].attempt
    ensures Held(ResolveOnce(s, t, c, th), q)
  {
    var s' := ResolveOnce(s, t, c, th);
    q := if t in s'.threads then Thr(t) else p;
    assert t in s'.threads ==> IsLive(s, Open(c));
    HandOver(s, s', p, q);
  }

  lemma StepTimer(cfg: Config, s: State, t: nat, choice: Choice, p: Place, s': State) returns (q: Place)
    requires Held(s, p) && t in s.threads && s.threads[t].Timer?
    requires RunThread(cfg, s, t, s.threads[t], choice) == Some(s')
    ensures Held(s', q)
  {
    var c := s.threads[t].c;
    q := Resolution(s, t, c, Handle(s.checkIns[c].attempt, TimedOut), p);
  }

  lemma StepDeliberating(cfg: Config, s: State, t: nat, choice: Choice, p: Place, s': State) returns (q: Place)
    requires Held(s, p) && t in s.threads && s.threads[t].Deliberating?
    requires RunThread(cfg, s, t, s.threads[t], choice) == Some(s')
    ensures Held(s', q)
  {
    var c := s.threads[t].c;
    var n := s.checkIns[c].attempt;
    match Decide(choice.answer, s.threads[t].allow)
    case Wait =>
      var s1 := s.(waits := s'.waits);
      HandOver(s, s1, p, p);
      q := Resolution(s1, t, c, Arm(n), p);
    case Retry => q := Resolution(s, t, c, Handle(n, TimedOut), p);
    case FollowUp(_) => q := p; HandOver(s, s', p, q);
  }

  /** Every action keeps the single continuation, wherever it goes. */
  lemma Step(cfg: Config, s: State, a: Action, p: Place, s': State) returns (q: Place)
    requires Held(s, p) && Apply(cfg, s, a) == Some(s')
    ensures Held(s', q)
  {
    q := p;
    match a
    case Run(t, choice) => q := StepThread(cfg, s, t, choice, p, s');
    case Receive(_, _) => q := StepReceive(cfg, s, a, p, s');
    case Fire(_) => StepFire(cfg, s, a, p, s');
    case _ => StepAmbient(cfg, s, a, p, s');
  }

  /** A handler that the watcher starts is not a continuation until it has popped the callback. */
  lemma StepFire(cfg: Config, s: State, a: Action, p: Place, s': State)
    requires Held(s, p) && a.Fire? && Apply(cfg, s, a) == Some(s')
    ensures Held(s', p)
  {
    HandOver(s, s', p, p);
  }

  /** Time, messages of a dialogue and other users leave the continuation where it is. */
  lemma StepAmbient(cfg: Config, s: State, a: Action, p: Place, s': State)
    requires Held(s, p) && (a.Tick? || a.AgentMessage? || a.Others?) && Apply(cfg, s, a) == Some(s')
    ensures Held(s', p)
  {
    HandOver(s, s', p, p);
  }

  lemma StepReceive(cfg: Config, s: State, a: Action, p: Place, s': State) returns (q: Place)
    requires Held(s, p) && a.Receive? && Apply(cfg, s, a) == Some(s')
    ensures Held(s', q)
  {
    q := if s'.nextThread == s.nextThread then p else Thr(s.nextThread);
    assert s'.nextThread != s.nextThread ==> IsLive(s, Parked(a.n));
    HandOver(s, s', p, q);
  }

  lemma StepThread(cfg: Config, s: State, t: nat, choice: Choice, p: Place, s': State) returns (q: Place)
    requires Held(s, p) && t in s.threads && RunThread(cfg, s, t, s.threads[t], choice) == Some(s')
    ensures Held(s', q)
  {
    q := p;
    match s.threads[t]
    case Survey(_) => StepSurvey(cfg, s, t, choice, p, s');
    case Dispatching(_, _) => StepDispatching(cfg, s, t, choice, p, s');
    case InProcess(_) => StepDispatching(cfg, s, t, choice, p, s');
    case Arm(_) => q := StepArm(cfg, s, t, choice, p, s');
    case Schedule(_, _) => StepSchedule(cfg, s, t, choice, p, s');
    case Deliver(_, _) => StepReply(cfg, s, t, choice, p, s');
    case OnReply(_, _) => StepReply(cfg, s, t, choice, p, s');
    case TimeoutHandler(_, _) => q := StepTimeoutHandler(cfg, s, t, choice, p, s');
    case OnTimeout(_, _) => q := StepOnTimeout(cfg, s, t, choice, p, s');
    case OpenCheckIn(_) => StepCheckInSetup(cfg, s, t, choice, p, s');
    case BindConv(_) => StepCheckInSetup(cfg, s, t, choice, p, s');
    case Timer(_, _) => q := StepTimer(cfg, s, t, choice, p, s');
    case CheckInReply(_) => StepCheckInSetup(cfg, s, t, choice, p, s');
    case Deliberating(_, _) => q := StepDeliberating(cfg, s, t, choice, p, s');
    case Handle(_, _) => StepHandle(cfg, s, t, choice, p, s');
    case Cancelling(_, _) => StepCancelling(cfg, s, t, choice, p, s');
  }
}

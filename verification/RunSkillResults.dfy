/** Which result a call of run_skill reports, how many attempts it makes, and why it ends. */
module RunSkillResults {
  import opened Wrappers
  import opened Router
  import opened RunSkill
  import opened RunSkillSafety
  import opened RunSkillTalk

  /** A result the call may report as final. */
  predicate Final(cfg: Config, s: State, r: Result) {
    match r
    case NoWorkers => true
    case TimedOut => |s.attempts| >= cfg.maxAttempts
    case Answer(success, again, _) =>
      && (|s.attempts|, r) in s.arrived
      && (success || !again || |s.attempts| >= cfg.maxAttempts)
  }

  /** What a thread carries was really received for its attempt, and retries respect the limit. */
  predicate Carries(cfg: Config, s: State, th: Thread) {
    match th
    case Deliver(n, r) => (n, r) in s.arrived && r.Answer?
    case OnReply(n, r) => (n, r) in s.arrived && r.Answer?
    case Handle(n, r) => r.TimedOut? || ((n, r) in s.arrived && r.Answer?)
    case Cancelling(n, _) => n < cfg.maxAttempts && n in s.superseded
    case Survey(n) => n <= AtLeastOne(cfg.maxAttempts) && (n <= 1 || n - 1 in s.superseded)
    case _ => true
  }

  /** The result that ended attempt n allows another one: it is n's own failure, and retryable. */
  predicate Supersedes(s: State, n: nat, r: Result) {
    r.TimedOut? || (r.Answer? && !r.success && r.again && (n, r) in s.arrived)
  }

  ghost predicate HonestQueue(s: State, n: nat, q: seq<Result>) {
    forall r :: r in q ==> r.Answer? && (n, r) in s.arrived
  }

  ghost predicate Honest(cfg: Config, s: State) {
    && (forall t :: t in s.threads ==> Carries(cfg, s, s.threads[t]))
    && (forall n: nat :: HonestQueue(s, n, QueueOf(s.table, Own(n))))
    && |s.attempts| <= AtLeastOne(cfg.maxAttempts)
    && (forall n :: n in s.superseded ==> Supersedes(s, n, s.superseded[n]))
    && (forall n :: 1 <= n < |s.attempts| ==> n in s.superseded)
    && (s.results != [] ==> Final(cfg, s, s.results[0]))
  }

  lemma SameQueues(cfg: Config, s: State, s': State)
    requires Honest(cfg, s) && s'.arrived == s.arrived
    requires forall n: nat :: QueueOf(s'.table, Own(n)) == QueueOf(s.table, Own(n))
    ensures forall n: nat :: HonestQueue(s', n, QueueOf(s'.table, Own(n)))
  {
    forall n: nat ensures HonestQueue(s', n, QueueOf(s'.table, Own(n))) {
      assert HonestQueue(s, n, QueueOf(s.table, Own(n)));
    }
  }

  lemma StepArmHonest(cfg: Config, s: State, t: nat, choice: Choice, s': State)
    requires Honest(cfg, s) && t in s.threads && s.threads[t].Arm?
    requires RunThread(cfg, s, t, s.threads[t], choice) == Some(s')
    ensures Honest(cfg, s')
  {
    var n := s.threads[t].n;
    forall m: nat ensures HonestQueue(s', m, QueueOf(s'.table, Own(m))) {
      assert HonestQueue(s, m, QueueOf(s.table, Own(m)));
      assert forall r :: r in QueueOf(s'.table, Own(m)) ==> r in QueueOf(s.table, Own(m));
    }
    assert HonestQueue(s, n, QueueOf(s.table, Own(n)));
  }

  lemma StepHandleHonest(cfg: Config, s: State, t: nat, choice: Choice, p: Place, s': State)
    requires Held(s, p) && Honest(cfg, s) && t in s.threads && s.threads[t].Handle?
    requires RunThread(cfg, s, t, s.threads[t], choice) == Some(s')
    ensures Honest(cfg, s')
  {
    assert IsLive(s, Thr(t));
  }

  lemma StepLoopHonest(cfg: Config, s: State, t: nat, choice: Choice, p: Place, s': State)
    requires Held(s, p) && Honest(cfg, s) && t in s.threads
    requires s.threads[t].Survey? || s.threads[t].Cancelling?
    requires RunThread(cfg, s, t, s.threads[t], choice) == Some(s')
    ensures Honest(cfg, s')
  {
    assert IsLive(s, Thr(t));
    SameQueues(cfg, s, s');
  }

  lemma StepInProcessHonest(cfg: Config, s: State, t: nat, choice: Choice, p: Place, s': State)
    requires Held(s, p) && Honest(cfg, s) && t in s.threads && s.threads[t].InProcess?
    requires RunThread(cfg, s, t, s.threads[t], choice) == Some(s')
    ensures Honest(cfg, s')
  {
    forall m: nat ensures HonestQueue(s', m, QueueOf(s'.table, Own(m))) {
      assert HonestQueue(s, m, QueueOf(s.table, Own(m)));
    }
  }

  lemma StepReplyHonest(cfg: Config, s: State, t: nat, choice: Choice, s': State)
    requires Honest(cfg, s) && t in s.threads
    requires s.threads[t].Deliver? || s.threads[t].OnReply? || s.threads[t].Dispatching?
    requires RunThread(cfg, s, t, s.threads[t], choice) == Some(s')
    ensures Honest(cfg, s')
  {
    SameQueues(cfg, s, s');
  }

  lemma StepTimeoutHonest(cfg: Config, s: State, t: nat, choice: Choice, s': State)
    requires Honest(cfg, s) && t in s.threads
    requires s.threads[t].Schedule? || s.threads[t].TimeoutHandler? || s.threads[t].OnTimeout? || s.threads[t].Timer?
    requires RunThread(cfg, s, t, s.threads[t], choice) == Some(s')
    ensures Honest(cfg, s')
  {
    SameQueues(cfg, s, s');
  }

  lemma StepTalkHonest(cfg: Config, s: State, t: nat, choice: Choice, s': State)
    requires Honest(cfg, s) && t in s.threads
    requires s.threads[t].OpenCheckIn? || s.threads[t].BindConv? || s.threads[t].CheckInReply?
    requires RunThread(cfg, s, t, s.threads[t], choice) == Some(s')
    ensures Honest(cfg, s')
  {
    SameQueues(cfg, s, s');
  }

  lemma StepDeliberatingHonest(cfg: Config, s: State, t: nat, choice: Choice, s': State)
    requires Honest(cfg, s) && t in s.threads && s.threads[t].Deliberating?
    requires RunThread(cfg, s, t, s.threads[t], choice) == Some(s')
    ensures Honest(cfg, s')
  {
    SameQueues(cfg, s, s');
  }

  lemma ReceivedQueues(cfg: Config, s: State, a: Action, s': State)
    requires a.Receive? && Apply(cfg, s, a) == Some(s')
    ensures s'.arrived == s.arrived + [(a.n, a.r)]
    ensures forall m: nat, r :: r in QueueOf(s'.table, Own(m)) ==>
      r in QueueOf(s.table, Own(m)) || (m == a.n && r == a.r)
  {
  }

  lemma ReceiveHonest(cfg: Config, s: State, a: Action, s': State)
    requires Honest(cfg, s) && a.Receive? && Apply(cfg, s, a) == Some(s')
    ensures Honest(cfg, s')
  {
    ReceivedQueues(cfg, s, a, s');
    forall m: nat ensures HonestQueue(s', m, QueueOf(s'.table, Own(m))) {
      assert HonestQueue(s, m, QueueOf(s.table, Own(m)));
    }
  }

  lemma StepHonest(cfg: Config, s: State, a: Action, p: Place, s': State)
    requires Held(s, p) && Honest(cfg, s) && Apply(cfg, s, a) == Some(s')
    ensures Honest(cfg, s')
  {
    if a.Run? {
      var t, choice, th := a.t, a.choice, s.threads[a.t];
      if th.Arm? { StepArmHonest(cfg, s, t, choice, s'); }
      else if th.Handle? { StepHandleHonest(cfg, s, t, choice, p, s'); }
      else if th.InProcess? { StepInProcessHonest(cfg, s, t, choice, p, s'); }
      else if th.Survey? || th.Cancelling? { StepLoopHonest(cfg, s, t, choice, p, s'); }
      else if th.Deliver? || th.OnReply? || th.Dispatching? { StepReplyHonest(cfg, s, t, choice, s'); }
      else if th.Deliberating? { StepDeliberatingHonest(cfg, s, t, choice, s'); }
      else if th.OpenCheckIn? || th.BindConv? || th.CheckInReply? { StepTalkHonest(cfg, s, t, choice, s'); }
      else { StepTimeoutHonest(cfg, s, t, choice, s'); }
    } else if a.Receive? {
      ReceiveHonest(cfg, s, a, s');
    } else {
      SameQueues(cfg, s, s');
    }
  }

  // ----- nothing is made up -----

  /** The router processed r for attempt n, or it was computed in process. */
  predicate Given(run: seq<Action>, n: nat, r: Result) {
    exists i :: 0 <= i < |run| && (run[i] == Receive(n, r) || (run[i].Run? && run[i].choice == Outcome(r)))
  }

  /** Some survey of workers and choice of a coordinator in the run came to this attempt. */
  predicate Surveyed(run: seq<Action>, a: Attempt) {
    exists i :: 0 <= i < |run| && run[i].Run? && run[i].choice == Workers(a.workers, a.coordinator)
  }

  /** What is new in s' came in this run. */
  ghost predicate Sourced(run: seq<Action>, s: State, s': State) {
    && (forall p :: p in s'.arrived ==> p in s.arrived || Given(run, p.0, p.1))
    && (forall a :: a in s'.attempts ==> a in s.attempts || Surveyed(run, a))
  }

  lemma StepArrived(cfg: Config, s: State, a: Action, s': State)
    requires Apply(cfg, s, a) == Some(s')
    ensures forall p :: p in s'.arrived ==> p in s.arrived || Given([a], p.0, p.1)
  {
    assert [a][0] == a;
  }

  lemma StepSurveyed(cfg: Config, s: State, a: Action, s': State)
    requires Apply(cfg, s, a) == Some(s')
    ensures forall x :: x in s'.attempts ==> x in s.attempts || Surveyed([a], x)
  {
    assert [a][0] == a;
  }

  lemma SourcedLater(run: seq<Action>, s: State, next: State, s': State)
    requires run != [] && Sourced([run[0]], s, next) && Sourced(run[1..], next, s')
    ensures Sourced(run, s, s')
  {
    var rest := run[1..];
    forall n, r | Given([run[0]], n, r) || Given(rest, n, r) ensures Given(run, n, r) {
      if Given(rest, n, r) {
        var i :| 0 <= i < |rest| && (rest[i] == Receive(n, r) || (rest[i].Run? && rest[i].choice == Outcome(r)));
        assert run[i + 1] == rest[i];
      }
    }
    forall a | Surveyed([run[0]], a) || Surveyed(rest, a) ensures Surveyed(run, a) {
      if Surveyed(rest, a) {
        var i :| 0 <= i < |rest| && rest[i].Run? && rest[i].choice == Workers(a.workers, a.coordinator);
        assert run[i + 1] == rest[i];
      }
    }
  }

  /** Every result that arrived was received or computed in the run, and every attempt goes to surveyed workers. */
  lemma {:induction false} AllGiven(cfg: Config, s: State, run: seq<Action>, s': State)
    requires Exec(cfg, s, run) == Some(s')
    ensures Sourced(run, s, s')
    decreases run
  {
    if run != [] {
      var next := Apply(cfg, s, run[0]).value;
      StepArrived(cfg, s, run[0], next);
      StepSurveyed(cfg, s, run[0], next);
      AllGiven(cfg, next, run[1..], s');
      SourcedLater(run, s, next, s');
    }
  }
}

/**
 * How often responsibility for the result can change hands. A WAIT decision re-arms the same
 * attempt without using up anything, so the bound depends on the number of WAITs; everything
 * else is bounded by the configuration and by the size of the worker surveys.
 */
module RunSkillProgress {
  import opened Wrappers
  import opened RunSkill
  import opened RunSkillSafety
  import opened RunSkillTalk
  import opened RunSkillResults

  /** Moves left within one attempt, when no survey finds more than b workers. */
  function Local(b: nat, s: State, p: Place): nat {
    match p
    case Parked(_) => b + 8
    case Open(_) => b + 6
    case Thr(t) =>
      if t !in s.threads then 0
      else match s.threads[t]
        case Survey(_) => 2 * b + 11
        case Dispatching(_, todo) => |todo| + b + 10
        case InProcess(_) => b + 9
        case Arm(_) => b + 9
        case Deliver(_, _) => b + 7
        case OnTimeout(_, _) => b + 7
        case OnReply(_, _) => b + 6
        case Handle(_, _) => b + 5
        case Cancelling(_, todo) => |todo| + 1
        case _ => 0
  }

  /** Moves left in all: within this attempt, in later attempts, and through further WAITs. */
  function Left(cfg: Config, b: nat, w: nat, s: State, p: Place): int
    requires IsLive(s, p)
  {
    Local(b, s, p) + (AtLeastOne(cfg.maxAttempts) - AttemptOf(s, p)) * (2 * b + 12) + 4 * (w - s.waits)
  }

  /** No survey so far found more than b workers and no more than w WAITs were decided. */
  ghost predicate Within(b: nat, w: nat, s: State) {
    s.waits <= w && forall i :: 0 <= i < |s.attempts| ==> |s.attempts[i].workers| <= b
  }

  /** The continuation moved on within its attempt. A WAIT may buy it four more moves. */
  predicate Closer(b: nat, s: State, p: Place, s': State, q: Place) {
    && IsLive(s, p) && IsLive(s', q)
    && AttemptOf(s', q) == AttemptOf(s, p)
    && Local(b, s', q) < Local(b, s, p) + 4 * (s'.waits - s.waits)
  }

  /** Nothing happened to the continuation. */
  predicate Same(s: State, p: Place, s': State, q: Place) {
    && p == q && IsLive(s, p) && IsLive(s', q) && s'.waits == s.waits
    && AttemptOf(s', q) == AttemptOf(s, p)
    && (p.Thr? ==> s'.threads[p.t] == s.threads[p.t])
  }

  lemma SendingProgress(cfg: Config, b: nat, w: nat, s: State, t: nat, choice: Choice, p: Place, s': State, q: Place)
    requires Held(s, p) && Honest(cfg, s) && Held(s', q) && Within(b, w, s')
    requires t in s.threads && (s.threads[t].Survey? || s.threads[t].Dispatching?)
    requires RunThread(cfg, s, t, s.threads[t], choice) == Some(s') && s'.results == []
    ensures Closer(b, s, p, s', q)
  {
    assert IsLive(s, Thr(t)) && IsLive(s', Thr(t));
    assert s'.attempts != s.attempts ==> s'.attempts[|s.attempts|].workers == choice.workers;
  }

  lemma AnsweringProgress(cfg: Config, b: nat, w: nat, s: State, t: nat, choice: Choice, p: Place, s': State, q: Place)
    requires Held(s, p) && Honest(cfg, s) && Held(s', q) && Within(b, w, s')
    requires t in s.threads && (s.threads[t].InProcess? || s.threads[t].Deliver? || s.threads[t].OnReply?
      || s.threads[t].Handle?)
    requires RunThread(cfg, s, t, s.threads[t], choice) == Some(s') && s'.results == []
    ensures Closer(b, s, p, s', q)
  {
    assert IsLive(s, Thr(t)) && IsLive(s', Thr(t));
  }

  lemma WaitingProgress(cfg: Config, b: nat, w: nat, s: State, t: nat, choice: Choice, p: Place, s': State, q: Place)
    requires Held(s, p) && Honest(cfg, s) && Held(s', q) && Within(b, w, s')
    requires t in s.threads && (s.threads[t].Arm? || s.threads[t].OnTimeout?)
    requires RunThread(cfg, s, t, s.threads[t], choice) == Some(s') && s'.results == []
    ensures Closer(b, s, p, s', q)
  {
    assert IsLive(s, Thr(t));
    assert IsLive(s', if Owes(s'.threads[t]) then Thr(t) else if s.threads[t].Arm? then Parked(s.threads[t].n)
      else Open(|s.checkIns|));
  }

  lemma CancellingProgress(cfg: Config, b: nat, w: nat, s: State, t: nat, choice: Choice, p: Place, s': State, q: Place)
    requires Held(s, p) && Honest(cfg, s) && Held(s', q) && Within(b, w, s')
    requires t in s.threads && s.threads[t].Cancelling? && s.threads[t].todo != []
    requires RunThread(cfg, s, t, s.threads[t], choice) == Some(s') && s'.results == []
    ensures Closer(b, s, p, s', q)
  {
    assert IsLive(s, Thr(t)) && IsLive(s', Thr(t));
  }

  lemma RetryProgress(cfg: Config, b: nat, w: nat, s: State, t: nat, choice: Choice, p: Place, s': State, q: Place)
    requires Held(s, p) && Honest(cfg, s) && Held(s', q) && Within(b, w, s')
    requires t in s.threads && s.threads[t].Cancelling? && s.threads[t].todo == []
    requires RunThread(cfg, s, t, s.threads[t], choice) == Some(s') && s'.results == []
    ensures AttemptOf(s', q) == AttemptOf(s, p) + 1 && AttemptOf(s', q) <= AtLeastOne(cfg.maxAttempts)
    ensures Local(b, s', q) < Local(b, s, p) + (2 * b + 12) && s'.waits == s.waits
  {
    assert IsLive(s, Thr(t)) && IsLive(s', Thr(t));
  }

  lemma HandlerProgress(cfg: Config, b: nat, w: nat, s: State, t: nat, choice: Choice, p: Place, s': State, q: Place)
    requires Held(s, p) && Honest(cfg, s) && Held(s', q) && Within(b, w, s')
    requires t in s.threads && s.threads[t].TimeoutHandler?
    requires RunThread(cfg, s, t, s.threads[t], choice) == Some(s') && s'.results == []
    ensures if t in s'.threads then Closer(b, s, p, s', q) else Same(s, p, s', q)
  {
    if t in s'.threads {
      assert IsLive(s', Thr(t));
      assert IsLive(s, Parked(s.threads[t].n));
    } else {
      assert IsLive(s', p);
    }
  }

  lemma TimerProgress(cfg: Config, b: nat, w: nat, s: State, t: nat, choice: Choice, p: Place, s': State, q: Place)
    requires Held(s, p) && Honest(cfg, s) && Held(s', q) && Within(b, w, s')
    requires t in s.threads && s.threads[t].Timer?
    requires RunThread(cfg, s, t, s.threads[t], choice) == Some(s') && s'.results == []
    ensures if t in s'.threads then Closer(b, s, p, s', q) else Same(s, p, s', q)
  {
    if t in s'.threads {
      assert IsLive(s', Thr(t));
      assert IsLive(s, Open(s.threads[t].c));
    } else {
      assert IsLive(s', p);
    }
  }

  /** A decision that resolves the check-in. */
  lemma ResolvingProgress(cfg: Config, b: nat, s: State, t: nat, choice: Choice, p: Place, s': State, q: Place)
    requires Held(s, p) && Held(s', q) && t in s.threads && s.threads[t].Deliberating?
    requires RunThread(cfg, s, t, s.threads[t], choice) == Some(s') && s'.results == [] && t in s'.threads
    ensures Closer(b, s, p, s', q)
  {
    assert IsLive(s', Thr(t));
    assert IsLive(s, Open(s.threads[t].c));
  }

  lemma DecisionProgress(cfg: Config, b: nat, w: nat, s: State, t: nat, choice: Choice, p: Place, s': State, q: Place)
    requires Held(s, p) && Held(s', q) && t in s.threads && s.threads[t].Deliberating?
    requires RunThread(cfg, s, t, s.threads[t], choice) == Some(s') && s'.results == []
    ensures if t in s'.threads then Closer(b, s, p, s', q) else Same(s, p, s', q)
  {
    if t in s'.threads { ResolvingProgress(cfg, b, s, t, choice, p, s', q); } else { assert IsLive(s', p); }
  }

  lemma TalkProgress(cfg: Config, b: nat, w: nat, s: State, t: nat, choice: Choice, p: Place, s': State, q: Place)
    requires Held(s, p) && Held(s', q)
    requires t in s.threads && (s.threads[t].Schedule? || s.threads[t].OpenCheckIn? || s.threads[t].BindConv?
      || s.threads[t].CheckInReply?)
    requires RunThread(cfg, s, t, s.threads[t], choice) == Some(s') && s'.results == []
    ensures Same(s, p, s', q)
  {
    assert IsLive(s', p);
  }

  lemma AmbientProgress(cfg: Config, b: nat, s: State, a: Action, p: Place, s': State, q: Place)
    requires Held(s, p) && Held(s', q) && !a.Run? && Apply(cfg, s, a) == Some(s') && s'.results == []
    ensures Closer(b, s, p, s', q) || Same(s, p, s', q)
  {
    if a.Receive? && s'.nextThread != s.nextThread {
      assert IsLive(s, Parked(a.n)) && IsLive(s', Thr(s.nextThread));
    } else {
      assert IsLive(s', p);
    }
  }
}

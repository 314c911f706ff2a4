/**
 * A cancel is never missed. The head's run_skill, the worker's inbox and the worker's single
 * polling thread run side by side; the worker's handlers may finish at any time. When the worker
 * gets to a skill_cancel for a request, it has already created the token for that request.
 */
module Worker {
  import opened Wrappers
  import opened RunSkill
  import opened RunSkillTraffic
  import opened RunSkillTheorems
  import opened RunSkillCheckInLimit
  import I = Inbox

  /** What the worker's inbox holds: dispatches and cancels of this call's attempts, and everything else. */
  datatype Note = Begin(attempt: nat) | Stop(attempt: nat) | Other

  /** What the polling thread is doing with the message it took. */
  datatype Poller = Idle | Holding(note: Note) | Stopping(attempt: nat)

  datatype State = System(
    head: RunSkill.State,
    inbox: I.State<Note>,
    poller: Poller,
    tracked: set<nat>,      // requests with a token in the registry
    created: set<nat>,      // requests whose token was ever created
    cancelled: set<nat>,    // requests whose token's event is set
    finished: set<nat>)     // requests whose handler ended and was forgotten

  datatype Action =
    | Head(a: RunSkill.Action)       // one step of run_skill; a send to this worker takes its number
    | Bus(step: I.Step<Note>)        // a payload is written or lost; another agent sends
    | Poll                           // the poller takes the next message
    | CreateToken                    // _dispatch creates the token, then starts the handler thread
    | LookUp                         // registry.cancel looks the token up under its lock
    | SetEvent                       // token.cancel
    | Finish(attempt: nat)           // a handler ends: registry.forget
    | Skip                           // _dispatch has nothing to do with this message

  function Init(): State {
    System(RunSkill.Init(), I.Empty(), Idle, {}, {}, {}, {})
  }

  ghost function Apply(cfg: Config, w: Agent, s: State, action: Action): Option<State> {
    match action
    case Head(a) =>
      var next := RunSkill.Apply(cfg, s.head, a);
      if next.None? then None
      else
        var h := next.value;
        if |h.log| == |s.head.log| + 1 && h.log[|s.head.log|].to == w then
          var m := h.log[|s.head.log|];
          var note := if m.Dispatch? then Begin(m.attempt) else Stop(m.attempt);
          Some(s.(head := h, inbox := I.Apply(s.inbox, I.Reserve(I.Message(cfg.agent, note))).value))
        else Some(s.(head := h))
    case Bus(step) =>
      if step.Take? || step.Expire? || (step.Reserve? && !step.m.body.Other?) then None
      else
        var next := I.Apply(s.inbox, step);
        if next.None? then None else Some(s.(inbox := next.value))
    case Poll =>
      if !s.poller.Idle? then None
      else
        var next := I.Apply(s.inbox, I.Take);
        if next.None? then None
        else Some(s.(inbox := next.value, poller := Holding(next.value.received[|next.value.received| - 1].body)))
    case CreateToken =>
      if s.poller.Holding? && s.poller.note.Begin? then
        var n := s.poller.note.attempt;
        Some(s.(poller := Idle, tracked := s.tracked + {n}, created := s.created + {n}))
      else None
    case LookUp =>
      if s.poller.Holding? && s.poller.note.Stop? then
        var n := s.poller.note.attempt;
        Some(s.(poller := if n in s.tracked then Stopping(n) else Idle))
      else None
    case SetEvent =>
      if s.poller.Stopping? then Some(s.(poller := Idle, cancelled := s.cancelled + {s.poller.attempt})) else None
    case Finish(n) =>
      if n in s.tracked then Some(s.(tracked := s.tracked - {n}, finished := s.finished + {n})) else None
    case Skip =>
      if s.poller.Holding? && s.poller.note.Other? then Some(s.(poller := Idle)) else None
  }

  ghost function Exec(cfg: Config, w: Agent, s: State, run: seq<Action>): Option<State>
    decreases run
  {
    if run == [] then Some(s)
    else
      var next := Apply(cfg, w, s, run[0]);
      if next.None? then None else Exec(cfg, w, next.value, run[1..])
  }

  // ----- the head never cancels what it has not dispatched -----

  ghost predicate Dispatched(log: seq<Sent>, n: nat, w: Agent) {
    exists i :: 0 <= i < |log| && log[i].Dispatch? && log[i].attempt == n && log[i].to == w
  }

  /** Every cancel in the log comes after a dispatch of the same attempt to the same worker. */
  ghost predicate Causal(log: seq<Sent>) {
    forall i :: 0 <= i < |log| && log[i].Cancel? ==> Dispatched(log[..i], log[i].attempt, log[i].to)
  }

  lemma {:induction false} AllDispatched(n: nat, workers: seq<Agent>, coordinator: Agent, w: Agent)
    requires w in workers
    ensures Dispatched(DispatchTo(n, workers, coordinator), n, w)
  {
    var d := DispatchTo(n, workers, coordinator);
    if workers[0] == w {
      assert d[0].to == w;
    } else {
      AllDispatched(n, workers[1..], coordinator, w);
      var rest := DispatchTo(n, workers[1..], coordinator);
      var i :| 0 <= i < |rest| && rest[i].Dispatch? && rest[i].attempt == n && rest[i].to == w;
      assert d[i + 1] == rest[i];
    }
  }

  lemma {:induction false} DispatchOnly(n: nat, workers: seq<Agent>, coordinator: Agent)
    ensures forall i :: 0 <= i < |DispatchTo(n, workers, coordinator)| ==>
      DispatchTo(n, workers, coordinator)[i].Dispatch?
  {
    if workers != [] { DispatchOnly(n, workers[1..], coordinator); }
  }

  lemma {:induction false} CancelOnly(n: nat, workers: seq<Agent>)
    ensures forall i :: 0 <= i < |CancelAt(n, workers)| ==>
      CancelAt(n, workers)[i].attempt == n && CancelAt(n, workers)[i].to in workers
  {
    if workers != [] { CancelOnly(n, workers[1..]); }
  }

  lemma {:induction false} ClosedCausal(attempts: seq<Attempt>)
    ensures Causal(Closed(attempts))
  {
    if attempts != [] {
      var k, a := |attempts|, attempts[|attempts| - 1];
      var before, d, c := Closed(attempts[..k - 1]), DispatchTo(k, a.workers, a.coordinator), CancelAt(k, a.workers);
      ClosedCausal(attempts[..k - 1]);
      DispatchOnly(k, a.workers, a.coordinator);
      CancelOnly(k, a.workers);
      var log := Closed(attempts);
      assert log == Begun(attempts) + c && Begun(attempts) == before + d;
      forall i | 0 <= i < |log| && log[i].Cancel? ensures Dispatched(log[..i], log[i].attempt, log[i].to) {
        if i < |before| {
          assert log[..i] == before[..i];
        } else {
          AfterDispatch(before, d, c, i, k, a);
        }
      }
    }
  }

  lemma AfterDispatch(before: seq<Sent>, d: seq<Sent>, c: seq<Sent>, i: nat, k: nat, a: Attempt)
    requires d == DispatchTo(k, a.workers, a.coordinator) && (forall j :: 0 <= j < |d| ==> d[j].Dispatch?)
    requires forall j :: 0 <= j < |c| ==> c[j].attempt == k && c[j].to in a.workers
    requires |before| <= i < |(before + d) + c| && ((before + d) + c)[i].Cancel?
    ensures Dispatched(((before + d) + c)[..i], ((before + d) + c)[i].attempt, ((before + d) + c)[i].to)
  {
    var log := (before + d) + c;
    assert i >= |before + d|;
    assert log[i] == c[i - |before + d|];
    AllDispatched(k, a.workers, a.coordinator, log[i].to);
    var j :| 0 <= j < |d| && d[j].Dispatch? && d[j].attempt == k && d[j].to == log[i].to;
    assert log[..i][|before| + j] == d[j];
  }

  lemma PrefixCausal(log: seq<Sent>, more: seq<Sent>)
    requires Causal(more) && log <= more
    ensures Causal(log)
  {
    forall i | 0 <= i < |log| && log[i].Cancel? ensures Dispatched(log[..i], log[i].attempt, log[i].to) {
      assert log[i] == more[i] && log[..i] == more[..i];
    }
  }

  lemma HeadCausal(cfg: Config, h: RunSkill.State)
    requires Reachable(cfg, h)
    ensures Causal(h.log)
  {
    TrafficInOrder(cfg, h);
    ClosedCausal(h.attempts);
    PrefixCausal(h.log, Closed(h.attempts));
  }

  // ----- the composed system -----

  ghost predicate Announced(sends: seq<I.Message<Note>>, n: nat) {
    exists i :: 0 <= i < |sends| && sends[i].body == Begin(n)
  }

  /** In the inbox, too, every cancel comes after the dispatch of its attempt. */
  ghost predicate InOrder(sends: seq<I.Message<Note>>) {
    forall i :: 0 <= i < |sends| && sends[i].body.Stop? ==> Announced(sends[..i], sends[i].body.attempt)
  }

  /** The message the poller is busy with, as the last one received, if it has not created or cancelled yet. */
  function Done(s: State): nat {
    if s.poller.Idle? || s.inbox.head == 0 then s.inbox.head else s.inbox.head - 1
  }

  /** The inbox has announced what the head has dispatched, before any cancel of it. */
  ghost predicate Upstream(cfg: Config, w: Agent, s: State) {
    && Reachable(cfg, s.head)
    && I.Inv(s.inbox)
    && InOrder(s.inbox.sends)
    && (forall n: nat :: Dispatched(s.head.log, n, w) ==> Announced(s.inbox.sends, n))
  }

  /** The poller works through the inbox in order; a token is created once and stays until its handler has finished. */
  predicate Downstream(s: State) {
    && s.inbox.head <= |s.inbox.sends|
    && (!s.poller.Idle? ==> s.inbox.head > 0)
    && (s.poller.Holding? ==> s.poller.note == s.inbox.sends[s.inbox.head - 1].body)
    && (s.poller.Stopping? ==>
          Stop(s.poller.attempt) == s.inbox.sends[s.inbox.head - 1].body && s.poller.attempt in s.created)
    && (forall i :: 0 <= i < Done(s) ==> Handled(s, s.inbox.sends[i].body))
    && (forall n :: n in s.created ==> n in s.tracked || n in s.finished)
    && s.tracked <= s.created
  }

  ghost predicate Inv(cfg: Config, w: Agent, s: State) {
    Upstream(cfg, w, s) && Downstream(s)
  }

  /** What a message the poller is through with has led to. */
  predicate Handled(s: State, note: Note) {
    match note
    case Begin(n) => n in s.created
    case Stop(n) => n in s.created && (n in s.cancelled || n in s.finished)
    case Other => true
  }

  lemma InitInv(cfg: Config, w: Agent)
    ensures Inv(cfg, w, Init())
  {
    assert RunSkill.Exec(cfg, RunSkill.Init(), []) == Some(RunSkill.Init());
  }

  /** One more step of run_skill sends at most one message. */
  lemma OneSend(cfg: Config, h: RunSkill.State, a: RunSkill.Action, h': RunSkill.State)
    requires RunSkill.Apply(cfg, h, a) == Some(h')
    ensures h.log <= h'.log && |h'.log| <= |h.log| + 1
  {
  }

  lemma NewlyDispatched(log: seq<Sent>, log': seq<Sent>, n: nat, w: Agent)
    requires log <= log' && |log'| <= |log| + 1 && Dispatched(log', n, w)
    ensures Dispatched(log, n, w) ||
      (|log'| == |log| + 1 && log'[|log|].Dispatch? && log'[|log|].attempt == n && log'[|log|].to == w)
  {
    var i :| 0 <= i < |log'| && log'[i].Dispatch? && log'[i].attempt == n && log'[i].to == w;
    if i < |log| { assert log[i] == log'[i]; }
  }

  /** More sends do not concern the worker. */
  lemma DownstreamKept(s: State, head: RunSkill.State, inbox: I.State<Note>)
    requires Downstream(s) && s.inbox.sends <= inbox.sends && inbox.head == s.inbox.head
    ensures Downstream(s.(head := head, inbox := inbox))
  {
    var s' := s.(head := head, inbox := inbox);
    forall i | 0 <= i < Done(s') ensures Handled(s', s'.inbox.sends[i].body) {
      assert Handled(s, s.inbox.sends[i].body);
    }
  }

  /** A send to this worker continues the order of the head's log. */
  lemma SendInOrder(log: seq<Sent>, log': seq<Sent>, sends: seq<I.Message<Note>>, sends': seq<I.Message<Note>>,
    w: Agent)
    requires InOrder(sends) && Causal(log') && (forall n: nat :: Dispatched(log, n, w) ==> Announced(sends, n))
    requires log <= log' && |log'| == |log| + 1 && log'[|log|].to == w
    requires sends <= sends' && |sends'| == |sends| + 1
    requires sends'[|sends|].body == if log'[|log|].Dispatch? then Begin(log'[|log|].attempt)
      else Stop(log'[|log|].attempt)
    ensures InOrder(sends')
  {
    assert log'[..|log|] == log;
    OrderKept(sends, sends');
  }

  lemma DispatchedAnnounced(log: seq<Sent>, log': seq<Sent>, sends: seq<I.Message<Note>>,
    sends': seq<I.Message<Note>>, w: Agent)
    requires forall n: nat :: Dispatched(log, n, w) ==> Announced(sends, n)
    requires log <= log' && |log'| <= |log| + 1 && sends <= sends'
    requires |log'| > |log| && log'[|log|].to == w && log'[|log|].Dispatch? ==>
      |sends'| > |sends| && sends'[|sends|].body == Begin(log'[|log|].attempt)
    ensures forall n: nat :: Dispatched(log', n, w) ==> Announced(sends', n)
  {
    forall n: nat | Dispatched(log', n, w) ensures Announced(sends', n) {
      if Dispatched(log, n, w) {
        MoreAnnounced(sends, sends', n);
      } else {
        NewlyDispatched(log, log', n, w);
        assert sends'[|sends|].body == Begin(n);
      }
    }
  }

  lemma HeadInv(cfg: Config, w: Agent, s: State, a: RunSkill.Action, s': State)
    requires Inv(cfg, w, s) && Apply(cfg, w, s, Head(a)) == Some(s')
    ensures Inv(cfg, w, s')
  {
    var h, h' := s.head, s'.head;
    ReachMore(cfg, h, a, h');
    OneSend(cfg, h, a, h');
    HeadCausal(cfg, h');
    var sends, sends' := s.inbox.sends, s'.inbox.sends;
    if sends' != sends {
      I.StepInv(s.inbox, I.Reserve(I.Message(cfg.agent, sends'[|sends|].body)), s'.inbox);
      SendInOrder(h.log, h'.log, sends, sends', w);
    }
    DispatchedAnnounced(h.log, h'.log, sends, sends', w);
    DownstreamKept(s, s'.head, s'.inbox);
  }

  lemma MoreAnnounced(sends: seq<I.Message<Note>>, sends': seq<I.Message<Note>>, n: nat)
    requires Announced(sends, n) && sends <= sends'
    ensures Announced(sends', n)
  {
    var i :| 0 <= i < |sends| && sends[i].body == Begin(n);
    assert sends'[i] == sends[i];
  }

  lemma OrderKept(sends: seq<I.Message<Note>>, sends': seq<I.Message<Note>>)
    requires InOrder(sends) && sends <= sends' && |sends'| <= |sends| + 1
    requires |sends'| > |sends| && sends'[|sends|].body.Stop? ==> Announced(sends, sends'[|sends|].body.attempt)
    ensures InOrder(sends')
  {
    forall i | 0 <= i < |sends'| && sends'[i].body.Stop? ensures Announced(sends'[..i], sends'[i].body.attempt) {
      if i < |sends| {
        assert sends'[..i] == sends[..i] && sends'[i] == sends[i];
      } else {
        assert sends'[..i] == sends;
      }
    }
  }

  lemma BusInv(cfg: Config, w: Agent, s: State, step: I.Step<Note>, s': State)
    requires Inv(cfg, w, s) && Apply(cfg, w, s, Bus(step)) == Some(s')
    ensures Inv(cfg, w, s')
  {
    I.StepInv(s.inbox, step, s'.inbox);
    OrderKept(s.inbox.sends, s'.inbox.sends);
    DispatchedAnnounced(s.head.log, s.head.log, s.inbox.sends, s'.inbox.sends, w);
    DownstreamKept(s, s'.head, s'.inbox);
  }

  /** When the poller has a cancel in its hands, the dispatch it belongs to is behind it. */
  lemma StopAfterBegin(cfg: Config, w: Agent, s: State)
    requires Inv(cfg, w, s) && s.poller.Holding? && s.poller.note.Stop?
    ensures s.poller.note.attempt in s.created
  {
    var last := s.inbox.head - 1;
    var j :| 0 <= j < |s.inbox.sends[..last]| && s.inbox.sends[..last][j].body == Begin(s.poller.note.attempt);
    assert Handled(s, s.inbox.sends[j].body);
  }

  lemma PollerInv(cfg: Config, w: Agent, s: State, action: Action, s': State)
    requires Inv(cfg, w, s) && (action.Poll? || action.CreateToken? || action.LookUp?)
      && Apply(cfg, w, s, action) == Some(s')
    ensures Inv(cfg, w, s')
  {
    if action.Poll? {
      I.StepInv(s.inbox, I.Take, s'.inbox);
      assert s'.inbox.received[|s'.inbox.received| - 1] == s.inbox.sends[s.inbox.head];
    } else if action.LookUp? {
      StopAfterBegin(cfg, w, s);
    }
    forall i | 0 <= i < Done(s') ensures Handled(s', s'.inbox.sends[i].body) {
      assert i < Done(s) ==> Handled(s, s.inbox.sends[i].body);
    }
  }

  lemma HandlerInv(cfg: Config, w: Agent, s: State, action: Action, s': State)
    requires Inv(cfg, w, s) && (action.SetEvent? || action.Finish? || action.Skip?)
      && Apply(cfg, w, s, action) == Some(s')
    ensures Inv(cfg, w, s')
  {
    forall i | 0 <= i < Done(s') ensures Handled(s', s'.inbox.sends[i].body) {
      assert i < Done(s) ==> Handled(s, s.inbox.sends[i].body);
    }
  }

  lemma {:induction false} ExecInv(cfg: Config, w: Agent, s: State, run: seq<Action>, s': State)
    requires Inv(cfg, w, s) && Exec(cfg, w, s, run) == Some(s')
    ensures Inv(cfg, w, s')
    decreases run
  {
    if run != [] {
      var next := Apply(cfg, w, s, run[0]).value;
      match run[0] {
        case Head(a) => HeadInv(cfg, w, s, a, next);
        case Bus(step) => BusInv(cfg, w, s, step, next);
        case Poll => PollerInv(cfg, w, s, run[0], next);
        case CreateToken => PollerInv(cfg, w, s, run[0], next);
        case LookUp => PollerInv(cfg, w, s, run[0], next);
        case _ => HandlerInv(cfg, w, s, run[0], next);
      }
      ExecInv(cfg, w, next, run[1..], s');
    }
  }

  /**
   * In every run: when the worker turns to a skill_cancel, the token of that request has been
   * created; and once the worker is through with it, the token's event is set or the handler had
   * already finished.
   */
  lemma CancelNeverMissed(cfg: Config, w: Agent, run: seq<Action>, s: State)
    requires Exec(cfg, w, Init(), run) == Some(s)
    ensures s.poller.Holding? && s.poller.note.Stop? ==> s.poller.note.attempt in s.created
    ensures Done(s) <= |s.inbox.received|
    ensures forall i :: 0 <= i < Done(s) && s.inbox.received[i].body.Stop? ==>
      var n := s.inbox.received[i].body.attempt;
      n in s.created && (n in s.cancelled || n in s.finished)
  {
    InitInv(cfg, w);
    ExecInv(cfg, w, Init(), run, s);
    if s.poller.Holding? && s.poller.note.Stop? { StopAfterBegin(cfg, w, s); }
    forall i | 0 <= i < Done(s) ensures Handled(s, s.inbox.received[i].body) {
      assert s.inbox.received[i] == s.inbox.sends[i];
    }
  }
}

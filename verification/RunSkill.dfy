/**
 * One call of run_skill as a protocol: every lock-protected block, every message sent and
 * every thread start is one atomic step, and steps of different threads interleave freely.
 *
 * Request ids are UUIDs, so the id of the n-th attempt of this call is the key Own(n) and
 * the ids of every other call on the same router are Foreign keys.
 */
module RunSkill {
  import opened Wrappers
  import opened Router

  type Agent = nat

  datatype Config = Config(
    agent: Agent,              // config.agent_id, the agent running this call
    maxAttempts: int,
    deliberate: bool,          // both a dialogue and an LLM client were given
    maxCheckIns: int,
    checkInMaxTurns: int,
    replyTimeout: int,         // coordinate_timeout + reply_slack
    checkInTimeout: int)

  datatype Key = Own(attempt: nat) | Foreign(id: nat)

  /** What `handle` and `on_result` look at in a result. */
  datatype Result =
    | Answer(success: bool, again: bool, payload: nat)   // status == "ok", "retryable", the rest
    | TimedOut                                           // the three errors made up on a timeout
    | NoWorkers                                          // nobody reports the capability
  {
    predicate Ok() { Answer? && success }
    predicate Retryable() { TimedOut? || (Answer? && again) }
  }

  datatype Attempt = Attempt(workers: seq<Agent>, coordinator: Agent)

  /** Skill traffic this call puts on the global bus, in the order of the sends. */
  datatype Sent =
    | Dispatch(attempt: nat, to: Agent, coordinate: bool)
    | Cancel(attempt: nat, to: Agent)

  /** A check-in: `resolved`, `turns_used`, whether `conv_id` is bound yet, and the dialogue's waiter. */
  datatype CheckIn = CheckIn(attempt: nat, resolved: bool, turns: nat, bound: bool, waiting: bool)

  /** Where a thread is. `n` is the attempt it works for, `c` the check-in. */
  datatype Thread =
    | Survey(n: nat)                          // attempt(n), before the worker survey
    | Dispatching(n: nat, todo: seq<Agent>)   // the dispatch loop
    | InProcess(n: nat)                       // run_in_process
    | Arm(n: nat)                             // wait_for_reply, before on_key takes the lock
    | Schedule(n: nat, reg: nat)              // on_key, after it released the lock
    | Deliver(n: nat, r: Result)              // the poller, after it popped the callback
    | OnReply(n: nat, r: Result)              // on_reply on its new thread
    | TimeoutHandler(n: nat, reg: nat)        // started by the watcher, before it takes the lock
    | OnTimeout(n: nat, checkInNum: int)
    | OpenCheckIn(c: nat)                     // after timer.start(): compose and ask the opening question
    | BindConv(c: nat)                        // dialogue.start has sent, conv_id not yet assigned
    | Timer(c: nat, due: int)                 // the pending threading.Timer
    | CheckInReply(c: nat)                    // on_checkin_reply, on its new thread
    | Deliberating(c: nat, allow: bool)       // on_checkin_reply, in the call of the model
    | Handle(n: nat, r: Result)
    | Cancelling(n: nat, todo: seq<Agent>)    // the skill_cancel loop

  datatype State = State(
    table: Table<Key, nat, Result>,   // registrations are numbered in the order of on_key calls
    now: int,
    threads: map<nat, Thread>,
    nextThread: nat,                     // next thread
    regs: nat,                        // next registration
    attempts: seq<Attempt>,
    checkIns: seq<CheckIn>,
    waits: nat,                       // WAIT decisions that took effect
    log: seq<Sent>,
    arrived: seq<(nat, Result)>,      // results received or computed in process, with their attempt
    superseded: map<nat, Result>,     // the results that made `handle` retry, with their attempt
    results: seq<Result>)             // calls of on_result

  /** What the environment picks for a step: workers, a computed result, the model's text. */
  datatype Choice = Go | Workers(workers: seq<Agent>, coordinator: Agent) | Outcome(r: Result) | Text(answer: string)

  datatype Action =
    | Run(t: nat, choice: Choice)     // one step of thread t
    | Tick(d: nat)
    | Fire(n: nat)                    // the watcher's scan removes one due deadline and starts its handler
    | Receive(n: nat, r: Result)      // the router's poller processes a skill_result for attempt n
    | AgentMessage(c: nat)            // dialogue.handle gets a message for check-in c
    | Others(table: Table<Key, nat, Result>)   // everything else that uses the same router

  function Init(): State {
    State(Empty(), 0, map[0 := Survey(1)], 1, 0, [], [], 0, [], [], map[], [])
  }

  // ----- the model's answer in a check-in -----

  datatype Decision = Wait | Retry | FollowUp(question: string)

  function Upper(s: string): (u: string)
    ensures |u| == |s|
  {
    seq(|s|, i requires 0 <= i < |s| => if 'a' <= s[i] <= 'z' then s[i] - ' ' else s[i])
  }

  predicate Blank(ch: char) { ch == ' ' || ch == '\n' || ch == '\t' || ch == '\r' }

  function Strip(s: string): string {
    if s != [] && Blank(s[0]) then Strip(s[1..])
    else if s != [] && Blank(s[|s| - 1]) then Strip(s[..|s| - 1])
    else s
  }

  /** _deliberate_or_followup, as a function of the text the model returned. */
  function Decide(text: string, allowFollowUp: bool): Decision {
    var answer := Strip(text);
    var upper := Upper(answer);
    if allowFollowUp && "ASK:" <= upper && Strip(answer[4..]) != [] then FollowUp(Strip(answer[4..]))
    else if "WAIT" <= upper then Wait
    else Retry
  }

  // ----- steps -----

  function Become(s: State, t: nat, th: Thread): State { s.(threads := s.threads[t := th]) }

  function Exit(s: State, t: nat): State { s.(threads := s.threads - {t}) }

  function Spawn(s: State, th: Thread): State {
    s.(threads := s.threads[s.nextThread := th], nextThread := s.nextThread + 1)
  }

  function Report(s: State, t: nat, r: Result): State {
    Exit(s.(results := s.results + [r]), t)
  }

  /** resolve_once by thread t: the first caller goes on as `th`, every later one just ends. */
  function ResolveOnce(s: State, t: nat, c: nat, th: Thread): State
    requires c < |s.checkIns|
  {
    if s.checkIns[c].resolved then Exit(s, t)
    else Become(s.(checkIns := s.checkIns[c := s.checkIns[c].(resolved := true)]), t, th)
  }

  predicate Minted(s: State, n: nat) { 1 <= n <= |s.attempts| }

  /** on_checkin_reply once the model has decided. Before conv_id is bound a follow-up raises and ends the thread. */
  function Decided(s: State, t: nat, c: nat, d: Decision): State
    requires c < |s.checkIns|
  {
    var ci := s.checkIns[c];
    match d
    case FollowUp(_) =>
      Exit(s.(checkIns := s.checkIns[c := ci.(turns := ci.turns + 1, waiting := ci.waiting || ci.bound)]), t)
    case Wait =>
      ResolveOnce(s.(waits := if ci.resolved then s.waits else s.waits + 1), t, c, Arm(ci.attempt))
    case Retry =>
      ResolveOnce(s, t, c, Handle(ci.attempt, TimedOut))
  }

  /** One step of thread t, which is at `th`. None: the thread cannot take a step with this choice. */
  function RunThread(cfg: Config, s: State, t: nat, th: Thread, choice: Choice): Option<State> {
    match th
    case Survey(n) =>
      if !choice.Workers? then None
      else if choice.workers == [] then Some(Report(s, t, NoWorkers))
      else Some(Become(s.(attempts := s.attempts + [Attempt(choice.workers, choice.coordinator)]),
                       t, Dispatching(n, choice.workers)))
    case Dispatching(n, todo) =>
      if !Minted(s, n) then None
      else
        var coordinator := s.attempts[n - 1].coordinator;
        if todo != [] then
          Some(Become(s.(log := s.log + [Dispatch(n, todo[0], todo[0] == coordinator)]), t, Dispatching(n, todo[1..])))
        else if coordinator == cfg.agent then Some(Become(s, t, InProcess(n)))
        else Some(Become(s, t, Arm(n)))
    case InProcess(n) =>
      if choice.Outcome? && choice.r.Answer?
      then Some(Become(s.(arrived := s.arrived + [(n, choice.r)]), t, Handle(n, choice.r)))
      else None
    case Arm(n) =>
      var (table, pending) := OnKeyBlock(s.table, Own(n), s.regs);
      (match pending
       case Some(r) => Some(Become(s.(table := table), t, OnReply(n, r)))
       case None => Some(Become(s.(table := table, regs := s.regs + 1), t, Schedule(n, s.regs))))
    case Schedule(n, reg) =>
      Some(Exit(s.(table := ScheduleBlock(s.table, Own(n), Deadline(s.now + cfg.replyTimeout, reg))), t))
    case Deliver(n, r) =>
      Some(Become(s.(table := CancelBlock(s.table, Own(n))), t, OnReply(n, r)))
    case OnReply(n, r) => Some(Become(s, t, Handle(n, r)))
    case TimeoutHandler(n, reg) =>
      var (table, popped) := TimeoutBlock(s.table, Own(n));
      if popped.Some? then Some(Become(s.(table := table), t, OnTimeout(n, 0)))
      else Some(Exit(s, t))
    case OnTimeout(n, num) =>
      if !cfg.deliberate || num >= cfg.maxCheckIns then Some(Become(s, t, Handle(n, TimedOut)))
      else
        var c := |s.checkIns|;
        Some(Spawn(Become(s.(checkIns := s.checkIns + [CheckIn(n, false, 0, false, false)]), t, OpenCheckIn(c)),
          Timer(c, s.now + cfg.checkInTimeout)))
    case OpenCheckIn(c) =>
      if c >= |s.checkIns| then None
      else
        var ci := s.checkIns[c];
        Some(Become(s.(checkIns := s.checkIns[c := ci.(turns := ci.turns + 1, waiting := true)]), t, BindConv(c)))
    case BindConv(c) =>
      if c >= |s.checkIns| then None
      else Some(Exit(s.(checkIns := s.checkIns[c := s.checkIns[c].(bound := true)]), t))
    case Timer(c, due) =>
      if c >= |s.checkIns| || s.now < due then None
      else Some(ResolveOnce(s, t, c, Handle(s.checkIns[c].attempt, TimedOut)))
    case CheckInReply(c) =>
      if c >= |s.checkIns| then None
      else Some(Become(s, t, Deliberating(c, s.checkIns[c].turns < cfg.checkInMaxTurns)))
    case Deliberating(c, allow) =>
      if c >= |s.checkIns| || !choice.Text? then None
      else Some(Decided(s, t, c, Decide(choice.answer, allow)))
    case Handle(n, r) =>
      if r.Ok() || !r.Retryable() || n >= cfg.maxAttempts then Some(Report(s, t, r))
      else if !Minted(s, n) then None
      else Some(Become(s.(superseded := s.superseded[n := r]), t, Cancelling(n, s.attempts[n - 1].workers)))
    case Cancelling(n, todo) =>
      if todo != [] then Some(Become(s.(log := s.log + [Cancel(n, todo[0])]), t, Cancelling(n, todo[1..])))
      else Some(Become(s, t, Survey(n + 1)))
  }

  /** The other users of the router never touch the keys this call minted. */
  ghost predicate SameOwn(a: Table<Key, nat, Result>, b: Table<Key, nat, Result>) {
    && (forall n: nat :: Own(n) in a.callbacks <==> Own(n) in b.callbacks)
    && (forall n: nat :: Own(n) in a.callbacks ==> Own(n) in b.callbacks && a.callbacks[Own(n)] == b.callbacks[Own(n)])
    && (forall n: nat :: Own(n) in a.deadlines <==> Own(n) in b.deadlines)
    && (forall n: nat :: Own(n) in a.deadlines ==> Own(n) in b.deadlines && a.deadlines[Own(n)] == b.deadlines[Own(n)])
    && (forall n: nat :: QueueOf(a, Own(n)) == QueueOf(b, Own(n)))
  }

  /** The successor of `s` under one action, or None when the action is not enabled. */
  ghost function Apply(cfg: Config, s: State, a: Action): Option<State> {
    match a
    case Run(t, choice) =>
      if t in s.threads then RunThread(cfg, s, t, s.threads[t], choice) else None
    case Tick(d) => Some(s.(now := s.now + d))
    case Fire(n) =>
      if Own(n) in s.table.deadlines && s.table.deadlines[Own(n)].at <= s.now
      then Some(Spawn(s.(table := CancelBlock(s.table, Own(n))),
                      TimeoutHandler(n, s.table.deadlines[Own(n)].handler)))
      else None
    case Receive(n, r) =>
      if !Minted(s, n) || !r.Answer? then None
      else
        var (table, popped) := DeliverBlock(s.table, Own(n), r);
        var s' := s.(table := table, arrived := s.arrived + [(n, r)]);
        if popped.Some? then Some(Spawn(s', Deliver(n, r))) else Some(s')
    case AgentMessage(c) =>
      if c < |s.checkIns| && s.checkIns[c].waiting
      then Some(Spawn(s.(checkIns := s.checkIns[c := s.checkIns[c].(waiting := false)]), CheckInReply(c)))
      else None
    case Others(table) =>
      if SameOwn(s.table, table) then Some(s.(table := table)) else None
  }

  /** The state after a whole run. None as soon as one action is not enabled. */
  ghost function Exec(cfg: Config, s: State, run: seq<Action>): Option<State>
    decreases run
  {
    if run == [] then Some(s)
    else
      var next := Apply(cfg, s, run[0]);
      if next.None? then None else Exec(cfg, next.value, run[1..])
  }

  ghost predicate Reachable(cfg: Config, s: State) {
    exists run :: Exec(cfg, Init(), run) == Some(s)
  }
}

/**
 * head.py `converse`: the loop of chat calls and tool calls. Every thread that may run for a
 * conversation is in the state: the continuations of the loop in `conts`, and one status per tool
 * call for the threads of its `run_skill`. A run is any interleaving of their steps.
 *
 * From `run_skill` this takes what RunSkillTheorems proves: `on_result` comes once, and no
 * attempt is dispatched after it. What the model answers and what a skill returns are arbitrary.
 */
module Converse {
  import opened Wrappers
  import opened Conversations

  datatype ToolUse = ToolUse(id: Id, skill: nat, params: nat)

  /** A message of the transcript. An absent or empty content is None. */
  datatype Said =
    | User(content: nat)
    | Assistant(text: Option<nat>, calls: seq<ToolUse>)
    | Tool(id: Id, result: nat)

  datatype Config = Config(question: nat, maxTurns: int, skills: set<nat>, unknownSkill: nat, emptyText: nat)

  /** How far one tool call has come. */
  datatype Status =
    | Unissued
    | Announced                                          // its tool_call event is out
    | Running(attempts: seq<(Id, nat)>)                  // inside run_skill
    | Answered(attempts: seq<(Id, nat)>, result: nat)    // its tool_result event is out
    | Submitted(attempts: seq<(Id, nat)>, result: nat)   // handed to the joiner

  /** The fields of a _Joiner. */
  datatype Joiner = Joiner(results: map<Id, nat>, remaining: int)

  /** One turn that asked for tool calls; `block` is the history of what its calls have reported. */
  datatype Round = Round(text: Option<nat>, calls: seq<ToolUse>, live: seq<Status>, joiner: Joiner, block: seq<Event>)

  datatype Outcome = Concluded(answer: nat, messages: seq<Said>) | DidNotConclude(messages: seq<Said>)

  /** What a thread of the loop will do next. */
  datatype Cont =
    | DoTurn(index: nat)
    | Issuing(round: nat, k: nat)                                  // in the loop over the calls, at call k
    | Collecting(round: nat, results: map<Id, nat>, k: nat)        // in on_all_results, k messages appended
    | Finishing(outcome: Outcome)

  datatype State = State(
    store: Option<seq<Said>>,     // this conversation's "messages" in the ConversationStore
    rounds: seq<Round>,
    conts: seq<Cont>,
    events: seq<Event>,
    outcomes: seq<Outcome>,       // the calls of on_done
    chats: nat)                   // the calls of llm_client.chat

  datatype Reply = Reply(text: Option<nat>, calls: seq<ToolUse>)

  /** What a thread of one call's run_skill does: dispatch an attempt, call on_result, submit to the joiner. */
  datatype Happening = Dispatched(request: Id, attempt: nat) | Returned(result: nat) | Submit

  datatype Action =
    | Advance(n: nat, reply: Reply)     // the n-th continuation takes a step; `reply` is what the model says if asked
    | OnCall(round: nat, k: nat, what: Happening)

  function Initial(cfg: Config): State {
    State(Some([User(cfg.question)]), [], [DoTurn(0)], [Question(cfg.question)], [], 0)
  }

  function Text(cfg: Config, text: Option<nat>): nat {
    match text case Some(t) => t case None => cfg.emptyText
  }

  function Narrated(text: Option<nat>): seq<Event> {
    match text case Some(t) => [Narration(t)] case None => []
  }

  function Fresh(reply: Reply): Round {
    Round(reply.text, reply.calls, seq(|reply.calls|, _ => Unissued), Joiner(map[], |reply.calls|), [])
  }

  function Drop(conts: seq<Cont>, n: nat): seq<Cont>
    requires n < |conts|
  {
    conts[..n] + conts[n + 1..]
  }

  /** Call k of a round changes its status and reports e. */
  function Report(s: State, r: nat, k: nat, status: Status, e: Event): State
    requires r < |s.rounds| && k < |s.rounds[r].live|
  {
    var round := s.rounds[r];
    s.(rounds := s.rounds[r := round.(live := round.live[k := status], block := round.block + [e])],
       events := s.events + [e])
  }

  function Chat(cfg: Config, s: State, n: nat, reply: Reply, messages: seq<Said>): State
    requires n < |s.conts|
  {
    var said := messages + [Assistant(reply.text, reply.calls)];
    var s1 := s.(store := Some(said), chats := s.chats + 1);
    if reply.calls == [] then
      var answer := Text(cfg, reply.text);
      s1.(events := s.events + [Final(answer)], conts := s.conts[n := Finishing(Concluded(answer, said))])
    else
      s1.(events := s.events + Narrated(reply.text), rounds := s.rounds + [Fresh(reply)],
          conts := s.conts[n := Issuing(|s.rounds|, 0)])
  }

  /** The body of the loop over the calls: announce call k, then launch it. */
  function Issue(cfg: Config, s: State, n: nat, r: nat, k: nat): Option<State>
    requires n < |s.conts|
  {
    if !(r < |s.rounds| && k < |s.rounds[r].live| && k < |s.rounds[r].calls|) then None
    else
      var call := s.rounds[r].calls[k];
      match s.rounds[r].live[k]
      case Unissued => Some(Report(s, r, k, Announced, ToolCall(Some(call.id), call.skill, call.params)))
      case Announced =>
        var s1 := s.(conts := if k + 1 < |s.rounds[r].calls| then s.conts[n := Issuing(r, k + 1)]
          else Drop(s.conts, n));
        if call.skill !in cfg.skills
        then Some(Report(s1, r, k, Answered([], cfg.unknownSkill), ToolResult(Some(call.id), cfg.unknownSkill)))
        else Some(s1.(rounds := s1.rounds[r := s1.rounds[r].(live := s1.rounds[r].live[k := Running([])])]))
      case _ => None
  }

  function Proceed(cfg: Config, s: State, n: nat, reply: Reply): Option<State>
    requires n < |s.conts|
  {
    match s.conts[n]
    case DoTurn(index) =>
      if s.store.None? then None
      else if index >= cfg.maxTurns then Some(s.(conts := s.conts[n := Finishing(DidNotConclude(s.store.value))]))
      else Some(Chat(cfg, s, n, reply, s.store.value))
    case Issuing(r, k) => Issue(cfg, s, n, r, k)
    case Collecting(r, results, k) =>
      if r >= |s.rounds| then None
      else if k >= |s.rounds[r].calls| then Some(s.(conts := s.conts[n := DoTurn(r + 1)]))
      else
        var id := s.rounds[r].calls[k].id;
        if id !in results || s.store.None? then None
        else Some(s.(store := Some(s.store.value + [Tool(id, results[id])]),
          conts := s.conts[n := Collecting(r, results, k + 1)]))
    case Finishing(outcome) => Some(s.(store := None, conts := Drop(s.conts, n), outcomes := s.outcomes + [outcome]))
  }

  function Recorded(joiner: Joiner, id: Id, result: nat): Joiner {
    Joiner(joiner.results[id := result], joiner.remaining - 1)
  }

  /** The results of all calls, by call id, if every one of them is there. */
  function Ordered(calls: seq<ToolUse>, results: map<Id, nat>): Option<map<Id, nat>> {
    if calls == [] then Some(map[])
    else
      var before, id := Ordered(calls[..|calls| - 1], results), calls[|calls| - 1].id;
      if before.None? || id !in results then None else Some(before.value[id := results[id]])
  }

  function Join(s: State, r: nat, k: nat): Option<State>
    requires r < |s.rounds| && k < |s.rounds[r].live| && k < |s.rounds[r].calls| && s.rounds[r].live[k].Answered?
  {
    var round := s.rounds[r];
    var status := Submitted(round.live[k].attempts, round.live[k].result);
    var joiner := Recorded(round.joiner, round.calls[k].id, round.live[k].result);
    var s1 := s.(rounds := s.rounds[r := round.(live := round.live[k := status], joiner := joiner)]);
    if joiner.remaining != 0 then Some(s1)
    else
      var ordered := Ordered(round.calls, joiner.results);
      if ordered.None? then None else Some(s1.(conts := s1.conts + [Collecting(r, ordered.value, 0)]))
  }

  function Happen(s: State, r: nat, k: nat, what: Happening): Option<State> {
    if !(r < |s.rounds| && k < |s.rounds[r].live| && k < |s.rounds[r].calls|) then None
    else
      var status, id := s.rounds[r].live[k], s.rounds[r].calls[k].id;
      match what
      case Dispatched(request, attempt) =>
        if status.Running?
        then Some(Report(s, r, k, Running(status.attempts + [(request, attempt)]),
          Dispatch(Some(id), Some(request), attempt)))
        else None
      case Returned(result) =>
        if status.Running?
        then Some(Report(s, r, k, Answered(status.attempts, result), ToolResult(Some(id), result)))
        else None
      case Submit => if status.Answered? then Join(s, r, k) else None
  }

  /** One step of one thread; None where that thread has no such step (or the code would raise). */
  function Apply(cfg: Config, s: State, a: Action): Option<State> {
    match a
    case Advance(n, reply) => if n < |s.conts| then Proceed(cfg, s, n, reply) else None
    case OnCall(r, k, what) => Happen(s, r, k, what)
  }

  function Exec(cfg: Config, actions: seq<Action>): Option<State> {
    if actions == [] then Some(Initial(cfg))
    else
      match Exec(cfg, actions[..|actions| - 1])
      case None => None
      case Some(s) => Apply(cfg, s, actions[|actions| - 1])
  }

  ghost predicate Reachable(cfg: Config, s: State) {
    exists actions: seq<Action> :: Exec(cfg, actions) == Some(s)
  }

  // ----- who runs -----

  /** Calls whose result the joiner still waits for. */
  function Missing(live: seq<Status>): nat {
    if live == [] then 0 else Missing(live[..|live| - 1]) + (if live[|live| - 1].Submitted? then 0 else 1)
  }

  predicate AllSubmitted(live: seq<Status>) {
    forall k :: 0 <= k < |live| ==> live[k].Submitted?
  }

  /** The statuses while the loop is at call k, or past its end. */
  predicate IssuedTo(live: seq<Status>, k: nat) {
    && (forall j :: 0 <= j < |live| && j < k ==> !live[j].Unissued? && !live[j].Announced?)
    && (k < |live| ==> live[k].Unissued? || live[k].Announced?)
    && (forall j :: k < j < |live| ==> live[j].Unissued?)
  }

  predicate Counted(round: Round) {
    && |round.live| == |round.calls| > 0
    && round.joiner.remaining == Missing(round.live)
    && (forall k :: 0 <= k < |round.live| && round.live[k].Submitted? ==> round.calls[k].id in round.joiner.results)
  }

  predicate Tidy(rounds: seq<Round>) { forall i :: 0 <= i < |rounds| ==> Counted(rounds[i]) }

  predicate Settled(rounds: seq<Round>) { forall i :: 0 <= i < |rounds| ==> AllSubmitted(rounds[i].live) }

  /** Exactly one continuation: a thread of the loop, or the calls still out, or the outcome. */
  predicate Single(s: State) {
    && Tidy(s.rounds) && |s.conts| + |s.outcomes| <= 1
    && if s.conts == [] then
         if s.outcomes == [] then s.rounds != [] && Waiting(s.rounds) && s.store.Some?
         else Settled(s.rounds)
       else Placed(s, s.conts[0])
  }

  predicate Placed(s: State, c: Cont) {
    && s.store.Some?
    && match c
       case DoTurn(index) => index == |s.rounds| && Settled(s.rounds)
       case Issuing(r, k) =>
         && r == |s.rounds| - 1 && Settled(s.rounds[..r])
         && IssuedTo(s.rounds[r].live, k) && k < |s.rounds[r].live|
       case Collecting(r, results, k) =>
         && r == |s.rounds| - 1 && Settled(s.rounds) && k <= |s.rounds[r].calls|
         && Ordered(s.rounds[r].calls, s.rounds[r].joiner.results) == Some(results)
       case Finishing(_) => Settled(s.rounds)
  }

  /** The last turn's calls are all out and some result is missing. */
  predicate Waiting(rounds: seq<Round>)
    requires rounds != []
  {
    var r := |rounds| - 1;
    Settled(rounds[..r]) && IssuedTo(rounds[r].live, |rounds[r].live|) && !AllSubmitted(rounds[r].live)
  }

  lemma {:induction false} MissingUpdate(live: seq<Status>, k: nat, status: Status)
    requires k < |live|
    ensures Missing(live[k := status]) ==
      Missing(live) - (if live[k].Submitted? then 0 else 1) + (if status.Submitted? then 0 else 1)
  {
    var last := |live| - 1;
    if k == last {
      assert live[k := status][..last] == live[..last];
    } else {
      assert live[k := status][..last] == live[..last][k := status];
      MissingUpdate(live[..last], k, status);
    }
  }

  lemma {:induction false} NoneMissing(live: seq<Status>)
    ensures Missing(live) == 0 <==> AllSubmitted(live)
  {
    if live != [] {
      NoneMissing(live[..|live| - 1]);
      assert AllSubmitted(live) ==> AllSubmitted(live[..|live| - 1]);
      assert AllSubmitted(live[..|live| - 1]) && live[|live| - 1].Submitted? ==> AllSubmitted(live);
    }
  }

  lemma {:induction false} MissingAll(n: nat)
    ensures Missing(seq(n, _ => Unissued)) == n
  {
    if n > 0 {
      MissingAll(n - 1);
      assert seq(n, _ => Unissued)[..n - 1] == seq(n - 1, _ => Unissued);
    }
  }

  lemma {:induction false} OrderedWhenAll(calls: seq<ToolUse>, results: map<Id, nat>)
    requires forall k :: 0 <= k < |calls| ==> calls[k].id in results
    ensures Ordered(calls, results).Some?
    ensures forall k :: 0 <= k < |calls| ==> calls[k].id in Ordered(calls, results).value
    ensures forall id :: id in Ordered(calls, results).value ==>
      id in results && Ordered(calls, results).value[id] == results[id]
  {
    if calls != [] { OrderedWhenAll(calls[..|calls| - 1], results); }
  }

  lemma SettledFront(rounds: seq<Round>, n: nat)
    requires n <= |rounds| && Settled(rounds[..n])
    ensures forall i :: 0 <= i < n ==> AllSubmitted(rounds[i].live)
  {
    forall i | 0 <= i < n ensures AllSubmitted(rounds[i].live) {
      assert rounds[..n][i] == rounds[i];
    }
  }

  /** A call that is out belongs to the last turn, and no thread of the loop is past issuing. */
  lemma StillOut(s: State, r: nat, k: nat)
    requires Single(s) && r < |s.rounds| && k < |s.rounds[r].live| && !s.rounds[r].live[k].Submitted?
    ensures r == |s.rounds| - 1 && s.outcomes == [] && s.store.Some?
    ensures s.conts == [] || (s.conts[0].Issuing? && s.conts[0].round == r)
  {
    SettledFront(s.rounds, |s.rounds| - 1);
  }

  lemma ReportCounted(round: Round, k: nat, status: Status, e: Event)
    requires Counted(round) && k < |round.live| && !round.live[k].Submitted? && !status.Submitted?
    ensures Counted(round.(live := round.live[k := status], block := round.block + [e]))
    ensures Counted(round.(live := round.live[k := status]))
    ensures !AllSubmitted(round.live[k := status])
  {
    MissingUpdate(round.live, k, status);
    assert !round.live[k := status][k].Submitted?;
  }

  /** The threads of run_skill keep the loop as it is. */
  lemma ReportSingle(s: State, r: nat, k: nat, status: Status, e: Event)
    requires Single(s) && r < |s.rounds| && k < |s.rounds[r].live| && s.rounds[r].live[k].Running?
    requires status.Running? || status.Answered?
    ensures Single(Report(s, r, k, status, e))
  {
    StillOut(s, r, k);
    ReportCounted(s.rounds[r], k, status, e);
    var s' := Report(s, r, k, status, e);
    assert s'.rounds[..r] == s.rounds[..r];
  }

  lemma JoinSingle(s: State, r: nat, k: nat)
    requires Single(s) && r < |s.rounds| && k < |s.rounds[r].live| && s.rounds[r].live[k].Answered?
    requires |s.rounds[r].live| == |s.rounds[r].calls|
    ensures Join(s, r, k).Some? && Single(Join(s, r, k).value)
  {
    StillOut(s, r, k);
    var round := s.rounds[r];
    var status := Submitted(round.live[k].attempts, round.live[k].result);
    var round' := round.(live := round.live[k := status],
      joiner := Recorded(round.joiner, round.calls[k].id, round.live[k].result));
    MissingUpdate(round.live, k, status);
    NoneMissing(round'.live);
    assert Counted(round');
    if round'.joiner.remaining == 0 {
      OrderedWhenAll(round.calls, round'.joiner.results);
      NothingToIssue(s, r, k);
    }
    assert s.rounds[r := round'][..r] == s.rounds[..r];
  }

  /** If call k is the only one missing, the loop over the calls has ended. */
  lemma NothingToIssue(s: State, r: nat, k: nat)
    requires Single(s) && r < |s.rounds| && k < |s.rounds[r].live| && s.rounds[r].live[k].Answered?
    requires Missing(s.rounds[r].live) == 1
    ensures s.conts == []
  {
    StillOut(s, r, k);
    var live, done := s.rounds[r].live, Submitted([], 0);
    MissingUpdate(live, k, done);
    NoneMissing(live[k := done]);
    forall j | 0 <= j < |live| && j != k ensures live[j].Submitted? {
      assert live[k := done][j] == live[j];
    }
  }

  lemma IssueSingle(cfg: Config, s: State, r: nat, k: nat)
    requires Single(s) && s.conts == [Issuing(r, k)]
    ensures Issue(cfg, s, 0, r, k).Some? && Single(Issue(cfg, s, 0, r, k).value)
  {
    var round, s' := s.rounds[r], Issue(cfg, s, 0, r, k).value;
    assert s'.rounds[..r] == s.rounds[..r];
    assert s'.rounds[r].live == round.live[k := s'.rounds[r].live[k]];
    ReportCounted(round, k, s'.rounds[r].live[k],
      ToolCall(Some(round.calls[k].id), round.calls[k].skill, round.calls[k].params));
    ReportCounted(round, k, s'.rounds[r].live[k], ToolResult(Some(round.calls[k].id), cfg.unknownSkill));
  }

  lemma ProceedSingle(cfg: Config, s: State, reply: Reply)
    requires Single(s) && s.conts != []
    ensures Proceed(cfg, s, 0, reply).Some? && Single(Proceed(cfg, s, 0, reply).value)
  {
    match s.conts[0]
    case DoTurn(index) =>
      if index < cfg.maxTurns && reply.calls != [] {
        MissingAll(|reply.calls|);
        assert (s.rounds + [Fresh(reply)])[..|s.rounds|] == s.rounds;
      }
    case Issuing(r, k) => IssueSingle(cfg, s, r, k);
    case Collecting(r, results, k) => OrderedWhenAll(s.rounds[r].calls, s.rounds[r].joiner.results);
    case Finishing(_) =>
  }

  lemma HappenSingle(s: State, r: nat, k: nat, what: Happening)
    requires Single(s) && Happen(s, r, k, what).Some?
    ensures Single(Happen(s, r, k, what).value)
  {
    var status, id := s.rounds[r].live[k], s.rounds[r].calls[k].id;
    match what
    case Dispatched(request, attempt) =>
      ReportSingle(s, r, k, Running(status.attempts + [(request, attempt)]),
        Dispatch(Some(id), Some(request), attempt));
    case Returned(result) => ReportSingle(s, r, k, Answered(status.attempts, result), ToolResult(Some(id), result));
    case Submit => JoinSingle(s, r, k);
  }

  lemma {:induction false} AlwaysSingle(cfg: Config, actions: seq<Action>)
    requires Exec(cfg, actions).Some?
    ensures Single(Exec(cfg, actions).value)
  {
    if actions != [] {
      AlwaysSingle(cfg, actions[..|actions| - 1]);
      var s := Exec(cfg, actions[..|actions| - 1]).value;
      match actions[|actions| - 1]
      case Advance(n, reply) => ProceedSingle(cfg, s, reply);
      case OnCall(r, k, what) => HappenSingle(s, r, k, what);
    }
  }

  predicate Enabled(cfg: Config, s: State, a: Action) { Apply(cfg, s, a).Some? }

  /** `on_done` is called at most once, and once it has been, no thread of the conversation has a step left. */
  lemma DoneOnce(cfg: Config, s: State)
    requires Reachable(cfg, s)
    ensures |s.outcomes| <= 1
    ensures s.outcomes != [] ==> forall a :: !Enabled(cfg, s, a)
  {
    var actions :| Exec(cfg, actions) == Some(s);
    AlwaysSingle(cfg, actions);
    if s.outcomes != [] {
      forall a ensures !Enabled(cfg, s, a) {
        if a.OnCall? && Enabled(cfg, s, a) { StillOut(s, a.round, a.k); }
      }
    }
  }

  /** Until then some thread has a step: no wait is lost and nothing raises. */
  lemma NeverStuck(cfg: Config, s: State, reply: Reply, result: nat)
    requires Reachable(cfg, s) && s.outcomes == []
    ensures Enabled(cfg, s, Advance(0, reply)) || exists r, k, what :: Enabled(cfg, s, OnCall(r, k, what))
  {
    var actions :| Exec(cfg, actions) == Some(s);
    AlwaysSingle(cfg, actions);
    if s.conts != [] {
      ProceedSingle(cfg, s, reply);
    } else {
      var r := |s.rounds| - 1;
      var k :| 0 <= k < |s.rounds[r].live| && !s.rounds[r].live[k].Submitted?;
      if s.rounds[r].live[k].Answered? {
        JoinSingle(s, r, k);
        assert Enabled(cfg, s, OnCall(r, k, Submit));
      } else {
        assert Enabled(cfg, s, OnCall(r, k, Returned(result)));
      }
    }
  }
}

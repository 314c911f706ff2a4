/**
 * dialogue.py: one conversation between the agent that started it and the agent it talks to.
 * Every step of the threads that `handle` starts, every lock-protected block and every delivery
 * is one step; delivery is exactly once (Inbox).
 */
module Dialogue {
  import opened Wrappers

  datatype Side = Initiator | Responder

  function Other(side: Side): Side { if side.Initiator? then Responder else Initiator }

  /** A line of a transcript. */
  datatype Line = User(content: nat) | Assistant(content: nat)

  datatype Thread =
    | Opening(m: nat)                                        // start or reply, before it registers the waiter
    | Sending(m: nat)                                        // registered, before the send
    | Waiter(m: nat)                                         // on_reply
    | Incoming(at: Side, m: nat)                             // _respond, before it reads the session
    | Thinking(at: Side, history: seq<Line>)                 // in the call of the model
    | Answering(at: Side, history: seq<Line>, answer: nat)   // before it writes the session back
    | Replying(at: Side, answer: nat)                        // before the send

  datatype State = State(
    waiting: set<Side>,                  // who has this conversation in _waiting
    sessions: map<Side, seq<Line>>,      // _sessions of either agent for this conversation
    inbox: map<Side, seq<nat>>,
    threads: seq<Thread>,
    heard: seq<Line>)                    // history: what the initiator has asked and been told

  /** What a thread's model or callback comes up with. */
  datatype Choice = Say(m: nat) | End

  datatype Action = Run(i: nat, choice: Choice) | Deliver(to: Side) | Forget(who: Side)

  function Started(m: nat): State {
    State({}, map[], map[Initiator := [], Responder := []], [Opening(m)], [])
  }

  function InboxOf(s: State, side: Side): seq<nat> { if side in s.inbox then s.inbox[side] else [] }

  function SessionOf(s: State, side: Side): seq<Line> { if side in s.sessions then s.sessions[side] else [] }

  function Sent(s: State, to: Side, m: nat): State { s.(inbox := s.inbox[to := InboxOf(s, to) + [m]]) }

  function Without(threads: seq<Thread>, i: nat): seq<Thread>
    requires i < |threads|
  {
    threads[..i] + threads[i + 1..]
  }

  /** One step of thread i. */
  function Next(s: State, i: nat, choice: Choice): Option<State>
    requires i < |s.threads|
  {
    match s.threads[i]
    case Opening(m) => Some(s.(waiting := s.waiting + {Initiator}, threads := s.threads[i := Sending(m)]))
    case Sending(m) =>
      Some(Sent(s, Responder, m).(threads := Without(s.threads, i), heard := s.heard + [User(m)]))
    case Waiter(_) =>
      (match choice
       case Say(m) => Some(s.(threads := s.threads[i := Opening(m)]))
       case End => Some(s.(threads := Without(s.threads, i))))
    case Incoming(at, m) =>
      Some(s.(sessions := s.sessions[at := SessionOf(s, at)],
              threads := s.threads[i := Thinking(at, SessionOf(s, at) + [User(m)])]))
    case Thinking(at, history) =>
      if choice.End? then None
      else Some(s.(threads := s.threads[i := Answering(at, history + [Assistant(choice.m)], choice.m)]))
    case Answering(at, history, answer) =>
      Some(s.(sessions := s.sessions[at := history], threads := s.threads[i := Replying(at, answer)]))
    case Replying(at, answer) => Some(Sent(s, Other(at), answer).(threads := Without(s.threads, i)))
  }

  /** `handle`: a reply to the waiter, if there is one, else a message to respond to. */
  function Handled(s: State, to: Side): State
    requires InboxOf(s, to) != []
  {
    var m, rest := InboxOf(s, to)[0], s.inbox[to := InboxOf(s, to)[1..]];
    if to in s.waiting then s.(inbox := rest, waiting := s.waiting - {to}, threads := s.threads + [Waiter(m)],
      heard := s.heard + [Assistant(m)])
    else s.(inbox := rest, threads := s.threads + [Incoming(to, m)])
  }

  function Apply(s: State, a: Action): Option<State> {
    match a
    case Run(i, choice) => if i < |s.threads| then Next(s, i, choice) else None
    case Deliver(to) => if InboxOf(s, to) == [] then None else Some(Handled(s, to))
    case Forget(who) => Some(s.(waiting := s.waiting - {who}, sessions := s.sessions - {who}))
  }

  function Exec(s: State, run: seq<Action>): Option<State> {
    if run == [] then Some(s)
    else
      match Exec(s, run[..|run| - 1])
      case None => None
      case Some(t) => Apply(t, run[|run| - 1])
  }

  // ----- turn-taking, as long as nobody forgets -----

  /** User and assistant alternate, the user first. */
  predicate Alternates(lines: seq<Line>) {
    forall i :: 0 <= i < |lines| ==> (lines[i].User? <==> i % 2 == 0)
  }

  predicate Answered(lines: seq<Line>) { Alternates(lines) && |lines| % 2 == 0 }

  /** How many messages are on their way and threads are running. */
  function Outstanding(s: State): nat {
    |InboxOf(s, Initiator)| + |InboxOf(s, Responder)| + |s.threads|
  }

  /** Where the one outstanding thing is, and what that means for the waiter and the transcripts. */
  predicate Polite(s: State) {
    && Outstanding(s) <= 1
    && s.waiting <= {Initiator}
    && Initiator !in s.sessions
    && if s.threads != [] then ThreadPolite(s, s.threads[0])
       else if InboxOf(s, Responder) != [] then
         && Initiator in s.waiting && s.heard == SessionOf(s, Responder) + [User(InboxOf(s, Responder)[0])]
         && Answered(SessionOf(s, Responder))
       else if InboxOf(s, Initiator) != [] then
         && Initiator in s.waiting && Answered(SessionOf(s, Responder))
         && SessionOf(s, Responder) == s.heard + [Assistant(InboxOf(s, Initiator)[0])]
       else Initiator !in s.waiting && s.heard == SessionOf(s, Responder) && Answered(s.heard)
  }

  predicate ThreadPolite(s: State, th: Thread) {
    match th
    case Opening(_) => Initiator !in s.waiting && s.heard == SessionOf(s, Responder) && Answered(s.heard)
    case Sending(_) => Initiator in s.waiting && s.heard == SessionOf(s, Responder) && Answered(s.heard)
    case Waiter(_) => Initiator !in s.waiting && s.heard == SessionOf(s, Responder) && Answered(s.heard)
    case Incoming(at, m) =>
      && at.Responder? && Initiator in s.waiting && Answered(SessionOf(s, Responder))
      && s.heard == SessionOf(s, Responder) + [User(m)]
    case Thinking(at, history) =>
      && at.Responder? && Initiator in s.waiting && s.heard == history && Alternates(history) && |history| % 2 == 1
    case Answering(at, history, answer) =>
      && at.Responder? && Initiator in s.waiting && history == s.heard + [Assistant(answer)] && Answered(history)
    case Replying(at, answer) =>
      && at.Responder? && Initiator in s.waiting && Answered(SessionOf(s, Responder))
      && SessionOf(s, Responder) == s.heard + [Assistant(answer)]
  }

  lemma StepPolite(s: State, a: Action)
    requires Polite(s) && !a.Forget? && Apply(s, a).Some?
    ensures Polite(Apply(s, a).value)
  {
    match a
    case Run(i, choice) => RunPolite(s, choice);
    case Deliver(to) => DeliverPolite(s, to);
  }

  predicate Mine(th: Thread) { th.Opening? || th.Sending? || th.Waiter? }

  lemma RunPolite(s: State, choice: Choice)
    requires Polite(s) && s.threads != [] && Next(s, 0, choice).Some?
    ensures Polite(Next(s, 0, choice).value)
  {
    if Mine(s.threads[0]) { InitiatorPolite(s, choice); }
    else if s.threads[0].Incoming? || s.threads[0].Thinking? { ThinkingPolite(s, choice); }
    else { AnsweringPolite(s, choice); }
  }

  lemma InitiatorPolite(s: State, choice: Choice)
    requires Polite(s) && s.threads != [] && Mine(s.threads[0]) && Next(s, 0, choice).Some?
    ensures Polite(Next(s, 0, choice).value)
  {
    assert |s.threads| == 1;
  }

  lemma ThinkingPolite(s: State, choice: Choice)
    requires Polite(s) && s.threads != [] && (s.threads[0].Incoming? || s.threads[0].Thinking?)
      && Next(s, 0, choice).Some?
    ensures Polite(Next(s, 0, choice).value)
  {
    assert |s.threads| == 1;
  }

  lemma AnsweringPolite(s: State, choice: Choice)
    requires Polite(s) && s.threads != [] && (s.threads[0].Answering? || s.threads[0].Replying?)
      && Next(s, 0, choice).Some?
    ensures Polite(Next(s, 0, choice).value)
  {
    assert |s.threads| == 1;
  }

  lemma DeliverPolite(s: State, to: Side)
    requires Polite(s) && InboxOf(s, to) != []
    ensures Polite(Handled(s, to))
  {
    assert |InboxOf(s, to)| == 1 && s.threads == [];
  }

  lemma {:induction false} RunsArePolite(s: State, run: seq<Action>)
    requires Polite(s) && (forall i :: 0 <= i < |run| ==> !run[i].Forget?) && Exec(s, run).Some?
    ensures Polite(Exec(s, run).value)
  {
    if run != [] {
      RunsArePolite(s, run[..|run| - 1]);
      StepPolite(Exec(s, run[..|run| - 1]).value, run[|run| - 1]);
    }
  }

  lemma PoliteMeans(s: State)
    requires Polite(s)
    ensures InboxOf(s, Initiator) != [] ==> Initiator in s.waiting
    ensures forall i :: 0 <= i < |s.threads| ==> !(s.threads[i].Incoming? && s.threads[i].at.Initiator?)
    ensures Outstanding(s) == 0 || (s.threads != [] && s.threads[0].Waiter?) ==>
      SessionOf(s, Responder) == s.heard && Answered(s.heard)
  {
  }

  lemma StartedPolite(m: nat)
    ensures Polite(Started(m))
  {
  }

  /**
   * Turn-taking: as long as nobody forgets the conversation, at most one message or computation is
   * outstanding, a reply always finds its waiter - so the initiator never answers itself -
   * and when the initiator is to speak, the responder's transcript is exactly the questions and
   * answers exchanged, in turn, although it is read and written back without holding the lock.
   */
  lemma TurnTaking(m: nat, run: seq<Action>, s: State)
    requires Exec(Started(m), run) == Some(s) && forall i :: 0 <= i < |run| ==> !run[i].Forget?
    ensures Outstanding(s) <= 1
    ensures InboxOf(s, Initiator) != [] ==> Initiator in s.waiting
    ensures Initiator !in s.sessions && forall i :: 0 <= i < |s.threads| ==>
      !(s.threads[i].Incoming? && s.threads[i].at.Initiator?)
    ensures Outstanding(s) == 0 || (s.threads != [] && s.threads[0].Waiter?) ==>
      SessionOf(s, Responder) == s.heard && Answered(s.heard)
  {
    StartedPolite(m);
    RunsArePolite(Started(m), run);
    PoliteMeans(s);
  }

  // ----- forgetting -----

  /** The initiator has nobody waiting, and yet something is outstanding that is not its own callback. */
  predicate Runaway(s: State) {
    && s.waiting == {} && Outstanding(s) == 1
    && (s.threads != [] ==> !s.threads[0].Opening? && !s.threads[0].Waiter?)
  }

  lemma RunawayDeliver(s: State, to: Side)
    requires Runaway(s) && InboxOf(s, to) != []
    ensures Runaway(Handled(s, to))
  {
    match to
    case Initiator => assert |InboxOf(s, Initiator)| == 1 && s.threads == [];
    case Responder => assert |InboxOf(s, Responder)| == 1 && s.threads == [];
  }

  lemma RunawayStep(s: State, a: Action)
    requires Runaway(s) && Apply(s, a).Some?
    ensures Runaway(Apply(s, a).value)
  {
    match a
    case Run(i, choice) => assert |s.threads| == 1;
    case Deliver(to) => RunawayDeliver(s, to);
    case Forget(_) =>
  }

  /** Once it has run away, a conversation never ends: whatever happens, some message or reply is outstanding. */
  lemma {:induction false} NeverEnds(s: State, run: seq<Action>)
    requires Runaway(s) && Exec(s, run).Some?
    ensures Runaway(Exec(s, run).value)
  {
    if run != [] {
      NeverEnds(s, run[..|run| - 1]);
      RunawayStep(Exec(s, run[..|run| - 1]).value, run[|run| - 1]);
    }
  }

  /** A continuation that ends the conversation. */
  ghost predicate CanEnd(s: State) {
    exists run: seq<Action> :: Ends(s, run)
  }

  predicate Ends(s: State, run: seq<Action>) {
    Exec(s, run).Some? && Outstanding(Exec(s, run).value) == 0
  }

  /**
   * The initiator may forget a conversation if and only if it has no question out or about to
   * go out. Otherwise the answer finds no waiter, is answered as if it were a new message, and
   * the two agents answer each other without end.
   */
  lemma ForgetSafeIff(s: State)
    requires Polite(s)
    ensures CanEnd(Apply(s, Forget(Initiator)).value) <==> Initiator !in s.waiting
  {
    var s' := Apply(s, Forget(Initiator)).value;
    if Initiator in s.waiting {
      assert Runaway(s');
      forall run: seq<Action> ensures !Ends(s', run) {
        if Exec(s', run).Some? { NeverEnds(s', run); }
      }
    } else {
      assert s' == s;
      PoliteCanEnd(s);
    }
  }

  /** A question is out, the initiator forgets, and from there no continuation ends the conversation. */
  lemma ForgetRunsAway()
    ensures var s := Exec(Started(0), [Run(0, End), Run(0, End)]);
      s.Some? && !CanEnd(Apply(s.value, Forget(Initiator)).value)
  {
    var run := [Run(0, End), Run(0, End)];
    assert run[..1][..0] == [];
    assert Exec(Started(0), run[..1]) == Next(Started(0), 0, End);
    StartedPolite(0);
    RunsArePolite(Started(0), run);
    ForgetSafeIff(Exec(Started(0), run).value);
  }

  lemma CanEndLater(s: State, a: Action)
    requires Apply(s, a).Some? && CanEnd(Apply(s, a).value)
    ensures CanEnd(s)
  {
    var rest :| Ends(Apply(s, a).value, rest);
    ExecCons(s, a, rest);
    assert Ends(s, [a] + rest);
  }

  lemma {:induction false} ExecCons(s: State, a: Action, rest: seq<Action>)
    requires Apply(s, a).Some?
    ensures Exec(s, [a] + rest) == Exec(Apply(s, a).value, rest)
  {
    if rest == [] {
      assert [a] + rest == [a] && [a][..0] == [];
    } else {
      ExecCons(s, a, rest[..|rest| - 1]);
      assert ([a] + rest)[..|rest|] == [a] + rest[..|rest| - 1];
    }
  }

  /** Steps left until the initiator has its answer. */
  function Rank(s: State): nat {
    if s.threads != [] then
      match s.threads[0]
      case Opening(_) => 9
      case Sending(_) => 8
      case Incoming(_, _) => 6
      case Thinking(_, _) => 5
      case Answering(_, _, _) => 4
      case Replying(_, _) => 3
      case Waiter(_) => 1
    else if InboxOf(s, Responder) != [] then 7
    else if InboxOf(s, Initiator) != [] then 2
    else 0
  }

  /** Any conversation can still end. */
  lemma {:induction false} PoliteCanEnd(s: State)
    requires Polite(s)
    ensures CanEnd(s)
    decreases Rank(s)
  {
    if Rank(s) == 0 {
      assert Ends(s, []);
    } else {
      var a := if s.threads == [] then Deliver(if InboxOf(s, Responder) != [] then Responder else Initiator)
               else if s.threads[0].Thinking? then Run(0, Say(0)) else Run(0, End);
      StepPolite(s, a);
      RankFalls(s, a);
      PoliteCanEnd(Apply(s, a).value);
      CanEndLater(s, a);
    }
  }

  lemma RankFalls(s: State, a: Action)
    requires Polite(s) && Apply(s, a).Some? && !a.Forget?
    requires a.Run? && s.threads[a.i].Waiter? ==> a.choice.End?
    ensures Rank(Apply(s, a).value) < Rank(s)
  {
    match a
    case Run(i, choice) => assert |s.threads| == 1;
    case Deliver(Initiator) => assert |InboxOf(s, Initiator)| == 1 && s.threads == [];
    case Deliver(Responder) => assert |InboxOf(s, Responder)| == 1 && s.threads == [];
  }
}

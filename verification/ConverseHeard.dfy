/**
 * Nothing in a conversation is made up: the assistant messages are the model's replies in the
 * order of the chat calls, and every attempt and result of a tool call is one its run_skill reported.
 */
module ConverseHeard {
  import opened Wrappers
  import opened Conversations
  import opened Converse
  import opened ConverseTold

  /** The replies of the model, one for each chat call of the run. */
  function Heard(cfg: Config, actions: seq<Action>): seq<Reply>
    requires Exec(cfg, actions).Some?
  {
    if actions == [] then []
    else
      var front, last := actions[..|actions| - 1], actions[|actions| - 1];
      Heard(cfg, front) +
        if last.Advance? && Exec(cfg, actions).value.chats > Exec(cfg, front).value.chats then [last.reply] else []
  }

  /** The assistant messages of a transcript. */
  function Assistants(messages: seq<Said>): seq<Reply> {
    if messages == [] then []
    else
      var last := messages[|messages| - 1];
      Assistants(messages[..|messages| - 1]) + if last.Assistant? then [Reply(last.text, last.calls)] else []
  }

  /** Wherever the transcript is at the moment, its assistant messages are these. */
  predicate Speaks(s: State, heard: seq<Reply>) {
    && |heard| == s.chats
    && (s.store.Some? ==> Assistants(s.store.value) == heard)
    && (s.outcomes != [] ==> Assistants(s.outcomes[0].messages) == heard)
  }

  lemma OneMore(messages: seq<Said>, m: Said)
    ensures Assistants(messages + [m]) ==
      Assistants(messages) + if m.Assistant? then [Reply(m.text, m.calls)] else []
  {
    assert (messages + [m])[..|messages|] == messages;
  }

  lemma ProceedSpeaks(cfg: Config, s: State, reply: Reply, heard: seq<Reply>)
    requires Single(s) && Spoken(cfg, s) && s.conts != [] && Proceed(cfg, s, 0, reply).Some? && Speaks(s, heard)
    ensures var s' := Proceed(cfg, s, 0, reply).value;
      Speaks(s', if s'.chats > s.chats then heard + [reply] else heard)
  {
    match s.conts[0]
    case DoTurn(index) =>
      if index < cfg.maxTurns { OneMore(s.store.value, Assistant(reply.text, reply.calls)); }
    case Issuing(_, _) =>
    case Collecting(r, results, k) =>
      if k < |s.rounds[r].calls| {
        var id := s.rounds[r].calls[k].id;
        OneMore(s.store.value, Tool(id, results[id]));
      }
    case Finishing(_) =>
  }

  lemma HappenSpeaks(s: State, r: nat, k: nat, what: Happening, heard: seq<Reply>)
    requires Happen(s, r, k, what).Some? && Speaks(s, heard)
    ensures Speaks(Happen(s, r, k, what).value, heard) && Happen(s, r, k, what).value.chats == s.chats
  {
  }

  lemma {:induction false} AlwaysSpeaks(cfg: Config, actions: seq<Action>)
    requires Exec(cfg, actions).Some?
    ensures Speaks(Exec(cfg, actions).value, Heard(cfg, actions))
  {
    if actions != [] {
      var front := actions[..|actions| - 1];
      AlwaysSpeaks(cfg, front);
      Always(cfg, front);
      var s := Exec(cfg, front).value;
      match actions[|actions| - 1]
      case Advance(n, reply) => ProceedSpeaks(cfg, s, reply, Heard(cfg, front));
      case OnCall(r, k, what) => HappenSpeaks(s, r, k, what, Heard(cfg, front));
    }
  }

  // ----- the tool calls -----

  /** The attempts that the run_skill of call k in round r reported. */
  function Dispatches(actions: seq<Action>, r: nat, k: nat): seq<(Id, nat)> {
    if actions == [] then []
    else
      Dispatches(actions[..|actions| - 1], r, k) + DispatchIn(actions[|actions| - 1], r, k)
  }

  function DispatchIn(a: Action, r: nat, k: nat): seq<(Id, nat)> {
    match a
    case OnCall(q, j, Dispatched(request, attempt)) => if q == r && j == k then [(request, attempt)] else []
    case _ => []
  }

  predicate Returns(actions: seq<Action>, r: nat, k: nat, result: nat) {
    exists i :: 0 <= i < |actions| && actions[i] == OnCall(r, k, Returned(result))
  }

  function AttemptsAt(s: State, r: nat, k: nat): seq<(Id, nat)> {
    if r < |s.rounds| && k < |s.rounds[r].live| && !s.rounds[r].live[k].Unissued? && !s.rounds[r].live[k].Announced?
    then s.rounds[r].live[k].attempts else []
  }

  function ResultAt(s: State, r: nat, k: nat): Option<nat> {
    if r < |s.rounds| && k < |s.rounds[r].live| && (s.rounds[r].live[k].Answered? || s.rounds[r].live[k].Submitted?)
    then Some(s.rounds[r].live[k].result) else None
  }

  /** The result of call k in round r is one that was returned for it, or says that there is no such skill. */
  predicate Given(cfg: Config, actions: seq<Action>, s: State, r: nat, k: nat, result: nat) {
    Returns(actions, r, k, result) || (result == cfg.unknownSkill && Unknown(cfg, s, r, k))
  }

  /** Call k of round r is done, with the attempts that were dispatched for it and a result that came back for it. */
  predicate Settles(cfg: Config, actions: seq<Action>, s: State, r: nat, k: nat)
    requires r < |s.rounds| && k < |s.rounds[r].live|
  {
    match s.rounds[r].live[k]
    case Submitted(attempts, result) =>
      attempts == Dispatches(actions, r, k) && Given(cfg, actions, s, r, k, result)
    case _ => false
  }

  predicate GenuineAt(cfg: Config, actions: seq<Action>, s: State, r: nat, k: nat) {
    && AttemptsAt(s, r, k) == Dispatches(actions, r, k)
    && (ResultAt(s, r, k).Some? ==> Given(cfg, actions, s, r, k, ResultAt(s, r, k).value))
  }

  lemma ReturnsMore(actions: seq<Action>, a: Action, r: nat, k: nat, result: nat)
    ensures Returns(actions, r, k, result) || a == OnCall(r, k, Returned(result)) ==>
      Returns(actions + [a], r, k, result)
  {
    if Returns(actions, r, k, result) {
      var i :| 0 <= i < |actions| && actions[i] == OnCall(r, k, Returned(result));
      assert (actions + [a])[i] == actions[i];
    } else if a == OnCall(r, k, Returned(result)) {
      assert (actions + [a])[|actions|] == a;
    }
  }

  predicate Unknown(cfg: Config, s: State, r: nat, k: nat) {
    r < |s.rounds| && k < |s.rounds[r].calls| && s.rounds[r].calls[k].skill !in cfg.skills
  }

  /** One step adds the attempt it dispatches, and no result but the one it returns. */
  predicate Genuinely(cfg: Config, s: State, a: Action, s': State, r: nat, k: nat) {
    && AttemptsAt(s', r, k) == AttemptsAt(s, r, k) + DispatchIn(a, r, k)
    && (Unknown(cfg, s, r, k) ==> Unknown(cfg, s', r, k))
    && (ResultAt(s', r, k) == ResultAt(s, r, k)
        || (ResultAt(s', r, k) == Some(cfg.unknownSkill) && Unknown(cfg, s', r, k))
        || (ResultAt(s', r, k).Some? && a == OnCall(r, k, Returned(ResultAt(s', r, k).value))))
  }

  lemma IssueGenuinely(cfg: Config, s: State, reply: Reply, q: nat, j: nat, r: nat, k: nat)
    requires Single(s) && s.conts == [Issuing(q, j)] && Issue(cfg, s, 0, q, j).Some?
    ensures Genuinely(cfg, s, Advance(0, reply), Issue(cfg, s, 0, q, j).value, r, k)
  {
  }

  lemma ChatGenuinely(cfg: Config, s: State, reply: Reply, messages: seq<Said>, r: nat, k: nat)
    requires s.conts != []
    ensures Genuinely(cfg, s, Advance(0, reply), Chat(cfg, s, 0, reply, messages), r, k)
  {
    if reply.calls != [] && r == |s.rounds| {
      assert Chat(cfg, s, 0, reply, messages).rounds[r] == Fresh(reply);
    }
  }

  /** A step of the loop that changes no round. */
  lemma QuietGenuinely(cfg: Config, s: State, reply: Reply, s': State, r: nat, k: nat)
    requires s'.rounds == s.rounds
    ensures Genuinely(cfg, s, Advance(0, reply), s', r, k)
  {
  }

  lemma ProceedGenuinely(cfg: Config, s: State, reply: Reply, r: nat, k: nat)
    requires Single(s) && s.conts != [] && Proceed(cfg, s, 0, reply).Some?
    ensures Genuinely(cfg, s, Advance(0, reply), Proceed(cfg, s, 0, reply).value, r, k)
  {
    var s' := Proceed(cfg, s, 0, reply).value;
    match s.conts[0]
    case DoTurn(index) =>
      if index < cfg.maxTurns { ChatGenuinely(cfg, s, reply, s.store.value, r, k); }
      else { QuietGenuinely(cfg, s, reply, s', r, k); }
    case Issuing(q, j) => IssueGenuinely(cfg, s, reply, q, j, r, k);
    case Collecting(_, _, _) => QuietGenuinely(cfg, s, reply, s', r, k);
    case Finishing(_) => QuietGenuinely(cfg, s, reply, s', r, k);
  }

  lemma HappenGenuinely(cfg: Config, s: State, q: nat, j: nat, what: Happening, r: nat, k: nat)
    requires Happen(s, q, j, what).Some?
    ensures Genuinely(cfg, s, OnCall(q, j, what), Happen(s, q, j, what).value, r, k)
  {
  }

  lemma StepGenuine(cfg: Config, actions: seq<Action>, s: State, a: Action, s': State, r: nat, k: nat)
    requires GenuineAt(cfg, actions, s, r, k) && Genuinely(cfg, s, a, s', r, k)
    ensures GenuineAt(cfg, actions + [a], s', r, k)
  {
    assert (actions + [a])[..|actions|] == actions;
    if ResultAt(s', r, k).Some? { ReturnsMore(actions, a, r, k, ResultAt(s', r, k).value); }
  }

  lemma ApplyGenuinely(cfg: Config, s: State, a: Action, r: nat, k: nat)
    requires Single(s) && Apply(cfg, s, a).Some?
    ensures Genuinely(cfg, s, a, Apply(cfg, s, a).value, r, k)
  {
    match a
    case Advance(_, reply) => ProceedGenuinely(cfg, s, reply, r, k);
    case OnCall(q, j, what) => HappenGenuinely(cfg, s, q, j, what, r, k);
  }

  lemma {:induction false} AlwaysGenuine(cfg: Config, actions: seq<Action>, r: nat, k: nat)
    requires Exec(cfg, actions).Some?
    ensures GenuineAt(cfg, actions, Exec(cfg, actions).value, r, k)
  {
    if actions != [] {
      var front, last := actions[..|actions| - 1], actions[|actions| - 1];
      AlwaysGenuine(cfg, front, r, k);
      AlwaysSingle(cfg, front);
      var s := Exec(cfg, front).value;
      ApplyGenuinely(cfg, s, last, r, k);
      StepGenuine(cfg, front, s, last, Exec(cfg, actions).value, r, k);
      assert front + [last] == actions;
    }
  }

  /**
   * The transcript that goes to on_done has exactly the model's replies as its assistant messages,
   * in order, and its answer is the text of the last. Each call's attempts are those that its
   * run_skill dispatched, in order, and its result is one that came back for it.
   */
  lemma NothingIsMadeUp(cfg: Config, actions: seq<Action>, s: State)
    requires Exec(cfg, actions) == Some(s) && s.outcomes != []
    ensures Assistants(s.outcomes[0].messages) == Heard(cfg, actions) && |Heard(cfg, actions)| == s.chats
    ensures match s.outcomes[0]
      case Concluded(answer, _) =>
        var heard := Heard(cfg, actions);
        heard != [] && heard[|heard| - 1].calls == [] && IsAnswer(cfg, heard[|heard| - 1].text, answer)
      case DidNotConclude(_) => true
    ensures forall r: nat, k: nat :: r < |s.rounds| && k < |s.rounds[r].live| ==> Settles(cfg, actions, s, r, k)
  {
    DoneIsFinished(cfg, s);
    AlwaysSpeaks(cfg, actions);
    forall r: nat, k: nat | r < |s.rounds| && k < |s.rounds[r].live| ensures Settles(cfg, actions, s, r, k) {
      AlwaysGenuine(cfg, actions, r, k);
    }
    if s.outcomes[0].Concluded? {
      AnswerIsLastSaid(cfg, s);
    }
  }
}

/** An AgentDialogue: the waiters and transcripts of one agent, by conversation. */
module DialogueObjects {
  import opened Wrappers
  import opened Dialogue

  type Conv = nat

  class AgentDialogue {
    var waiting: set<Conv>
    var sessions: map<Conv, seq<Line>>
    var outbox: seq<(Conv, nat)>         // what it has sent, in order

    constructor ()
      ensures waiting == {} && sessions == map[] && outbox == []
    {
      waiting, sessions, outbox := {}, map[], [];
    }

    /** The part of a conversation's state that belongs to this agent, which is on `side` in that conversation. */
    predicate Shows(c: Conv, side: Side, s: State)
      reads this
    {
      && (c in waiting <==> side in s.waiting)
      && (c in sessions <==> side in s.sessions)
      && (c in sessions ==> side in s.sessions && sessions[c] == s.sessions[side])
    }

    /** Every other conversation is as it was. */
    twostate predicate Only(c: Conv)
      reads this
    {
      forall d :: d != c ==>
        && (d in waiting <==> d in old(waiting))
        && (d in sessions <==> d in old(sessions))
        && (d in sessions ==> sessions[d] == old(sessions)[d])
    }

    /** start and reply: the waiter first, then the message. */
    method Ask(c: Conv, message: nat, ghost s: State)
      requires Shows(c, Initiator, s) && s.threads == [Opening(message)]
      modifies this
      ensures Only(c) && outbox == old(outbox) + [(c, message)]
      ensures Then(Then(Some(s), End), End).Some? && Shows(c, Initiator, Then(Then(Some(s), End), End).value)
    {
      waiting := waiting + {c};
      outbox := outbox + [(c, message)];
    }

    /** handle: true if a waiter was popped, false if the message is to be responded to. */
    method Handle(c: Conv, message: nat, ghost side: Side, ghost s: State) returns (reply: bool)
      requires Shows(c, side, s) && InboxOf(s, side) != [] && InboxOf(s, side)[0] == message
      modifies this
      ensures Only(c) && outbox == old(outbox) && Shows(c, side, Handled(s, side))
      ensures Handled(s, side).threads == s.threads + [if reply then Waiter(message) else Incoming(side, message)]
    {
      reply := c in waiting;
      waiting := waiting - {c};
    }

    /** _respond, with the answer the model gives: the transcript is read, extended and written back. */
    method Respond(c: Conv, content: nat, answer: nat, ghost side: Side, ghost s: State)
      requires Shows(c, side, s) && s.threads == [Incoming(side, content)]
      modifies this
      ensures Only(c) && outbox == old(outbox) + [(c, answer)]
      ensures Responding(s, answer).Some? && Shows(c, side, Responding(s, answer).value)
    {
      if c !in sessions {
        sessions := sessions[c := []];
      }
      var history := sessions[c] + [User(content)];
      history := history + [Assistant(answer)];
      sessions := sessions[c := history];
      outbox := outbox + [(c, answer)];
    }

    method Drop(c: Conv, ghost side: Side, ghost s: State)
      requires Shows(c, side, s)
      modifies this
      ensures Only(c) && outbox == old(outbox) && Shows(c, side, Apply(s, Forget(side)).value)
    {
      waiting := waiting - {c};
      sessions := sessions - {c};
    }
  }

  function Then(s: Option<State>, choice: Choice): Option<State> {
    if s.Some? && s.value.threads != [] then Next(s.value, 0, choice) else None
  }

  /** The four steps of one _respond without a step of anyone else in between. */
  function Responding(s: State, answer: nat): Option<State> {
    Then(Then(Then(Then(Some(s), End), Say(answer)), End), End)
  }
}

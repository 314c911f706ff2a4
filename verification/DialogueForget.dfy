/**
 * dialogue.py `forget` on the responding side: it drops the transcript of a conversation. The
 * conversation goes on and can still end, but the responder has forgotten what was said - unless
 * it was just thinking about its answer, when it puts back the whole transcript.
 */
module DialogueForget {
  import opened Wrappers
  import opened Dialogue

  /** The responder's transcript and histories, with the lost lines put back in front. */
  function Restored(s: State, lost: seq<Line>): State {
    s.(sessions := s.sessions[Responder := lost + SessionOf(s, Responder)],
       threads := seq(|s.threads|, i requires 0 <= i < |s.threads| => RestoredThread(s.threads[i], lost)))
  }

  function RestoredThread(th: Thread, lost: seq<Line>): Thread {
    match th
    case Thinking(Responder, history) => Thinking(Responder, lost + history)
    case Answering(Responder, history, answer) => Answering(Responder, lost + history, answer)
    case _ => th
  }

  /** What a forget by the responder loses for good. */
  function Lost(s: State): seq<Line> {
    if s.threads != [] && (s.threads[0].Thinking? || s.threads[0].Answering?) then []
    else SessionOf(s, Responder)
  }

  /** The initiator is to speak, or has ended the conversation. */
  predicate AtRest(s: State) { Outstanding(s) == 0 || (s.threads != [] && s.threads[0].Waiter?) }

  lemma ForgetRestored(s: State)
    requires Polite(s)
    ensures Polite(Restored(Apply(s, Forget(Responder)).value, Lost(s)))
  {
    var s', lost := Apply(s, Forget(Responder)).value, Lost(s);
    assert s'.waiting == s.waiting;
    assert lost + [] == lost;
    if s.threads != [] && (s.threads[0].Thinking? || s.threads[0].Answering?) {
      assert [] + s.threads[0].history == s.threads[0].history;
    }
  }

  /** What a step does, it does whether or not the lost lines are there. */
  predicate SameNext(s: State, lost: seq<Line>, choice: Choice)
    requires s.threads != []
  {
    match Next(s, 0, choice)
    case None => Next(Restored(s, lost), 0, choice).None?
    case Some(s') => Next(Restored(s, lost), 0, choice) == Some(Restored(s', lost))
  }

  lemma MineRestored(s: State, lost: seq<Line>, choice: Choice)
    requires |s.threads| == 1 && Mine(s.threads[0])
    ensures SameNext(s, lost, choice)
  {
    if Next(s, 0, choice).Some? {
      var t, s' := Next(Restored(s, lost), 0, choice).value, Next(s, 0, choice).value;
      assert t.threads == Restored(s', lost).threads && t.sessions == Restored(s', lost).sessions;
    }
  }

  lemma IncomingRestored(s: State, lost: seq<Line>, choice: Choice)
    requires |s.threads| == 1 && s.threads[0].Incoming?
    ensures SameNext(s, lost, choice)
  {
    var t, s' := Next(Restored(s, lost), 0, choice).value, Next(s, 0, choice).value;
    var m := s.threads[0].m;
    if s.threads[0].at.Responder? {
      assert (lost + SessionOf(s, Responder)) + [User(m)] == lost + (SessionOf(s, Responder) + [User(m)]);
    }
    assert t.threads == Restored(s', lost).threads;
    assert t.sessions == Restored(s', lost).sessions;
  }

  lemma ThinkingRestored(s: State, lost: seq<Line>, choice: Choice)
    requires |s.threads| == 1 && s.threads[0].Thinking?
    ensures SameNext(s, lost, choice)
  {
    if choice.Say? {
      var t, s' := Next(Restored(s, lost), 0, choice).value, Next(s, 0, choice).value;
      var history := s.threads[0].history;
      assert (lost + history) + [Assistant(choice.m)] == lost + (history + [Assistant(choice.m)]);
      assert t.threads == Restored(s', lost).threads && t.sessions == Restored(s', lost).sessions;
    }
  }

  lemma AnsweringRestored(s: State, lost: seq<Line>, choice: Choice)
    requires |s.threads| == 1 && (s.threads[0].Answering? || s.threads[0].Replying?)
    ensures SameNext(s, lost, choice)
  {
    var t, s' := Next(Restored(s, lost), 0, choice).value, Next(s, 0, choice).value;
    assert t.threads == Restored(s', lost).threads;
    assert t.sessions == Restored(s', lost).sessions;
  }

  lemma HandledRestored(s: State, lost: seq<Line>, to: Side)
    requires InboxOf(s, to) != []
    ensures InboxOf(Restored(s, lost), to) == InboxOf(s, to)
    ensures Handled(Restored(s, lost), to) == Restored(Handled(s, to), lost)
  {
    var t, s' := Handled(Restored(s, lost), to), Handled(s, to);
    assert t.threads == Restored(s', lost).threads && t.sessions == Restored(s', lost).sessions;
  }

  lemma StepRestored(s: State, lost: seq<Line>, a: Action)
    requires |s.threads| <= 1 && !a.Forget? && Apply(s, a).Some?
    ensures Apply(Restored(s, lost), a) == Some(Restored(Apply(s, a).value, lost))
  {
    match a
    case Deliver(to) => HandledRestored(s, lost, to);
    case Run(i, choice) =>
      var th := s.threads[0];
      if Mine(th) { MineRestored(s, lost, choice); }
      else if th.Incoming? { IncomingRestored(s, lost, choice); }
      else if th.Thinking? { ThinkingRestored(s, lost, choice); }
      else { AnsweringRestored(s, lost, choice); }
  }

  predicate NoForget(run: seq<Action>) { forall i :: 0 <= i < |run| ==> !run[i].Forget? }

  lemma {:induction false} RunRestored(s: State, lost: seq<Line>, run: seq<Action>)
    requires Polite(Restored(s, lost)) && NoForget(run) && Exec(s, run).Some?
    ensures Polite(Restored(Exec(s, run).value, lost))
  {
    if run != [] {
      RunRestored(s, lost, run[..|run| - 1]);
      var t, a := Exec(s, run[..|run| - 1]).value, run[|run| - 1];
      assert |t.threads| == |Restored(t, lost).threads|;
      StepRestored(t, lost, a);
      StepPolite(Restored(t, lost), a);
    }
  }

  /** The next step on the way to the end. */
  function Onward(s: State): Action {
    if s.threads == [] then Deliver(if InboxOf(s, Responder) != [] then Responder else Initiator)
    else if s.threads[0].Thinking? then Run(0, Say(0))
    else Run(0, End)
  }

  lemma {:induction false} RestoredCanEnd(s: State, lost: seq<Line>)
    requires Polite(Restored(s, lost))
    ensures CanEnd(s)
    decreases Rank(Restored(s, lost))
  {
    assert |s.threads| == |Restored(s, lost).threads|;
    if Rank(Restored(s, lost)) == 0 {
      assert Ends(s, []);
    } else {
      var a := Onward(s);
      OnwardPossible(s, lost);
      StepRestored(s, lost, a);
      StepPolite(Restored(s, lost), a);
      RankFalls(Restored(s, lost), a);
      RestoredCanEnd(Apply(s, a).value, lost);
      CanEndLater(s, a);
    }
  }

  lemma OnwardPossible(s: State, lost: seq<Line>)
    requires Polite(Restored(s, lost)) && Rank(Restored(s, lost)) > 0
    ensures Apply(s, Onward(s)).Some?
  {
    assert |s.threads| == |Restored(s, lost).threads|;
  }

  /**
   * After the responder has forgotten the conversation, in every run without another forget: there is
   * still at most one thing outstanding and the conversation can still end. Whenever the initiator
   * is to speak, the exchange is what was lost followed by the responder's transcript - so the
   * transcript is the whole exchange if and only if nothing was lost.
   */
  lemma ResponderForgets(s: State, run: seq<Action>, s': State)
    requires Polite(s) && NoForget(run) && Exec(Apply(s, Forget(Responder)).value, run) == Some(s')
    ensures Outstanding(s') <= 1 && CanEnd(s')
    ensures AtRest(s') ==> s'.heard == Lost(s) + SessionOf(s', Responder)
    ensures AtRest(s') ==> (SessionOf(s', Responder) == s'.heard <==> Lost(s) == [])
  {
    ForgetRestored(s);
    RunRestored(Apply(s, Forget(Responder)).value, Lost(s), run);
    RestoredCanEnd(s', Lost(s));
    RestMeans(s', Lost(s));
  }

  lemma RestMeans(s: State, lost: seq<Line>)
    requires Polite(Restored(s, lost))
    ensures Outstanding(s) <= 1
    ensures AtRest(s) ==> s.heard == lost + SessionOf(s, Responder)
  {
    var t := Restored(s, lost);
    assert |s.threads| == |t.threads| && Outstanding(t) == Outstanding(s);
    assert SessionOf(t, Responder) == lost + SessionOf(s, Responder);
  }

  /** One question answered, then the responder forgets: the transcript is empty, the exchange is not. */
  lemma ForgottenExchange(m: nat, answer: nat)
    ensures var s := State({}, map[Responder := [User(m), Assistant(answer)]], map[Initiator := [], Responder := []],
                           [Waiter(answer)], [User(m), Assistant(answer)]);
      var s' := Apply(s, Forget(Responder)).value;
      Polite(s) && AtRest(s') && SessionOf(s', Responder) == [] && s'.heard == [User(m), Assistant(answer)]
  {
  }
}

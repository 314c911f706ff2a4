/** Nothing in a conversation is made up: what it holds is what was said, word by word, in that order. */
module DialogueWords {
  import opened Wrappers
  import opened Dialogue

  function Contents(lines: seq<Line>): seq<nat> {
    seq(|lines|, i requires 0 <= i < |lines| => lines[i].content)
  }

  /** What has been said but is not yet in the exchange. */
  function OnItsWay(s: State): seq<nat> {
    if s.threads != [] then
      match s.threads[0]
      case Opening(m) => [m]
      case Sending(m) => [m]
      case Answering(_, _, answer) => [answer]
      case Replying(_, answer) => [answer]
      case _ => []
    else InboxOf(s, Initiator)
  }

  /** What a model or callback says in this step. */
  function SaidIn(s: State, a: Action): seq<nat> {
    match a
    case Run(i, Say(m)) => if i < |s.threads| && (s.threads[i].Waiter? || s.threads[i].Thinking?) then [m] else []
    case _ => []
  }

  /** Everything said in the course of a run. */
  function Said(s: State, run: seq<Action>): seq<nat>
    requires Exec(s, run).Some?
  {
    if run == [] then []
    else
      var front := run[..|run| - 1];
      Said(s, front) + SaidIn(Exec(s, front).value, run[|run| - 1])
  }

  function Words(s: State): seq<nat> { Contents(s.heard) + OnItsWay(s) }

  lemma MineSays(s: State, choice: Choice)
    requires Polite(s) && s.threads != [] && Mine(s.threads[0]) && Next(s, 0, choice).Some?
    ensures Words(Next(s, 0, choice).value) == Words(s) + SaidIn(s, Run(0, choice))
  {
    assert |s.threads| == 1;
  }

  lemma TheirsSays(s: State, choice: Choice)
    requires Polite(s) && s.threads != [] && !Mine(s.threads[0]) && Next(s, 0, choice).Some?
    ensures Words(Next(s, 0, choice).value) == Words(s) + SaidIn(s, Run(0, choice))
  {
    assert |s.threads| == 1;
  }

  lemma DeliverSays(s: State, to: Side)
    requires Polite(s) && InboxOf(s, to) != []
    ensures Words(Handled(s, to)) == Words(s)
  {
    assert |InboxOf(s, to)| == 1 && s.threads == [] && InboxOf(s, Other(to)) == [];
  }

  lemma StepSays(s: State, a: Action)
    requires Polite(s) && !a.Forget? && Apply(s, a).Some?
    ensures Words(Apply(s, a).value) == Words(s) + SaidIn(s, a)
  {
    match a
    case Run(i, choice) => if Mine(s.threads[0]) { MineSays(s, choice); } else { TheirsSays(s, choice); }
    case Deliver(to) => DeliverSays(s, to);
  }

  lemma {:induction false} RunSays(s: State, run: seq<Action>)
    requires Polite(s) && Exec(s, run).Some? && forall i :: 0 <= i < |run| ==> !run[i].Forget?
    ensures Words(Exec(s, run).value) == Words(s) + Said(s, run)
  {
    if run != [] {
      var front := run[..|run| - 1];
      RunSays(s, front);
      RunsArePolite(s, front);
      StepSays(Exec(s, front).value, run[|run| - 1]);
    }
  }

  /** The exchange, and what is on its way into it, are the opening words and then everything said, in order. */
  lemma EveryWordIsSaid(m: nat, run: seq<Action>, s: State)
    requires Exec(Started(m), run) == Some(s) && forall i :: 0 <= i < |run| ==> !run[i].Forget?
    ensures Contents(s.heard) + OnItsWay(s) == [m] + Said(Started(m), run)
  {
    StartedPolite(m);
    RunSays(Started(m), run);
    assert Words(Started(m)) == [m];
  }
}

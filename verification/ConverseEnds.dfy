/** A conversation can always be brought to its end, wherever it is: by an answer, or by the limit of turns. */
module ConverseEnds {
  import opened Wrappers
  import opened Conversations
  import opened Converse

  function StatusRank(status: Status): nat {
    match status
    case Unissued => 4
    case Announced => 3
    case Running(_) => 2
    case Answered(_, _) => 1
    case Submitted(_, _) => 0
  }

  /** Steps the calls of a turn have still to take. */
  function ToDo(live: seq<Status>): nat {
    if live == [] then 0 else ToDo(live[..|live| - 1]) + StatusRank(live[|live| - 1])
  }

  lemma {:induction false} ToDoUpdate(live: seq<Status>, k: nat, status: Status)
    requires k < |live|
    ensures ToDo(live[k := status]) == ToDo(live) - StatusRank(live[k]) + StatusRank(status)
  {
    var last := |live| - 1;
    if k == last {
      assert live[k := status][..last] == live[..last];
    } else {
      assert live[k := status][..last] == live[..last][k := status];
      ToDoUpdate(live[..last], k, status);
    }
  }

  /** An upper bound of the steps to the end, if the model's next reply is an answer. */
  function Rank(s: State): int {
    var calls := if s.rounds == [] then 0 else |s.rounds[|s.rounds| - 1].calls|;
    var todo := if s.rounds == [] then 0 else ToDo(s.rounds[|s.rounds| - 1].live);
    if s.conts == [] then todo + calls + 4
    else match s.conts[0]
      case DoTurn(_) => 2
      case Finishing(_) => 1
      case Collecting(_, _, k) => calls - k + 3
      case Issuing(_, _) => todo + calls + 4
  }

  predicate Nearer(s: State, s': State) { s'.outcomes != [] || 0 <= Rank(s') < Rank(s) }

  lemma IssueNearer(cfg: Config, s: State, r: nat, k: nat)
    requires Single(s) && s.conts == [Issuing(r, k)]
    ensures Issue(cfg, s, 0, r, k).Some? && Nearer(s, Issue(cfg, s, 0, r, k).value)
  {
    var s' := Issue(cfg, s, 0, r, k).value;
    assert s'.rounds[r].live == s.rounds[r].live[k := s'.rounds[r].live[k]];
    ToDoUpdate(s.rounds[r].live, k, s'.rounds[r].live[k]);
  }

  lemma ProceedNearer(cfg: Config, s: State)
    requires Single(s) && s.conts != []
    ensures Proceed(cfg, s, 0, Reply(None, [])).Some? && Nearer(s, Proceed(cfg, s, 0, Reply(None, [])).value)
  {
    ProceedSingle(cfg, s, Reply(None, []));
    if s.conts[0].Issuing? { IssueNearer(cfg, s, s.conts[0].round, s.conts[0].k); }
  }

  lemma ReturnNearer(s: State, r: nat, k: nat)
    requires Single(s) && s.conts == [] && r == |s.rounds| - 1 && k < |s.rounds[r].live| && s.rounds[r].live[k].Running?
    ensures Happen(s, r, k, Returned(0)).Some? && Nearer(s, Happen(s, r, k, Returned(0)).value)
  {
    var s' := Happen(s, r, k, Returned(0)).value;
    ToDoUpdate(s.rounds[r].live, k, s'.rounds[r].live[k]);
  }

  lemma SubmitNearer(s: State, r: nat, k: nat)
    requires Single(s) && s.conts == [] && r == |s.rounds| - 1 && k < |s.rounds[r].live|
    requires s.rounds[r].live[k].Answered?
    ensures Happen(s, r, k, Submit).Some? && Nearer(s, Happen(s, r, k, Submit).value)
  {
    JoinSingle(s, r, k);
    var s' := Join(s, r, k).value;
    ToDoUpdate(s.rounds[r].live, k, s'.rounds[r].live[k]);
  }

  lemma StepNearer(cfg: Config, s: State) returns (a: Action)
    requires Single(s) && s.outcomes == []
    ensures Apply(cfg, s, a).Some? && Nearer(s, Apply(cfg, s, a).value)
  {
    if s.conts != [] {
      ProceedNearer(cfg, s);
      a := Advance(0, Reply(None, []));
    } else {
      var r := |s.rounds| - 1;
      var k :| 0 <= k < |s.rounds[r].live| && !s.rounds[r].live[k].Submitted?;
      if s.rounds[r].live[k].Answered? {
        SubmitNearer(s, r, k);
        a := OnCall(r, k, Submit);
      } else {
        ReturnNearer(s, r, k);
        a := OnCall(r, k, Returned(0));
      }
    }
  }

  lemma OneNearer(cfg: Config, actions: seq<Action>, s: State) returns (a: Action, s': State)
    requires Exec(cfg, actions) == Some(s) && s.outcomes == []
    ensures Exec(cfg, actions + [a]) == Some(s') && Nearer(s, s')
  {
    AlwaysSingle(cfg, actions);
    a := StepNearer(cfg, s);
    assert (actions + [a])[..|actions|] == actions;
    s' := Apply(cfg, s, a).value;
  }

  predicate Ended(cfg: Config, actions: seq<Action>) {
    Exec(cfg, actions).Some? && |Exec(cfg, actions).value.outcomes| == 1
  }

  lemma DoneIsEnded(cfg: Config, actions: seq<Action>, s: State)
    requires Exec(cfg, actions) == Some(s) && s.outcomes != []
    ensures Ended(cfg, actions)
  {
    AlwaysSingle(cfg, actions);
  }

  /** From every state of every run there is a way to on_done. */
  lemma {:induction false} CanEnd(cfg: Config, actions: seq<Action>, s: State) returns (whole: seq<Action>)
    requires Exec(cfg, actions) == Some(s)
    ensures actions <= whole && Ended(cfg, whole)
    decreases if s.outcomes == [] then 1 else 0, Rank(s)
  {
    if s.outcomes != [] {
      whole := actions;
      DoneIsEnded(cfg, actions, s);
    } else {
      var a, s' := OneNearer(cfg, actions, s);
      whole := CanEnd(cfg, actions + [a], s');
    }
  }

  /** In particular there are conversations that end. */
  lemma EndsFromTheStart(cfg: Config) returns (actions: seq<Action>)
    ensures Ended(cfg, actions)
  {
    actions := CanEnd(cfg, [], Initial(cfg));
  }
}

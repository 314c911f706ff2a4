/** The objects `converse` keeps its state in: one _Joiner per turn, and the ConversationStore. */
module ConverseObjects {
  import opened Wrappers
  import opened Conversations
  import C = Converse
  import Told = ConverseTold

  /** Every call's id, one occurrence per call. */
  function Ids(calls: seq<C.ToolUse>): multiset<Id> {
    if calls == [] then multiset{} else Ids(calls[..|calls| - 1]) + multiset{calls[|calls| - 1].id}
  }

  lemma {:induction false} IdsCount(calls: seq<C.ToolUse>)
    ensures |Ids(calls)| == |calls|
    ensures forall k :: 0 <= k < |calls| ==> calls[k].id in Ids(calls)
  {
    if calls != [] {
      IdsCount(calls[..|calls| - 1]);
      assert forall k :: 0 <= k < |calls| - 1 ==> calls[..|calls| - 1][k] == calls[k];
    }
  }

  class Joiner {
    const calls: seq<C.ToolUse>
    var results: map<Id, nat>
    var remaining: int
    ghost var missing: multiset<Id>   // the submissions still to come

    ghost predicate Valid()
      reads this
    {
      && remaining == |missing|
      && forall k :: 0 <= k < |calls| ==> calls[k].id in results || calls[k].id in missing
    }

    function State(): C.Joiner
      reads this
    {
      C.Joiner(results, remaining)
    }

    constructor (calls: seq<C.ToolUse>)
      ensures Valid() && this.calls == calls && missing == Ids(calls)
      ensures State() == C.Joiner(map[], |calls|)
    {
      IdsCount(calls);
      this.calls, results, remaining, missing := calls, map[], |calls|, Ids(calls);
    }

    /** The dictionary of all results, built call by call. */
    method InOrder() returns (all: map<Id, nat>)
      requires forall k :: 0 <= k < |calls| ==> calls[k].id in results
      ensures Some(all) == C.Ordered(calls, results)
    {
      all := map[];
      var i := 0;
      while i < |calls|
        invariant 0 <= i <= |calls|
        invariant Some(all) == C.Ordered(calls[..i], results)
      {
        assert calls[..i + 1][..i] == calls[..i];
        all := all[calls[i].id := results[calls[i].id]];
        i := i + 1;
      }
      assert calls[..|calls|] == calls;
    }

    /** The last submission - and no other - gets the results of all calls, in the order of the calls. */
    method Submit(id: Id, result: nat) returns (ordered: Option<map<Id, nat>>)
      requires Valid() && id in missing
      modifies this
      ensures Valid() && missing == old(missing) - multiset{id}
      ensures State() == C.Recorded(old(State()), id, result)
      ensures ordered.Some? <==> missing == multiset{}
      ensures ordered.Some? ==> ordered == C.Ordered(calls, results)
    {
      results := results[id := result];
      remaining := remaining - 1;
      missing := missing - multiset{id};
      if remaining != 0 { return None; }
      assert missing == multiset{};
      assert forall k :: 0 <= k < |calls| ==> calls[k].id !in missing;
      var all := InOrder();
      ordered := Some(all);
    }
  }

  /** Transcripts by conversation; a conversation that is not tracked is not in the map. */
  class ConversationStore {
    var state: map<Id, seq<C.Said>>

    constructor ()
      ensures state == map[]
    {
      state := map[];
    }

    method Create(c: Id, initial: seq<C.Said>)
      modifies this
      ensures state == old(state)[c := initial]
    {
      state := state[c := initial];
    }

    method Get(c: Id) returns (messages: Option<seq<C.Said>>)
      ensures messages == if c in state then Some(state[c]) else None
    {
      messages := if c in state then Some(state[c]) else None;
    }

    method Append(c: Id, value: C.Said)
      modifies this
      ensures state == if c in old(state) then old(state)[c := old(state)[c] + [value]] else old(state)
    {
      if c in state {
        state := state[c := state[c] + [value]];
      }
    }

    method Forget(c: Id)
      modifies this
      ensures state == old(state) - {c}
    {
      state := state - {c};
    }

    /** The end of on_all_results: one tool message per call, in the order of the calls. */
    method Collect(c: Id, round: C.Round, ordered: map<Id, nat>)
      requires C.Ordered(round.calls, round.joiner.results) == Some(ordered)
      modifies this
      ensures c in old(state) ==> state == old(state)[c := old(state)[c] + Told.Tools(round, |round.calls|)]
      ensures c !in old(state) ==> state == old(state)
    {
      ghost var results := round.joiner.results;
      OrderedHas(round.calls, results);
      C.OrderedWhenAll(round.calls, results);
      var k := 0;
      while k < |round.calls|
        invariant 0 <= k <= |round.calls|
        invariant state.Keys == old(state).Keys && forall d :: d in state && d != c ==> state[d] == old(state)[d]
        invariant c in state ==> state[c] == old(state)[c] + Told.Tools(round, k)
      {
        var id := round.calls[k].id;
        Append(c, C.Tool(id, ordered[id]));
        k := k + 1;
      }
    }
  }

  lemma {:induction false} OrderedHas(calls: seq<C.ToolUse>, results: map<Id, nat>)
    requires C.Ordered(calls, results).Some?
    ensures forall k :: 0 <= k < |calls| ==> calls[k].id in results
  {
    if calls != [] { OrderedHas(calls[..|calls| - 1], results); }
  }
}

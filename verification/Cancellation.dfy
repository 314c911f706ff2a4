/** CancellationToken and CancellationRegistry. Callbacks are identified by numbers. */
module Cancellation {
  import opened Wrappers

  // ----- one token under concurrent on_cancel and cancel calls -----

  /**
   * `event` and `callbacks` are the token's fields. `toStart` holds the threads that a caller has
   * decided to start but not started yet, `started` those it has; `registered` every on_cancel call.
   */
  datatype Token = Token(
    event: bool,
    callbacks: seq<nat>,
    toStart: multiset<nat>,
    started: multiset<nat>,
    registered: multiset<nat>)

  datatype Step =
    | OnCancel(fn: nat)   // the locked block of on_cancel
    | Cancel              // the locked block of cancel
    | Start(fn: nat)      // either of them starts one thread

  const New := Token(false, [], multiset{}, multiset{}, multiset{})

  function Apply(s: Token, step: Step): Option<Token> {
    match step
    case OnCancel(fn) =>
      var s1 := s.(registered := s.registered + multiset{fn});
      if s.event then Some(s1.(toStart := s.toStart + multiset{fn}))
      else Some(s1.(callbacks := s.callbacks + [fn]))
    case Cancel =>
      if s.event then Some(s)
      else Some(s.(event := true, toStart := s.toStart + multiset(s.callbacks)))
    case Start(fn) =>
      if fn in s.toStart
      then Some(s.(toStart := s.toStart - multiset{fn}, started := s.started + multiset{fn}))
      else None
  }

  function Exec(s: Token, run: seq<Step>): Option<Token>
    decreases run
  {
    if run == [] then Some(s)
    else
      var next := Apply(s, run[0]);
      if next.None? then None else Exec(next.value, run[1..])
  }

  ghost predicate Inv(s: Token) {
    if s.event then s.registered == s.toStart + s.started
    else s.registered == multiset(s.callbacks) && s.toStart == multiset{} && s.started == multiset{}
  }

  lemma {:induction false} ExecInv(s: Token, run: seq<Step>, s': Token)
    requires Inv(s) && Exec(s, run) == Some(s')
    ensures Inv(s')
    decreases run
  {
    if run != [] {
      var next := Apply(s, run[0]).value;
      assert Inv(next);
      ExecInv(next, run[1..], s');
    }
  }

  /**
   * Whatever the order of on_cancel and (repeated) cancel calls: without a cancel nothing is
   * started, and once nothing is left to start after a cancel, every registered callback has been
   * started exactly as often as it was registered. No start can happen beyond that.
   */
  lemma StartedExactlyOnce(run: seq<Step>, s: Token)
    requires Exec(New, run) == Some(s)
    ensures !s.event ==> s.started == multiset{}
    ensures s.event && s.toStart == multiset{} ==> s.started == s.registered
    ensures s.started <= s.registered
    ensures s.event <==> Cancel in run
  {
    ExecInv(New, run, s);
    CancelSets(New, run, s);
  }

  /** No call of on_cancel or cancel is ever refused, and each adds its own callback or the event and nothing else. */
  lemma NeverBlocks(s: Token, step: Step)
    requires !step.Start?
    ensures Apply(s, step).Some?
    ensures var s' := Apply(s, step).value;
      && s'.registered == s.registered + (if step.OnCancel? then multiset{step.fn} else multiset{})
      && s'.started == s.started && (s'.event <==> s.event || step.Cancel?)
  {
  }

  /** From every state in which cancel was called, starting what is left to start comes to an end. */
  lemma {:induction false} AllCanStart(s: Token) returns (run: seq<Step>)
    requires Inv(s) && s.event
    ensures Exec(s, run).Some? && forall step :: step in run ==> step.Start?
    ensures var t := Exec(s, run).value;
      t.event && t.registered == s.registered && t.started == s.registered && t.toStart == multiset{}
    decreases |s.toStart|
  {
    if s.toStart == multiset{} {
      run := [];
    } else {
      var fn :| fn in s.toStart;
      var next := Apply(s, Start(fn)).value;
      var rest := AllCanStart(next);
      run := [Start(fn)] + rest;
      assert run[1..] == rest;
    }
  }

  /** Whatever has happened, a cancel can be followed by the start of every callback registered so far. */
  lemma CancelStartsAll(run: seq<Step>, s: Token) returns (starts: seq<Step>)
    requires Exec(New, run) == Some(s)
    ensures forall step :: step in starts ==> step.Start?
    ensures var t := Exec(s, [Cancel] + starts); t.Some? && t.value.started == s.registered == t.value.registered
  {
    ExecInv(New, run, s);
    var cancelled := Apply(s, Cancel).value;
    assert Inv(cancelled);
    starts := AllCanStart(cancelled);
    assert ([Cancel] + starts)[1..] == starts;
  }

  lemma {:induction false} CancelSets(s: Token, run: seq<Step>, s': Token)
    requires Exec(s, run) == Some(s')
    ensures s'.event <==> s.event || Cancel in run
    decreases run
  {
    if run != [] {
      CancelSets(Apply(s, run[0]).value, run[1..], s');
      assert run == [run[0]] + run[1..];
    }
  }

  // ----- the objects -----

  class CancellationToken {
    var event: bool
    var callbacks: seq<nat>
    var started: multiset<nat>       // threads started so far
    ghost var registered: multiset<nat>

    /** The token between calls, when no call of on_cancel or cancel is half done. */
    ghost function View(): Token
      reads this
    {
      Token(event, callbacks, multiset{}, started, registered)
    }

    constructor ()
      ensures View() == New
    {
      event, callbacks, started, registered := false, [], multiset{}, multiset{};
    }

    method RegisterCallback(fn: nat)
      requires Inv(View())
      modifies this
      ensures Inv(View()) && event == old(event)
      ensures registered == old(registered) + multiset{fn}
    {
      var alreadyCancelled := event;
      if !alreadyCancelled {
        callbacks := callbacks + [fn];
      }
      if alreadyCancelled {
        started := started + multiset{fn};
      }
      registered := registered + multiset{fn};
    }

    method CancelToken()
      requires Inv(View())
      modifies this
      ensures Inv(View()) && event && registered == old(registered)
      ensures started == registered
    {
      if event { return; }
      event := true;
      var i := 0;
      while i < |callbacks|
        invariant 0 <= i <= |callbacks|
        invariant event && callbacks == old(callbacks) && registered == old(registered)
        invariant started == multiset(callbacks[..i])
      {
        assert callbacks[..i + 1] == callbacks[..i] + [callbacks[i]];
        started := started + multiset{callbacks[i]};
        i := i + 1;
      }
      assert callbacks[..|callbacks|] == callbacks;
    }
  }

  class CancellationRegistry {
    var tokens: map<nat, CancellationToken>

    /** Every tracked token is in order, and no two requests share one. */
    ghost predicate Valid()
      reads this, tokens.Values
    {
      && (forall r :: r in tokens ==> tokens[r] in tokens.Values && Inv(tokens[r].View()))
      && (forall r, q :: r in tokens && q in tokens && tokens[r] == tokens[q] ==> r == q)
    }

    constructor ()
      ensures Valid() && tokens == map[]
    {
      tokens := map[];
    }

    method Create(request: nat) returns (token: CancellationToken)
      requires Valid()
      modifies this
      ensures Valid() && fresh(token) && token.View() == New
      ensures tokens == old(tokens)[request := token]
    {
      token := new CancellationToken();
      tokens := tokens[request := token];
    }

    /** Cancels the token of `request` and no other; a request that is not tracked is none of its business. */
    method CancelRequest(request: nat)
      requires Valid()
      modifies if request in tokens then {tokens[request]} else {}
      ensures Valid() && tokens == old(tokens)
      ensures request in tokens ==> tokens[request].event
      ensures forall r :: r in tokens && r != request ==> tokens[r].View() == old(tokens[r].View())
    {
      if request in tokens {
        tokens[request].CancelToken();
      }
    }

    method Forget(request: nat)
      requires Valid()
      modifies this
      ensures Valid() && tokens == old(tokens) - {request}
    {
      tokens := tokens - {request};
    }
  }
}

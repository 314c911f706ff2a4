/**
 * How often the reconstruction shows the traffic of a request: once for every dispatch event that
 * carries a conversation id, and once more among the unattributed requests when no such event
 * also names its call. So nothing is ever dropped, and this says exactly what is shown once.
 */
module NothingDropped {
  import opened Wrappers
  import opened Conversations

  /** Attempts shown for request r among the steps of one conversation. */
  function Shown(steps: seq<Step>, r: Id): nat {
    if steps == [] then 0 else Shown(steps[..|steps| - 1], r) + ShownIn(steps[|steps| - 1], r)
  }

  function ShownIn(step: Step, r: Id): nat {
    match step
    case CallStep(_, _, _, attempts, _) => ShownAttempts(attempts, r)
    case OrphanStep(a) => if a.request == Some(r) then 1 else 0
    case _ => 0
  }

  function ShownAttempts(attempts: seq<AttemptView>, r: Id): nat {
    if attempts == [] then 0
    else ShownAttempts(attempts[..|attempts| - 1], r) + (if attempts[|attempts| - 1].request == Some(r) then 1 else 0)
  }

  predicate Dispatches(e: Event, r: Id) { e.Dispatch? && e.request == Some(r) }

  function CountEvents(es: seq<Event>, r: Id): nat {
    if es == [] then 0 else CountEvents(es[..|es| - 1], r) + (if Dispatches(es[|es| - 1], r) then 1 else 0)
  }

  /** Dispatch events of r, in any conversation. */
  function DispatchCount(log: seq<Message>, r: Id): nat {
    if log == [] then 0
    else
      var m := log[|log| - 1];
      DispatchCount(log[..|log| - 1], r) +
      (if ConvOf(m).Some? && Dispatches(m.body.event, r) then 1 else 0)
  }

  // ----- one conversation shows every one of its dispatch events -----

  lemma {:induction false} ShownUpdate(steps: seq<Step>, i: nat, step: Step, r: Id)
    requires i < |steps|
    ensures Shown(steps[i := step], r) == Shown(steps, r) - ShownIn(steps[i], r) + ShownIn(step, r)
  {
    var last := |steps| - 1;
    if i == last {
      assert steps[i := step][..last] == steps[..last];
    } else {
      assert steps[i := step][..last] == steps[..last][i := step];
      ShownUpdate(steps[..last], i, step, r);
    }
  }

  lemma ShowCounts(log: seq<Message>, v: View, e: Event, r: Id)
    requires Pointing(v)
    ensures Shown(Show(log, v, e).steps, r) == Shown(v.steps, r) + (if Dispatches(e, r) then 1 else 0)
  {
    var v' := Show(log, v, e);
    if (e.Dispatch? || e.ToolResult?) && e.call in v.calls {
      var i := v.calls[e.call];
      ShownUpdate(v.steps, i, v'.steps[i], r);
      if e.Dispatch? {
        assert v'.steps[i].attempts[..|v.steps[i].attempts|] == v.steps[i].attempts;
      }
    } else if |v'.steps| > |v.steps| {
      assert v'.steps[..|v.steps|] == v.steps;
    }
  }

  lemma {:induction false} ShowAllCounts(log: seq<Message>, es: seq<Event>, r: Id)
    ensures Shown(ShowAll(log, Blank, es).steps, r) == CountEvents(es, r)
  {
    if es != [] {
      ShowAllCounts(log, es[..|es| - 1], r);
      ShowAllPointing(log, Blank, es[..|es| - 1]);
      ShowCounts(log, ShowAll(log, Blank, es[..|es| - 1]), es[|es| - 1], r);
    }
  }

  // ----- all conversations together -----

  /** Attempts shown for r when the conversations `convs` are all built from `log`. */
  function ShownInAll(log: seq<Message>, convs: seq<Id>, r: Id): nat {
    if convs == [] then 0
    else
      var c := convs[|convs| - 1];
      ShownInAll(log, convs[..|convs| - 1], r) + Shown(ShowAll(log, Blank, EventsOf(log, c)).steps, r)
  }

  function CountInAll(log: seq<Message>, convs: seq<Id>, r: Id): nat {
    if convs == [] then 0
    else CountInAll(log, convs[..|convs| - 1], r) + CountEvents(EventsOf(log, convs[|convs| - 1]), r)
  }

  lemma {:induction false} ShownIsCount(log: seq<Message>, convs: seq<Id>, r: Id)
    ensures ShownInAll(log, convs, r) == CountInAll(log, convs, r)
  {
    if convs != [] {
      ShownIsCount(log, convs[..|convs| - 1], r);
      ShowAllCounts(log, EventsOf(log, convs[|convs| - 1]), r);
    }
  }

  lemma EventsNext(log: seq<Message>, m: Message, c: Id, r: Id)
    ensures CountEvents(EventsOf(log + [m], c), r) == CountEvents(EventsOf(log, c), r) +
      (if ConvOf(m) == Some(c) && Dispatches(m.body.event, r) then 1 else 0)
  {
    assert (log + [m])[..|log|] == log;
    var es := EventsOf(log, c);
    if ConvOf(m) == Some(c) {
      assert EventsOf(log + [m], c) == es + [m.body.event];
      assert (es + [m.body.event])[..|es|] == es;
    } else {
      assert EventsOf(log + [m], c) == es;
    }
  }

  predicate Adds(m: Message, convs: seq<Id>, r: Id) {
    ConvOf(m).Some? && ConvOf(m).value in convs && Dispatches(m.body.event, r)
  }

  /** One more message adds its dispatch event to the conversation it belongs to, and to no other. */
  lemma {:induction false} CountNext(log: seq<Message>, m: Message, convs: seq<Id>, r: Id)
    requires Distinct(convs)
    ensures CountInAll(log + [m], convs, r) == CountInAll(log, convs, r) + (if Adds(m, convs, r) then 1 else 0)
  {
    if convs != [] {
      var before, c := convs[..|convs| - 1], convs[|convs| - 1];
      CountNext(log, m, before, r);
      EventsNext(log, m, c, r);
      assert c !in before;
      assert forall d :: d in convs <==> d == c || d in before;
    }
  }

  lemma {:induction false} NoEventsYet(convs: seq<Id>, r: Id)
    ensures CountInAll([], convs, r) == 0
  {
    if convs != [] { NoEventsYet(convs[..|convs| - 1], r); }
  }

  lemma {:induction false} CountIsDispatchCount(log: seq<Message>, convs: seq<Id>, r: Id)
    requires Distinct(convs) && forall i :: 0 <= i < |log| && ConvOf(log[i]).Some? ==> ConvOf(log[i]).value in convs
    ensures CountInAll(log, convs, r) == DispatchCount(log, r)
  {
    if log == [] {
      NoEventsYet(convs, r);
    } else {
      var m := log[|log| - 1];
      CountIsDispatchCount(log[..|log| - 1], convs, r);
      CountNext(log[..|log| - 1], m, convs, r);
      assert log[..|log| - 1] + [m] == log;
    }
  }

  lemma {:induction false} ConvListed(log: seq<Message>, i: nat)
    requires i < |log| && ConvOf(log[i]).Some?
    ensures InConv(log, ConvOf(log[i]).value) != []
  {
    if i < |log| - 1 { ConvListed(log[..|log| - 1], i); }
  }

  lemma {:induction false} OwnedIsDispatched(log: seq<Message>, r: Id)
    ensures OwnerOf(log, r).Some? ==> DispatchCount(log, r) > 0
    ensures DispatchCount(log, r) > 0 ==> InRequest(log, r) != []
  {
    if log != [] { OwnedIsDispatched(log[..|log| - 1], r); }
  }

  // ----- the whole reconstruction -----

  /** How often the traffic of r appears, in all conversations and among the unattributed requests. */
  function Appearances(index: Index, log: seq<Message>, groups: seq<Group>, r: Id): nat {
    ShownInAll(log, index.convs, r) + GroupsOf(groups, r)
  }

  function GroupsOf(groups: seq<Group>, r: Id): nat {
    if groups == [] then 0
    else GroupsOf(groups[..|groups| - 1], r) + (if groups[|groups| - 1].request == r then 1 else 0)
  }

  lemma {:induction false} GroupedOnce(groups: seq<Group>, r: Id)
    requires forall i, j :: 0 <= i < j < |groups| ==> groups[i].request != groups[j].request
    ensures GroupsOf(groups, r) == if exists i :: 0 <= i < |groups| && groups[i].request == r then 1 else 0
  {
    if groups != [] {
      var last := |groups| - 1;
      GroupedOnce(groups[..last], r);
      if exists i :: 0 <= i < last && groups[i].request == r {
        var i :| 0 <= i < last && groups[i].request == r;
        assert groups[..last][i].request == r;
      }
    }
  }

  /** The exact number of appearances of any request that some message carries. */
  lemma AppearancesExact(index: Index, log: seq<Message>, groups: seq<Group>, r: Id)
    requires Indexes(index, log) && IsUnattributed(groups, index.requests, log) && InRequest(log, r) != []
    ensures Appearances(index, log, groups, r) == DispatchCount(log, r) + (if OwnerOf(log, r).None? then 1 else 0)
  {
    forall i | 0 <= i < |log| && ConvOf(log[i]).Some? ensures ConvOf(log[i]).value in index.convs {
      ConvListed(log, i);
    }
    ShownIsCount(log, index.convs, r);
    CountIsDispatchCount(log, index.convs, r);
    GroupedOnce(groups, r);
    assert r in index.requests;
  }

  /**
   * Nothing is ever dropped. And the traffic of r appears exactly once if and only if no
   * conversation's dispatch event names r, or exactly one does and it also names its call.
   */
  lemma NothingIsDropped(index: Index, log: seq<Message>, groups: seq<Group>, r: Id)
    requires Indexes(index, log) && IsUnattributed(groups, index.requests, log) && InRequest(log, r) != []
    ensures Appearances(index, log, groups, r) >= 1
    ensures Appearances(index, log, groups, r) == 1 <==>
      DispatchCount(log, r) == 0 || (DispatchCount(log, r) == 1 && OwnerOf(log, r).Some?)
  {
    AppearancesExact(index, log, groups, r);
    OwnedIsDispatched(log, r);
  }

  /** Each appearance shows every message of the request that is not a reasoning event, once and in order. */
  lemma {:induction false} ThreadIsComplete(log: seq<Message>, r: Id, m: Message)
    requires RequestOf(m) == Some(r) && !m.body.Reasoning?
    ensures multiset(Thread(log, Some(r)))[m] == multiset(log)[m]
  {
    if log != [] {
      var last := |log| - 1;
      ThreadIsComplete(log[..last], r, m);
      assert log == log[..last] + [log[last]];
      var q, q' := InRequest(log[..last], r), InRequest(log, r);
      if q' != q {
        assert q'[..|q'| - 1] == q;
      }
    }
  }

  // ----- one message on the whole page -----

  /** Every attempt is shown with the whole thread of its request. */
  predicate Threaded(log: seq<Message>, steps: seq<Step>) {
    forall i :: 0 <= i < |steps| ==> StepThreaded(log, steps[i])
  }

  predicate StepThreaded(log: seq<Message>, step: Step) {
    match step
    case CallStep(_, _, _, attempts, _) => AttemptsThreaded(log, attempts)
    case OrphanStep(a) => a.messages == Thread(log, a.request)
    case _ => true
  }

  predicate AttemptsThreaded(log: seq<Message>, attempts: seq<AttemptView>) {
    forall j :: 0 <= j < |attempts| ==> attempts[j].messages == Thread(log, attempts[j].request)
  }

  lemma ShowThreaded(log: seq<Message>, v: View, e: Event)
    requires Threaded(log, v.steps)
    ensures Threaded(log, Show(log, v, e).steps)
  {
    if e.Dispatch? && e.call in v.calls && v.calls[e.call] < |v.steps| && v.steps[v.calls[e.call]].CallStep? {
      assert StepThreaded(log, v.steps[v.calls[e.call]]);
    }
    if e.ToolResult? && e.call in v.calls && v.calls[e.call] < |v.steps| && v.steps[v.calls[e.call]].CallStep? {
      assert StepThreaded(log, v.steps[v.calls[e.call]]);
    }
  }

  lemma {:induction false} ShowAllThreaded(log: seq<Message>, es: seq<Event>)
    ensures Threaded(log, ShowAll(log, Blank, es).steps)
  {
    if es != [] {
      ShowAllThreaded(log, es[..|es| - 1]);
      ShowThreaded(log, ShowAll(log, Blank, es[..|es| - 1]), es[|es| - 1]);
    }
  }

  /** A message is in no other request's thread. */
  lemma {:induction false} InOtherThread(log: seq<Message>, q: Id, m: Message)
    requires RequestOf(m) != Some(q)
    ensures m !in InRequest(log, q) && m !in NotReasoning(InRequest(log, q))
  {
    if log != [] {
      InOtherThread(log[..|log| - 1], q, m);
      var before, all := InRequest(log[..|log| - 1], q), InRequest(log, q);
      if all != before { assert all[..|all| - 1] == before; }
    }
  }

  /** How often m is in the thread shown for a request. */
  lemma InThread(log: seq<Message>, request: Option<Id>, r: Id, m: Message)
    requires RequestOf(m) == Some(r) && !m.body.Reasoning?
    ensures multiset(Thread(log, request))[m] == if request == Some(r) then multiset(log)[m] else 0
  {
    if request == Some(r) { ThreadIsComplete(log, r, m); }
    else if request.Some? { InOtherThread(log, request.value, m); }
  }

  /** How often m is shown in a list of attempts, in a step, and so on up to the page. */
  function InAttempts(attempts: seq<AttemptView>, m: Message): nat {
    if attempts == [] then 0
    else InAttempts(attempts[..|attempts| - 1], m) + multiset(attempts[|attempts| - 1].messages)[m]
  }

  function InStep(step: Step, m: Message): nat {
    match step
    case CallStep(_, _, _, attempts, _) => InAttempts(attempts, m)
    case OrphanStep(a) => multiset(a.messages)[m]
    case _ => 0
  }

  function InSteps(steps: seq<Step>, m: Message): nat {
    if steps == [] then 0 else InSteps(steps[..|steps| - 1], m) + InStep(steps[|steps| - 1], m)
  }

  function InConvs(log: seq<Message>, convs: seq<Id>, m: Message): nat {
    if convs == [] then 0
    else
      var c := convs[|convs| - 1];
      InConvs(log, convs[..|convs| - 1], m) + InSteps(ShowAll(log, Blank, EventsOf(log, c)).steps, m)
  }

  function InGroups(groups: seq<Group>, m: Message): nat {
    if groups == [] then 0
    else InGroups(groups[..|groups| - 1], m) + multiset(groups[|groups| - 1].messages)[m]
  }

  /** All conversations and the unattributed requests. */
  function OnPage(index: Index, log: seq<Message>, groups: seq<Group>, m: Message): nat {
    InConvs(log, index.convs, m) + InGroups(groups, m)
  }

  /** n, a times. */
  function Times(a: nat, n: nat): nat { if a == 0 then 0 else Times(a - 1, n) + n }

  lemma {:induction false} TimesPlus(a: nat, b: nat, n: nat)
    ensures Times(a + b, n) == Times(a, n) + Times(b, n)
  {
    if b > 0 { TimesPlus(a, b - 1, n); }
  }

  lemma {:induction false} TimesIsProduct(a: nat, n: nat)
    ensures Times(a, n) == a * n
  {
    if a > 0 {
      TimesIsProduct(a - 1, n);
      assert a * n == (a - 1) * n + n;
    }
  }

  lemma TimesOnce(n: nat)
    ensures Times(1, n) == n
  {
    assert Times(0, n) == 0;
  }

  lemma OneMore(a: nat, hit: bool, n: nat)
    ensures Times(a + (if hit then 1 else 0), n) == Times(a, n) + (if hit then n else 0)
  {
  }

  /** m, a message of request r, is in the log n times. */
  predicate Logged(log: seq<Message>, r: Id, m: Message, n: nat) {
    RequestOf(m) == Some(r) && !m.body.Reasoning? && n == multiset(log)[m]
  }

  /** One attempt shows m as often as the log if it is an attempt of m's request, and else not at all. */
  lemma InLastAttempt(log: seq<Message>, attempts: seq<AttemptView>, r: Id, m: Message, n: nat)
    requires AttemptsThreaded(log, attempts) && attempts != [] && Logged(log, r, m, n)
    ensures var front, hit := attempts[..|attempts| - 1], attempts[|attempts| - 1].request == Some(r);
      && AttemptsThreaded(log, front)
      && InAttempts(attempts, m) == InAttempts(front, m) + (if hit then n else 0)
      && ShownAttempts(attempts, r) == ShownAttempts(front, r) + (if hit then 1 else 0)
  {
    InThread(log, attempts[|attempts| - 1].request, r, m);
  }

  lemma {:induction false} InAttemptsExact(log: seq<Message>, attempts: seq<AttemptView>, r: Id, m: Message, n: nat)
    requires AttemptsThreaded(log, attempts) && Logged(log, r, m, n)
    ensures InAttempts(attempts, m) == Times(ShownAttempts(attempts, r), n)
  {
    if attempts != [] {
      InLastAttempt(log, attempts, r, m, n);
      InAttemptsExact(log, attempts[..|attempts| - 1], r, m, n);
      OneMore(ShownAttempts(attempts[..|attempts| - 1], r), attempts[|attempts| - 1].request == Some(r), n);
    }
  }

  lemma Both(x: nat, a: nat, y: nat, b: nat, n: nat)
    requires x == Times(a, n) && y == Times(b, n)
    ensures x + y == Times(a + b, n)
  {
    TimesPlus(a, b, n);
  }

  lemma InStepExact(log: seq<Message>, step: Step, r: Id, m: Message, n: nat)
    requires StepThreaded(log, step) && Logged(log, r, m, n)
    ensures InStep(step, m) == Times(ShownIn(step, r), n)
  {
    match step
    case CallStep(_, _, _, attempts, _) => InAttemptsExact(log, attempts, r, m, n);
    case OrphanStep(a) => InThread(log, a.request, r, m); TimesOnce(n);
    case _ =>
  }

  lemma OneStepMore(front: seq<Step>, last: Step, r: Id, m: Message, n: nat)
    requires InSteps(front, m) == Times(Shown(front, r), n) && InStep(last, m) == Times(ShownIn(last, r), n)
    ensures InSteps(front, m) + InStep(last, m) == Times(Shown(front, r) + ShownIn(last, r), n)
  {
    Both(InSteps(front, m), Shown(front, r), InStep(last, m), ShownIn(last, r), n);
  }

  lemma LastStep(log: seq<Message>, steps: seq<Step>, r: Id, m: Message)
    requires Threaded(log, steps) && steps != []
    ensures var front, last := steps[..|steps| - 1], steps[|steps| - 1];
      && Threaded(log, front) && StepThreaded(log, last)
      && InSteps(steps, m) == InSteps(front, m) + InStep(last, m)
      && Shown(steps, r) == Shown(front, r) + ShownIn(last, r)
  {
  }

  lemma {:induction false} InStepsExact(log: seq<Message>, steps: seq<Step>, r: Id, m: Message, n: nat)
    requires Threaded(log, steps) && Logged(log, r, m, n)
    ensures InSteps(steps, m) == Times(Shown(steps, r), n)
  {
    if steps == [] {
      assert Times(0, n) == 0;
    } else {
      var front, last := steps[..|steps| - 1], steps[|steps| - 1];
      LastStep(log, steps, r, m);
      InStepsExact(log, front, r, m, n);
      InStepExact(log, last, r, m, n);
      OneStepMore(front, last, r, m, n);
    }
  }

  lemma InOneConv(log: seq<Message>, es: seq<Event>, r: Id, m: Message, n: nat)
    requires Logged(log, r, m, n)
    ensures InSteps(ShowAll(log, Blank, es).steps, m) == Times(Shown(ShowAll(log, Blank, es).steps, r), n)
  {
    ShowAllThreaded(log, es);
    InStepsExact(log, ShowAll(log, Blank, es).steps, r, m, n);
  }

  lemma OneConvMore(log: seq<Message>, front: seq<Id>, es: seq<Event>, r: Id, m: Message, n: nat)
    requires InConvs(log, front, m) == Times(ShownInAll(log, front, r), n)
    requires var steps := ShowAll(log, Blank, es).steps; InSteps(steps, m) == Times(Shown(steps, r), n)
    ensures var steps := ShowAll(log, Blank, es).steps;
      InConvs(log, front, m) + InSteps(steps, m) == Times(ShownInAll(log, front, r) + Shown(steps, r), n)
  {
    var steps := ShowAll(log, Blank, es).steps;
    Both(InConvs(log, front, m), ShownInAll(log, front, r), InSteps(steps, m), Shown(steps, r), n);
  }

  lemma {:induction false} InConvsExact(log: seq<Message>, convs: seq<Id>, r: Id, m: Message, n: nat)
    requires Logged(log, r, m, n)
    ensures InConvs(log, convs, m) == Times(ShownInAll(log, convs, r), n)
  {
    if convs != [] {
      var front, es := convs[..|convs| - 1], EventsOf(log, convs[|convs| - 1]);
      InConvsExact(log, front, r, m, n);
      InOneConv(log, es, r, m, n);
      OneConvMore(log, front, es, r, m, n);
    }
  }

  predicate GroupsThreaded(log: seq<Message>, groups: seq<Group>) {
    forall i :: 0 <= i < |groups| ==> groups[i].messages == Thread(log, Some(groups[i].request))
  }

  lemma InLastGroup(log: seq<Message>, groups: seq<Group>, r: Id, m: Message, n: nat)
    requires GroupsThreaded(log, groups) && groups != [] && Logged(log, r, m, n)
    ensures var front, hit := groups[..|groups| - 1], groups[|groups| - 1].request == r;
      && GroupsThreaded(log, front)
      && InGroups(groups, m) == InGroups(front, m) + (if hit then n else 0)
      && GroupsOf(groups, r) == GroupsOf(front, r) + (if hit then 1 else 0)
  {
    InThread(log, Some(groups[|groups| - 1].request), r, m);
  }

  lemma {:induction false} InGroupsExact(log: seq<Message>, groups: seq<Group>, r: Id, m: Message, n: nat)
    requires GroupsThreaded(log, groups) && Logged(log, r, m, n)
    ensures InGroups(groups, m) == Times(GroupsOf(groups, r), n)
  {
    if groups != [] {
      InLastGroup(log, groups, r, m, n);
      InGroupsExact(log, groups[..|groups| - 1], r, m, n);
      OneMore(GroupsOf(groups[..|groups| - 1], r), groups[|groups| - 1].request == r, n);
    }
  }

  lemma PageTogether(index: Index, log: seq<Message>, groups: seq<Group>, r: Id, m: Message, n: nat)
    requires InConvs(log, index.convs, m) == Times(ShownInAll(log, index.convs, r), n)
    requires InGroups(groups, m) == Times(GroupsOf(groups, r), n)
    ensures OnPage(index, log, groups, m) == Times(Appearances(index, log, groups, r), n)
  {
    Both(InConvs(log, index.convs, m), ShownInAll(log, index.convs, r), InGroups(groups, m), GroupsOf(groups, r), n);
  }

  lemma OnPageExact(index: Index, log: seq<Message>, groups: seq<Group>, r: Id, m: Message, n: nat)
    requires GroupsThreaded(log, groups) && Logged(log, r, m, n)
    ensures OnPage(index, log, groups, m) == Times(Appearances(index, log, groups, r), n)
  {
    InConvsExact(log, index.convs, r, m, n);
    InGroupsExact(log, groups, r, m, n);
    PageTogether(index, log, groups, r, m, n);
  }

  /**
   * A message with a request id that is not a reasoning event is on the page as often as it is in
   * the log, once for every appearance of its request: so at least as often, and exactly as often
   * if and only if its request appears once.
   */
  lemma MessageOnPage(index: Index, log: seq<Message>, groups: seq<Group>, r: Id, m: Message)
    requires Indexes(index, log) && IsUnattributed(groups, index.requests, log)
    requires m in log && RequestOf(m) == Some(r) && !m.body.Reasoning?
    ensures OnPage(index, log, groups, m) == Appearances(index, log, groups, r) * multiset(log)[m]
    ensures OnPage(index, log, groups, m) >= multiset(log)[m]
    ensures OnPage(index, log, groups, m) == multiset(log)[m] <==>
      DispatchCount(log, r) == 0 || (DispatchCount(log, r) == 1 && OwnerOf(log, r).Some?)
  {
    assert forall i :: 0 <= i < |groups| ==> IsGroup(groups[i], log);
    OnPageExact(index, log, groups, r, m, multiset(log)[m]);
    HasRequest(log, r, m);
    NothingIsDropped(index, log, groups, r);
    TimesIsProduct(Appearances(index, log, groups, r), multiset(log)[m]);
    Scaled(Appearances(index, log, groups, r), multiset(log)[m]);
  }

  lemma {:induction false} HasRequest(log: seq<Message>, r: Id, m: Message)
    requires m in log && RequestOf(m) == Some(r)
    ensures InRequest(log, r) != []
  {
    if m != log[|log| - 1] {
      assert log == log[..|log| - 1] + [log[|log| - 1]];
      HasRequest(log[..|log| - 1], r, m);
    }
  }

  lemma Scaled(a: nat, n: nat)
    requires a >= 1 && n >= 1
    ensures a * n >= n && (a * n == n <==> a == 1)
  {
    assert a * n == n + (a - 1) * n;
  }

  /** A dispatch event with a conversation but no call is shown as an orphan and among the unattributed: twice. */
  lemma ShownTwice(index: Index, log: seq<Message>, groups: seq<Group>)
    requires log == [Message(0, 1, 0, Reasoning(Some(1), Dispatch(None, Some(7), 1))),
      Message(1, 1, 0, SkillTraffic(Some(7), 0))]
    requires Indexes(index, log) && IsUnattributed(groups, index.requests, log)
    ensures Appearances(index, log, groups, 7) == 2
  {
    assert log[..1] == [log[0]] && log[..1][..0] == [];
    assert InRequest(log, 7) == InRequest(log[..1], 7) + [log[1]];
    assert DispatchCount(log[..1], 7) == 1 && DispatchCount(log, 7) == 1;
    assert OwnerOf(log[..1], 7).None?;
    AppearancesExact(index, log, groups, 7);
  }
}

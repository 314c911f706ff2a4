/**
 * composer-api/conversations.py: putting the messages of all inboxes back into conversations.
 * Identifiers, texts and results are numbers; an absent or empty identifier is None.
 */
module Conversations {
  import opened Wrappers
  import opened Selection

  type Id = nat

  /** What one step of `converse` reports about itself. */
  datatype Event =
    | Question(content: nat)
    | Narration(content: nat)
    | ToolCall(call: Option<Id>, skill: nat, params: nat)
    | Dispatch(call: Option<Id>, request: Option<Id>, attempt: nat)
    | ToolResult(call: Option<Id>, result: nat)
    | Final(content: nat)
    | Unknown

  /** A message body, as _classify tells them apart. */
  datatype Body =
    | Reasoning(conv: Option<Id>, event: Event)
    | Dialogue(about: Option<Id>, content: nat)
    | SkillTraffic(about: Option<Id>, content: nat)
    | OtherTraffic(about: Option<Id>, content: nat)

  datatype Message = Message(ts: int, number: nat, sender: nat, body: Body)

  function ConvOf(m: Message): Option<Id> {
    if m.body.Reasoning? then m.body.conv else None
  }

  /** The request_id of a body; of the reasoning events only a dispatch has one. */
  function RequestOf(m: Message): Option<Id> {
    match m.body
    case Reasoning(_, e) => if e.Dispatch? then e.request else None
    case Dialogue(r, _) => r
    case SkillTraffic(r, _) => r
    case OtherTraffic(r, _) => r
  }

  // ----- collect -----

  /** The messages of one conversation, in the order of the log. */
  function InConv(log: seq<Message>, c: Id): seq<Message> {
    if log == [] then []
    else InConv(log[..|log| - 1], c) + (if ConvOf(log[|log| - 1]) == Some(c) then [log[|log| - 1]] else [])
  }

  /** The messages that carry one request id, in the order of the log. */
  function InRequest(log: seq<Message>, r: Id): seq<Message> {
    if log == [] then []
    else InRequest(log[..|log| - 1], r) + (if RequestOf(log[|log| - 1]) == Some(r) then [log[|log| - 1]] else [])
  }

  /** A dispatch event that names its call and its request. */
  predicate Links(m: Message) {
    m.body.Reasoning? && m.body.event.Dispatch? && m.body.event.call.Some? && m.body.event.request.Some?
  }

  /** The requests dispatched for a call, each once, in the order they were first seen. */
  function RequestsOf(log: seq<Message>, call: Id): seq<Id> {
    if log == [] then []
    else
      var before, m := RequestsOf(log[..|log| - 1], call), log[|log| - 1];
      if Links(m) && m.body.event.call == Some(call) && m.body.event.request.value !in before
      then before + [m.body.event.request.value] else before
  }

  /** The conversation and call a request was last dispatched for. */
  function OwnerOf(log: seq<Message>, r: Id): Option<(Id, Id)> {
    if log == [] then None
    else
      var m := log[|log| - 1];
      if Links(m) && m.body.event.request == Some(r) && m.body.conv.Some?
      then Some((m.body.conv.value, m.body.event.call.value))
      else OwnerOf(log[..|log| - 1], r)
  }

  /** The messages of a conversation, and of a request, are exactly those that name it, in the order of the log. */
  lemma {:induction false} InConvSelects(log: seq<Message>, c: Id) returns (at: seq<nat>)
    ensures Selects(log, (m: Message) => ConvOf(m) == Some(c), InConv(log, c), at)
  {
    at := [];
    if log != [] {
      at := InConvSelects(log[..|log| - 1], c);
      at := SelectsMore(log, (m: Message) => ConvOf(m) == Some(c), InConv(log[..|log| - 1], c), at);
    }
  }

  lemma {:induction false} InRequestSelects(log: seq<Message>, r: Id) returns (at: seq<nat>)
    ensures Selects(log, (m: Message) => RequestOf(m) == Some(r), InRequest(log, r), at)
  {
    at := [];
    if log != [] {
      at := InRequestSelects(log[..|log| - 1], r);
      at := SelectsMore(log, (m: Message) => RequestOf(m) == Some(r), InRequest(log[..|log| - 1], r), at);
    }
  }

  predicate Dispatches(m: Message, call: Id, r: Id) {
    Links(m) && m.body.event.call == Some(call) && m.body.event.request == Some(r)
  }

  /** The requests of a call are those it was dispatched with, each once, and later ones come behind earlier ones. */
  lemma {:induction false} RequestsOfIs(log: seq<Message>, call: Id, n: nat)
    requires n <= |log|
    ensures RequestsOf(log[..n], call) <= RequestsOf(log, call) && Distinct(RequestsOf(log, call))
    ensures forall r :: r in RequestsOf(log, call) <==> exists i :: 0 <= i < |log| && Dispatches(log[i], call, r)
  {
    if log == [] {
      assert log[..n] == log;
    } else {
      var front, m := log[..|log| - 1], log[|log| - 1];
      RequestsOfIs(front, call, if n < |log| then n else |front|);
      assert if n < |log| then front[..n] == log[..n] else log[..n] == log;
      forall r ensures r in RequestsOf(log, call) <==> exists i :: 0 <= i < |log| && Dispatches(log[i], call, r) {
        if r in RequestsOf(front, call) {
          var i :| 0 <= i < |front| && Dispatches(front[i], call, r);
          assert Dispatches(log[i], call, r);
        }
        if i :| 0 <= i < |log| && Dispatches(log[i], call, r) {
          assert i < |front| ==> Dispatches(front[i], call, r);
        }
      }
    }
  }

  /** The i-th message dispatches r for call k of conversation c, and no later one dispatches r anew. */
  predicate LastOwner(log: seq<Message>, r: Id, c: Id, k: Id, i: nat) {
    && i < |log| && Dispatches(log[i], k, r) && log[i].body.conv == Some(c)
    && forall j :: i < j < |log| && Links(log[j]) && log[j].body.event.request == Some(r) ==> log[j].body.conv.None?
  }

  /** The owner is that of the last dispatch that names its conversation; without one there is none. */
  lemma {:induction false} OwnerIs(log: seq<Message>, r: Id)
    ensures OwnerOf(log, r).Some? ==>
      exists i :: LastOwner(log, r, OwnerOf(log, r).value.0, OwnerOf(log, r).value.1, i)
    ensures OwnerOf(log, r).None? ==>
      forall i :: 0 <= i < |log| && Links(log[i]) && log[i].body.event.request == Some(r) ==> log[i].body.conv.None?
  {
    if log != [] {
      var front, last := log[..|log| - 1], log[|log| - 1];
      OwnerIs(front, r);
      if Links(last) && last.body.event.request == Some(r) && last.body.conv.Some? {
        assert LastOwner(log, r, OwnerOf(log, r).value.0, OwnerOf(log, r).value.1, |front|);
      } else if OwnerOf(front, r).Some? {
        var owner := OwnerOf(front, r).value;
        var i :| LastOwner(front, r, owner.0, owner.1, i);
        assert LastOwner(log, r, owner.0, owner.1, i);
      }
    }
  }

  /** The dictionaries of `collect`, with the keys of two of them in the order of insertion. */
  datatype Index = Index(
    messages: seq<Message>,
    byConv: map<Id, seq<Message>>,
    byRequest: map<Id, seq<Message>>,
    callToRequests: map<Id, seq<Id>>,
    requestOwner: map<Id, (Id, Id)>,
    convs: seq<Id>,
    requests: seq<Id>)

  predicate Distinct(ids: seq<Id>) {
    forall i, j :: 0 <= i < j < |ids| ==> ids[i] != ids[j]
  }

  ghost predicate ConvIndexed(byConv: map<Id, seq<Message>>, convs: seq<Id>, log: seq<Message>) {
    && (forall c :: c in byConv <==> InConv(log, c) != [])
    && (forall c :: c in byConv ==> byConv[c] == InConv(log, c))
    && Distinct(convs) && (forall c :: c in convs <==> c in byConv)
  }

  ghost predicate RequestIndexed(byRequest: map<Id, seq<Message>>, requests: seq<Id>, log: seq<Message>) {
    && (forall r :: r in byRequest <==> InRequest(log, r) != [])
    && (forall r :: r in byRequest ==> byRequest[r] == InRequest(log, r))
    && Distinct(requests) && (forall r :: r in requests <==> r in byRequest)
  }

  ghost predicate CallsIndexed(callToRequests: map<Id, seq<Id>>, log: seq<Message>) {
    && (forall k :: k in callToRequests <==> RequestsOf(log, k) != [])
    && (forall k :: k in callToRequests ==> callToRequests[k] == RequestsOf(log, k))
  }

  ghost predicate OwnersIndexed(requestOwner: map<Id, (Id, Id)>, log: seq<Message>) {
    && (forall r :: r in requestOwner <==> OwnerOf(log, r).Some?)
    && (forall r :: r in requestOwner ==> OwnerOf(log, r) == Some(requestOwner[r]))
  }

  /** What the index of a log has to contain. */
  ghost predicate Indexes(index: Index, log: seq<Message>) {
    && index.messages == log
    && ConvIndexed(index.byConv, index.convs, log)
    && RequestIndexed(index.byRequest, index.requests, log)
    && CallsIndexed(index.callToRequests, log)
    && OwnersIndexed(index.requestOwner, log)
  }

  method AddConv(byConv0: map<Id, seq<Message>>, convs0: seq<Id>, ghost log: seq<Message>, m: Message)
    returns (byConv: map<Id, seq<Message>>, convs: seq<Id>)
    requires ConvIndexed(byConv0, convs0, log)
    ensures ConvIndexed(byConv, convs, log + [m])
  {
    assert (log + [m])[..|log|] == log;
    byConv, convs := byConv0, convs0;
    var conv := ConvOf(m);
    if conv.Some? {
      if conv.value !in byConv { byConv, convs := byConv[conv.value := []], convs + [conv.value]; }
      byConv := byConv[conv.value := byConv[conv.value] + [m]];
    }
  }

  method AddRequest(byRequest0: map<Id, seq<Message>>, requests0: seq<Id>, ghost log: seq<Message>, m: Message)
    returns (byRequest: map<Id, seq<Message>>, requests: seq<Id>)
    requires RequestIndexed(byRequest0, requests0, log)
    ensures RequestIndexed(byRequest, requests, log + [m])
  {
    assert (log + [m])[..|log|] == log;
    byRequest, requests := byRequest0, requests0;
    var request := RequestOf(m);
    if request.Some? {
      if request.value !in byRequest {
        byRequest, requests := byRequest[request.value := []], requests + [request.value];
      }
      byRequest := byRequest[request.value := byRequest[request.value] + [m]];
    }
  }

  method AddLink(calls0: map<Id, seq<Id>>, owners0: map<Id, (Id, Id)>, ghost log: seq<Message>, m: Message)
    returns (calls: map<Id, seq<Id>>, owners: map<Id, (Id, Id)>)
    requires CallsIndexed(calls0, log) && OwnersIndexed(owners0, log)
    ensures CallsIndexed(calls, log + [m]) && OwnersIndexed(owners, log + [m])
  {
    assert (log + [m])[..|log|] == log;
    calls, owners := calls0, owners0;
    if Links(m) {
      var call, rid := m.body.event.call.value, m.body.event.request.value;
      if call !in calls { calls := calls[call := []]; }
      if rid !in calls[call] {
        calls := calls[call := calls[call] + [rid]];
      }
      if m.body.conv.Some? {
        owners := owners[rid := (m.body.conv.value, call)];
      }
    }
  }

  /** The loop of collect over the sorted messages. */
  method Collect(log: seq<Message>) returns (index: Index)
    ensures Indexes(index, log)
  {
    index := Index([], map[], map[], map[], map[], [], []);
    var i := 0;
    while i < |log|
      invariant 0 <= i <= |log|
      invariant Indexes(index, log[..i])
    {
      var m := log[i];
      var byConv, convs := AddConv(index.byConv, index.convs, log[..i], m);
      var byRequest, requests := AddRequest(index.byRequest, index.requests, log[..i], m);
      var calls, owners := AddLink(index.callToRequests, index.requestOwner, log[..i], m);
      index := Index(index.messages + [m], byConv, byRequest, calls, owners, convs, requests);
      assert log[..i + 1] == log[..i] + [m];
      i := i + 1;
    }
    assert log[..|log|] == log;
  }

  // ----- build_conversation -----

  /** One attempt as shown: its request, its number and the bus messages carrying the request id. */
  datatype AttemptView = AttemptView(request: Option<Id>, attempt: nat, messages: seq<Message>)

  datatype Step =
    | CallStep(call: Option<Id>, skill: nat, params: nat, attempts: seq<AttemptView>, result: Option<nat>)
    | NarrationStep(content: nat)
    | FinalStep(content: nat)
    | OrphanStep(attempt: AttemptView)

  /** A conversation as build_conversation returns it, with its `calls` dictionary. */
  datatype View = View(
    question: Option<nat>,
    answer: Option<nat>,
    steps: seq<Step>,
    calls: map<Option<Id>, nat>)   // where in `steps` the call last announced under an id is

  const Blank := View(None, None, [], map[])

  /** _thread_for_request: the messages with this request id that are not reasoning events. */
  function Thread(log: seq<Message>, request: Option<Id>): seq<Message> {
    if request.None? then [] else NotReasoning(InRequest(log, request.value))
  }

  function NotReasoning(ms: seq<Message>): seq<Message> {
    if ms == [] then []
    else NotReasoning(ms[..|ms| - 1]) + (if ms[|ms| - 1].body.Reasoning? then [] else [ms[|ms| - 1]])
  }

  predicate OnThread(m: Message, r: Id) { RequestOf(m) == Some(r) && !m.body.Reasoning? }

  lemma ThreadNext(log: seq<Message>, r: Id)
    requires log != []
    ensures var before, m := Thread(log[..|log| - 1], Some(r)), log[|log| - 1];
      Thread(log, Some(r)) == if OnThread(m, r) then before + [m] else before
  {
    var front, m := InRequest(log[..|log| - 1], r), log[|log| - 1];
    assert (front + [m])[..|front|] == front;
    assert NotReasoning(front + [m]) == NotReasoning(front) + (if m.body.Reasoning? then [] else [m]);
    assert InRequest(log, r) == if RequestOf(m) == Some(r) then front + [m] else front;
  }

  /** A thread has exactly the messages of its request that are not reasoning, in the order of the log. */
  lemma {:induction false} ThreadSelects(log: seq<Message>, r: Id) returns (at: seq<nat>)
    ensures Selects(log, (m: Message) => OnThread(m, r), Thread(log, Some(r)), at)
  {
    at := [];
    if log != [] {
      at := ThreadSelects(log[..|log| - 1], r);
      at := SelectsMore(log, (m: Message) => OnThread(m, r), Thread(log[..|log| - 1], Some(r)), at);
      ThreadNext(log, r);
    }
  }

  /** What one event does to the conversation. */
  function Show(log: seq<Message>, v: View, e: Event): View {
    match e
    case Question(content) => v.(question := Some(content))
    case Narration(content) => v.(steps := v.steps + [NarrationStep(content)])
    case Final(content) => v.(answer := Some(content), steps := v.steps + [FinalStep(content)])
    case ToolCall(call, skill, params) =>
      v.(steps := v.steps + [CallStep(call, skill, params, [], None)], calls := v.calls[call := |v.steps|])
    case Dispatch(call, request, attempt) =>
      var shown := AttemptView(request, attempt, Thread(log, request));
      if call in v.calls && v.calls[call] < |v.steps| && v.steps[v.calls[call]].CallStep? then
        var s := v.steps[v.calls[call]];
        v.(steps := v.steps[v.calls[call] := s.(attempts := s.attempts + [shown])])
      else v.(steps := v.steps + [OrphanStep(shown)])
    case ToolResult(call, result) =>
      if call in v.calls && v.calls[call] < |v.steps| && v.steps[v.calls[call]].CallStep?
      then v.(steps := v.steps[v.calls[call] := v.steps[v.calls[call]].(result := Some(result))])
      else v
    case Unknown => v
  }

  function ShowAll(log: seq<Message>, v: View, es: seq<Event>): View {
    if es == [] then v else Show(log, ShowAll(log, v, es[..|es| - 1]), es[|es| - 1])
  }

  /** The reasoning events of one conversation, in the order of the log. */
  function EventsOf(log: seq<Message>, c: Id): seq<Event> {
    if log == [] then []
    else
      var m := log[|log| - 1];
      EventsOf(log[..|log| - 1], c) + (if ConvOf(m) == Some(c) then [m.body.event] else [])
  }

  /** `calls` only ever points at call steps. */
  predicate Pointing(v: View) {
    forall call :: call in v.calls ==> v.calls[call] < |v.steps| && v.steps[v.calls[call]].CallStep?
  }

  lemma ShowPointing(log: seq<Message>, v: View, e: Event)
    requires Pointing(v)
    ensures Pointing(Show(log, v, e))
  {
  }

  lemma {:induction false} ShowAllPointing(log: seq<Message>, v: View, es: seq<Event>)
    requires Pointing(v)
    ensures Pointing(ShowAll(log, v, es))
  {
    if es != [] {
      ShowAllPointing(log, v, es[..|es| - 1]);
      ShowPointing(log, ShowAll(log, v, es[..|es| - 1]), es[|es| - 1]);
    }
  }

  lemma {:induction false} EventsOfConv(log: seq<Message>, c: Id)
    ensures |EventsOf(log, c)| == |InConv(log, c)|
    ensures forall i :: 0 <= i < |InConv(log, c)| ==>
      InConv(log, c)[i].body.Reasoning? && InConv(log, c)[i].body.event == EventsOf(log, c)[i]
  {
    if log != [] { EventsOfConv(log[..|log| - 1], c); }
  }

  /** One of the messages has this time. */
  predicate HasTime(ms: seq<Message>, t: int) { exists i :: 0 <= i < |ms| && ms[i].ts == t }

  /** The first and the last time among the messages that have one (a time of 0 is none). */
  predicate IsSpan(ms: seq<Message>, first: Option<int>, last: Option<int>) {
    && (first.Some? ==> first.value != 0 && HasTime(ms, first.value))
    && (last.Some? ==> last.value != 0 && HasTime(ms, last.value))
    && forall i :: 0 <= i < |ms| && ms[i].ts != 0 ==>
         first.Some? && last.Some? && first.value <= ms[i].ts <= last.value
  }

  lemma HasTimeMore(ms: seq<Message>, m: Message, t: int)
    ensures HasTime(ms, t) || m.ts == t ==> HasTime(ms + [m], t)
  {
    if HasTime(ms, t) {
      var i :| 0 <= i < |ms| && ms[i].ts == t;
      assert (ms + [m])[i].ts == t;
    } else {
      assert (ms + [m])[|ms|] == m;
    }
  }

  method SpanOf(ms: seq<Message>) returns (first: Option<int>, last: Option<int>)
    ensures IsSpan(ms, first, last)
  {
    first, last := None, None;
    var i := 0;
    while i < |ms|
      invariant 0 <= i <= |ms|
      invariant IsSpan(ms[..i], first, last)
    {
      assert ms[..i + 1] == ms[..i] + [ms[i]];
      var t := ms[i].ts;
      if t != 0 {
        if first.None? || t < first.value { first := Some(t); }
        if last.None? || t > last.value { last := Some(t); }
      }
      if first.Some? { HasTimeMore(ms[..i], ms[i], first.value); }
      if last.Some? { HasTimeMore(ms[..i], ms[i], last.value); }
      i := i + 1;
    }
    assert ms[..|ms|] == ms;
  }

  /** One pass of the loop over the reasoning events. */
  method ShowEvent(v0: View, e: Event, index: Index, ghost log: seq<Message>) returns (v: View)
    requires Indexes(index, log) && Pointing(v0)
    ensures v == Show(log, v0, e)
  {
    v := v0;
    match e {
      case Question(content) => v := v.(question := Some(content));
      case Narration(content) => v := v.(steps := v.steps + [NarrationStep(content)]);
      case Final(content) => v := v.(answer := Some(content), steps := v.steps + [FinalStep(content)]);
      case ToolCall(call, skill, params) =>
        v := v.(calls := v.calls[call := |v.steps|], steps := v.steps + [CallStep(call, skill, params, [], None)]);
      case Dispatch(call, request, attempt) =>
        var messages := ThreadForRequest(request, index, log);
        v := ShowAttempt(v, call, AttemptView(request, attempt, messages));
      case ToolResult(call, result) =>
        if call in v.calls {
          v := v.(steps := v.steps[v.calls[call] := v.steps[v.calls[call]].(result := Some(result))]);
        }
      case Unknown =>
    }
  }

  /** An attempt goes under its call, or is shown on its own. */
  method ShowAttempt(v0: View, call: Option<Id>, shown: AttemptView) returns (v: View)
    requires Pointing(v0)
    ensures v == if call in v0.calls
      then
        var s := v0.steps[v0.calls[call]];
        v0.(steps := v0.steps[v0.calls[call] := s.(attempts := s.attempts + [shown])])
      else v0.(steps := v0.steps + [OrphanStep(shown)])
  {
    if call in v0.calls {
      var s := v0.steps[v0.calls[call]];
      v := v0.(steps := v0.steps[v0.calls[call] := s.(attempts := s.attempts + [shown])]);
    } else {
      v := v0.(steps := v0.steps + [OrphanStep(shown)]);
    }
  }

  /**
   * build_conversation: the question, answer and steps, when it started and ended, and whether its
   * status is "answered" rather than "incomplete".
   */
  method BuildConversation(c: Id, index: Index, ghost log: seq<Message>)
    returns (v: View, startedAt: Option<int>, endedAt: Option<int>, answered: bool)
    requires Indexes(index, log)
    ensures v == ShowAll(log, Blank, EventsOf(log, c))
    ensures IsSpan(InConv(log, c), startedAt, endedAt)
    ensures answered <==> v.answer.Some?
  {
    var reasoning := if c in index.byConv then index.byConv[c] else [];
    assert reasoning == InConv(log, c);
    ghost var events := EventsOf(log, c);
    EventsOfConv(log, c);
    v := Blank;
    var i := 0;
    while i < |reasoning|
      invariant 0 <= i <= |reasoning| == |events|
      invariant v == ShowAll(log, Blank, events[..i])
    {
      assert events[..i + 1][..i] == events[..i];
      ShowAllPointing(log, Blank, events[..i]);
      v := ShowEvent(v, reasoning[i].body.event, index, log);
      i := i + 1;
    }
    assert events[..|events|] == events;
    startedAt, endedAt := SpanOf(reasoning);
    answered := v.answer.Some?;
  }

  method ThreadForRequest(request: Option<Id>, index: Index, ghost log: seq<Message>) returns (out: seq<Message>)
    requires Indexes(index, log)
    ensures out == Thread(log, request)
  {
    if request.None? { return []; }
    var ms := if request.value in index.byRequest then index.byRequest[request.value] else [];
    out := WithoutReasoning(ms);
  }

  method WithoutReasoning(ms: seq<Message>) returns (out: seq<Message>)
    ensures out == NotReasoning(ms)
  {
    out := [];
    var i := 0;
    while i < |ms|
      invariant 0 <= i <= |ms|
      invariant out == NotReasoning(ms[..i])
    {
      assert ms[..i + 1][..i] == ms[..i];
      if !ms[i].body.Reasoning? {
        out := out + [ms[i]];
      }
      i := i + 1;
    }
    assert ms[..|ms|] == ms;
  }

  // ----- unattributed -----

  /** A request that no visible call owns; `count` counts its reasoning messages too. */
  datatype Group = Group(request: Id, startedAt: Option<int>, count: nat, messages: seq<Message>)

  /** One group for each request that no visible call owns. */
  ghost predicate IsUnattributed(groups: seq<Group>, requests: seq<Id>, log: seq<Message>) {
    && (forall i, j :: 0 <= i < j < |groups| ==> groups[i].request != groups[j].request)
    && (forall i :: 0 <= i < |groups| ==>
          && groups[i].request in requests && OwnerOf(log, groups[i].request).None?
          && IsGroup(groups[i], log))
    && (forall r :: r in requests && OwnerOf(log, r).None? ==> HasGroup(groups, r))
  }

  predicate HasGroup(groups: seq<Group>, r: Id) {
    exists i :: 0 <= i < |groups| && groups[i].request == r
  }

  ghost predicate IsGroup(g: Group, log: seq<Message>) {
    && g.messages == Thread(log, Some(g.request)) && g.count == |InRequest(log, g.request)|
    && exists last :: IsSpan(InRequest(log, g.request), g.startedAt, last)
  }

  /** The sort key: a group without a time comes last, as if it had started at 0. */
  function Start(g: Group): int { if g.startedAt.Some? then g.startedAt.value else 0 }

  predicate NewestFirst(groups: seq<Group>) {
    forall i, j :: 0 <= i < j < |groups| ==> Start(groups[i]) >= Start(groups[j])
  }

  /** With times that are positive, a group without a time comes behind all groups that have one. */
  lemma UntimedLast(groups: seq<Group>, i: nat, j: nat)
    requires NewestFirst(groups) && i < j < |groups|
    requires forall k :: 0 <= k < |groups| && groups[k].startedAt.Some? ==> groups[k].startedAt.value > 0
    ensures groups[i].startedAt.None? ==> groups[j].startedAt.None?
    ensures groups[i].startedAt.Some? && groups[j].startedAt.Some? ==>
      groups[i].startedAt.value >= groups[j].startedAt.value
  {
  }

  /** The groups that started at t, in the order in which they are listed. */
  function At(groups: seq<Group>, t: int): seq<Group> {
    if groups == [] then []
    else At(groups[..|groups| - 1], t) + (if Start(groups[|groups| - 1]) == t then [groups[|groups| - 1]] else [])
  }

  /** The requests of the groups. */
  function Named(groups: seq<Group>): seq<Id> {
    if groups == [] then [] else Named(groups[..|groups| - 1]) + [groups[|groups| - 1].request]
  }

  /** The requests without an owner, in order. */
  function Unowned(requests: seq<Id>, log: seq<Message>): seq<Id> {
    if requests == [] then []
    else
      var r := requests[|requests| - 1];
      Unowned(requests[..|requests| - 1], log) + (if OwnerOf(log, r).None? then [r] else [])
  }

  lemma {:induction false} UnownedSelects(requests: seq<Id>, log: seq<Message>) returns (at: seq<nat>)
    ensures Selects(requests, (r: Id) => OwnerOf(log, r).None?, Unowned(requests, log), at)
  {
    at := [];
    if requests != [] {
      at := UnownedSelects(requests[..|requests| - 1], log);
      at := SelectsMore(requests, (r: Id) => OwnerOf(log, r).None?, Unowned(requests[..|requests| - 1], log), at);
    }
  }

  lemma GroupAdded(groups: seq<Group>, requests: seq<Id>, g: Group, log: seq<Message>)
    requires IsUnattributed(groups, requests, log) && g.request !in requests && OwnerOf(log, g.request).None?
    requires IsGroup(g, log)
    ensures IsUnattributed(groups + [g], requests + [g.request], log)
  {
    var next := groups + [g];
    forall q | q in requests + [g.request] && OwnerOf(log, q).None? ensures HasGroup(next, q) {
      if q == g.request {
        assert next[|groups|].request == q;
      } else {
        var j :| 0 <= j < |groups| && groups[j].request == q;
        assert next[j].request == q;
      }
    }
  }

  lemma GroupSkipped(groups: seq<Group>, requests: seq<Id>, r: Id, log: seq<Message>)
    requires IsUnattributed(groups, requests, log) && OwnerOf(log, r).Some?
    ensures IsUnattributed(groups, requests + [r], log)
  {
  }

  method GroupOf(r: Id, index: Index, ghost log: seq<Message>) returns (g: Group)
    requires Indexes(index, log) && r in index.byRequest
    ensures g.request == r && IsGroup(g, log)
  {
    var messages := ThreadForRequest(Some(r), index, log);
    var first, last := SpanOf(index.byRequest[r]);
    g := Group(r, first, |index.byRequest[r]|, messages);
  }

  /** The groups of the first requests, in order. */
  ghost predicate Collected(groups: seq<Group>, requests: seq<Id>, log: seq<Message>) {
    IsUnattributed(groups, requests, log) && Named(groups) == Unowned(requests, log)
  }

  lemma CollectedMore(groups: seq<Group>, requests: seq<Id>, g: Group, log: seq<Message>)
    requires Collected(groups, requests, log) && g.request !in requests && OwnerOf(log, g.request).None?
    requires IsGroup(g, log)
    ensures Collected(groups + [g], requests + [g.request], log)
  {
    GroupAdded(groups, requests, g, log);
    assert (groups + [g])[..|groups|] == groups && (requests + [g.request])[..|requests|] == requests;
  }

  lemma CollectedSkipped(groups: seq<Group>, requests: seq<Id>, r: Id, log: seq<Message>)
    requires Collected(groups, requests, log) && OwnerOf(log, r).Some?
    ensures Collected(groups, requests + [r], log)
  {
    GroupSkipped(groups, requests, r, log);
    assert (requests + [r])[..|requests|] == requests;
  }

  /** One pass of the loop. */
  method NextGroup(groups0: seq<Group>, ghost before: seq<Id>, r: Id, index: Index, ghost log: seq<Message>)
    returns (groups: seq<Group>)
    requires Indexes(index, log) && r in index.byRequest && r !in before && Collected(groups0, before, log)
    ensures Collected(groups, before + [r], log)
  {
    groups := groups0;
    if r !in index.requestOwner {
      var g := GroupOf(r, index, log);
      CollectedMore(groups0, before, g, log);
      groups := groups0 + [g];
    } else {
      CollectedSkipped(groups0, before, r, log);
    }
  }

  lemma DistinctPrefix(ids: seq<Id>, i: nat)
    requires Distinct(ids) && i < |ids|
    ensures ids[..i + 1] == ids[..i] + [ids[i]] && ids[i] in ids && ids[i] !in ids[..i]
  {
  }

  lemma NothingCollected(requests: seq<Id>, log: seq<Message>)
    ensures Collected([], requests[..0], log)
  {
  }

  /** The groups of unattributed, before they are sorted. */
  method Groups(index: Index, ghost log: seq<Message>) returns (groups: seq<Group>)
    requires Indexes(index, log)
    ensures Collected(groups, index.requests, log)
  {
    groups := [];
    var requests := index.requests;
    NothingCollected(requests, log);
    var i := 0;
    while i < |requests|
      invariant 0 <= i <= |requests|
      invariant Collected(groups, requests[..i], log)
    {
      DistinctPrefix(requests, i);
      groups := NextGroup(groups, requests[..i], requests[i], index, log);
      i := i + 1;
    }
    assert requests[..|requests|] == requests;
  }

  // ----- sorting, newest first -----

  /** g behind the groups that did not start before it. */
  function Insert(groups: seq<Group>, g: Group): seq<Group> {
    if groups == [] || Start(groups[|groups| - 1]) >= Start(g) then groups + [g]
    else Insert(groups[..|groups| - 1], g) + [groups[|groups| - 1]]
  }

  lemma {:induction false} InsertMultiset(groups: seq<Group>, g: Group)
    ensures multiset(Insert(groups, g)) == multiset(groups) + multiset{g}
  {
    if groups != [] && Start(groups[|groups| - 1]) < Start(g) {
      InsertMultiset(groups[..|groups| - 1], g);
      assert groups == groups[..|groups| - 1] + [groups[|groups| - 1]];
    }
  }

  lemma {:induction false} InsertAt(groups: seq<Group>, g: Group, t: int)
    ensures At(Insert(groups, g), t) == At(groups, t) + (if Start(g) == t then [g] else [])
  {
    var next := Insert(groups, g);
    assert next != [];
    if groups == [] || Start(groups[|groups| - 1]) >= Start(g) {
      assert next[..|next| - 1] == groups;
    } else {
      InsertAt(groups[..|groups| - 1], g, t);
      assert next[..|next| - 1] == Insert(groups[..|groups| - 1], g);
    }
  }

  lemma {:induction false} InsertNewest(groups: seq<Group>, g: Group)
    requires NewestFirst(groups)
    ensures NewestFirst(Insert(groups, g))
  {
    if groups != [] && Start(groups[|groups| - 1]) < Start(g) {
      var front, last := groups[..|groups| - 1], groups[|groups| - 1];
      InsertNewest(front, g);
      InsertMultiset(front, g);
      forall i | 0 <= i < |Insert(front, g)| ensures Start(Insert(front, g)[i]) >= Start(last) {
        assert Insert(front, g)[i] in multiset(front) + multiset{g};
        assert Insert(front, g)[i] in front || Insert(front, g)[i] == g;
      }
    }
  }

  /** Python's stable sort by start, in reverse: the same groups, newest first, ties as they were. */
  method SortNewestFirst(groups: seq<Group>) returns (out: seq<Group>)
    ensures multiset(out) == multiset(groups) && NewestFirst(out)
    ensures forall t :: At(out, t) == At(groups, t)
  {
    out := [];
    var i := 0;
    while i < |groups|
      invariant 0 <= i <= |groups|
      invariant multiset(out) == multiset(groups[..i]) && NewestFirst(out)
      invariant forall t :: At(out, t) == At(groups[..i], t)
    {
      assert groups[..i + 1] == groups[..i] + [groups[i]] && groups[..i + 1][..i] == groups[..i];
      InsertMultiset(out, groups[i]);
      InsertNewest(out, groups[i]);
      forall t ensures At(Insert(out, groups[i]), t) == At(groups[..i + 1], t) {
        InsertAt(out, groups[i], t);
      }
      out := Insert(out, groups[i]);
      i := i + 1;
    }
    assert groups[..|groups|] == groups;
  }

  lemma TwicePlaced(groups: seq<Group>, i: nat, j: nat)
    requires i < j < |groups| && groups[i] == groups[j]
    ensures multiset(groups)[groups[i]] >= 2
  {
    assert groups == groups[..j] + ([groups[j]] + groups[j + 1..]);
    assert groups[..j][i] == groups[i];
  }

  lemma {:induction false} OncePlaced(groups: seq<Group>, g: Group)
    requires forall i, j :: 0 <= i < j < |groups| ==> groups[i].request != groups[j].request
    ensures multiset(groups)[g] <= 1
  {
    if groups != [] {
      var front, last := groups[..|groups| - 1], groups[|groups| - 1];
      OncePlaced(front, g);
      assert groups == front + [last];
      assert last !in front;
    }
  }

  lemma PlaceOf(groups: seq<Group>, g: Group) returns (i: nat)
    requires g in multiset(groups)
    ensures i < |groups| && groups[i] == g
  {
    i :| i < |groups| && groups[i] == g;
  }

  /** The order of the groups does not matter. */
  lemma UnattributedInAnyOrder(groups: seq<Group>, out: seq<Group>, requests: seq<Id>, log: seq<Message>)
    requires IsUnattributed(groups, requests, log) && multiset(out) == multiset(groups)
    ensures IsUnattributed(out, requests, log)
  {
    forall i | 0 <= i < |out|
      ensures out[i].request in requests && OwnerOf(log, out[i].request).None? && IsGroup(out[i], log)
    {
      assert out[i] in multiset(out);
      var k := PlaceOf(groups, out[i]);
    }
    forall i, j | 0 <= i < j < |out| ensures out[i].request != out[j].request {
      assert out[i] in multiset(out) && out[j] in multiset(out);
      var k := PlaceOf(groups, out[i]);
      var l := PlaceOf(groups, out[j]);
      OncePlaced(groups, out[i]);
      if out[i] == out[j] { TwicePlaced(out, i, j); }
    }
    forall r | r in requests && OwnerOf(log, r).None? ensures HasGroup(out, r) {
      assert HasGroup(groups, r);
      var k :| 0 <= k < |groups| && groups[k].request == r;
      assert groups[k] in multiset(groups);
      var i := PlaceOf(out, groups[k]);
    }
  }

  /**
   * unattributed: the groups, newest first; those that started together are in the order in which
   * their requests were first seen, which is that of `unsorted`.
   */
  method Unattributed(index: Index, ghost log: seq<Message>) returns (groups: seq<Group>, ghost unsorted: seq<Group>)
    requires Indexes(index, log)
    ensures IsUnattributed(groups, index.requests, log) && NewestFirst(groups)
    ensures Named(unsorted) == Unowned(index.requests, log)
    ensures multiset(groups) == multiset(unsorted) && forall t :: At(groups, t) == At(unsorted, t)
  {
    var found := Groups(index, log);
    unsorted := found;
    groups := SortNewestFirst(found);
    UnattributedInAnyOrder(found, groups, index.requests, log);
  }
}

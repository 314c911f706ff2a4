/**
 * A run of `converse`, the events it reports in any order its threads allow, and the proof that
 * the reconstruction gives the run back.
 */
module RoundTrip {
  import opened Wrappers
  import opened Conversations

  /** One tool call: its attempts as (request id, attempt number), in order, and its result. */
  datatype Call = Call(id: Id, skill: nat, params: nat, attempts: seq<(Id, nat)>, result: nat)

  datatype Turn = Turn(narration: Option<nat>, calls: seq<Call>)

  /** A whole conversation; `answer` is None when max_turns ended it. */
  datatype Run = Run(question: nat, turns: seq<Turn>, answer: Option<nat>)

  // ----- the events of a run -----

  function Attempted(c: Call): seq<Event> { AttemptedUpTo(c, |c.attempts|) }

  function AttemptedUpTo(c: Call, k: nat): seq<Event>
    requires k <= |c.attempts|
  {
    if k == 0 then []
    else AttemptedUpTo(c, k - 1) + [Dispatch(Some(c.id), Some(c.attempts[k - 1].0), c.attempts[k - 1].1)]
  }

  function Announcement(c: Call): Event { ToolCall(Some(c.id), c.skill, c.params) }

  /** What one call reports, in this order: it is announced, dispatched attempt by attempt, and answered. */
  function CallEvents(c: Call): seq<Event> {
    [Announcement(c)] + Attempted(c) + [ToolResult(Some(c.id), c.result)]
  }

  function Announcements(calls: seq<Call>): seq<Event> {
    if calls == [] then [] else Announcements(calls[..|calls| - 1]) + [Announcement(calls[|calls| - 1])]
  }

  predicate IsOf(e: Event, id: Id) {
    (e.ToolCall? || e.Dispatch? || e.ToolResult?) && e.call == Some(id)
  }

  /** The events of one call id, in order. */
  function Of(es: seq<Event>, id: Id): seq<Event> {
    if es == [] then []
    else Of(es[..|es| - 1], id) + (if IsOf(es[|es| - 1], id) then [es[|es| - 1]] else [])
  }

  /** The announcements, in order. */
  function Announced(es: seq<Event>): seq<Event> {
    if es == [] then []
    else Announced(es[..|es| - 1]) + (if es[|es| - 1].ToolCall? then [es[|es| - 1]] else [])
  }

  predicate DistinctCalls(calls: seq<Call>) {
    forall i, j :: 0 <= i < j < |calls| ==> calls[i].id != calls[j].id
  }

  predicate HasCall(calls: seq<Call>, e: Event) {
    exists i :: 0 <= i < |calls| && IsOf(e, calls[i].id)
  }

  /**
   * A turn's calls run concurrently, so their events may come in any order that keeps the
   * announcements in order and the events of every single call in order.
   */
  ghost predicate IsWeave(calls: seq<Call>, es: seq<Event>) {
    && Announced(es) == Announcements(calls)
    && (forall i :: 0 <= i < |calls| ==> Of(es, calls[i].id) == CallEvents(calls[i]))
    && (forall i :: 0 <= i < |es| ==> HasCall(calls, es[i]))
  }

  function Narrated(t: Turn): seq<Event> {
    match t.narration case Some(n) => [Narration(n)] case None => []
  }

  /** One block of events for every turn, each a weave of that turn's calls. */
  ghost predicate AreTurns(turns: seq<Turn>, blocks: seq<seq<Event>>) {
    |turns| == |blocks| && forall i :: 0 <= i < |turns| ==>
      DistinctCalls(turns[i].calls) && IsWeave(turns[i].calls, blocks[i])
  }

  function Joined(turns: seq<Turn>, blocks: seq<seq<Event>>): seq<Event>
    requires |turns| == |blocks|
  {
    if turns == [] then []
    else
      var last := |turns| - 1;
      Joined(turns[..last], blocks[..last]) + Narrated(turns[last]) + blocks[last]
  }

  function Concluded(run: Run): seq<Event> {
    match run.answer case Some(a) => [Final(a)] case None => []
  }

  /** `es` is something the run may report. */
  ghost predicate Reports(run: Run, es: seq<Event>) {
    exists blocks: seq<seq<Event>> :: ReportsWith(run, blocks, es)
  }

  ghost predicate ReportsWith(run: Run, blocks: seq<seq<Event>>, es: seq<Event>) {
    AreTurns(run.turns, blocks) && es == [Question(run.question)] + Joined(run.turns, blocks) + Concluded(run)
  }

  // ----- what the reader should see -----

  function AttemptViews(log: seq<Message>, attempts: seq<(Id, nat)>): seq<AttemptView> {
    if attempts == [] then []
    else
      var last := attempts[|attempts| - 1];
      AttemptViews(log, attempts[..|attempts| - 1]) + [AttemptView(Some(last.0), last.1, Thread(log, Some(last.0)))]
  }

  function CallView(log: seq<Message>, c: Call): Step {
    CallStep(Some(c.id), c.skill, c.params, AttemptViews(log, c.attempts), Some(c.result))
  }

  function CallViews(log: seq<Message>, calls: seq<Call>): seq<Step> {
    seq(|calls|, i requires 0 <= i < |calls| => CallView(log, calls[i]))
  }

  function NarratedSteps(t: Turn): seq<Step> {
    match t.narration case Some(n) => [NarrationStep(n)] case None => []
  }

  function TurnSteps(log: seq<Message>, t: Turn): seq<Step> {
    NarratedSteps(t) + CallViews(log, t.calls)
  }

  function TurnsSteps(log: seq<Message>, turns: seq<Turn>): seq<Step> {
    if turns == [] then []
    else TurnsSteps(log, turns[..|turns| - 1]) + TurnSteps(log, turns[|turns| - 1])
  }

  function RunSteps(log: seq<Message>, run: Run): seq<Step> {
    TurnsSteps(log, run.turns) + ConcludedSteps(run)
  }

  function ConcludedSteps(run: Run): seq<Step> {
    match run.answer case Some(a) => [FinalStep(a)] case None => []
  }

  // ----- one turn -----

  /** Every event belongs to a call announced before it, and no id is announced twice. */
  predicate Orderly(es: seq<Event>) {
    && (forall i :: 0 <= i < |es| ==> es[i].ToolCall? || es[i].Dispatch? || es[i].ToolResult?)
    && (forall i :: 0 <= i < |es| ==> es[i].call.Some?)
    && (forall i :: 0 <= i < |es| ==> (es[i].ToolCall? <==> !Seen(es[..i], es[i].call.value)))
  }

  predicate Seen(es: seq<Event>, id: Id) {
    exists j :: 0 <= j < |es| && Announces(es[j], id)
  }

  predicate Announces(e: Event, id: Id) { e.ToolCall? && e.call == Some(id) }

  /** A call as shown after the events `es`, all of them its own. */
  function Partial(log: seq<Message>, tc: Event, es: seq<Event>): (s: Step)
    requires tc.ToolCall?
    ensures s.CallStep? && s.call == tc.call
  {
    if es == [] then CallStep(tc.call, tc.skill, tc.params, [], None)
    else
      var s, e := Partial(log, tc, es[..|es| - 1]), es[|es| - 1];
      match e
      case Dispatch(_, request, attempt) =>
        s.(attempts := s.attempts + [AttemptView(request, attempt, Thread(log, request))])
      case ToolResult(_, result) => s.(result := Some(result))
      case _ => s
  }

  predicate ToolCalls(tcs: seq<Event>) {
    forall j :: 0 <= j < |tcs| ==> tcs[j].ToolCall? && tcs[j].call.Some?
  }

  /** For each announced call, its step after the events `es`. */
  function Parts(log: seq<Message>, tcs: seq<Event>, es: seq<Event>): seq<Step>
    requires ToolCalls(tcs)
  {
    seq(|tcs|, j requires 0 <= j < |tcs| => Partial(log, tcs[j], Of(es, tcs[j].call.value)))
  }

  /** The steps of the announced calls lie on top of `base`, and `calls` points at them. */
  predicate Laid(base: seq<Step>, tcs: seq<Event>, parts: seq<Step>, v: View) {
    && ToolCalls(tcs) && |parts| == |tcs|
    && v.steps == base + parts
    && (forall j :: 0 <= j < |tcs| ==> tcs[j].call in v.calls && v.calls[tcs[j].call] == |base| + j)
    && (forall j, k :: 0 <= j < k < |tcs| ==> tcs[j].call != tcs[k].call)
  }

  /** After the events `es` of a turn, shown on top of `base`. */
  predicate TurnShown(log: seq<Message>, base: seq<Step>, es: seq<Event>, v: View) {
    ToolCalls(Announced(es)) && Laid(base, Announced(es), Parts(log, Announced(es), es), v)
  }

  lemma {:induction false} SeenIsAnnounced(es: seq<Event>, id: Id)
    ensures Seen(es, id) <==> Seen(Announced(es), id)
  {
    if es != [] {
      var last := |es| - 1;
      SeenIsAnnounced(es[..last], id);
      SeenLast(es, id);
      if es[last].ToolCall? {
        ToldLast(es, id);
      } else {
        assert Announced(es) == Announced(es[..last]) && !Announces(es[last], id);
      }
    }
  }

  lemma ToldLast(es: seq<Event>, id: Id)
    requires es != [] && es[|es| - 1].ToolCall?
    ensures Seen(Announced(es), id) <==> Seen(Announced(es[..|es| - 1]), id) || Announces(es[|es| - 1], id)
  {
    var before, told := Announced(es[..|es| - 1]), Announced(es);
    assert told == before + [es[|es| - 1]];
    assert told[..|told| - 1] == before && told[|told| - 1] == es[|es| - 1];
    SeenLast(told, id);
  }

  lemma SeenLast(es: seq<Event>, id: Id)
    requires es != []
    ensures Seen(es, id) <==> Seen(es[..|es| - 1], id) || Announces(es[|es| - 1], id)
  {
    if Seen(es[..|es| - 1], id) {
      var j :| 0 <= j < |es| - 1 && Announces(es[..|es| - 1][j], id);
      assert Announces(es[j], id);
    }
    if Seen(es, id) {
      var j :| 0 <= j < |es| && Announces(es[j], id);
      assert j < |es| - 1 ==> Announces(es[..|es| - 1][j], id);
    }
  }

  lemma {:induction false} NothingUnseen(es: seq<Event>, id: Id)
    requires Orderly(es) && !Seen(es, id)
    ensures Of(es, id) == []
  {
    if es != [] {
      var last := |es| - 1;
      OrderlyBefore(es);
      SeenLast(es, id);
      NothingUnseen(es[..last], id);
    }
  }

  lemma OrderlyBefore(es: seq<Event>)
    requires Orderly(es) && es != []
    ensures Orderly(es[..|es| - 1])
  {
    forall i | 0 <= i < |es| - 1 ensures es[..|es| - 1][..i] == es[..i] && es[..|es| - 1][i] == es[i] {}
  }

  /** The place of a seen call among the announcements. */
  lemma PlaceOf(es: seq<Event>, id: Id) returns (j: nat)
    requires Seen(es, id)
    ensures j < |Announced(es)| && Announces(Announced(es)[j], id)
  {
    SeenIsAnnounced(es, id);
    j :| 0 <= j < |Announced(es)| && Announces(Announced(es)[j], id);
  }

  /** An announced call is new. */
  lemma AnnouncesNew(before: seq<Event>, e: Event)
    requires Orderly(before + [e]) && e.ToolCall?
    ensures Announced(before + [e]) == Announced(before) + [e] && Of(before + [e], e.call.value) == [e]
    ensures forall j :: 0 <= j < |Announced(before)| ==> !Announces(Announced(before)[j], e.call.value)
  {
    var es := before + [e];
    assert es[..|before|] == before;
    OrderlyBefore(es);
    NothingUnseen(before, e.call.value);
    SeenIsAnnounced(before, e.call.value);
  }

  lemma NewPartial(log: seq<Message>, e: Event)
    requires e.ToolCall?
    ensures Partial(log, e, [e]) == CallStep(e.call, e.skill, e.params, [], None)
  {
    assert [e][..0] == [];
  }

  lemma LaidMore(log: seq<Message>, base: seq<Step>, tcs: seq<Event>, parts: seq<Step>, v: View, e: Event)
    requires Laid(base, tcs, parts, v) && e.ToolCall? && e.call.Some?
    requires forall j :: 0 <= j < |tcs| ==> !Announces(tcs[j], e.call.value)
    ensures Laid(base, tcs + [e], parts + [CallStep(e.call, e.skill, e.params, [], None)], Show(log, v, e))
  {
    forall j | 0 <= j < |tcs| ensures tcs[j].call != e.call {
      assert !Announces(tcs[j], e.call.value);
    }
  }

  lemma PartsMore(log: seq<Message>, tcs: seq<Event>, before: seq<Event>, e: Event)
    requires ToolCalls(tcs) && e.ToolCall? && e.call.Some? && Of(before + [e], e.call.value) == [e]
    requires forall j :: 0 <= j < |tcs| ==> !Announces(tcs[j], e.call.value)
    ensures Parts(log, tcs + [e], before + [e]) ==
      Parts(log, tcs, before) + [CallStep(e.call, e.skill, e.params, [], None)]
  {
    NewPartial(log, e);
    assert (before + [e])[..|before|] == before;
    forall j | 0 <= j < |tcs| ensures Of(before + [e], tcs[j].call.value) == Of(before, tcs[j].call.value) {
      assert !Announces(tcs[j], e.call.value);
      OfNext(before + [e], tcs[j].call.value);
    }
  }

  lemma ShowAnnouncement(log: seq<Message>, base: seq<Step>, before: seq<Event>, e: Event, v: View)
    requires Orderly(before + [e]) && e.ToolCall? && e.call.Some?
    requires TurnShown(log, base, before, v)
    ensures TurnShown(log, base, before + [e], Show(log, v, e))
  {
    var tcs := Announced(before);
    AnnouncesNew(before, e);
    LaidMore(log, base, tcs, Parts(log, tcs, before), v, e);
    PartsMore(log, tcs, before, e);
  }

  /** A dispatch or result is shown in the step of its call. */
  lemma LaidUpdate(log: seq<Message>, base: seq<Step>, tcs: seq<Event>, parts: seq<Step>, v: View, e: Event, k: nat,
    own: seq<Event>)
    requires Laid(base, tcs, parts, v) && (e.Dispatch? || e.ToolResult?)
    requires k < |tcs| && e.call == tcs[k].call && parts[k] == Partial(log, tcs[k], own)
    ensures Laid(base, tcs, parts[k := Partial(log, tcs[k], own + [e])], Show(log, v, e))
  {
    assert (own + [e])[..|own|] == own;
  }

  lemma PartsUpdate(log: seq<Message>, tcs: seq<Event>, before: seq<Event>, e: Event, k: nat)
    requires ToolCalls(tcs) && (e.Dispatch? || e.ToolResult?) && k < |tcs| && e.call == tcs[k].call
    requires forall i, j :: 0 <= i < j < |tcs| ==> tcs[i].call != tcs[j].call
    ensures Parts(log, tcs, before + [e]) ==
      Parts(log, tcs, before)[k := Partial(log, tcs[k], Of(before, tcs[k].call.value) + [e])]
  {
    assert (before + [e])[..|before|] == before;
    forall j | 0 <= j < |tcs|
      ensures var own := Of(before, tcs[j].call.value);
        Of(before + [e], tcs[j].call.value) == if j == k then own + [e] else own
    {
      OfNext(before + [e], tcs[j].call.value);
    }
  }

  lemma OfNext(es: seq<Event>, id: Id)
    requires es != []
    ensures Of(es, id) == if IsOf(es[|es| - 1], id) then Of(es[..|es| - 1], id) + [es[|es| - 1]]
      else Of(es[..|es| - 1], id)
  {
  }

  lemma ShowUpdate(log: seq<Message>, base: seq<Step>, before: seq<Event>, e: Event, v: View)
    requires (e.Dispatch? || e.ToolResult?) && e.call.Some? && Seen(before, e.call.value)
    requires TurnShown(log, base, before, v)
    ensures TurnShown(log, base, before + [e], Show(log, v, e))
  {
    var tcs := Announced(before);
    assert (before + [e])[..|before|] == before;
    assert Announced(before + [e]) == tcs;
    var k := PlaceOf(before, e.call.value);
    LaidUpdate(log, base, tcs, Parts(log, tcs, before), v, e, k, Of(before, e.call.value));
    PartsUpdate(log, tcs, before, e, k);
  }

  lemma ShowNext(log: seq<Message>, base: seq<Step>, before: seq<Event>, e: Event, v: View)
    requires Orderly(before + [e]) && TurnShown(log, base, before, v)
    ensures TurnShown(log, base, before + [e], Show(log, v, e))
    ensures Show(log, v, e).question == v.question && Show(log, v, e).answer == v.answer
  {
    var es := before + [e];
    assert es[|before|] == e && es[..|before|] == before;
    if e.ToolCall? { ShowAnnouncement(log, base, before, e, v); } else { ShowUpdate(log, base, before, e, v); }
  }

  /** Whatever the order of its events, a turn is shown call by call. */
  lemma {:induction false} ShowTurn(log: seq<Message>, v: View, es: seq<Event>)
    requires Orderly(es)
    ensures TurnShown(log, v.steps, es, ShowAll(log, v, es))
    ensures ShowAll(log, v, es).question == v.question && ShowAll(log, v, es).answer == v.answer
  {
    if es != [] {
      var before := es[..|es| - 1];
      OrderlyBefore(es);
      ShowTurn(log, v, before);
      assert es == before + [es[|es| - 1]];
      ShowNext(log, v.steps, before, es[|es| - 1], ShowAll(log, v, before));
    }
  }

  // ----- a weave is orderly -----

  lemma {:induction false} OfPrefix(es: seq<Event>, k: nat, id: Id)
    requires k <= |es|
    ensures Of(es[..k], id) <= Of(es, id)
  {
    if k < |es| {
      OfPrefix(es[..|es| - 1], k, id);
      assert es[..|es| - 1][..k] == es[..k];
    } else {
      assert es[..k] == es;
    }
  }

  lemma {:induction false} SeenInOf(es: seq<Event>, id: Id)
    ensures Seen(es, id) ==> Of(es, id) != []
    ensures Of(es, id) != [] && Of(es, id)[0].ToolCall? ==> Seen(es, id)
  {
    if es != [] {
      SeenInOf(es[..|es| - 1], id);
      SeenLast(es, id);
    }
  }

  lemma {:induction false} AttemptedKinds(c: Call, k: nat)
    requires k <= |c.attempts|
    ensures |AttemptedUpTo(c, k)| == k && forall i :: 0 <= i < k ==> AttemptedUpTo(c, k)[i].Dispatch?
  {
    if k > 0 { AttemptedKinds(c, k - 1); }
  }

  /** The place of an event among those of its id. */
  lemma OfAt(es: seq<Event>, i: nat, id: Id)
    requires i < |es| && IsOf(es[i], id)
    ensures Of(es[..i], id) + [es[i]] <= Of(es, id)
  {
    assert es[..i + 1][..i] == es[..i];
    OfPrefix(es, i + 1, id);
  }

  lemma FirstIsAnnouncement(c: Call, j: nat)
    requires j < |CallEvents(c)|
    ensures CallEvents(c)[j].ToolCall? <==> j == 0
  {
    AttemptedKinds(c, |c.attempts|);
  }

  /** Within a weave, an event is an announcement exactly when its call was not seen before. */
  lemma WeaveStep(calls: seq<Call>, es: seq<Event>, i: nat, k: nat)
    requires IsWeave(calls, es) && i < |es| && k < |calls| && IsOf(es[i], calls[k].id)
    ensures es[i].ToolCall? <==> !Seen(es[..i], calls[k].id)
  {
    EventInCall(calls[k], es, i);
  }

  lemma EventInCall(c: Call, es: seq<Event>, i: nat)
    requires Of(es, c.id) == CallEvents(c) && i < |es| && IsOf(es[i], c.id)
    ensures es[i].ToolCall? <==> !Seen(es[..i], c.id)
  {
    var own := Of(es[..i], c.id);
    OfAt(es, i, c.id);
    assert es[i] == CallEvents(c)[|own|];
    FirstIsAnnouncement(c, |own|);
    SeenInOf(es[..i], c.id);
    if own != [] {
      assert own[0] == CallEvents(c)[0];
      FirstIsAnnouncement(c, 0);
    }
  }

  lemma WeaveIsOrderly(calls: seq<Call>, es: seq<Event>)
    requires IsWeave(calls, es)
    ensures Orderly(es)
  {
    forall i | 0 <= i < |es|
      ensures es[i].ToolCall? || es[i].Dispatch? || es[i].ToolResult?
      ensures es[i].call.Some? && (es[i].ToolCall? <==> !Seen(es[..i], es[i].call.value))
    {
      assert HasCall(calls, es[i]);
      var k :| 0 <= k < |calls| && IsOf(es[i], calls[k].id);
      WeaveStep(calls, es, i, k);
    }
  }

  // ----- a complete call is shown as it was -----

  lemma {:induction false} PartialAttempts(log: seq<Message>, c: Call, k: nat)
    requires k <= |c.attempts|
    ensures Partial(log, Announcement(c), [Announcement(c)] + AttemptedUpTo(c, k)) ==
      CallStep(Some(c.id), c.skill, c.params, AttemptViews(log, c.attempts[..k]), None)
  {
    var es := [Announcement(c)] + AttemptedUpTo(c, k);
    if k == 0 {
      assert es[..0] == [] && es == [Announcement(c)];
    } else {
      PartialAttempts(log, c, k - 1);
      assert es[..|es| - 1] == [Announcement(c)] + AttemptedUpTo(c, k - 1);
      assert c.attempts[..k][..k - 1] == c.attempts[..k - 1];
    }
  }

  lemma WholeCall(log: seq<Message>, c: Call)
    ensures Partial(log, Announcement(c), CallEvents(c)) == CallView(log, c)
  {
    var es := CallEvents(c);
    PartialAttempts(log, c, |c.attempts|);
    assert es[..|es| - 1] == [Announcement(c)] + Attempted(c);
    assert c.attempts[..|c.attempts|] == c.attempts;
  }

  lemma {:induction false} AnnouncementAt(calls: seq<Call>, j: nat)
    requires j < |calls|
    ensures |Announcements(calls)| == |calls| && Announcements(calls)[j] == Announcement(calls[j])
  {
    if j < |calls| - 1 {
      AnnouncementAt(calls[..|calls| - 1], j);
    } else if |calls| > 1 {
      AnnouncementAt(calls[..|calls| - 1], 0);
    }
  }

  lemma {:induction false} AnnouncedCount(calls: seq<Call>)
    ensures |Announcements(calls)| == |calls|
  {
    if calls != [] { AnnouncedCount(calls[..|calls| - 1]); }
  }

  /** `v'` is `v` with `added` shown below it. */
  predicate Adds(v: View, added: seq<Step>, v': View) {
    v'.steps == v.steps + added && v'.question == v.question && v'.answer == v.answer
  }

  lemma AddsTwice(v: View, first: seq<Step>, v1: View, second: seq<Step>, v2: View)
    requires Adds(v, first, v1) && Adds(v1, second, v2)
    ensures Adds(v, first + second, v2)
  {
    assert v.steps + first + second == v.steps + (first + second);
  }

  lemma ShownCall(log: seq<Message>, base: seq<Step>, calls: seq<Call>, es: seq<Event>, v: View, j: nat)
    requires TurnShown(log, base, es, v) && Announced(es) == Announcements(calls) && j < |calls|
    requires Of(es, calls[j].id) == CallEvents(calls[j])
    ensures |base| + j < |v.steps| && v.steps[|base| + j] == CallView(log, calls[j])
  {
    AnnouncementAt(calls, j);
    WholeCall(log, calls[j]);
  }

  lemma StepsAre(base: seq<Step>, added: seq<Step>, steps: seq<Step>)
    requires |steps| == |base| + |added| && steps[..|base|] == base
    requires forall j :: 0 <= j < |added| ==> steps[|base| + j] == added[j]
    ensures steps == base + added
  {
    assert steps == steps[..|base|] + steps[|base|..];
  }

  /** A whole turn, in any order its threads allow, is shown as that turn. */
  lemma ShownTurn(log: seq<Message>, base: seq<Step>, calls: seq<Call>, es: seq<Event>, v: View)
    requires TurnShown(log, base, es, v) && IsWeave(calls, es)
    ensures v.steps == base + CallViews(log, calls)
  {
    AnnouncedCount(calls);
    var added := CallViews(log, calls);
    forall j | 0 <= j < |added| ensures v.steps[|base| + j] == added[j] {
      ShownCall(log, base, calls, es, v, j);
    }
    StepsAre(base, added, v.steps);
  }

  lemma ShowWeave(log: seq<Message>, v: View, calls: seq<Call>, es: seq<Event>)
    requires IsWeave(calls, es)
    ensures Adds(v, CallViews(log, calls), ShowAll(log, v, es))
  {
    WeaveIsOrderly(calls, es);
    ShowTurn(log, v, es);
    ShownTurn(log, v.steps, calls, es, ShowAll(log, v, es));
  }

  lemma {:induction false} ShowAllConcat(log: seq<Message>, v: View, a: seq<Event>, b: seq<Event>)
    ensures ShowAll(log, v, a + b) == ShowAll(log, ShowAll(log, v, a), b)
  {
    if b == [] {
      assert a + b == a;
    } else {
      var last := |b| - 1;
      ShowAllConcat(log, v, a, b[..last]);
      assert (a + b)[..|a + b| - 1] == a + b[..last];
    }
  }

  lemma ShowOne(log: seq<Message>, v: View, e: Event)
    ensures ShowAll(log, v, [e]) == Show(log, v, e)
  {
    assert [e][..0] == [];
  }

  lemma ShowNarration(log: seq<Message>, v: View, t: Turn)
    ensures Adds(v, NarratedSteps(t), ShowAll(log, v, Narrated(t)))
  {
    if t.narration.Some? { ShowOne(log, v, Narration(t.narration.value)); }
  }

  /** What two pieces add, one after the other. */
  lemma AddsBoth(log: seq<Message>, v: View, a: seq<Event>, first: seq<Step>, b: seq<Event>, second: seq<Step>)
    requires Adds(v, first, ShowAll(log, v, a))
    requires Adds(ShowAll(log, v, a), second, ShowAll(log, ShowAll(log, v, a), b))
    ensures Adds(v, first + second, ShowAll(log, v, a + b))
  {
    ShowAllConcat(log, v, a, b);
    AddsTwice(v, first, ShowAll(log, v, a), second, ShowAll(log, ShowAll(log, v, a), b));
  }

  lemma ShowTurnOnTop(log: seq<Message>, v: View, t: Turn, block: seq<Event>)
    requires IsWeave(t.calls, block)
    ensures Adds(v, TurnSteps(log, t), ShowAll(log, v, Narrated(t) + block))
  {
    ShowNarration(log, v, t);
    ShowWeave(log, ShowAll(log, v, Narrated(t)), t.calls, block);
    AddsBoth(log, v, Narrated(t), NarratedSteps(t), block, CallViews(log, t.calls));
  }

  lemma AreTurnsBefore(turns: seq<Turn>, blocks: seq<seq<Event>>)
    requires AreTurns(turns, blocks) && turns != []
    ensures AreTurns(turns[..|turns| - 1], blocks[..|turns| - 1])
    ensures IsWeave(turns[|turns| - 1].calls, blocks[|turns| - 1])
  {
  }

  lemma JoinedLast(turns: seq<Turn>, blocks: seq<seq<Event>>)
    requires |turns| == |blocks| && turns != []
    ensures var last := |turns| - 1;
      Joined(turns, blocks) == Joined(turns[..last], blocks[..last]) + (Narrated(turns[last]) + blocks[last])
  {
  }

  lemma {:induction false} ShowTurns(log: seq<Message>, v: View, turns: seq<Turn>, blocks: seq<seq<Event>>)
    requires AreTurns(turns, blocks)
    ensures Adds(v, TurnsSteps(log, turns), ShowAll(log, v, Joined(turns, blocks)))
  {
    if turns != [] {
      var last := |turns| - 1;
      AreTurnsBefore(turns, blocks);
      var before, block := Joined(turns[..last], blocks[..last]), Narrated(turns[last]) + blocks[last];
      ShowTurns(log, v, turns[..last], blocks[..last]);
      ShowTurnOnTop(log, ShowAll(log, v, before), turns[last], blocks[last]);
      AddsBoth(log, v, before, TurnsSteps(log, turns[..last]), block, TurnSteps(log, turns[last]));
      JoinedLast(turns, blocks);
    }
  }

  lemma ShowConcluded(log: seq<Message>, v: View, run: Run)
    requires v.answer == None
    ensures var v' := ShowAll(log, v, Concluded(run));
      v'.steps == v.steps + ConcludedSteps(run) && v'.question == v.question && v'.answer == run.answer
  {
    if run.answer.Some? { ShowOne(log, v, Final(run.answer.value)); }
  }

  lemma ShowInThree(log: seq<Message>, a: seq<Event>, b: seq<Event>, c: seq<Event>)
    ensures ShowAll(log, Blank, a + b + c) == ShowAll(log, ShowAll(log, ShowAll(log, Blank, a), b), c)
  {
    ShowAllConcat(log, Blank, a, b);
    ShowAllConcat(log, Blank, a + b, c);
  }

  lemma ViewOfParts(log: seq<Message>, run: Run, v1: View, v2: View, v3: View)
    requires v1.question == Some(run.question) && v1.steps == []
    requires Adds(v1, TurnsSteps(log, run.turns), v2)
    requires v3.steps == v2.steps + ConcludedSteps(run) && v3.question == v2.question && v3.answer == run.answer
    ensures IsViewOf(log, run, v3)
  {
  }

  lemma ShowQuestion(log: seq<Message>, question: nat)
    ensures ShowAll(log, Blank, [Question(question)]) == View(Some(question), None, [], map[])
  {
    ShowOne(log, Blank, Question(question));
  }

  lemma ShowRun(log: seq<Message>, run: Run, blocks: seq<seq<Event>>)
    requires AreTurns(run.turns, blocks)
    ensures IsViewOf(log, run, ShowAll(log, Blank,
      [Question(run.question)] + Joined(run.turns, blocks) + Concluded(run)))
  {
    var q, middle := [Question(run.question)], Joined(run.turns, blocks);
    var v1 := ShowAll(log, Blank, q);
    var v2 := ShowAll(log, v1, middle);
    ShowQuestion(log, run.question);
    ShowTurns(log, v1, run.turns, blocks);
    ShowConcluded(log, v2, run);
    ViewOfParts(log, run, v1, v2, ShowAll(log, v2, Concluded(run)));
    ShowInThree(log, q, middle, Concluded(run));
  }

  /** The reader sees the run's question, its answer and its steps. */
  predicate IsViewOf(log: seq<Message>, run: Run, v: View) {
    v.question == Some(run.question) && v.answer == run.answer && v.steps == RunSteps(log, run)
  }

  /**
   * The round trip. If the log holds, for conversation c, the events of a run in any order the
   * run's threads allow - anything else may lie between them - then the reconstruction returns
   * the run's question, its narrations and tool calls in order, every attempt in order under
   * its call with the bus traffic of its request, every result, and the answer.
   */
  lemma ReconstructionIsFaithful(log: seq<Message>, c: Id, run: Run)
    requires Reports(run, EventsOf(log, c))
    ensures IsViewOf(log, run, ShowAll(log, Blank, EventsOf(log, c)))
  {
    var blocks :| ReportsWith(run, blocks, EventsOf(log, c));
    ShowRun(log, run, blocks);
  }
}

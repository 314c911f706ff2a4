/**
 * How an event becomes a message: the dictionary `converse` reports, the one that
 * reasoning.py `publishing_on_event` sends, and what conversations.py reads back out of it.
 */
module Wire {
  import opened Wrappers
  import opened Conversations

  datatype Field = TypeF | EventF | ConvF | CallF | RequestF | AttemptF | SkillF | ParamsF | ContentF | ResultF

  datatype Value = Str(s: string) | Num(n: nat)

  type Dict = map<Field, Value>

  const HeadReasoning := "head_reasoning"

  function Id(field: Field, id: Option<nat>): Dict {
    match id case Some(n) => map[field := Num(n)] case None => map[]
  }

  /** The event as `converse` writes it. */
  function Encode(e: Event): Dict {
    match e
    case Question(c) => map[TypeF := Str("question"), ContentF := Num(c)]
    case Narration(c) => map[TypeF := Str("narration"), ContentF := Num(c)]
    case ToolCall(call, skill, params) => map[TypeF := Str("tool_call"), SkillF := Num(skill),
      ParamsF := Num(params)] + Id(CallF, call)
    case Dispatch(call, request, attempt) => map[TypeF := Str("dispatch"), AttemptF := Num(attempt)] + Id(CallF,
      call) + Id(RequestF, request)
    case ToolResult(call, result) => map[TypeF := Str("tool_result"), ResultF := Num(result)] + Id(CallF, call)
    case Final(c) => map[TypeF := Str("final"), ContentF := Num(c)]
    case Unknown => map[TypeF := Str("")]
  }

  /** `emit` puts the conversation id under the event's own fields. */
  function Emit(conv: nat, d: Dict): Dict { map[ConvF := Num(conv)] + d }

  /** publishing_on_event: the event's fields, its type moved to "event", then the type of the message. */
  function Publish(d: Dict): Dict {
    d + (if TypeF in d then map[EventF := d[TypeF]] else map[]) + map[TypeF := Str(HeadReasoning)]
  }

  /** The same with the spread last. */
  function PublishSpreadLast(d: Dict): Dict {
    map[TypeF := Str(HeadReasoning)] + (if TypeF in d then map[EventF := d[TypeF]] else map[]) + d
  }

  function Text(d: Dict, f: Field): string { if f in d && d[f].Str? then d[f].s else "" }

  function Number(d: Dict, f: Field): Option<nat> { if f in d && d[f].Num? then Some(d[f].n) else None }

  function NumberOr0(d: Dict, f: Field): nat { if f in d && d[f].Num? then d[f].n else 0 }

  function Decode(d: Dict): Event {
    var event := Text(d, EventF);
    if event == "tool_call" then ToolCall(Number(d, CallF), NumberOr0(d, SkillF), NumberOr0(d, ParamsF))
    else if event == "dispatch" then Dispatch(Number(d, CallF), Number(d, RequestF), NumberOr0(d, AttemptF))
    else if event == "tool_result" then ToolResult(Number(d, CallF), NumberOr0(d, ResultF))
    else if event == "question" then Question(NumberOr0(d, ContentF))
    else if event == "narration" then Narration(NumberOr0(d, ContentF))
    else if event == "final" then Final(NumberOr0(d, ContentF))
    else Unknown
  }

  predicate EndsWith(s: string, suffix: string) { |suffix| <= |s| && s[|s| - |suffix|..] == suffix }

  /** _classify, and for a reasoning message the reading of its fields in build_conversation. */
  function Classify(d: Dict): Body {
    var kind := Text(d, TypeF);
    if kind == HeadReasoning then Reasoning(Number(d, ConvF), Decode(d))
    else if kind == "agent_message" then Dialogue(Number(d, RequestF), NumberOr0(d, ContentF))
    else if "skill_" <= kind || EndsWith(kind, "_ready") then SkillTraffic(Number(d, RequestF), NumberOr0(d, ContentF))
    else OtherTraffic(Number(d, RequestF), NumberOr0(d, ContentF))
  }

  /** The parts of a body that every message but a reasoning one has. */
  predicate About(d: Dict, about: Option<nat>, content: nat) {
    about == Number(d, RequestF) && (match Number(d, ContentF) case Some(n) => content == n case None => content == 0)
  }

  ghost predicate AboutSkills(kind: string) {
    (exists rest :: kind == "skill_" + rest) || (exists start :: kind == start + "_ready")
  }

  /**
   * What a message is read as: the head's reasoning and the agents' dialogue by their one type each,
   * everything about skills by the beginning or the end of its type, and the rest as other traffic.
   */
  lemma ClassifiedAs(d: Dict, kind: string)
    requires TypeF in d && d[TypeF] == Str(kind)
    ensures kind == "head_reasoning" ==> Classify(d) == Reasoning(Number(d, ConvF), Decode(d))
    ensures kind == "agent_message" ==> Classify(d).Dialogue? && About(d, Classify(d).about, Classify(d).content)
    ensures AboutSkills(kind) ==> Classify(d).SkillTraffic? && About(d, Classify(d).about, Classify(d).content)
    ensures kind != "head_reasoning" && kind != "agent_message" && !AboutSkills(kind) ==>
      Classify(d).OtherTraffic? && About(d, Classify(d).about, Classify(d).content)
  {
    assert HeadReasoning[0] == 'h' && "agent_message"[0] == 'a' && "skill_"[0] == 's';
    assert |HeadReasoning| == 14 && |"agent_message"| == 13 && |"_ready"| == 6;
    assert HeadReasoning[13] == 'g' && "agent_message"[12] == 'e' && "_ready"[5] == 'y';
    if "skill_" <= kind { assert kind == "skill_" + kind[6..]; }
    if EndsWith(kind, "_ready") { assert kind == kind[..|kind| - 6] + "_ready"; }
    forall start | kind == start + "_ready" ensures EndsWith(kind, "_ready") && kind[|kind| - 1] == 'y' {
      assert kind[|kind| - 6..] == "_ready";
    }
  }

  /** A body without a type, or with one that is no string, is other traffic. */
  lemma Untyped(d: Dict)
    requires TypeF in d ==> d[TypeF].Num?
    ensures Classify(d).OtherTraffic?
  {
    assert Text(d, TypeF) == "" && |HeadReasoning| == 14;
  }

  /** Publishing adds the conversation and moves the type; every other field is sent as it is. */
  lemma FieldsSent(conv: nat, d: Dict)
    requires ConvF !in d
    ensures var sent := Publish(Emit(conv, d));
      && Text(sent, TypeF) == HeadReasoning && Number(sent, ConvF) == Some(conv)
         && (TypeF in d ==> Text(sent, EventF) == Text(d, TypeF))
      && forall f :: f in {CallF, RequestF, AttemptF, SkillF, ParamsF, ContentF, ResultF} ==>
         Number(sent, f) == Number(d, f)
  {
  }

  /** What is published is read back: the conversation and the event, field by field. */
  lemma EventRoundTrip(conv: nat, e: Event)
    ensures Classify(Publish(Emit(conv, Encode(e)))) == Reasoning(Some(conv), e)
  {
    FieldsSent(conv, Encode(e));
    FieldsReadBack(Publish(Emit(conv, Encode(e))), e);
  }

  lemma FieldsReadBack(d: Dict, e: Event)
    requires Text(d, EventF) == Text(Encode(e), TypeF)
    requires forall f :: f in {CallF, RequestF, AttemptF, SkillF, ParamsF, ContentF, ResultF} ==>
      Number(d, f) == Number(Encode(e), f)
    ensures Decode(d) == e
  {
    assert forall f :: NumberOr0(d, f) == (match Number(d, f) case Some(n) => n case None => 0);
    assert |"question"| == 8 && |"narration"| == 9 && |"tool_call"| == 9 && |"dispatch"| == 8 && |"tool_result"| == 11
      && |"final"| == 5;
    assert "question"[0] == 'q' && "dispatch"[0] == 'd' && "narration"[0] == 'n' && "tool_call"[0] == 't';
  }

  /** With the spread last no event is read as reasoning, whatever it is. */
  lemma SpreadLastIsLost(conv: nat, e: Event)
    ensures !Classify(PublishSpreadLast(Emit(conv, Encode(e)))).Reasoning?
  {
    var d := PublishSpreadLast(Emit(conv, Encode(e)));
    assert Text(d, TypeF) == Text(Encode(e), TypeF);
    assert |HeadReasoning| == 14;
  }
}

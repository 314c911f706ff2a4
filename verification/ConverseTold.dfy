/**
 * What a conversation leaves behind: the transcript it hands to `on_done`, and the events it
 * reported. The events of a finished conversation are a report of its run in the sense of
 * RoundTrip, so the reconstruction gives the conversation back.
 */
module ConverseTold {
  import opened Wrappers
  import opened Conversations
  import opened Converse
  import RT = RoundTrip

  // ----- the transcript -----

  /** The tool messages for the first n calls, in the order of the calls. */
  function Tools(round: Round, n: nat): seq<Said>
    requires n <= |round.calls|
  {
    if n == 0 then [] else Tools(round, n - 1) + [Tool(round.calls[n - 1].id, ResultOf(round, round.calls[n - 1].id))]
  }

  /** The joiner's result for a call id; once all results are in, there is one for every call. */
  function ResultOf(round: Round, id: Id): nat {
    if id in round.joiner.results then round.joiner.results[id] else 0
  }

  /** The question, then every turn followed by one tool message per call. */
  function Transcript(cfg: Config, rounds: seq<Round>): seq<Said>
    decreases |rounds|, 1
  {
    if rounds == [] then [User(cfg.question)]
      else Asked(cfg, rounds) + Tools(rounds[|rounds| - 1], |rounds[|rounds| - 1].calls|)
  }

  /** The same, up to the assistant message of the last turn. */
  function Asked(cfg: Config, rounds: seq<Round>): seq<Said>
    requires rounds != []
    decreases |rounds|, 0
  {
    var last := rounds[|rounds| - 1];
    Transcript(cfg, rounds[..|rounds| - 1]) + [Assistant(last.text, last.calls)]
  }

  /** The answer is the text of an assistant message, or the placeholder if that has none. */
  predicate IsAnswer(cfg: Config, text: Option<nat>, answer: nat) {
    (text.Some? ==> answer == text.value) && (text.None? ==> answer == cfg.emptyText)
  }

  /** What on_done gets, and after how many chat calls. */
  ghost predicate Ended(cfg: Config, rounds: seq<Round>, chats: nat, o: Outcome) {
    match o
    case Concluded(answer, messages) =>
      chats == |rounds| + 1 <= cfg.maxTurns &&
      exists text: Option<nat> :: IsAnswer(cfg, text, answer)
        && messages == Transcript(cfg, rounds) + [Assistant(text, [])]
    case DidNotConclude(messages) =>
      chats == |rounds| && (chats == cfg.maxTurns || (chats == 0 && cfg.maxTurns < 0))
        && messages == Transcript(cfg, rounds)
  }

  ghost predicate Spoken(cfg: Config, s: State) {
    && (s.rounds != [] ==> |s.rounds| <= cfg.maxTurns)
    && if s.outcomes != [] then Ended(cfg, s.rounds, s.chats, s.outcomes[0]) && s.store == None
       else if s.conts == [] then s.rounds != [] && s.store == Some(Asked(cfg, s.rounds)) && s.chats == |s.rounds|
       else
         match s.conts[0]
         case DoTurn(_) => s.store == Some(Transcript(cfg, s.rounds)) && s.chats == |s.rounds|
         case Issuing(_, _) => s.rounds != [] && s.store == Some(Asked(cfg, s.rounds)) && s.chats == |s.rounds|
         case Collecting(r, _, k) =>
           && r == |s.rounds| - 1 && k <= |s.rounds[r].calls| && s.chats == |s.rounds|
           && s.store == Some(Asked(cfg, s.rounds) + Tools(s.rounds[r], k))
         case Finishing(o) => Ended(cfg, s.rounds, s.chats, o) && s.store == Some(o.messages)
  }

  /** Changes to the last round's calls do not touch what was asked. */
  lemma AskedUpdate(cfg: Config, rounds: seq<Round>, round: Round)
    requires rounds != []
    requires round.text == rounds[|rounds| - 1].text && round.calls == rounds[|rounds| - 1].calls
    ensures Asked(cfg, rounds[|rounds| - 1 := round]) == Asked(cfg, rounds)
  {
    assert rounds[|rounds| - 1 := round][..|rounds| - 1] == rounds[..|rounds| - 1];
  }

  lemma IssueSpoken(cfg: Config, s: State, reply: Reply)
    requires Single(s) && Spoken(cfg, s) && s.conts != [] && s.conts[0].Issuing?
    requires Proceed(cfg, s, 0, reply).Some?
    ensures Spoken(cfg, Proceed(cfg, s, 0, reply).value)
  {
    var r := s.conts[0].round;
    AskedUpdate(cfg, s.rounds, Proceed(cfg, s, 0, reply).value.rounds[r]);
  }

  lemma ChatSpoken(cfg: Config, s: State, reply: Reply)
    requires Single(s) && Spoken(cfg, s) && s.conts == [DoTurn(|s.rounds|)] && |s.rounds| < cfg.maxTurns
    ensures s.store.Some? && Spoken(cfg, Chat(cfg, s, 0, reply, s.store.value))
  {
    assert (s.rounds + [Fresh(reply)])[..|s.rounds|] == s.rounds;
  }

  lemma ProceedSpoken(cfg: Config, s: State, reply: Reply)
    requires Single(s) && Spoken(cfg, s) && s.conts != [] && Proceed(cfg, s, 0, reply).Some?
    ensures Spoken(cfg, Proceed(cfg, s, 0, reply).value)
  {
    match s.conts[0]
    case DoTurn(index) => if index < cfg.maxTurns { ChatSpoken(cfg, s, reply); }
    case Issuing(_, _) => IssueSpoken(cfg, s, reply);
    case Collecting(r, results, k) =>
      if k < |s.rounds[r].calls| { CollectSpoken(cfg, s, r, results, k); }
    case Finishing(_) =>
  }

  lemma CollectSpoken(cfg: Config, s: State, r: nat, results: map<Id, nat>, k: nat)
    requires Single(s) && Spoken(cfg, s) && s.conts == [Collecting(r, results, k)] && k < |s.rounds[r].calls|
    ensures s.store.Some? && s.rounds[r].calls[k].id in results
    ensures s.store.value + [Tool(s.rounds[r].calls[k].id, results[s.rounds[r].calls[k].id])] ==
      Asked(cfg, s.rounds) + Tools(s.rounds[r], k + 1)
  {
    OrderedWhenAll(s.rounds[r].calls, s.rounds[r].joiner.results);
    assert AllSubmitted(s.rounds[r].live);
  }

  lemma JoinSpoken(cfg: Config, s: State, r: nat, k: nat)
    requires Single(s) && Spoken(cfg, s) && Happen(s, r, k, Submit).Some?
    ensures Spoken(cfg, Happen(s, r, k, Submit).value)
  {
    var s', round := Join(s, r, k).value, s.rounds[r];
    StillOut(s, r, k);
    AskedUpdate(cfg, s.rounds, s'.rounds[r]);
    if s'.conts != s.conts {
      NothingToIssue(s, r, k);
      assert s'.conts[0].Collecting?;
      assert Asked(cfg, s'.rounds) + Tools(s'.rounds[r], 0) == Asked(cfg, s'.rounds);
    }
  }

  lemma HappenSpoken(cfg: Config, s: State, r: nat, k: nat, what: Happening)
    requires Single(s) && Spoken(cfg, s) && Happen(s, r, k, what).Some?
    ensures Spoken(cfg, Happen(s, r, k, what).value)
  {
    if what.Submit? {
      JoinSpoken(cfg, s, r, k);
    } else {
      StillOut(s, r, k);
      AskedUpdate(cfg, s.rounds, Happen(s, r, k, what).value.rounds[r]);
    }
  }

  // ----- whose result is whose -----

  predicate DistinctIds(calls: seq<ToolUse>) {
    forall i, j :: 0 <= i < j < |calls| ==> calls[i].id != calls[j].id
  }

  /** With distinct call ids the joiner keeps each call's own result. */
  predicate Kept(round: Round) {
    |round.live| == |round.calls| &&
    (DistinctIds(round.calls) ==>
       forall k :: 0 <= k < |round.live| && round.live[k].Submitted? ==>
         ResultOf(round, round.calls[k].id) == round.live[k].result)
  }

  // ----- the events -----

  function AsCall(u: ToolUse, attempts: seq<(Id, nat)>, result: nat): RT.Call {
    RT.Call(u.id, u.skill, u.params, attempts, result)
  }

  /** What a call in this status has reported. */
  function CallTold(u: ToolUse, status: Status): seq<Event> {
    match status
    case Unissued => []
    case Announced => [RT.Announcement(AsCall(u, [], 0))]
    case Running(attempts) => [RT.Announcement(AsCall(u, attempts, 0))] + RT.Attempted(AsCall(u, attempts, 0))
    case Answered(attempts, result) => RT.CallEvents(AsCall(u, attempts, result))
    case Submitted(attempts, result) => RT.CallEvents(AsCall(u, attempts, result))
  }

  predicate HasUse(calls: seq<ToolUse>, e: Event) {
    exists k :: 0 <= k < |calls| && RT.IsOf(e, calls[k].id)
  }

  /** The calls announced are the first ones, in order. */
  predicate AnnouncedInOrder(round: Round) {
    var told := RT.Announced(round.block);
    && |round.live| == |round.calls| >= |told|
    && (forall j :: 0 <= j < |told| ==> told[j] == RT.Announcement(AsCall(round.calls[j], [], 0)))
    && (forall j :: 0 <= j < |round.live| ==> (round.live[j].Unissued? <==> |told| <= j))
  }

  /** Of every call the block holds what it has reported, in order. */
  predicate EachInOrder(round: Round) {
    |round.live| == |round.calls| &&
    forall k :: 0 <= k < |round.live| ==>
      RT.Of(round.block, round.calls[k].id) == CallTold(round.calls[k], round.live[k])
  }

  predicate OnlyOwn(round: Round) {
    forall i :: 0 <= i < |round.block| ==> HasUse(round.calls, round.block[i])
  }

  /** The block of a round is a weave of what its calls have reported so far. */
  predicate WovenSoFar(round: Round) { AnnouncedInOrder(round) && EachInOrder(round) && OnlyOwn(round) }

  predicate Woven(round: Round) {
    DistinctIds(round.calls) ==> WovenSoFar(round)
  }

  /** Reported(rounds) - the blocks, each after its turn's narration. */
  function Reported(rounds: seq<Round>): seq<Event> {
    if rounds == [] then []
    else Reported(rounds[..|rounds| - 1]) + Narrated(rounds[|rounds| - 1].text) + rounds[|rounds| - 1].block
  }

  function Ending(s: State): seq<Event> {
    var o := if s.outcomes != [] then Some(s.outcomes[0])
             else if s.conts != [] && s.conts[0].Finishing? then Some(s.conts[0].outcome) else None;
    if o.Some? && o.value.Concluded? then [Final(o.value.answer)] else []
  }

  predicate RoundsTold(rounds: seq<Round>) {
    forall i :: 0 <= i < |rounds| ==> Woven(rounds[i]) && Kept(rounds[i])
  }

  predicate Told(cfg: Config, s: State) {
    s.events == [Question(cfg.question)] + Reported(s.rounds) + Ending(s) && RoundsTold(s.rounds)
  }

  lemma ReportedUpdate(rounds: seq<Round>, round: Round, more: seq<Event>)
    requires rounds != [] && round.text == rounds[|rounds| - 1].text
    requires round.block == rounds[|rounds| - 1].block + more
    ensures Reported(rounds[|rounds| - 1 := round]) == Reported(rounds) + more
  {
    assert rounds[|rounds| - 1 := round][..|rounds| - 1] == rounds[..|rounds| - 1];
  }

  lemma AttemptedMore(u: ToolUse, attempts: seq<(Id, nat)>, a: (Id, nat))
    ensures RT.Attempted(AsCall(u, attempts + [a], 0)) ==
      RT.Attempted(AsCall(u, attempts, 0)) + [Dispatch(Some(u.id), Some(a.0), a.1)]
  {
    AttemptedPrefix(AsCall(u, attempts + [a], 0), AsCall(u, attempts, 0), |attempts|);
  }

  lemma {:induction false} AttemptedPrefix(c: RT.Call, d: RT.Call, k: nat)
    requires c.id == d.id && k <= |c.attempts| && k <= |d.attempts| && c.attempts[..k] == d.attempts[..k]
    ensures RT.AttemptedUpTo(c, k) == RT.AttemptedUpTo(d, k)
  {
    if k > 0 {
      assert c.attempts[..k][..k - 1] == c.attempts[..k - 1] && d.attempts[..k][..k - 1] == d.attempts[..k - 1];
      assert c.attempts[..k][k - 1] == d.attempts[..k][k - 1];
      AttemptedPrefix(c, d, k - 1);
    }
  }

  /** One more event e of call k, whose status becomes `status`. */
  predicate Next(round: Round, k: nat, status: Status, e: Event)
    requires k < |round.live| == |round.calls|
  {
    && RT.IsOf(e, round.calls[k].id) && !status.Unissued?
    && CallTold(round.calls[k], status) == CallTold(round.calls[k], round.live[k]) + [e]
    && (e.ToolCall? <==> round.live[k].Unissued?)
    && (e.ToolCall? ==>
          e == RT.Announcement(AsCall(round.calls[k], [], 0)) && forall j :: 0 <= j < k ==> !round.live[j].Unissued?)
  }

  lemma NextAnnounced(round: Round, k: nat, status: Status, e: Event)
    requires AnnouncedInOrder(round) && k < |round.live| && Next(round, k, status, e)
    ensures RT.Announced(round.block + [e]) == RT.Announced(round.block) + (if e.ToolCall? then [e] else [])
    ensures e.ToolCall? ==> |RT.Announced(round.block)| == k
  {
    assert (round.block + [e])[..|round.block|] == round.block;
    assert e.ToolCall? && k > 0 ==> !round.live[k - 1].Unissued?;
  }

  lemma ReportAnnounced(round: Round, k: nat, status: Status, e: Event)
    requires AnnouncedInOrder(round) && k < |round.live| && Next(round, k, status, e)
    ensures AnnouncedInOrder(round.(live := round.live[k := status], block := round.block + [e]))
  {
    NextAnnounced(round, k, status, e);
  }

  lemma NextOf(round: Round, k: nat, status: Status, e: Event, j: nat)
    requires EachInOrder(round) && k < |round.live| && Next(round, k, status, e) && DistinctIds(round.calls)
    requires j < |round.live|
    ensures RT.Of(round.block + [e], round.calls[j].id) == CallTold(round.calls[j], round.live[k := status][j])
  {
    assert (round.block + [e])[..|round.block|] == round.block;
    RT.OfNext(round.block + [e], round.calls[j].id);
  }

  lemma ReportEach(round: Round, k: nat, status: Status, e: Event)
    requires EachInOrder(round) && k < |round.live| && Next(round, k, status, e) && DistinctIds(round.calls)
    ensures EachInOrder(round.(live := round.live[k := status], block := round.block + [e]))
  {
    var live, block := round.live[k := status], round.block + [e];
    forall j | 0 <= j < |live| ensures RT.Of(block, round.calls[j].id) == CallTold(round.calls[j], live[j]) {
      NextOf(round, k, status, e, j);
    }
  }

  lemma ReportOwn(round: Round, k: nat, e: Event, live: seq<Status>)
    requires OnlyOwn(round) && k < |round.calls| && RT.IsOf(e, round.calls[k].id)
    ensures OnlyOwn(round.(live := live, block := round.block + [e]))
  {
    assert HasUse(round.calls, e);
  }

  lemma ReportWoven(round: Round, k: nat, status: Status, e: Event)
    requires Woven(round) && k < |round.live| == |round.calls| && Next(round, k, status, e)
    ensures Woven(round.(live := round.live[k := status], block := round.block + [e]))
  {
    if DistinctIds(round.calls) {
      ReportAnnounced(round, k, status, e);
      ReportEach(round, k, status, e);
      ReportOwn(round, k, e, round.live[k := status]);
    }
  }

  /** A step that reports nothing. */
  lemma SilentWoven(round: Round, k: nat, status: Status, joiner: Joiner)
    requires Woven(round) && k < |round.live| == |round.calls|
    requires CallTold(round.calls[k], status) == CallTold(round.calls[k], round.live[k])
    requires !status.Unissued? && !round.live[k].Unissued?
    ensures Woven(round.(live := round.live[k := status], joiner := joiner))
  {
  }

  lemma KeptUpdate(round: Round, k: nat, status: Status, block: seq<Event>)
    requires Kept(round) && k < |round.live| && !status.Submitted?
    ensures Kept(round.(live := round.live[k := status], block := block))
  {
  }

  lemma KeptJoined(round: Round, k: nat, status: Status)
    requires Kept(round) && k < |round.live| && status.Submitted? && round.live[k].Answered?
    requires status.result == round.live[k].result
    ensures Kept(round.(live := round.live[k := status],
      joiner := Recorded(round.joiner, round.calls[k].id, round.live[k].result)))
  {
  }

  lemma RoundsToldUpdate(rounds: seq<Round>, round: Round)
    requires RoundsTold(rounds) && rounds != [] && Woven(round) && Kept(round)
    ensures RoundsTold(rounds[|rounds| - 1 := round])
  {
  }

  /** The last round changes, and `more` is reported with it. */
  lemma LastRoundTold(cfg: Config, s: State, round: Round, more: seq<Event>, conts: seq<Cont>)
    requires Told(cfg, s) && s.rounds != [] && Woven(round) && Kept(round)
    requires round.text == s.rounds[|s.rounds| - 1].text && round.block == s.rounds[|s.rounds| - 1].block + more
    requires Ending(s) == [] && Ending(s.(conts := conts)) == []
    ensures Told(cfg, s.(rounds := s.rounds[|s.rounds| - 1 := round], events := s.events + more, conts := conts))
  {
    RoundsToldUpdate(s.rounds, round);
    ReportedUpdate(s.rounds, round, more);
    Regroup([Question(cfg.question)], Reported(s.rounds), more);
  }

  lemma ReportTold(cfg: Config, s: State, r: nat, k: nat, status: Status, e: Event, conts: seq<Cont>)
    requires Told(cfg, s) && r == |s.rounds| - 1 && k < |s.rounds[r].live| && !status.Submitted?
    requires Woven(s.rounds[r].(live := s.rounds[r].live[k := status], block := s.rounds[r].block + [e]))
    requires Ending(s) == [] && Ending(s.(conts := conts)) == []
    ensures Told(cfg, Report(s, r, k, status, e).(conts := conts))
  {
    var round := s.rounds[r].(live := s.rounds[r].live[k := status], block := s.rounds[r].block + [e]);
    KeptUpdate(s.rounds[r], k, status, round.block);
    LastRoundTold(cfg, s, round, [e], conts);
  }

  lemma SilentTold(cfg: Config, s: State, round: Round, conts: seq<Cont>)
    requires Told(cfg, s) && s.rounds != [] && Woven(round) && Kept(round)
    requires round.text == s.rounds[|s.rounds| - 1].text && round.block == s.rounds[|s.rounds| - 1].block
    requires Ending(s) == [] && Ending(s.(conts := conts)) == []
    ensures Told(cfg, s.(rounds := s.rounds[|s.rounds| - 1 := round], conts := conts))
  {
    assert round.block == s.rounds[|s.rounds| - 1].block + [];
    assert s.events + [] == s.events;
    LastRoundTold(cfg, s, round, [], conts);
  }

  /** The last round has k calls in all, and the one at k has begun and is not done. */
  predicate Going(s: State, r: nat, k: nat) {
    && s.outcomes == [] && r == |s.rounds| - 1 && k < |s.rounds[r].live| == |s.rounds[r].calls| && Ending(s) == []
    && Woven(s.rounds[r]) && Kept(s.rounds[r])
  }

  lemma StillGoing(cfg: Config, s: State, r: nat, k: nat)
    requires Single(s) && Told(cfg, s) && r < |s.rounds| && k < |s.rounds[r].live| && !s.rounds[r].live[k].Submitted?
    ensures Going(s, r, k)
  {
    StillOut(s, r, k);
    assert Counted(s.rounds[r]);
  }

  lemma DispatchedTold(cfg: Config, s: State, r: nat, k: nat, request: Id, attempt: nat)
    requires Told(cfg, s) && Going(s, r, k) && s.rounds[r].live[k].Running?
    ensures Told(cfg, Happen(s, r, k, Dispatched(request, attempt)).value)
  {
    var round, u, attempts := s.rounds[r], s.rounds[r].calls[k], s.rounds[r].live[k].attempts;
    var e := Dispatch(Some(u.id), Some(request), attempt);
    AttemptedMore(u, attempts, (request, attempt));
    ReportWoven(round, k, Running(attempts + [(request, attempt)]), e);
    ReportTold(cfg, s, r, k, Running(attempts + [(request, attempt)]), e, s.conts);
  }

  lemma AnsweredTold(cfg: Config, s: State, r: nat, k: nat, result: nat)
    requires Told(cfg, s) && Going(s, r, k) && s.rounds[r].live[k].Running?
    ensures Told(cfg, Happen(s, r, k, Returned(result)).value)
  {
    var round, u, attempts := s.rounds[r], s.rounds[r].calls[k], s.rounds[r].live[k].attempts;
    ReturnedTold(u, attempts, result);
    ReportWoven(round, k, Answered(attempts, result), ToolResult(Some(u.id), result));
    ReportTold(cfg, s, r, k, Answered(attempts, result), ToolResult(Some(u.id), result), s.conts);
  }

  lemma JoinedRound(round: Round, k: nat, status: Status, joiner: Joiner)
    requires Woven(round) && Kept(round) && k < |round.live| == |round.calls| && round.live[k].Answered?
    requires status == Submitted(round.live[k].attempts, round.live[k].result)
    requires joiner == Recorded(round.joiner, round.calls[k].id, round.live[k].result)
    ensures Woven(round.(live := round.live[k := status], joiner := joiner))
    ensures Kept(round.(live := round.live[k := status], joiner := joiner))
  {
    SilentWoven(round, k, status, joiner);
    KeptJoined(round, k, status);
  }

  lemma JoinChanges(s: State, r: nat, k: nat, joined: Round)
    requires r < |s.rounds| && k < |s.rounds[r].live| == |s.rounds[r].calls| && s.rounds[r].live[k].Answered?
    requires Happen(s, r, k, Submit).Some? && s.outcomes == []
    requires var round := s.rounds[r];
      joined == round.(live := round.live[k := Submitted(round.live[k].attempts, round.live[k].result)],
                       joiner := Recorded(round.joiner, round.calls[k].id, round.live[k].result))
    ensures Happen(s, r, k, Submit) == Join(s, r, k)
    ensures var conts := Join(s, r, k).value.conts;
      Join(s, r, k).value == s.(rounds := s.rounds[r := joined], conts := conts)
    ensures Ending(s) == [] ==> Ending(s.(conts := Join(s, r, k).value.conts)) == []
  {
  }

  lemma SubmittedTold(cfg: Config, s: State, r: nat, k: nat)
    requires Told(cfg, s) && Going(s, r, k) && s.rounds[r].live[k].Answered? && Happen(s, r, k, Submit).Some?
    ensures Told(cfg, Happen(s, r, k, Submit).value)
  {
    var round := s.rounds[r];
    var status := Submitted(round.live[k].attempts, round.live[k].result);
    var joiner := Recorded(round.joiner, round.calls[k].id, round.live[k].result);
    var joined := round.(live := round.live[k := status], joiner := joiner);
    JoinedRound(round, k, status, joiner);
    JoinChanges(s, r, k, joined);
    SilentTold(cfg, s, joined, Join(s, r, k).value.conts);
  }

  lemma HappenTold(cfg: Config, s: State, r: nat, k: nat, what: Happening)
    requires Single(s) && Told(cfg, s) && Happen(s, r, k, what).Some?
    ensures Told(cfg, Happen(s, r, k, what).value)
  {
    StillGoing(cfg, s, r, k);
    match what
    case Dispatched(request, attempt) => DispatchedTold(cfg, s, r, k, request, attempt);
    case Returned(result) => AnsweredTold(cfg, s, r, k, result);
    case Submit => SubmittedTold(cfg, s, r, k);
  }

  lemma ReturnedTold(u: ToolUse, attempts: seq<(Id, nat)>, result: nat)
    ensures CallTold(u, Answered(attempts, result)) == CallTold(u, Running(attempts)) + [ToolResult(Some(u.id), result)]
  {
    AttemptedPrefix(AsCall(u, attempts, result), AsCall(u, attempts, 0), |attempts|);
  }

  lemma AnnounceTold(cfg: Config, s: State, r: nat, k: nat)
    requires Told(cfg, s) && Going(s, r, k) && s.conts == [Issuing(r, k)] && s.rounds[r].live[k].Unissued?
    requires forall j :: 0 <= j < k ==> !s.rounds[r].live[j].Unissued?
    ensures Told(cfg, Issue(cfg, s, 0, r, k).value)
  {
    var round, u := s.rounds[r], s.rounds[r].calls[k];
    ReportWoven(round, k, Announced, RT.Announcement(AsCall(u, [], 0)));
    ReportTold(cfg, s, r, k, Announced, RT.Announcement(AsCall(u, [], 0)), s.conts);
  }

  lemma RefuseTold(cfg: Config, s: State, r: nat, k: nat)
    requires Told(cfg, s) && Going(s, r, k) && s.conts == [Issuing(r, k)] && s.rounds[r].live[k].Announced?
    requires s.rounds[r].calls[k].skill !in cfg.skills
    ensures Told(cfg, Issue(cfg, s, 0, r, k).value)
  {
    var round, u := s.rounds[r], s.rounds[r].calls[k];
    var status, e := Answered([], cfg.unknownSkill), ToolResult(Some(u.id), cfg.unknownSkill);
    ReturnedTold(u, [], cfg.unknownSkill);
    ReportWoven(round, k, status, e);
    ReportTold(cfg, s, r, k, status, e, Issue(cfg, s, 0, r, k).value.conts);
  }

  lemma LaunchTold(cfg: Config, s: State, r: nat, k: nat)
    requires Told(cfg, s) && Going(s, r, k) && s.conts == [Issuing(r, k)] && s.rounds[r].live[k].Announced?
    requires s.rounds[r].calls[k].skill in cfg.skills
    ensures Told(cfg, Issue(cfg, s, 0, r, k).value)
  {
    var round := s.rounds[r];
    var conts := if k + 1 < |round.calls| then s.conts[0 := Issuing(r, k + 1)] else Drop(s.conts, 0);
    SilentWoven(round, k, Running([]), round.joiner);
    KeptUpdate(round, k, Running([]), round.block);
    SilentTold(cfg, s, round.(live := round.live[k := Running([])]), conts);
  }

  lemma IssueTold(cfg: Config, s: State, r: nat, k: nat)
    requires Single(s) && Told(cfg, s) && s.conts == [Issuing(r, k)] && Issue(cfg, s, 0, r, k).Some?
    ensures Told(cfg, Issue(cfg, s, 0, r, k).value)
  {
    StillGoing(cfg, s, r, k);
    if s.rounds[r].live[k].Unissued? { AnnounceTold(cfg, s, r, k); }
    else if s.rounds[r].calls[k].skill !in cfg.skills { RefuseTold(cfg, s, r, k); }
    else { LaunchTold(cfg, s, r, k); }
  }

  lemma FreshTold(reply: Reply)
    ensures Woven(Fresh(reply)) && Kept(Fresh(reply))
  {
  }

  lemma ReportedMore(rounds: seq<Round>, reply: Reply)
    ensures Reported(rounds + [Fresh(reply)]) == Reported(rounds) + Narrated(reply.text)
  {
    assert (rounds + [Fresh(reply)])[..|rounds|] == rounds;
  }

  lemma AskTold(cfg: Config, s: State, reply: Reply)
    requires Told(cfg, s) && s.conts == [DoTurn(|s.rounds|)] && s.store.Some? && s.outcomes == [] && reply.calls != []
    ensures Told(cfg, Chat(cfg, s, 0, reply, s.store.value))
  {
    var s' := Chat(cfg, s, 0, reply, s.store.value);
    FreshTold(reply);
    ReportedMore(s.rounds, reply);
    assert Ending(s) == [] && Ending(s') == [];
    assert s'.rounds == s.rounds + [Fresh(reply)] && s'.events == s.events + Narrated(reply.text);
    Regroup([Question(cfg.question)], Reported(s.rounds), Narrated(reply.text));
  }

  lemma Regroup(a: seq<Event>, b: seq<Event>, c: seq<Event>)
    ensures (a + b + []) + c == a + (b + c) + []
  {
  }

  lemma AnswerTold(cfg: Config, s: State, reply: Reply)
    requires Told(cfg, s) && s.conts == [DoTurn(|s.rounds|)] && s.store.Some? && s.outcomes == [] && reply.calls == []
    ensures Told(cfg, Chat(cfg, s, 0, reply, s.store.value))
  {
    assert Ending(s) == [];
  }

  lemma DoTurnTold(cfg: Config, s: State, reply: Reply)
    requires Single(s) && Told(cfg, s) && s.conts != [] && s.conts[0].DoTurn?
    ensures Proceed(cfg, s, 0, reply).Some? && Told(cfg, Proceed(cfg, s, 0, reply).value)
  {
    if s.conts[0].index < cfg.maxTurns {
      if reply.calls == [] { AnswerTold(cfg, s, reply); } else { AskTold(cfg, s, reply); }
    }
  }

  /** Collecting and finishing report nothing, and finishing keeps the outcome. */
  lemma QuietTold(cfg: Config, s: State, reply: Reply)
    requires Told(cfg, s) && |s.conts| == 1 && s.outcomes == [] && (s.conts[0].Collecting? || s.conts[0].Finishing?)
    requires Proceed(cfg, s, 0, reply).Some?
    ensures Told(cfg, Proceed(cfg, s, 0, reply).value)
  {
    var s' := Proceed(cfg, s, 0, reply).value;
    assert Ending(s') == Ending(s) && s'.rounds == s.rounds && s'.events == s.events;
  }

  lemma ProceedTold(cfg: Config, s: State, reply: Reply)
    requires Single(s) && Told(cfg, s) && s.conts != [] && Proceed(cfg, s, 0, reply).Some?
    ensures Told(cfg, Proceed(cfg, s, 0, reply).value)
  {
    match s.conts[0]
    case DoTurn(_) => DoTurnTold(cfg, s, reply);
    case Issuing(r, k) => IssueTold(cfg, s, r, k);
    case Collecting(_, _, _) => QuietTold(cfg, s, reply);
    case Finishing(_) => QuietTold(cfg, s, reply);
  }

  // ----- over whole runs -----

  lemma {:induction false} Always(cfg: Config, actions: seq<Action>)
    requires Exec(cfg, actions).Some?
    ensures var s := Exec(cfg, actions).value; Single(s) && Spoken(cfg, s) && Told(cfg, s)
  {
    if actions != [] {
      Always(cfg, actions[..|actions| - 1]);
      AlwaysSingle(cfg, actions);
      var s := Exec(cfg, actions[..|actions| - 1]).value;
      StepSpoken(cfg, s, actions[|actions| - 1]);
      StepTold(cfg, s, actions[|actions| - 1]);
    }
  }

  lemma StepSpoken(cfg: Config, s: State, a: Action)
    requires Single(s) && Spoken(cfg, s) && Apply(cfg, s, a).Some?
    ensures Spoken(cfg, Apply(cfg, s, a).value)
  {
    match a
    case Advance(n, reply) => ProceedSpoken(cfg, s, reply);
    case OnCall(r, k, what) => HappenSpoken(cfg, s, r, k, what);
  }

  lemma StepTold(cfg: Config, s: State, a: Action)
    requires Single(s) && Told(cfg, s) && Apply(cfg, s, a).Some?
    ensures Told(cfg, Apply(cfg, s, a).value)
  {
    match a
    case Advance(n, reply) => ProceedTold(cfg, s, reply);
    case OnCall(r, k, what) => HappenTold(cfg, s, r, k, what);
  }

  /**
   * What on_done gets. The transcript is the question, then every turn that asked for k calls
   * followed by exactly k tool messages in the order of the calls, whatever the order in which
   * they finished - then the answer, or nothing if `max_turns` chat calls did not bring one.
   */
  lemma OutcomeIsTranscript(cfg: Config, s: State)
    requires Reachable(cfg, s) && s.outcomes != []
    ensures Ended(cfg, s.rounds, s.chats, s.outcomes[0]) && s.store == None
    ensures forall i :: 0 <= i < |s.rounds| ==>
      AllSubmitted(s.rounds[i].live) && Kept(s.rounds[i]) && s.rounds[i].calls != []
  {
    var actions :| Exec(cfg, actions) == Some(s);
    Always(cfg, actions);
    forall i | 0 <= i < |s.rounds|
      ensures AllSubmitted(s.rounds[i].live) && Kept(s.rounds[i]) && s.rounds[i].calls != []
    {
      assert Counted(s.rounds[i]);
    }
  }

  /** The transcript ends with an assistant message without calls, and that is the answer. */
  predicate ClosedBy(cfg: Config, messages: seq<Said>, answer: nat) {
    messages != [] &&
    match messages[|messages| - 1]
    case Assistant(text, calls) => calls == [] && IsAnswer(cfg, text, answer)
    case _ => false
  }

  lemma AnswerIsLastSaid(cfg: Config, s: State)
    requires Reachable(cfg, s) && s.outcomes != [] && s.outcomes[0].Concluded?
    ensures ClosedBy(cfg, s.outcomes[0].messages, s.outcomes[0].answer)
  {
    OutcomeIsTranscript(cfg, s);
  }

  /** No run makes more than max_turns chat calls. */
  lemma ChatsAreBounded(cfg: Config, s: State)
    requires Reachable(cfg, s)
    ensures s.chats <= if cfg.maxTurns < 0 then 0 else cfg.maxTurns
  {
    var actions :| Exec(cfg, actions) == Some(s);
    Always(cfg, actions);
  }

  // ----- a finished conversation, and its reconstruction -----

  function CallsOf(round: Round): seq<RT.Call>
    requires |round.live| == |round.calls| && AllSubmitted(round.live)
  {
    seq(|round.calls|, k requires 0 <= k < |round.calls| =>
      AsCall(round.calls[k], round.live[k].attempts, round.live[k].result))
  }

  function TurnsOf(rounds: seq<Round>): seq<RT.Turn>
    requires forall i :: 0 <= i < |rounds| ==> |rounds[i].live| == |rounds[i].calls| && AllSubmitted(rounds[i].live)
  {
    seq(|rounds|, i requires 0 <= i < |rounds| => RT.Turn(rounds[i].text, CallsOf(rounds[i])))
  }

  function BlocksOf(rounds: seq<Round>): seq<seq<Event>> {
    seq(|rounds|, i requires 0 <= i < |rounds| => rounds[i].block)
  }

  function AnswerOf(o: Outcome): Option<nat> {
    if o.Concluded? then Some(o.answer) else None
  }

  lemma AllAnnounced(round: Round)
    requires AnnouncedInOrder(round) && AllSubmitted(round.live)
    ensures RT.Announced(round.block) == RT.Announcements(CallsOf(round))
  {
    var calls, told := CallsOf(round), RT.Announced(round.block);
    assert |round.live| > 0 ==> !round.live[|round.live| - 1].Unissued?;
    RT.AnnouncedCount(calls);
    forall j | 0 <= j < |calls| ensures told[j] == RT.Announcements(calls)[j] {
      RT.AnnouncementAt(calls, j);
    }
  }

  lemma OwnCalls(round: Round)
    requires OnlyOwn(round) && |round.live| == |round.calls| && AllSubmitted(round.live)
    ensures forall i :: 0 <= i < |round.block| ==> RT.HasCall(CallsOf(round), round.block[i])
  {
    var calls := CallsOf(round);
    forall i | 0 <= i < |round.block| ensures RT.HasCall(calls, round.block[i]) {
      assert HasUse(round.calls, round.block[i]);
      var k :| 0 <= k < |round.calls| && RT.IsOf(round.block[i], round.calls[k].id);
      assert calls[k].id == round.calls[k].id;
    }
  }

  lemma EachWhole(round: Round, k: nat)
    requires EachInOrder(round) && AllSubmitted(round.live) && k < |round.live|
    ensures RT.Of(round.block, CallsOf(round)[k].id) == RT.CallEvents(CallsOf(round)[k])
  {
  }

  lemma WovenIsWeave(round: Round)
    requires WovenSoFar(round) && AllSubmitted(round.live)
    ensures RT.IsWeave(CallsOf(round), round.block)
  {
    var calls := CallsOf(round);
    AllAnnounced(round);
    OwnCalls(round);
    forall k | 0 <= k < |calls| ensures RT.Of(round.block, calls[k].id) == RT.CallEvents(calls[k]) {
      EachWhole(round, k);
    }
  }

  lemma {:induction false} ReportedIsJoined(rounds: seq<Round>)
    requires forall i :: 0 <= i < |rounds| ==> |rounds[i].live| == |rounds[i].calls| && AllSubmitted(rounds[i].live)
    ensures Reported(rounds) == RT.Joined(TurnsOf(rounds), BlocksOf(rounds))
  {
    if rounds != [] {
      var last := |rounds| - 1;
      ReportedIsJoined(rounds[..last]);
      assert TurnsOf(rounds)[..last] == TurnsOf(rounds[..last]);
      assert BlocksOf(rounds)[..last] == BlocksOf(rounds[..last]);
    }
  }

  predicate Finished(s: State) {
    && |s.outcomes| == 1
    && forall i :: 0 <= i < |s.rounds| ==> |s.rounds[i].live| == |s.rounds[i].calls| && AllSubmitted(s.rounds[i].live)
  }

  /** The run of a finished conversation: what the model said, what was called and what came back. */
  function RunOf(cfg: Config, s: State): RT.Run
    requires Finished(s)
  {
    RT.Run(cfg.question, TurnsOf(s.rounds), AnswerOf(s.outcomes[0]))
  }

  lemma BlocksAreWeaves(rounds: seq<Round>)
    requires forall i :: 0 <= i < |rounds| ==> DistinctIds(rounds[i].calls)
    requires forall i :: 0 <= i < |rounds| ==> |rounds[i].live| == |rounds[i].calls| && AllSubmitted(rounds[i].live)
    requires RoundsTold(rounds)
    ensures RT.AreTurns(TurnsOf(rounds), BlocksOf(rounds))
  {
    var turns, blocks := TurnsOf(rounds), BlocksOf(rounds);
    forall i | 0 <= i < |turns| ensures RT.DistinctCalls(turns[i].calls) && RT.IsWeave(turns[i].calls, blocks[i]) {
      assert Woven(rounds[i]);
      WovenIsWeave(rounds[i]);
    }
  }

  lemma DoneIsFinished(cfg: Config, s: State)
    requires Reachable(cfg, s) && s.outcomes != []
    ensures Finished(s) && s.conts == [] && Told(cfg, s)
  {
    var actions :| Exec(cfg, actions) == Some(s);
    Always(cfg, actions);
    forall i | 0 <= i < |s.rounds| ensures |s.rounds[i].live| == |s.rounds[i].calls| && AllSubmitted(s.rounds[i].live) {
      assert Counted(s.rounds[i]);
    }
  }

  /** The events of a finished conversation report its run. */
  lemma EventsReportTheRun(cfg: Config, s: State)
    requires Reachable(cfg, s) && s.outcomes != []
    requires forall i :: 0 <= i < |s.rounds| ==> DistinctIds(s.rounds[i].calls)
    ensures Finished(s) && RT.Reports(RunOf(cfg, s), s.events)
  {
    DoneIsFinished(cfg, s);
    BlocksAreWeaves(s.rounds);
    ReportedIsJoined(s.rounds);
    assert Ending(s) == RT.Concluded(RunOf(cfg, s));
    assert RT.ReportsWith(RunOf(cfg, s), BlocksOf(s.rounds), s.events);
  }

  /**
   * From the loop to the page: whatever else the buses carry, the reconstruction of a finished
   * conversation shows its question, every turn's narration and calls, every attempt and result,
   * and the answer that went to on_done: what the model said last, or the placeholder if that was
   * nothing.
   */
  lemma ConversationIsReconstructed(cfg: Config, s: State, log: seq<Message>, c: Id)
    requires Reachable(cfg, s) && s.outcomes != []
    requires forall i :: 0 <= i < |s.rounds| ==> DistinctIds(s.rounds[i].calls)
    requires EventsOf(log, c) == s.events
    ensures Finished(s) && RT.IsViewOf(log, RunOf(cfg, s), ShowAll(log, Blank, EventsOf(log, c)))
    ensures match s.outcomes[0]
      case Concluded(_, messages) =>
        var shown := ShowAll(log, Blank, EventsOf(log, c)).answer; shown.Some? && ClosedBy(cfg, messages, shown.value)
      case DidNotConclude(_) => ShowAll(log, Blank, EventsOf(log, c)).answer == None
  {
    if s.outcomes[0].Concluded? { AnswerIsLastSaid(cfg, s); }
    EventsReportTheRun(cfg, s);
    RT.ReconstructionIsFaithful(log, c, RunOf(cfg, s));
  }
}

/**
 * Nothing between the head and the worker goes missing: the worker's inbox has exactly the head's
 * dispatches and cancels to it, in order, and unless a payload is lost the worker can always work
 * through all of them, so that every cancel takes effect.
 */
module WorkerLive {
  import opened Wrappers
  import R = RunSkill
  import opened Worker
  import I = Inbox

  // ----- what the head sends is in the inbox -----

  /** The head's dispatches and cancels to one worker. */
  function NotesTo(log: seq<R.Sent>, w: R.Agent): seq<Note> {
    if log == [] then [] else NotesTo(log[..|log| - 1], w) + NoteOf(log[|log| - 1], w)
  }

  function NoteOf(m: R.Sent, w: R.Agent): seq<Note> {
    match m
    case Dispatch(n, to, _) => if to == w then [Begin(n)] else []
    case Cancel(n, to) => if to == w then [Stop(n)] else []
  }

  /** The notes about this call's attempts. */
  function OwnNotes(sends: seq<I.Message<Note>>): seq<Note> {
    if sends == [] then []
    else
      OwnNotes(sends[..|sends| - 1]) + if sends[|sends| - 1].body.Other? then [] else [sends[|sends| - 1].body]
  }

  predicate AllNoted(w: R.Agent, s: State) { OwnNotes(s.inbox.sends) == NotesTo(s.head.log, w) }

  lemma OneNote(log: seq<R.Sent>, log': seq<R.Sent>, w: R.Agent)
    requires log <= log' && |log'| == |log| + 1
    ensures NotesTo(log', w) == NotesTo(log, w) + NoteOf(log'[|log|], w)
  {
    assert log'[..|log|] == log;
  }

  lemma OneOwn(sends: seq<I.Message<Note>>, m: I.Message<Note>)
    ensures OwnNotes(sends + [m]) == OwnNotes(sends) + if m.body.Other? then [] else [m.body]
  {
    assert (sends + [m])[..|sends|] == sends;
  }

  lemma HeadNoted(cfg: R.Config, w: R.Agent, s: State, a: R.Action, s': State)
    requires AllNoted(w, s) && Apply(cfg, w, s, Head(a)) == Some(s')
    ensures AllNoted(w, s')
  {
    var log, log' := s.head.log, s'.head.log;
    OneSend(cfg, s.head, a, s'.head);
    if |log'| == |log| + 1 {
      OneNote(log, log', w);
      if log'[|log|].to == w {
        OneOwn(s.inbox.sends, s'.inbox.sends[|s.inbox.sends|]);
      }
    } else {
      assert log' == log;
    }
  }

  lemma BusNoted(cfg: R.Config, w: R.Agent, s: State, step: I.Step<Note>, s': State)
    requires AllNoted(w, s) && Apply(cfg, w, s, Bus(step)) == Some(s')
    ensures AllNoted(w, s')
  {
    if step.Reserve? { OneOwn(s.inbox.sends, step.m); }
  }

  lemma {:induction false} ExecNoted(cfg: R.Config, w: R.Agent, s: State, run: seq<Action>, s': State)
    requires AllNoted(w, s) && Exec(cfg, w, s, run) == Some(s')
    ensures AllNoted(w, s')
    decreases run
  {
    if run != [] {
      var next := Apply(cfg, w, s, run[0]).value;
      match run[0] {
        case Head(a) => HeadNoted(cfg, w, s, a, next);
        case Bus(step) => BusNoted(cfg, w, s, step, next);
        case _ =>
      }
      ExecNoted(cfg, w, next, run[1..], s');
    }
  }

  /** In every run the notes in the worker's inbox are the head's dispatches and cancels to it, in order. */
  lemma EveryNoteIsSent(cfg: R.Config, w: R.Agent, run: seq<Action>, s: State)
    requires Exec(cfg, w, Init(), run) == Some(s)
    ensures OwnNotes(s.inbox.sends) == NotesTo(s.head.log, w)
  {
    ExecNoted(cfg, w, Init(), run, s);
  }

  /** The head is never held up by the worker. */
  lemma HeadIsFree(cfg: R.Config, w: R.Agent, s: State, a: R.Action)
    ensures match R.Apply(cfg, s.head, a)
      case Some(h) => Apply(cfg, w, s, Head(a)).Some? && Apply(cfg, w, s, Head(a)).value.head == h
      case None => Apply(cfg, w, s, Head(a)) == None
  {
  }

  /** The handlers can all end, and then nothing is tracked any more. */
  lemma {:induction false} HandlersEnd(cfg: R.Config, w: R.Agent, s: State) returns (run: seq<Action>, t: State)
    ensures Exec(cfg, w, s, run) == Some(t)
    ensures t == s.(tracked := {}, finished := s.finished + s.tracked)
    decreases s.tracked
  {
    if s.tracked == {} {
      run, t := [], s;
      assert s.finished + s.tracked == s.finished;
    } else {
      var n :| n in s.tracked;
      var s' := Apply(cfg, w, s, Finish(n)).value;
      var rest;
      rest, t := HandlersEnd(cfg, w, s');
      run := [Finish(n)] + rest;
      assert run[1..] == rest;
      assert s'.finished + s'.tracked == s.finished + s.tracked;
    }
  }

  // ----- the worker can work through them -----

  /** No payload that the worker has yet to take is lost. */
  ghost predicate NothingLost(s: State) {
    forall j :: s.inbox.head < j <= s.inbox.tail ==> !I.Stuck(s.inbox, j)
  }

  predicate CaughtUp(s: State) { s.poller.Idle? && s.inbox.head == s.inbox.tail }

  /** What can be done next: finish with the message in hand, or fetch the next one, once it is written. */
  function Onward(s: State): Action {
    match s.poller
    case Holding(Begin(_)) => CreateToken
    case Holding(Stop(_)) => LookUp
    case Holding(Other) => Skip
    case Stopping(_) => SetEvent
    case Idle => if s.inbox.head + 1 in s.inbox.fields then Poll else Bus(I.Write(s.inbox.head + 1))
  }

  function Busy(p: Poller): nat { match p case Idle => 0 case Stopping(_) => 1 case Holding(_) => 2 }

  lemma StepOnward(cfg: R.Config, w: R.Agent, s: State) returns (s': State)
    requires I.Inv(s.inbox) && NothingLost(s) && !CaughtUp(s)
    ensures Apply(cfg, w, s, Onward(s)) == Some(s') && s'.head == s.head
    ensures I.Inv(s'.inbox) && NothingLost(s') && s'.inbox.sends == s.inbox.sends
    ensures s'.inbox.head > s.inbox.head ||
      (s'.inbox.head == s.inbox.head && s'.inbox.pending.Keys <= s.inbox.pending.Keys)
    ensures s'.inbox.head > s.inbox.head || s'.inbox.pending.Keys < s.inbox.pending.Keys
      || Busy(s'.poller) < Busy(s.poller)
  {
    if s.poller.Idle? { assert !I.Stuck(s.inbox, s.inbox.head + 1); }
    s' := Apply(cfg, w, s, Onward(s)).value;
    if s.poller.Idle? {
      I.StepInv(s.inbox, if Onward(s).Poll? then I.Take else I.Write(s.inbox.head + 1), s'.inbox);
      forall j | s'.inbox.head < j <= s'.inbox.tail ensures !I.Stuck(s'.inbox, j) { assert !I.Stuck(s.inbox, j); }
    }
  }

  lemma {:induction false} CatchesUp(cfg: R.Config, w: R.Agent, s: State) returns (run: seq<Action>, t: State)
    requires I.Inv(s.inbox) && NothingLost(s)
    ensures Exec(cfg, w, s, run) == Some(t) && CaughtUp(t)
    ensures t.head == s.head && t.inbox.sends == s.inbox.sends
    ensures forall i :: 0 <= i < |run| ==> !run[i].Head?
    decreases s.inbox.tail - s.inbox.head, |s.inbox.pending|, Busy(s.poller)
  {
    if CaughtUp(s) {
      run, t := [], s;
    } else {
      var s' := StepOnward(cfg, w, s);
      Fewer(s.inbox.pending.Keys, s'.inbox.pending.Keys);
      var rest;
      rest, t := CatchesUp(cfg, w, s');
      run := [Onward(s)] + rest;
      assert run[1..] == rest;
    }
  }

  lemma Fewer(a: set<nat>, b: set<nat>)
    ensures b <= a ==> |b| <= |a|
    ensures b < a ==> |b| < |a|
  {
    if b <= a { assert a == b + (a - b); }
  }

  lemma {:induction false} NotedInLog(log: seq<R.Sent>, w: R.Agent, i: nat)
    requires i < |log| && log[i].Cancel? && log[i].to == w
    ensures Stop(log[i].attempt) in NotesTo(log, w)
  {
    if i < |log| - 1 { NotedInLog(log[..|log| - 1], w, i); }
  }

  lemma {:induction false} OwnIsSent(sends: seq<I.Message<Note>>, note: Note)
    requires note in OwnNotes(sends)
    ensures exists i :: 0 <= i < |sends| && sends[i].body == note
  {
    var front := sends[..|sends| - 1];
    if note in OwnNotes(front) {
      OwnIsSent(front, note);
      var i :| 0 <= i < |front| && front[i].body == note;
      assert sends[i].body == note;
    }
  }

  /**
   * Cancels take effect: in every run in which no payload still to be taken is lost, the worker can
   * go on by itself until every cancel that the head has sent to it has set the token's event, or
   * come after the handler had finished.
   */
  lemma CancelsTakeEffect(cfg: R.Config, w: R.Agent, run: seq<Action>, s: State) returns (more: seq<Action>, t: State)
    requires Exec(cfg, w, Init(), run) == Some(s) && NothingLost(s)
    ensures Exec(cfg, w, s, more) == Some(t) && t.head == s.head && CaughtUp(t)
    ensures forall i :: 0 <= i < |s.head.log| && s.head.log[i].Cancel? && s.head.log[i].to == w ==>
      s.head.log[i].attempt in t.cancelled + t.finished
  {
    InitInv(cfg, w);
    ExecInv(cfg, w, Init(), run, s);
    EveryNoteIsSent(cfg, w, run, s);
    more, t := CatchesUp(cfg, w, s);
    ExecInv(cfg, w, s, more, t);
    forall i | 0 <= i < |s.head.log| && s.head.log[i].Cancel? && s.head.log[i].to == w
      ensures s.head.log[i].attempt in t.cancelled + t.finished
    {
      var n := s.head.log[i].attempt;
      NotedInLog(s.head.log, w, i);
      OwnIsSent(s.inbox.sends, Stop(n));
      var j :| 0 <= j < |s.inbox.sends| && s.inbox.sends[j].body == Stop(n);
      assert Handled(t, t.inbox.sends[j].body);
    }
  }
}

/**
 * What sum and median share (skills/sum.py, skills/median.py): every worker Maps its
 * contribution and then tells the coordinator; the coordinator waits for all of them and then
 * gathers. The workers' steps and the coordinator's interleave freely, any Map may fail, the
 * call may be cancelled and time may pass at any point.
 */
module Handshake {
  import opened Wrappers
  import opened Storage

  /** A message for this request on the coordinator's router; `Ready` carries its map_status. */
  datatype Note = Ready(from: string, mapped: bool) | Other

  /** How the wait ends. */
  datatype Verdict =
    | Waiting(ready: set<string>)
    | AllReady
    | MapFailed(from: string)
    | Cancelled
    | Missing(workers: set<string>)

  /** What one pass of the loop sees: the cancel event, the clock, and what receive_for returns. */
  datatype Look = Look(cancelled: bool, late: bool, note: Option<Note>)

  /** One pass of the loop, or what follows it once its condition fails. */
  function Pass(workers: set<string>, ready: set<string>, look: Look): Verdict {
    if |ready| < |workers| && !look.late then
      if look.cancelled then Cancelled
      else
        match look.note
        case Some(Ready(from, mapped)) => if mapped then Waiting(ready + {from}) else MapFailed(from)
        case _ => Waiting(ready)
    else if look.cancelled then Cancelled
    else if workers - ready != {} then Missing(workers - ready)
    else AllReady
  }

  /** The state after all these passes. */
  function Passes(workers: set<string>, looks: seq<Look>): Verdict {
    if looks == [] then Waiting({})
    else
      match Passes(workers, looks[..|looks| - 1])
      case Waiting(ready) => Pass(workers, ready, looks[|looks| - 1])
      case verdict => verdict
  }

  /** The workers whose good news is among these looks. */
  function GoodNews(looks: seq<Look>): set<string> {
    set i | 0 <= i < |looks| && looks[i].note.Some? && looks[i].note.value.Ready? && looks[i].note.value.mapped ::
      looks[i].note.value.from
  }

  /** The i-th look belongs to a pass of the loop: somebody is missing and there is time. */
  predicate Inside(workers: set<string>, looks: seq<Look>, i: nat)
    requires i < |looks|
  {
    |GoodNews(looks[..i])| < |workers| && !looks[i].late
  }

  predicate BadNews(look: Look) { look.note.Some? && look.note.value.Ready? && !look.note.value.mapped }

  predicate GoesOn(workers: set<string>, looks: seq<Look>, i: nat)
    requires i < |looks|
  {
    Inside(workers, looks, i) && !looks[i].cancelled && !BadNews(looks[i])
  }

  /** The i-th look is the first one that ends the wait. */
  predicate EndsAt(workers: set<string>, looks: seq<Look>, i: nat) {
    i < |looks| && !GoesOn(workers, looks, i) && forall j :: 0 <= j < i ==> GoesOn(workers, looks, j)
  }

  /** What the look that ends the wait says. */
  predicate Says(workers: set<string>, looks: seq<Look>, i: nat, verdict: Verdict)
    requires i < |looks|
  {
    match verdict
    case Waiting(_) => false
    case Cancelled => looks[i].cancelled
    case MapFailed(w) => Inside(workers, looks, i) && !looks[i].cancelled && looks[i].note == Some(Ready(w, false))
    case AllReady => !Inside(workers, looks, i) && !looks[i].cancelled && workers <= GoodNews(looks[..i])
    case Missing(ws) =>
      !Inside(workers, looks, i) && !looks[i].cancelled && ws == workers - GoodNews(looks[..i]) && ws != {}
  }

  /** The verdict that these looks call for: there is always one, and no other. */
  ghost predicate Called(workers: set<string>, looks: seq<Look>, verdict: Verdict) {
    if verdict.Waiting? then
      verdict.ready == GoodNews(looks) && forall i :: 0 <= i < |looks| ==> GoesOn(workers, looks, i)
    else
      exists i: nat :: EndsAt(workers, looks, i) && Says(workers, looks, i, verdict)
  }

  lemma CalledOnce(workers: set<string>, looks: seq<Look>, v: Verdict, u: Verdict)
    requires Called(workers, looks, v) && Called(workers, looks, u)
    ensures u == v
  {
    if !v.Waiting? && !u.Waiting? {
      var i: nat :| EndsAt(workers, looks, i) && Says(workers, looks, i, v);
      var j: nat :| EndsAt(workers, looks, j) && Says(workers, looks, j, u);
      assert i == j;
    }
  }

  lemma GoodNewsGrows(looks: seq<Look>)
    requires looks != []
    ensures var last := looks[|looks| - 1];
      GoodNews(looks) == GoodNews(looks[..|looks| - 1]) +
        (if last.note.Some? && last.note.value.Ready? && last.note.value.mapped then {last.note.value.from} else {})
  {
    var front := looks[..|looks| - 1];
    assert forall i :: 0 <= i < |front| ==> front[i] == looks[i];
    forall w | w in GoodNews(front) ensures w in GoodNews(looks) {
      var i :| 0 <= i < |front| && front[i].note.Some? && front[i].note.value.Ready? && front[i].note.value.mapped
        && front[i].note.value.from == w;
      assert looks[i] == front[i];
    }
    forall w | w in GoodNews(looks) && w !in GoodNews(front)
      ensures looks[|looks| - 1].note == Some(Ready(w, true))
    {
      var i :| 0 <= i < |looks| && looks[i].note.Some? && looks[i].note.value.Ready? && looks[i].note.value.mapped
        && looks[i].note.value.from == w;
      assert i >= |front|;
    }
  }

  /** A verdict that is not to wait on does not depend on later looks. */
  lemma CalledStill(workers: set<string>, looks: seq<Look>, v: Verdict)
    requires looks != [] && !v.Waiting? && Called(workers, looks[..|looks| - 1], v)
    ensures Called(workers, looks, v)
  {
    var front := looks[..|looks| - 1];
    forall i | 0 <= i < |front|
      ensures front[i] == looks[i] && front[..i] == looks[..i]
      ensures GoesOn(workers, front, i) <==> GoesOn(workers, looks, i)
    {
      assert front[..i] == looks[..i];
    }
    var i: nat :| EndsAt(workers, front, i) && Says(workers, front, i, v);
    assert EndsAt(workers, looks, i) && Says(workers, looks, i, v);
  }

  lemma StillGoing(workers: set<string>, front: seq<Look>, looks: seq<Look>)
    requires looks != [] && front == looks[..|looks| - 1]
    requires forall i :: 0 <= i < |front| ==> GoesOn(workers, front, i)
    ensures forall i :: 0 <= i < |front| ==> GoesOn(workers, looks, i)
  {
    forall i | 0 <= i < |front| ensures GoesOn(workers, looks, i) {
      assert GoesOn(workers, front, i) && front[..i] == looks[..i] && front[i] == looks[i];
    }
  }

  lemma PassSays(workers: set<string>, looks: seq<Look>, last: nat)
    requires last < |looks|
    ensures var v := Pass(workers, GoodNews(looks[..last]), looks[last]);
      v.Waiting? <==> GoesOn(workers, looks, last)
    ensures var v := Pass(workers, GoodNews(looks[..last]), looks[last]);
      !v.Waiting? ==> Says(workers, looks, last, v)
  {
    var ready := GoodNews(looks[..last]);
    forall w | w in workers ensures w in ready || w in workers - ready {}
  }

  lemma PassCalled(workers: set<string>, looks: seq<Look>)
    requires looks != [] && Called(workers, looks[..|looks| - 1], Waiting(GoodNews(looks[..|looks| - 1])))
    ensures Called(workers, looks, Pass(workers, GoodNews(looks[..|looks| - 1]), looks[|looks| - 1]))
  {
    GoodNewsGrows(looks);
    StillGoing(workers, looks[..|looks| - 1], looks);
    PassSays(workers, looks, |looks| - 1);
    assert !GoesOn(workers, looks, |looks| - 1) ==> EndsAt(workers, looks, |looks| - 1);
  }

  lemma {:induction false} PassesCalled(workers: set<string>, looks: seq<Look>)
    ensures Called(workers, looks, Passes(workers, looks))
  {
    if looks != [] {
      var front := looks[..|looks| - 1];
      PassesCalled(workers, front);
      var before := Passes(workers, front);
      if before.Waiting? { PassCalled(workers, looks); } else { CalledStill(workers, looks, before); }
    }
  }

  /** The wait in _coordinate; `looks` is what its passes see, one by one. */
  method Await(workers: set<string>, looks: seq<Look>) returns (verdict: Verdict)
    ensures Called(workers, looks, verdict)
  {
    var ready: set<string> := {};
    var i := 0;
    while i < |looks| && |ready| < |workers| && !looks[i].late
      invariant 0 <= i <= |looks|
      invariant ready == GoodNews(looks[..i])
      invariant forall j :: 0 <= j < i ==> GoesOn(workers, looks, j)
    {
      var next := looks[..i + 1];
      assert next[..i] == looks[..i];
      GoodNewsGrows(next);
      if looks[i].cancelled {
        assert EndsAt(workers, looks, i) && Says(workers, looks, i, Cancelled);
        return Cancelled;
      }
      match looks[i].note {
        case Some(Ready(from, mapped)) =>
          if !mapped {
            assert EndsAt(workers, looks, i) && Says(workers, looks, i, MapFailed(from));
            return MapFailed(from);
          }
          ready := ready + {from};
        case _ =>
      }
      i := i + 1;
    }
    if i == |looks| {
      assert looks[..i] == looks;
      return Waiting(ready);
    }
    verdict := if looks[i].cancelled then Cancelled
      else if workers - ready != {} then Missing(workers - ready) else AllReady;
    assert EndsAt(workers, looks, i) && Says(workers, looks, i, verdict);
  }

  /** If everybody's good news comes in time, and no other news, the wait succeeds. */
  lemma AllInTime(workers: set<string>, looks: seq<Look>, n: nat, verdict: Verdict)
    requires n < |looks| && GoodNews(looks[..n]) == workers
    requires forall i :: 0 <= i <= n ==> !looks[i].cancelled && !looks[i].late && !BadNews(looks[i])
    requires Called(workers, looks, verdict)
    ensures verdict == AllReady
  {
    assert !GoesOn(workers, looks, n);
    var i: nat :| EndsAt(workers, looks, i) && Says(workers, looks, i, verdict);
    assert i <= n;
    forall w | w in GoodNews(looks[..i]) ensures w in workers {
      var j :| 0 <= j < i && looks[..i][j].note == Some(Ready(w, true));
      assert looks[..n][j] == looks[j];
    }
    assert verdict.Missing? ==> GoodNews(looks[..i]) <= workers && verdict.workers != {};
    FewerThanWorkers(workers, GoodNews(looks[..i]));
  }

  // ----- the protocol -----

  type Value = seq<real>

  datatype Config = Config(workers: set<string>, values: map<string, Value>, deadline: int)

  /** How far contribute has come, and when its Map succeeded. */
  datatype Stage = Idle | Mapped(at: int) | Failed | Told(mapped: Option<int>)

  datatype Answer = Gathered(values: map<string, Value>, at: int) | Error(verdict: Verdict)

  datatype State = State(
    store: Store<Value>,
    stages: map<string, Stage>,
    notes: seq<Note>,            // in the order of delivery
    taken: nat,                  // how many of them receive_for has returned
    ready: set<string>,
    cancelled: bool,
    answer: Option<Answer>)

  datatype Action =
    | MapOk(w: string)
    | MapFails(w: string)
    | Tell(w: string)
    | Stray                      // a message of another type
    | Cancel
    | Wait(d: nat)
    | Coordinate(empty: bool)    // one pass of the coordinator; `empty` when receive_for times out

  function Initial(cfg: Config, store: Store<Value>): State {
    State(store, map w | w in cfg.workers :: Idle, [], 0, {}, false, None)
  }

  /** What receive_for returns to the pass. */
  function NoteFor(s: State, empty: bool): Option<Note> {
    if empty || s.taken >= |s.notes| then None else Some(s.notes[s.taken])
  }

  function NextTaken(s: State, empty: bool): nat {
    if NoteFor(s, empty).Some? then s.taken + 1 else s.taken
  }

  function VerdictOf(cfg: Config, s: State, empty: bool): Verdict {
    Pass(cfg.workers, s.ready, Look(s.cancelled, s.store.now >= cfg.deadline, NoteFor(s, empty)))
  }

  function CoordinatorPass(cfg: Config, s: State, empty: bool): State {
    match VerdictOf(cfg, s, empty)
    case Waiting(ready) => s.(ready := ready, taken := NextTaken(s, empty))
    case AllReady => s.(store := Cleaned(s.store), answer := Some(Gathered(Live(s.store), s.store.now)))
    case verdict => s.(answer := Some(Error(verdict)))
  }

  function Apply(cfg: Config, s: State, a: Action): Option<State> {
    match a
    case MapOk(w) =>
      if w in s.stages && s.stages[w].Idle? && w in cfg.values && Allowed(w)
      then Some(s.(store := Storage.Mapped(s.store, w, cfg.values[w]), stages := s.stages[w := Mapped(s.store.now)]))
      else None
    case MapFails(w) =>
      if w in s.stages && s.stages[w].Idle? then Some(s.(stages := s.stages[w := Failed])) else None
    case Tell(w) =>
      if w in s.stages && s.stages[w].Mapped?
      then Some(s.(stages := s.stages[w := Told(Some(s.stages[w].at))], notes := s.notes + [Ready(w, true)]))
      else if w in s.stages && s.stages[w].Failed?
      then Some(s.(stages := s.stages[w := Told(None)], notes := s.notes + [Ready(w, false)]))
      else None
    case Stray => Some(s.(notes := s.notes + [Other]))
    case Cancel => Some(s.(cancelled := true))
    case Wait(d) => Some(s.(store := Later(s.store, d)))
    case Coordinate(empty) => if s.answer.None? then Some(CoordinatorPass(cfg, s, empty)) else None
  }

  function Exec(cfg: Config, store: Store<Value>, run: seq<Action>): Option<State> {
    if run == [] then Some(Initial(cfg, store))
    else
      match Exec(cfg, store, run[..|run| - 1])
      case None => None
      case Some(s) => Apply(cfg, s, run[|run| - 1])
  }

  /** Whether w's Map succeeded, and when. */
  function MappedAt(s: State, w: string): Option<int> {
    if w !in s.stages then None
    else match s.stages[w] case Mapped(at) => Some(at) case Told(mapped) => mapped case _ => None
  }

  predicate Stored(cfg: Config, s: State, w: string) {
    && w in cfg.values && w in s.store.chunks && MappedAt(s, w).Some?
    && s.store.chunks[w] == Chunk(cfg.values[w], MappedAt(s, w).value + s.store.expiry)
    && MappedAt(s, w).value <= s.store.now
  }

  predicate Honest(s: State, note: Note) {
    note.Ready? ==>
      && note.from in s.stages && s.stages[note.from].Told?
      && (s.stages[note.from].mapped.Some? <==> note.mapped)
  }

  /** What a gathering found: exactly the workers whose Map has not run out, each with its value. */
  predicate Complete(cfg: Config, s: State, g: map<string, Value>, at: int) {
    && (forall w :: w in cfg.workers ==> MappedAt(s, w).Some? && MappedAt(s, w).value <= at)
    && (forall w :: w in g ==> w in cfg.workers && w in cfg.values && g[w] == cfg.values[w])
    && (forall w :: w in cfg.workers ==> (w in g <==> at < MappedAt(s, w).value + s.store.expiry))
  }

  /** The store holds exactly the contributions whose Map succeeded. */
  ghost predicate Consistent(cfg: Config, s: State) {
    && s.stages.Keys == cfg.workers
    && Indexed(s.store)
    && (forall w :: w in s.store.chunks <==> MappedAt(s, w).Some?)
    && (forall w :: w in s.store.chunks ==> Stored(cfg, s, w))
  }

  predicate Confirmed(s: State, w: string) { w in s.stages && s.stages[w].Told? && s.stages[w].mapped.Some? }

  /** What the coordinator was told is so. */
  predicate Believed(s: State) {
    && (forall i :: 0 <= i < |s.notes| ==> Honest(s, s.notes[i]))
    && (forall w :: w in s.ready ==> Confirmed(s, w))
    && s.taken <= |s.notes| && (forall i :: 0 <= i < s.taken ==> Heard(s.notes[i], s.ready))
  }

  /** A readiness note that has been taken was counted. */
  predicate Heard(note: Note, ready: set<string>) { note.Ready? && note.mapped ==> note.from in ready }

  ghost predicate Inv(cfg: Config, s: State) {
    Consistent(cfg, s) && Believed(s) && (s.answer.Some? ==> Justified(cfg, s, s.answer.value))
  }

  predicate Justified(cfg: Config, s: State, a: Answer) {
    match a
    case Gathered(g, at) => Complete(cfg, s, g, at)
    case Error(MapFailed(w)) => w in cfg.workers && w in s.stages && s.stages[w] == Told(None)
    case Error(Missing(ws)) => ws != {} && ws == cfg.workers - s.ready && cfg.deadline <= s.store.now
    case Error(v) => v.Cancelled? && s.cancelled
  }

  predicate Start(store: Store<Value>) { store.keyList == {} && store.chunks == map[] }

  lemma StepConsistent(cfg: Config, s: State, a: Action)
    requires Consistent(cfg, s) && !a.Coordinate? && Apply(cfg, s, a).Some?
    ensures Consistent(cfg, Apply(cfg, s, a).value)
  {
    var s' := Apply(cfg, s, a).value;
    forall w ensures w in s'.store.chunks <==> MappedAt(s', w).Some? {}
    forall w | w in s'.store.chunks ensures Stored(cfg, s', w) {
      assert w in s.store.chunks ==> Stored(cfg, s, w);
    }
  }

  /** Nothing the workers have done is undone. */
  predicate Keeps(s: State, s': State) {
    && s'.stages.Keys == s.stages.Keys && s'.store.expiry == s.store.expiry && (s.cancelled ==> s'.cancelled)
    && s'.ready == s.ready && s'.taken == s.taken && s.store.now <= s'.store.now
    && (forall w :: w in s.stages && s.stages[w].Told? ==> s'.stages[w] == s.stages[w])
    && (forall w :: w in s.stages && MappedAt(s, w).Some? ==> MappedAt(s', w) == MappedAt(s, w))
  }

  lemma StepKeeps(cfg: Config, s: State, a: Action)
    requires !a.Coordinate? && Apply(cfg, s, a).Some?
    ensures var s' := Apply(cfg, s, a).value;
      Keeps(s, s') && s'.answer == s.answer && (s'.notes == s.notes || s'.notes == s.notes + [s'.notes[|s.notes|]])
    ensures var s' := Apply(cfg, s, a).value; |s'.notes| > |s.notes| ==> Honest(s', s'.notes[|s.notes|])
  {
  }

  lemma KeptBelieved(s: State, s': State)
    requires Believed(s) && Keeps(s, s') && |s'.notes| >= |s.notes| && s'.notes[..|s.notes|] == s.notes
    requires forall i :: |s.notes| <= i < |s'.notes| ==> Honest(s', s'.notes[i])
    ensures Believed(s')
  {
    forall i | 0 <= i < |s'.notes| ensures Honest(s', s'.notes[i]) {
      assert i < |s.notes| ==> s'.notes[i] == s'.notes[..|s.notes|][i] && Honest(s, s.notes[i]);
    }
    forall w | w in s'.ready ensures Confirmed(s', w) {
      assert Confirmed(s, w);
    }
    forall i | 0 <= i < s'.taken ensures Heard(s'.notes[i], s'.ready) {
      assert s'.notes[i] == s'.notes[..|s.notes|][i] && Heard(s.notes[i], s.ready);
    }
  }

  lemma KeptJustified(cfg: Config, s: State, s': State, answer: Answer)
    requires s.stages.Keys == cfg.workers && Justified(cfg, s, answer) && Keeps(s, s')
    ensures Justified(cfg, s', answer)
  {
  }

  lemma StepWorker(cfg: Config, s: State, a: Action)
    requires Inv(cfg, s) && !a.Coordinate? && Apply(cfg, s, a).Some?
    ensures Inv(cfg, Apply(cfg, s, a).value)
  {
    var s' := Apply(cfg, s, a).value;
    StepConsistent(cfg, s, a);
    StepKeeps(cfg, s, a);
    KeptBelieved(s, s');
    if s.answer.Some? { KeptJustified(cfg, s, s', s.answer.value); }
  }

  lemma GatherComplete(cfg: Config, s: State)
    requires Consistent(cfg, s) && Believed(s) && cfg.workers - s.ready == {}
    ensures Complete(cfg, s, Live(s.store), s.store.now)
  {
    forall w | w in cfg.workers
      ensures MappedAt(s, w).Some? && MappedAt(s, w).value <= s.store.now
      ensures w in Live(s.store) <==> s.store.now < MappedAt(s, w).value + s.store.expiry
    {
      assert w in s.ready || w in cfg.workers - s.ready;
      assert Confirmed(s, w);
      assert Stored(cfg, s, w);
    }
    forall w | w in Live(s.store) ensures w in cfg.workers && w in cfg.values && Live(s.store)[w] == cfg.values[w] {
      assert Stored(cfg, s, w);
    }
  }

  lemma CleanedConsistent(cfg: Config, s: State)
    requires Consistent(cfg, s)
    ensures Consistent(cfg, s.(store := Cleaned(s.store)))
  {
    var s' := s.(store := Cleaned(s.store));
    assert forall w :: MappedAt(s', w) == MappedAt(s, w);
    forall w | w in s'.store.chunks ensures Stored(cfg, s', w) {
      assert Stored(cfg, s, w);
    }
  }

  lemma StepGather(cfg: Config, s: State, empty: bool)
    requires Inv(cfg, s) && s.answer.None? && cfg.workers - s.ready == {}
    ensures Inv(cfg, s.(store := Cleaned(s.store), answer := Some(Gathered(Live(s.store), s.store.now))))
  {
    var s1 := s.(store := Cleaned(s.store));
    var s' := s1.(answer := Some(Gathered(Live(s.store), s.store.now)));
    GatherComplete(cfg, s);
    CleanedConsistent(cfg, s);
    assert Keeps(s, s');
    KeptBelieved(s, s');
    KeptJustified(cfg, s, s', s'.answer.value);
    assert forall w :: MappedAt(s', w) == MappedAt(s1, w);
    assert forall w :: w in s1.store.chunks ==> Stored(cfg, s1, w) ==> Stored(cfg, s', w);
  }

  /** The other ways a pass can end. */
  lemma StepListen(cfg: Config, s: State, ready: set<string>, taken: nat, answer: Option<Answer>)
    requires Consistent(cfg, s) && Believed(s)
    requires forall w :: w in ready ==> Confirmed(s, w)
    requires taken <= |s.notes| && forall i :: 0 <= i < taken ==> Heard(s.notes[i], ready)
    requires answer.Some? ==> ready == s.ready && taken == s.taken && Justified(cfg, s, answer.value)
    ensures Inv(cfg, s.(ready := ready, taken := taken, answer := answer))
  {
    var s' := s.(ready := ready, taken := taken, answer := answer);
    assert forall w :: MappedAt(s', w) == MappedAt(s, w);
    forall w | w in s'.store.chunks ensures Stored(cfg, s', w) {
      assert Stored(cfg, s, w);
    }
    forall i | 0 <= i < |s'.notes| ensures Honest(s', s'.notes[i]) {
      assert Honest(s, s.notes[i]);
    }
    forall w | w in s'.ready ensures Confirmed(s', w) {
      assert Confirmed(s, w);
    }
    if answer.Some? { KeptJustified(cfg, s, s', answer.value); }
  }

  /** What the coordinator takes from a pass is so. */
  lemma PassJustified(cfg: Config, s: State, empty: bool)
    requires Consistent(cfg, s) && Believed(s)
    ensures match VerdictOf(cfg, s, empty)
      case Waiting(ready) =>
        && (forall w :: w in ready ==> Confirmed(s, w))
        && NextTaken(s, empty) <= |s.notes| && (forall i :: 0 <= i < NextTaken(s, empty) ==> Heard(s.notes[i], ready))
      case AllReady => cfg.workers - s.ready == {}
      case verdict => Justified(cfg, s, Error(verdict))
  {
    var note := NoteFor(s, empty);
    assert note.Some? ==> Honest(s, note.value);
    FewerThanWorkers(cfg.workers, s.ready);
  }

  lemma FewerThanWorkers(workers: set<string>, ready: set<string>)
    requires ready <= workers
    ensures workers - ready != {} ==> |ready| < |workers|
  {
    if workers - ready != {} {
      assert |workers| == |workers - ready| + |ready| by { assert workers == (workers - ready) + ready; }
    }
  }

  lemma StepCoordinator(cfg: Config, s: State, empty: bool)
    requires Inv(cfg, s) && s.answer.None?
    ensures Inv(cfg, CoordinatorPass(cfg, s, empty))
  {
    PassJustified(cfg, s, empty);
    match VerdictOf(cfg, s, empty)
    case AllReady => StepGather(cfg, s, empty);
    case Waiting(ready) => StepListen(cfg, s, ready, NextTaken(s, empty), s.answer);
    case verdict => StepListen(cfg, s, s.ready, s.taken, Some(Error(verdict)));
  }

  lemma {:induction false} Always(cfg: Config, store: Store<Value>, run: seq<Action>)
    requires Start(store) && Exec(cfg, store, run).Some?
    ensures Inv(cfg, Exec(cfg, store, run).value)
  {
    if run != [] {
      Always(cfg, store, run[..|run| - 1]);
      var s := Exec(cfg, store, run[..|run| - 1]).value;
      var a := run[|run| - 1];
      if a.Coordinate? { StepCoordinator(cfg, s, a.empty); } else { StepWorker(cfg, s, a); }
    }
  }

  /**
   * In every run: if the coordinator gathers, then every worker's Map had succeeded before, and
   * it gathers the contributions of exactly the workers whose Map is less than the expiry old.
   */
  lemma GatherIsComplete(cfg: Config, store: Store<Value>, run: seq<Action>, g: map<string, Value>, at: int)
    requires Start(store) && Exec(cfg, store, run).Some? && Exec(cfg, store, run).value.answer == Some(Gathered(g, at))
    ensures Complete(cfg, Exec(cfg, store, run).value, g, at)
  {
    Always(cfg, store, run);
  }

  /**
   * An error names a worker whose Map did fail, a call that was cancelled, or - at the deadline -
   * exactly the workers from whom no good news has been taken off the bus.
   */
  lemma ErrorIsJustified(cfg: Config, store: Store<Value>, run: seq<Action>)
    requires Start(store) && Exec(cfg, store, run).Some? && Exec(cfg, store, run).value.answer.Some?
    ensures var s := Exec(cfg, store, run).value;
      && Justified(cfg, s, s.answer.value) && s.taken <= |s.notes|
      && (forall i :: 0 <= i < s.taken ==> Heard(s.notes[i], s.ready)) && (forall w :: w in s.ready ==> Confirmed(s, w))
  {
    Always(cfg, store, run);
  }

  /** Without an expiry in between, every worker's contribution is there, and nothing else. */
  lemma NothingIsLost(cfg: Config, store: Store<Value>, run: seq<Action>, g: map<string, Value>, at: int)
    requires Start(store) && Exec(cfg, store, run).Some? && Exec(cfg, store, run).value.answer == Some(Gathered(g, at))
    requires at < store.now + store.expiry
    ensures g.Keys == cfg.workers && forall w :: w in cfg.workers ==> w in cfg.values && g[w] == cfg.values[w]
  {
    GatherIsComplete(cfg, store, run, g, at);
    var s := Exec(cfg, store, run).value;
    NotBefore(cfg, store, run);
  }

  lemma StepDates(cfg: Config, s: State, a: Action)
    requires Apply(cfg, s, a).Some?
    ensures var s' := Apply(cfg, s, a).value; s'.store.now >= s.store.now && s'.store.expiry == s.store.expiry
    ensures var s' := Apply(cfg, s, a).value;
      forall w :: MappedAt(s', w).Some? ==> MappedAt(s', w) == MappedAt(s, w) || MappedAt(s', w).value == s.store.now
  {
  }

  lemma {:induction false} NotBefore(cfg: Config, store: Store<Value>, run: seq<Action>)
    requires Exec(cfg, store, run).Some?
    ensures var s := Exec(cfg, store, run).value; s.store.now >= store.now && s.store.expiry == store.expiry
    ensures forall w :: MappedAt(Exec(cfg, store, run).value, w).Some? ==>
      MappedAt(Exec(cfg, store, run).value, w).value >= store.now
  {
    if run != [] {
      NotBefore(cfg, store, run[..|run| - 1]);
      var s, s' := Exec(cfg, store, run[..|run| - 1]).value, Exec(cfg, store, run).value;
      StepDates(cfg, s, run[|run| - 1]);
    }
  }
}

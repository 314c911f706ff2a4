/**
 * That the handshake succeeds and fails as it should: when everybody has reported, the
 * coordinator's own passes gather; and there are runs to success and to every error.
 */
module HandshakeLive {
  import opened Wrappers
  import Storage
  import opened Handshake

  /** What the next pass of the coordinator does when there is nothing more to wait for. */
  lemma NextPass(cfg: Config, s: State, empty: bool)
    requires s.answer.None?
    ensures var s' := CoordinatorPass(cfg, s, empty);
      && (s.cancelled ==> s'.answer == Some(Error(Cancelled)))
      && (!s.cancelled && s.ready == cfg.workers ==> s'.answer == Some(Gathered(Storage.Live(s.store), s.store.now)))
      && (!s.cancelled && s.store.now >= cfg.deadline ==> s'.answer.Some?)
  {
  }

  /** A worker that has told the coordinator has a note on the bus. */
  ghost predicate Noted(s: State) {
    forall w :: w in s.stages && s.stages[w].Told? ==> NoteOf(s, w)
  }

  ghost predicate NoteOf(s: State, w: string) {
    exists i :: 0 <= i < |s.notes| && s.notes[i].Ready? && s.notes[i].from == w
  }

  lemma NotesKept(s: State, s': State, w: string)
    requires NoteOf(s, w) && s.notes <= s'.notes
    ensures NoteOf(s', w)
  {
    var i :| 0 <= i < |s.notes| && s.notes[i].Ready? && s.notes[i].from == w;
    assert s'.notes[i] == s.notes[i];
  }

  lemma StepNoted(cfg: Config, s: State, a: Action)
    requires Noted(s) && Apply(cfg, s, a).Some?
    ensures Noted(Apply(cfg, s, a).value)
  {
    var s' := Apply(cfg, s, a).value;
    forall w | w in s'.stages && s'.stages[w].Told? ensures NoteOf(s', w) {
      if w in s.stages && s.stages[w].Told? {
        NotesKept(s, s', w);
      } else {
        assert s'.notes[|s.notes|].Ready? && s'.notes[|s.notes|].from == w;
      }
    }
  }

  lemma {:induction false} AlwaysNoted(cfg: Config, store: Storage.Store<Value>, run: seq<Action>)
    requires Exec(cfg, store, run).Some?
    ensures Noted(Exec(cfg, store, run).value)
  {
    if run != [] {
      AlwaysNoted(cfg, store, run[..|run| - 1]);
      StepNoted(cfg, Exec(cfg, store, run[..|run| - 1]).value, run[|run| - 1]);
    }
  }

  /** Once every note has been taken, everybody is ready. */
  lemma AllTaken(cfg: Config, s: State)
    requires Believed(s) && Noted(s) && s.taken == |s.notes|
    requires forall w :: w in cfg.workers ==> Confirmed(s, w)
    ensures cfg.workers <= s.ready
  {
    forall w | w in cfg.workers ensures w in s.ready {
      assert Confirmed(s, w) && NoteOf(s, w);
      var i :| 0 <= i < |s.notes| && s.notes[i].Ready? && s.notes[i].from == w;
      assert Honest(s, s.notes[i]) && Heard(s.notes[i], s.ready);
    }
  }

  lemma ReadyIsWorkers(cfg: Config, s: State)
    requires Consistent(cfg, s) && Believed(s)
    ensures s.ready <= cfg.workers
    ensures |s.ready| >= |cfg.workers| ==> s.ready == cfg.workers
  {
    forall w | w in s.ready ensures w in cfg.workers { assert Confirmed(s, w); }
    FewerThanWorkers(cfg.workers, s.ready);
    if cfg.workers - s.ready == {} {
      forall w | w in cfg.workers ensures w in s.ready { assert w !in cfg.workers - s.ready; }
    }
  }

  /** Not cancelled, in time, without an answer, and every worker has reported its success. */
  ghost predicate Promising(cfg: Config, s: State) {
    && Inv(cfg, s) && Noted(s)
    && s.answer.None? && !s.cancelled && s.store.now < cfg.deadline
    && forall w :: w in cfg.workers ==> Confirmed(s, w)
  }

  /** One pass that takes a note. */
  lemma Takes(cfg: Config, s: State)
    requires s.answer.None? && !s.cancelled && s.store.now < cfg.deadline && |s.ready| < |cfg.workers|
    requires s.taken < |s.notes| && (s.notes[s.taken].Ready? ==> s.notes[s.taken].mapped)
    ensures var s' := CoordinatorPass(cfg, s, false); s' == s.(ready := s'.ready, taken := s.taken + 1)
  {
  }

  lemma Listens(cfg: Config, s: State)
    requires Promising(cfg, s) && s.ready != cfg.workers
    ensures s.taken < |s.notes| && (s.notes[s.taken].Ready? ==> s.notes[s.taken].mapped)
    ensures |s.ready| < |cfg.workers|
  {
    ReadyIsWorkers(cfg, s);
    if s.taken == |s.notes| { AllTaken(cfg, s); }
    assert Honest(s, s.notes[s.taken]);
    assert s.notes[s.taken].Ready? ==> Confirmed(s, s.notes[s.taken].from);
  }

  lemma StaysPromising(cfg: Config, s: State, s': State)
    requires Promising(cfg, s) && Inv(cfg, s') && Noted(s')
    requires s' == s.(ready := s'.ready, taken := s.taken + 1)
    ensures Promising(cfg, s')
  {
    forall w | w in cfg.workers ensures Confirmed(s', w) { assert Confirmed(s, w); }
  }

  lemma ExecMore(cfg: Config, store: Storage.Store<Value>, run: seq<Action>, s: State, a: Action)
    requires Exec(cfg, store, run) == Some(s)
    ensures Exec(cfg, store, run + [a]) == Apply(cfg, s, a)
  {
    assert (run + [a])[..|run|] == run;
  }

  /** The next pass gathers, or takes a note and leaves everything else as it is. */
  lemma OnePass(cfg: Config, store: Storage.Store<Value>, run: seq<Action>, s: State) returns (s': State)
    requires Exec(cfg, store, run) == Some(s) && Promising(cfg, s)
    ensures Exec(cfg, store, run + [Coordinate(false)]) == Some(s')
    ensures s'.answer.Some? ==> s'.answer == Some(Gathered(Storage.Live(s.store), s.store.now))
    ensures s'.answer.None? ==>
      Promising(cfg, s') && s'.store == s.store && |s'.notes| - s'.taken < |s.notes| - s.taken && s.taken < |s.notes|
  {
    s' := CoordinatorPass(cfg, s, false);
    ExecMore(cfg, store, run, s, Coordinate(false));
    if s.ready == cfg.workers {
      NextPass(cfg, s, false);
    } else {
      Listens(cfg, s);
      Takes(cfg, s);
      StepCoordinator(cfg, s, false);
      StepNoted(cfg, s, Coordinate(false));
      StaysPromising(cfg, s, s');
    }
  }

  predicate OnlyPasses(run: seq<Action>) { forall i :: 0 <= i < |run| ==> run[i] == Coordinate(false) }

  predicate EndsWith(cfg: Config, store: Storage.Store<Value>, run: seq<Action>, answer: Answer) {
    Exec(cfg, store, run).Some? && Exec(cfg, store, run).value.answer == Some(answer)
  }

  lemma {:induction false} Gathers(cfg: Config, store: Storage.Store<Value>, run: seq<Action>, s: State)
    returns (more: seq<Action>)
    requires Exec(cfg, store, run) == Some(s) && Promising(cfg, s)
    ensures OnlyPasses(more)
    ensures EndsWith(cfg, store, run + more, Gathered(Storage.Live(s.store), s.store.now))
    decreases |s.notes| - s.taken
  {
    var pass := [Coordinate(false)];
    var s' := OnePass(cfg, store, run, s);
    if s'.answer.Some? {
      more := pass;
    } else {
      var rest := Gathers(cfg, store, run + pass, s');
      more := pass + rest;
      assert run + more == run + pass + rest;
    }
  }

  /**
   * A coordinator that is not cancelled, is in time and whose workers have all reported their
   * success needs only its own passes to gather what is in the store.
   */
  lemma CanGather(cfg: Config, store: Storage.Store<Value>, run: seq<Action>) returns (more: seq<Action>)
    requires Start(store) && Exec(cfg, store, run).Some?
    requires var s := Exec(cfg, store, run).value; s.answer.None? && !s.cancelled && s.store.now < cfg.deadline
    requires forall w :: w in cfg.workers ==> Confirmed(Exec(cfg, store, run).value, w)
    ensures OnlyPasses(more)
    ensures var s := Exec(cfg, store, run).value;
      EndsWith(cfg, store, run + more, Gathered(Storage.Live(s.store), s.store.now))
  {
    Always(cfg, store, run);
    AlwaysNoted(cfg, store, run);
    more := Gathers(cfg, store, run, Exec(cfg, store, run).value);
  }

  // ----- it can succeed -----

  /** The workers of `done` have mapped and told, the others have not begun, and the coordinator waits. */
  ghost predicate Underway(cfg: Config, store: Storage.Store<Value>, s: State, done: set<string>) {
    && s.stages.Keys == cfg.workers && s.answer.None? && !s.cancelled && s.store.now == store.now
    && forall w :: w in cfg.workers ==> if w in done then Confirmed(s, w) else s.stages[w].Idle?
  }

  lemma OneReports(cfg: Config, store: Storage.Store<Value>, run: seq<Action>, s: State, done: set<string>, w: string)
    returns (s': State)
    requires Exec(cfg, store, run) == Some(s) && Underway(cfg, store, s, done)
    requires w in cfg.workers && w !in done && w in cfg.values && Storage.Allowed(w)
    ensures Exec(cfg, store, run + [MapOk(w)] + [Tell(w)]) == Some(s') && Underway(cfg, store, s', done + {w})
  {
    ExecMore(cfg, store, run, s, MapOk(w));
    var mapped := Apply(cfg, s, MapOk(w)).value;
    ExecMore(cfg, store, run + [MapOk(w)], mapped, Tell(w));
    s' := Apply(cfg, mapped, Tell(w)).value;
  }

  lemma {:induction false} AllReport(cfg: Config, store: Storage.Store<Value>, done: set<string>)
    returns (run: seq<Action>)
    requires done <= cfg.workers && forall w :: w in cfg.workers ==> w in cfg.values && Storage.Allowed(w)
    ensures Exec(cfg, store, run).Some? && Underway(cfg, store, Exec(cfg, store, run).value, done)
    decreases done
  {
    if done == {} {
      run := [];
    } else {
      var w :| w in done;
      var before := AllReport(cfg, store, done - {w});
      var s' := OneReports(cfg, store, before, Exec(cfg, store, before).value, done - {w}, w);
      assert done - {w} + {w} == done;
      run := before + [MapOk(w)] + [Tell(w)];
    }
  }

  /** The whole protocol can succeed: there is a run in which the coordinator gathers every worker's value. */
  lemma CanSucceed(cfg: Config, store: Storage.Store<Value>) returns (run: seq<Action>, g: map<string, Value>)
    requires Start(store) && store.now < cfg.deadline && 0 < store.expiry
    requires forall w :: w in cfg.workers ==> w in cfg.values && Storage.Allowed(w)
    ensures EndsWith(cfg, store, run, Gathered(g, store.now))
    ensures g.Keys == cfg.workers && forall w :: w in g ==> g[w] == cfg.values[w]
  {
    var reports := AllReport(cfg, store, cfg.workers);
    var s := Exec(cfg, store, reports).value;
    var more := CanGather(cfg, store, reports);
    run, g := reports + more, Storage.Live(s.store);
    NothingIsLost(cfg, store, run, g, store.now);
  }

  lemma ExecThree(cfg: Config, store: Storage.Store<Value>, a: Action, b: Action, c: Action) returns (run: seq<Action>)
    requires var s := Apply(cfg, Initial(cfg, store), a);
      s.Some? && Apply(cfg, s.value, b).Some? && Apply(cfg, Apply(cfg, s.value, b).value, c).Some?
    ensures Exec(cfg, store, run) == Apply(cfg, Apply(cfg, Apply(cfg, Initial(cfg, store), a).value, b).value, c)
  {
    var s := Initial(cfg, store);
    assert Exec(cfg, store, []) == Some(s);
    ExecMore(cfg, store, [], s, a);
    ExecMore(cfg, store, [] + [a], Apply(cfg, s, a).value, b);
    ExecMore(cfg, store, [] + [a] + [b], Apply(cfg, Apply(cfg, s, a).value, b).value, c);
    run := [] + [a] + [b] + [c];
  }

  /** Every error can happen: a failed Map is told and heard, */
  lemma FailureIsHeard(cfg: Config, store: Storage.Store<Value>, w: string) returns (run: seq<Action>)
    requires w in cfg.workers && store.now < cfg.deadline
    ensures EndsWith(cfg, store, run, Error(MapFailed(w)))
  {
    run := ExecThree(cfg, store, MapFails(w), Tell(w), Coordinate(false));
  }

  /** - messages of another type pass by unheeded - */
  lemma StrayIsSkipped(cfg: Config, store: Storage.Store<Value>, w: string) returns (run: seq<Action>)
    requires w in cfg.workers && store.now < cfg.deadline
    ensures Exec(cfg, store, run).Some?
    ensures var s := Exec(cfg, store, run).value; s.taken == |s.notes| == 1 && s.ready == {} && s.answer.None?
  {
    run := ExecThree(cfg, store, Stray, Coordinate(false), Wait(0));
  }

  /** a cancel ends the wait at the next pass, */
  lemma CancelIsHeard(cfg: Config, store: Storage.Store<Value>, d: nat, empty: bool) returns (run: seq<Action>)
    ensures EndsWith(cfg, store, run, Error(Cancelled))
  {
    run := ExecThree(cfg, store, Wait(d), Cancel, Coordinate(empty));
  }

  /** and silence ends it at the deadline. */
  lemma SilenceIsMissed(cfg: Config, store: Storage.Store<Value>, d: nat, empty: bool) returns (run: seq<Action>)
    requires cfg.workers != {} && cfg.deadline <= store.now + d
    ensures EndsWith(cfg, store, run, Error(Missing(cfg.workers)))
  {
    run := ExecThree(cfg, store, Wait(d), Wait(0), Coordinate(empty));
    assert cfg.workers - {} == cfg.workers;
  }
}

/**
 * Mapper.Map is not one step on Redis: SADD of the key comes before HSET of the chunk, and a lazy
 * cleanup is three: SMEMBERS, an EXISTS per key, SREM. Interleaved, a cleanup may drop a key
 * whose chunk has just been written, and no later AllGather finds it - although Map returned
 * True. Here is such a run, and exactly when a written key stays.
 */
module StorageRace {
  import opened Wrappers
  import opened Storage

  /** A getMapperLength under way: members not yet looked at, and those found without a chunk. */
  datatype Cleanup = Cleanup(unseen: set<string>, dead: set<string>)

  datatype State<V> = State(store: Store<V>, cleanups: seq<Cleanup>)

  datatype Command<V> =
    | Register(key: string)                 // SADD, the first half of Map
    | Write(key: string, value: V)          // HSET and EXPIRE, the second half
    | Begin                                 // SMEMBERS of a new cleanup
    | Look(c: nat, key: string)             // EXISTS
    | Remove(c: nat)                        // SREM
    | Wait(d: nat)

  function Apply<V>(s: State<V>, a: Command<V>): Option<State<V>> {
    match a
    case Register(k) => Some(s.(store := s.store.(keyList := s.store.keyList + {k})))
    case Write(k, v) => Some(s.(store := ChunkSet(s.store, k, v)))
    case Begin => Some(s.(cleanups := s.cleanups + [Cleanup(s.store.keyList, {})]))
    case Look(c, k) =>
      if c >= |s.cleanups| || k !in s.cleanups[c].unseen then None
      else
        var u := s.cleanups[c];
        var dead := if IsLive(s.store, k) then u.dead else u.dead + {k};
        Some(s.(cleanups := s.cleanups[c := Cleanup(u.unseen - {k}, dead)]))
    case Remove(c) =>
      if c >= |s.cleanups| || s.cleanups[c].unseen != {} then None
      else Some(s.(store := s.store.(keyList := s.store.keyList - s.cleanups[c].dead),
                   cleanups := s.cleanups[c := Cleanup({}, {})]))
    case Wait(d) => Some(s.(store := Later(s.store, d)))
  }

  function Exec<V>(s: State<V>, run: seq<Command<V>>): Option<State<V>> {
    if run == [] then Some(s)
    else
      match Exec(s, run[..|run| - 1])
      case None => None
      case Some(t) => Apply(t, run[|run| - 1])
  }

  /** Some cleanup under way has found k dead and will remove it. */
  predicate Condemned<V>(s: State<V>, k: string) {
    exists c :: 0 <= c < |s.cleanups| && k in s.cleanups[c].dead
  }

  /** k is live, listed, and no cleanup is about to drop it. */
  predicate Safe<V>(s: State<V>, k: string) {
    IsLive(s.store, k) && k in s.store.keyList && !Condemned(s, k)
  }

  lemma SafeStep<V>(s: State<V>, a: Command<V>, k: string)
    requires Safe(s, k) && Apply(s, a).Some? && IsLive(Apply(s, a).value.store, k)
    ensures Safe(Apply(s, a).value, k)
  {
    var s' := Apply(s, a).value;
    forall c | 0 <= c < |s'.cleanups| ensures k !in s'.cleanups[c].dead {
      if c < |s.cleanups| { assert !(k in s.cleanups[c].dead); }
    }
  }

  /** Once safe, a key stays listed until its chunk runs out, whatever anybody does. */
  lemma {:induction false} SafeForLife<V>(s: State<V>, run: seq<Command<V>>, k: string)
    requires Safe(s, k) && Exec(s, run).Some?
    requires forall i :: 0 <= i <= |run| ==> Exec(s, run[..i]).Some? && IsLive(Exec(s, run[..i]).value.store, k)
    ensures Safe(Exec(s, run).value, k)
  {
    if run != [] {
      var before := run[..|run| - 1];
      forall i | 0 <= i <= |before| ensures Exec(s, before[..i]).Some? && IsLive(Exec(s, before[..i]).value.store, k) {
        assert before[..i] == run[..i];
      }
      SafeForLife(s, before, k);
      assert run[..|run|] == run;
      SafeStep(Exec(s, before).value, run[|run| - 1], k);
    }
  }

  /** A cleanup removes once: afterwards it condemns nothing, and removing again changes nothing. */
  lemma {:induction false} RemovedOnce<V>(s: State<V>, c: nat, run: seq<Command<V>>)
    requires Apply(s, Remove(c)).Some? && Exec(Apply(s, Remove(c)).value, run).Some?
    ensures var t := Exec(Apply(s, Remove(c)).value, run).value;
      && c < |t.cleanups| && t.cleanups[c] == Cleanup({}, {}) && Apply(t, Remove(c)) == Some(t)
  {
    if run != [] { RemovedOnce(s, c, run[..|run| - 1]); }
    var t := Exec(Apply(s, Remove(c)).value, run).value;
    assert t.cleanups[c := Cleanup({}, {})] == t.cleanups && t.store.keyList - {} == t.store.keyList;
  }

  // ----- time -----

  /** The time that passes in a run. */
  function Spent<V>(run: seq<Command<V>>): nat {
    if run == [] then 0 else Spent(run[..|run| - 1]) + (if run[|run| - 1].Wait? then run[|run| - 1].d else 0)
  }

  /** No chunk lives longer than the expiry from now: EXPIRE never asks for more. */
  predicate Bounded<V>(st: Store<V>) {
    forall k :: k in st.chunks ==> st.chunks[k].until <= st.now + st.expiry
  }

  /** Over any run the clock moves by the time spent, and what others write only prolongs a chunk's life. */
  lemma {:induction false} RunKeeps<V>(s: State<V>, run: seq<Command<V>>, k: string)
    requires Bounded(s.store) && Exec(s, run).Some?
    ensures var t := Exec(s, run).value.store;
      && Bounded(t) && t.now == s.store.now + Spent(run) && t.expiry == s.store.expiry
      && (k in s.store.chunks ==> k in t.chunks && s.store.chunks[k].until <= t.chunks[k].until)
  {
    if run != [] { RunKeeps(s, run[..|run| - 1], k); }
  }

  /** In every run from an empty store, chunks are bounded. */
  lemma AlwaysBounded<V>(s: State<V>, run: seq<Command<V>>)
    requires s.store.chunks == map[] && Exec(s, run).Some?
    ensures Bounded(Exec(s, run).value.store)
  {
    RunKeeps(s, run, "");
  }

  /** A safe key stays safe until the chunk it has now runs out. */
  lemma {:induction false} SafeSurvives<V>(s: State<V>, run: seq<Command<V>>, k: string)
    requires Safe(s, k) && Bounded(s.store) && Exec(s, run).Some?
    requires s.store.now + Spent(run) < s.store.chunks[k].until
    ensures Safe(Exec(s, run).value, k)
  {
    if run != [] {
      SafeSurvives(s, run[..|run| - 1], k);
      RunKeeps(s, run, k);
      SafeStep(Exec(s, run[..|run| - 1]).value, run[|run| - 1], k);
    }
  }

  /** k stays listed in a run no longer than the life of its chunk. */
  predicate ListedAfter<V>(s: State<V>, k: string, run: seq<Command<V>>)
    requires k in s.store.chunks
  {
    s.store.now + Spent(run) < s.store.chunks[k].until && Exec(s, run).Some? ==> k in Exec(s, run).value.store.keyList
  }

  ghost predicate Survives<V(!new)>(s: State<V>, k: string)
    requires k in s.store.chunks
  {
    forall run :: ListedAfter(s, k, run)
  }

  /** A cleanup that has condemned k can finish at once, and then k is gone. */
  lemma {:induction false} FinishCleanup<V>(s: State<V>, c: nat, k: string) returns (run: seq<Command<V>>)
    requires c < |s.cleanups| && k in s.cleanups[c].dead
    ensures Spent(run) == 0 && Exec(s, run).Some? && k !in Exec(s, run).value.store.keyList
    decreases |s.cleanups[c].unseen|
  {
    if s.cleanups[c].unseen == {} {
      run := [Remove(c)];
      assert run[..0] == [];
    } else {
      var j :| j in s.cleanups[c].unseen;
      var next := Apply(s, Look(c, j)).value;
      var rest := FinishCleanup(next, c, k);
      ExecCons(s, Look(c, j), rest);
      SpentCons(Look(c, j), rest);
      run := [Look(c, j)] + rest;
    }
  }

  lemma {:induction false} SpentCons<V>(a: Command<V>, rest: seq<Command<V>>)
    ensures Spent([a] + rest) == (if a.Wait? then a.d else 0) + Spent(rest)
  {
    if rest == [] {
      assert [a] + rest == [a] && [a][..0] == [];
    } else {
      SpentCons(a, rest[..|rest| - 1]);
      assert ([a] + rest)[..|rest|] == [a] + rest[..|rest| - 1];
    }
  }

  lemma {:induction false} ExecCons<V>(s: State<V>, a: Command<V>, rest: seq<Command<V>>)
    requires Apply(s, a).Some?
    ensures Exec(s, [a] + rest) == Exec(Apply(s, a).value, rest)
  {
    if rest == [] {
      assert [a] + rest == [a] && [a][..0] == [];
    } else {
      ExecCons(s, a, rest[..|rest| - 1]);
      assert ([a] + rest)[..|rest|] == [a] + rest[..|rest| - 1];
    }
  }

  /**
   * The exact condition at any moment: a live key stays listed, in every interleaving, until the
   * chunk it has then runs out, if and only if it is listed and no cleanup under way has already
   * found it without a chunk.
   */
  lemma KeptIff<V(!new)>(s: State<V>, k: string)
    requires Bounded(s.store) && IsLive(s.store, k)
    ensures Survives(s, k) <==> k in s.store.keyList && !Condemned(s, k)
  {
    if Safe(s, k) {
      forall run ensures ListedAfter(s, k, run) {
        if s.store.now + Spent(run) < s.store.chunks[k].until && Exec(s, run).Some? { SafeSurvives(s, run, k); }
      }
    } else if Condemned(s, k) {
      var c :| 0 <= c < |s.cleanups| && k in s.cleanups[c].dead;
      var run := FinishCleanup(s, c, k);
      assert !ListedAfter(s, k, run);
    } else {
      assert !ListedAfter(s, k, []);
    }
  }

  /** Without a cleanup under way that has found k dead, a Map that nothing interrupts keeps its key. */
  lemma QuietMapKeeps<V>(s: State<V>, k: string, v: V)
    requires s.store.expiry > 0 && !Condemned(s, k)
    ensures Exec(s, [Register(k), Write(k, v)]).Some? && Safe(Exec(s, [Register(k), Write(k, v)]).value, k)
  {
    var run := [Register(k), Write(k, v)];
    assert run[..1][..0] == [];
    assert Exec(s, run[..1]) == Apply(s, Register(k));
  }

  /** A call of Map with the commands `during` it and `after` it that other clients issue. */
  function MapAmong<V>(s: State<V>, k: string, v: V, during: seq<Command<V>>,
    after: seq<Command<V>>): Option<State<V>> {
    match Exec(Apply(s, Register(k)).value, during)
    case None => None
    case Some(t) => Exec(Apply(t, Write(k, v)).value, after)
  }

  /** The call takes at most d, and the chunk it writes has not run out at the end. */
  predicate KeptAmong<V>(
    s: State<V>, k: string, v: V, d: nat, during: seq<Command<V>>, after: seq<Command<V>>)
  {
    Spent(during) <= d && Spent(after) < s.store.expiry && MapAmong(s, k, v, during, after).Some? ==>
      k in MapAmong(s, k, v, during, after).value.store.keyList
  }

  /** A call of Map that takes at most d keeps its key, whatever other clients do while the chunk lives. */
  ghost predicate MapKeeps<V(!new)>(s: State<V>, k: string, v: V, d: nat) {
    forall during, after :: KeptAmong(s, k, v, d, during, after)
  }

  /** k has a chunk that outlives a call that takes d. */
  predicate Outlives<V>(st: Store<V>, k: string, d: nat) {
    k in st.chunks && st.now + d < st.chunks[k].until
  }

  lemma MapOfSafeKey<V>(
    s: State<V>, k: string, v: V, d: nat, during: seq<Command<V>>, after: seq<Command<V>>)
    requires Bounded(s.store) && Outlives(s.store, k, d) && !Condemned(s, k)
    ensures KeptAmong(s, k, v, d, during, after)
  {
    if Spent(during) <= d && Spent(after) < s.store.expiry && MapAmong(s, k, v, during, after).Some? {
      var s1 := Apply(s, Register(k)).value;
      RunKeeps(s1, during, k);
      SafeSurvives(s1, during, k);
      var s2 := Exec(s1, during).value;
      var s3 := Apply(s2, Write(k, v)).value;
      SafeStep(s2, Write(k, v), k);
      SafeSurvives(s3, after, k);
    }
  }

  /** A cleanup that has found k dead before the chunk is written drops it afterwards. */
  lemma MapOfCondemnedKey<V>(s: State<V>, k: string, v: V, d: nat, during: seq<Command<V>>, c: nat)
    returns (after: seq<Command<V>>)
    requires s.store.expiry > 0 && Spent(during) <= d && Exec(Apply(s, Register(k)).value, during).Some?
    requires var t := Exec(Apply(s, Register(k)).value, during).value; c < |t.cleanups| && k in t.cleanups[c].dead
    ensures !KeptAmong(s, k, v, d, during, after)
  {
    var t := Exec(Apply(s, Register(k)).value, during).value;
    after := FinishCleanup(Apply(t, Write(k, v)).value, c, k);
  }

  /** A reader that starts when the chunk of k has run out condemns it. */
  lemma ReaderCondemns<V>(s: State<V>, k: string, d: nat) returns (run: seq<Command<V>>)
    requires k in s.store.keyList && !Outlives(s.store, k, d)
    ensures Spent(run) == d && Exec(s, run).Some?
    ensures var t := Exec(s, run).value; |s.cleanups| < |t.cleanups| && k in t.cleanups[|s.cleanups|].dead
  {
    run := [Command.Wait(d), Begin, Look(|s.cleanups|, k)];
    var s1 := Apply(s, run[0]).value;
    var s2 := Apply(s1, run[1]).value;
    assert run[..1][..0] == [] && Exec(s, run[..1]) == Some(s1) && Spent(run[..1]) == d;
    assert run[..2][..1] == run[..1] && Exec(s, run[..2]) == Some(s2) && Spent(run[..2]) == d;
  }

  /**
   * When a call of Map keeps its key: in every interleaving with readers and writers in which the
   * call takes at most d, until the chunk it writes runs out, if and only if the key had before
   * the call a chunk that outlives the call, and no cleanup under way had found it without
   * one. So the first Map of a key is never safe beside a reader, nor is one that comes so late
   * that the old chunk may run out meanwhile.
   */
  lemma MapKeepsIff<V(!new)>(s: State<V>, k: string, v: V, d: nat)
    requires s.store.expiry > 0 && Bounded(s.store)
    ensures MapKeeps(s, k, v, d) <==> Outlives(s.store, k, d) && !Condemned(s, k)
  {
    var s1 := Apply(s, Register(k)).value;
    if Condemned(s, k) {
      var c :| 0 <= c < |s.cleanups| && k in s.cleanups[c].dead;
      var after := MapOfCondemnedKey(s, k, v, d, [], c);
    } else if !Outlives(s.store, k, d) {
      var during := ReaderCondemns(s1, k, d);
      var after := MapOfCondemnedKey(s, k, v, d, during, |s1.cleanups|);
    } else {
      forall during, after ensures KeptAmong(s, k, v, d, during, after) {
        MapOfSafeKey(s, k, v, d, during, after);
      }
    }
  }

  /** Map of a new key with one cleanup in between: the chunk is live, the key is not listed. */
  lemma MapLosesItsKey<V>(k: string, v: V, expiry: nat)
    requires expiry > 0
    ensures var s := State(Store({}, map[], Absent, 0, expiry), []);
      var end := Exec(s, [Register(k), Begin, Look(0, k), Write(k, v), Remove(0)]);
      end.Some? && IsLive(end.value.store, k) && k !in end.value.store.keyList && k in Live(end.value.store)
  {
    var s := State(Store({}, map[], Absent, 0, expiry), []);
    var run := [Register(k), Begin, Look(0, k), Write(k, v), Remove(0)];
    var s1 := Apply(s, run[0]).value;
    var s2 := Apply(s1, run[1]).value;
    var s3 := Apply(s2, run[2]).value;
    var s4 := Apply(s3, run[3]).value;
    assert run[..1][..0] == [] && Exec(s, run[..1]) == Some(s1);
    assert run[..2][..1] == run[..1] && Exec(s, run[..2]) == Some(s2);
    assert run[..3][..2] == run[..2] && Exec(s, run[..3]) == Some(s3);
    assert run[..4][..3] == run[..3] && Exec(s, run[..4]) == Some(s4);
  }
}

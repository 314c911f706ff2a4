/**
 * The storage under a Mapper (scarlets/core/Mapper.py over scarlets/contract/RedisContract.py):
 * one Redis set of keys and one expiring Redis hash per key, kept together by lazy cleanup, and
 * the definition key whose lease is renewed by writes.
 */
module Storage {
  import opened Wrappers

  datatype Chunk<V> = Chunk(value: V, until: int)

  /** The scarlet_definition key: absent, without expiry, or expiring. */
  datatype Lease = Absent | Forever | Until(at: int)

  datatype Store<V> = Store(
    keyList: set<string>,
    chunks: map<string, Chunk<V>>,
    definition: Lease,
    now: int,
    expiry: nat)                 // scarletDataExpiry, in seconds

  predicate IsLive<V>(st: Store<V>, k: string) {
    k in st.chunks && st.now < st.chunks[k].until
  }

  /** The plain expiring map the storage stands for. */
  function Live<V>(st: Store<V>): map<string, V> {
    map k | k in st.chunks && IsLive(st, k) :: st.chunks[k].value
  }

  predicate Defined<V>(st: Store<V>) {
    st.definition.Forever? || (st.definition.Until? && st.now < st.definition.at)
  }

  /** Every live key is in the key list. */
  predicate Indexed<V>(st: Store<V>) {
    forall k :: k in st.chunks && IsLive(st, k) ==> k in st.keyList
  }

  // ----- what one operation does -----

  /** register_scarlet_definition without overwrite, as the constructor calls it. */
  function Registered<V>(st: Store<V>): Store<V> {
    if Defined(st) then st
    else st.(definition := if st.expiry == 0 then Forever else Until(st.now + st.expiry))
  }

  /** touch_scarlet_definition: renewed, or created again if it is gone; an expiry of 0 means leave it alone. */
  function Touched<V>(st: Store<V>): Store<V> {
    if st.expiry == 0 then st else st.(definition := Until(st.now + st.expiry))
  }

  /** HSET and EXPIRE in one transaction. */
  function ChunkSet<V>(st: Store<V>, k: string, v: V): Store<V> {
    st.(chunks := st.chunks[k := Chunk(v, st.now + st.expiry)])
  }

  function Mapped<V>(st: Store<V>, k: string, v: V): Store<V> {
    Touched(ChunkSet(st.(keyList := st.keyList + {k}), k, v))
  }

  /** The lazy cleanup in getMapperLength. */
  function Cleaned<V>(st: Store<V>): Store<V> {
    st.(keyList := set k | k in st.keyList && IsLive(st, k))
  }

  /** The chunks of the given keys all overwritten. */
  function Overwritten<V>(st: Store<V>, keys: set<string>, v: V): Store<V> {
    st.(chunks := map k | k in st.chunks.Keys + keys :: if k in keys then Chunk(v, st.now + st.expiry)
      else st.chunks[k])
  }

  function AllReset<V>(st: Store<V>, v: V): Store<V> {
    Touched(Overwritten(Cleaned(st), Cleaned(st).keyList, v))
  }

  function AllCleared<V>(st: Store<V>): Store<V> {
    st.(keyList := {}, chunks := map[])
  }

  function Later<V>(st: Store<V>, d: nat): Store<V> { st.(now := st.now + d) }

  // ----- a run of operations, and what it should leave behind -----

  datatype Operation<V> = Map(key: string, value: V) | AllGather | ResetAll(value: V) | ClearAll | Wait(d: nat)

  predicate Allowed(key: string) { '@' !in key && ':' !in key }

  function Apply<V>(st: Store<V>, op: Operation<V>): Store<V> {
    match op
    case Map(k, v) => if Allowed(k) then Mapped(st, k, v) else st
    case AllGather => Cleaned(st)
    case ResetAll(v) => AllReset(st, v)
    case ClearAll => AllCleared(st)
    case Wait(d) => Later(st, d)
  }

  function Fresh<V>(expiry: nat, now: int): Store<V> {
    Registered(Store({}, map[], Absent, now, expiry))
  }

  function Run<V>(expiry: nat, now: int, ops: seq<Operation<V>>): Store<V> {
    if ops == [] then Fresh(expiry, now) else Apply(Run(expiry, now, ops[..|ops| - 1]), ops[|ops| - 1])
  }

  /** The time at the end of a run. */
  function Clock<V>(now: int, ops: seq<Operation<V>>): int {
    if ops == [] then now
    else Clock(now, ops[..|ops| - 1]) + (match ops[|ops| - 1] case Wait(d) => d case _ => 0)
  }

  /**
   * When key k was last written in a run and with what, if nothing has cleared it since. A reset
   * writes k only if the value before it has not run out.
   */
  function LastWrite<V>(expiry: nat, now: int, ops: seq<Operation<V>>, k: string): Option<(int, V)> {
    if ops == [] then None
    else
      var before := LastWrite(expiry, now, ops[..|ops| - 1], k);
      var at := Clock(now, ops[..|ops| - 1]);
      match ops[|ops| - 1]
      case Map(key, v) => if key == k && Allowed(k) then Some((at, v)) else before
      case ResetAll(v) => if before.Some? && at < before.value.0 + expiry then Some((at, v)) else before
      case ClearAll => None
      case _ => before
  }

  /** The value a plain expiring map would hold for k. */
  function Expected<V>(expiry: nat, now: int, ops: seq<Operation<V>>, k: string): Option<V> {
    var w := LastWrite(expiry, now, ops, k);
    if w.Some? && Clock(now, ops) < w.value.0 + expiry then Some(w.value.1) else None
  }

  ghost predicate Agrees<V>(expiry: nat, now: int, ops: seq<Operation<V>>, k: string) {
    var st, w := Run(expiry, now, ops), LastWrite(expiry, now, ops, k);
    && st.expiry == expiry && st.now == Clock(now, ops)
    && (if w.None? then k !in st.chunks else k in st.chunks && st.chunks[k] == Chunk(w.value.1, w.value.0 + expiry))
    && (IsLive(st, k) ==> k in st.keyList)
  }

  lemma {:induction false} RunAgrees<V>(expiry: nat, now: int, ops: seq<Operation<V>>, k: string)
    ensures Agrees(expiry, now, ops, k)
  {
    if ops != [] {
      RunAgrees(expiry, now, ops[..|ops| - 1], k);
    }
  }

  /**
   * The storage refines an expiring map: after any run, an AllGather finds exactly the keys whose
   * last write has not run out, each with the value of that write.
   */
  lemma StorageIsAnExpiringMap<V>(expiry: nat, now: int, ops: seq<Operation<V>>, k: string)
    ensures var st := Run(expiry, now, ops);
      && (k in Live(st) <==> Expected(expiry, now, ops, k).Some?)
      && (k in Live(st) ==> Expected(expiry, now, ops, k) == Some(Live(st)[k]))
      && Indexed(st)
  {
    RunAgrees(expiry, now, ops, k);
    var st := Run(expiry, now, ops);
    forall j | j in st.chunks && IsLive(st, j) ensures j in st.keyList {
      RunAgrees(expiry, now, ops, j);
    }
  }

  /** Lazy cleanup forgets dead keys only, and all of them. */
  lemma CleanupForgetsTheDead<V>(st: Store<V>)
    requires Indexed(st)
    ensures Cleaned(st).keyList == Live(st).Keys && Live(Cleaned(st)) == Live(st)
  {
    assert forall k :: IsLive(Cleaned(st), k) <==> IsLive(st, k);
  }

  // ----- the definition outlives the data -----

  predicate IsWrite<V>(op: Operation<V>) {
    (op.Map? && Allowed(op.key)) || op.ResetAll?
  }

  /** The time of the last write of a run, or of its start. */
  function LastUse<V>(now: int, ops: seq<Operation<V>>): int {
    if ops == [] then now
    else if IsWrite(ops[|ops| - 1]) then Clock(now, ops[..|ops| - 1])
    else LastUse(now, ops[..|ops| - 1])
  }

  lemma {:induction false} LeaseOfRun<V>(expiry: nat, now: int, ops: seq<Operation<V>>)
    ensures Run(expiry, now, ops).expiry == expiry && Run(expiry, now, ops).now == Clock(now, ops)
    ensures Run(expiry, now, ops).definition == if expiry == 0 then Forever else Until(LastUse(now, ops) + expiry)
    ensures forall k :: k in Run(expiry, now, ops).chunks ==>
      Run(expiry, now, ops).chunks[k].until <= LastUse(now, ops) + expiry
    ensures LastUse(now, ops) <= Clock(now, ops)
  {
    if ops != [] {
      LeaseOfRun(expiry, now, ops[..|ops| - 1]);
    }
  }

  /**
   * Over any run, the definition is there for exactly `expiry` after the last write - reads renew
   * nothing - and as long as any chunk is live.
   */
  lemma DefinitionOutlivesData<V>(expiry: nat, now: int, ops: seq<Operation<V>>)
    ensures var st := Run(expiry, now, ops);
      && (Live(st) != map[] ==> Defined(st))
      && (expiry > 0 ==> (Defined(st) <==> Clock(now, ops) < LastUse(now, ops) + expiry))
  {
    LeaseOfRun(expiry, now, ops);
    var st := Run(expiry, now, ops);
    if Live(st) != map[] {
      var k :| k in Live(st);
      assert IsLive(st, k);
    }
  }
}

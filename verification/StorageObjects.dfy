/** RedisContract, Mapper and Federator as objects, proved against Storage and Reduction. */
module StorageObjects {
  import opened Storage
  import opened Reduction

  /** The Redis set and hashes of one scarlet, the server's clock, and the cached list of keys. */
  class RedisContract {
    var keyList: set<string>
    var chunks: map<string, Chunk<Value>>
    var now: int
    var keyCache: seq<string>
    const expiry: nat

    constructor (expiry: nat, now: int)
      ensures keyList == {} && chunks == map[] && this.now == now && this.expiry == expiry && keyCache == []
    {
      keyList, chunks, this.now, this.expiry, keyCache := {}, map[], now, expiry, [];
    }

    predicate Exists(key: string)
      reads this
    {
      key in chunks && now < chunks[key].until
    }

    method Elapse(d: nat)
      modifies this`now
      ensures now == old(now) + d
    {
      now := now + d;
    }

    method RegisterNewKey(key: string) returns (isNew: bool)
      modifies this`keyList
      ensures keyList == old(keyList) + {key} && isNew == (key !in old(keyList))
    {
      isNew := key !in keyList;
      if isNew {
        keyList := keyList + {key};
      }
    }

    method SetChunk(key: string, content: Value)
      modifies this`chunks
      ensures chunks == old(chunks)[key := Chunk(content, now + expiry)]
    {
      chunks := chunks[key := Chunk(content, now + expiry)];
    }

    method ClearKey(key: string) returns (found: bool)
      modifies this`keyList, this`chunks
      ensures keyList == old(keyList) - {key} && chunks == old(chunks) - (if found then {key} else {})
      ensures found == old(Exists(key))
    {
      keyList := keyList - {key};
      found := Exists(key);
      if found {
        chunks := chunks - {key};
      }
    }

    /** SCAN returns the keys in batches of any size and in any order. */
    method ClearAll()
      modifies this`keyList, this`chunks
      ensures keyList == {} && chunks == map[]
    {
      while chunks != map[]
        decreases |chunks|
      {
        var key :| key in chunks;
        chunks := chunks - {key};
      }
      keyList := {};
    }

    /** Reads the key list and drops from it the keys without a chunk. */
    method GetMapperLength() returns (n: nat)
      modifies this`keyList, this`keyCache
      ensures keyList == set k | k in old(keyList) && old(Exists(k))
      ensures Distinct(keyCache) && (forall k :: k in keyCache <==> k in keyList) && n == |keyCache|
    {
      var members, kept, dead := keyList, [], {};
      while members != {}
        invariant members !! dead && (forall k :: k in kept ==> k !in members && k !in dead && Exists(k))
        invariant forall k :: k in dead ==> !Exists(k)
        invariant forall k :: k in keyList <==> k in members || k in kept || k in dead
        invariant Distinct(kept)
        decreases |members|
      {
        var k :| k in members;
        if Exists(k) {
          kept := kept + [k];
        } else {
          dead := dead + {k};
        }
        members := members - {k};
      }
      keyList := keyList - dead;
      keyCache := kept;
      n := |kept|;
    }

    method GetKey(i: nat) returns (key: string)
      requires i < |keyCache|
      ensures key == keyCache[i]
    {
      key := keyCache[i];
    }

    /** RedisScarlet.Pull: the value, or `fallback` when the key is not there. */
    method Pull(fallback: Value, key: string) returns (value: Value, ok: bool)
      ensures ok == Exists(key) && value == if ok then chunks[key].value else fallback
    {
      ok := Exists(key);
      value := if ok then chunks[key].value else fallback;
    }
  }

  class Mapper {
    const contract: RedisContract
    var definition: Lease

    constructor (contract: RedisContract)
      requires contract.keyList == {} && contract.chunks == map[]
      ensures this.contract == contract && State() == Storage.Fresh(contract.expiry, contract.now)
    {
      this.contract := contract;
      definition := if contract.expiry == 0 then Forever else Until(contract.now + contract.expiry);
    }

    function State(): Store<Value>
      reads this, contract
    {
      Store(contract.keyList, contract.chunks, definition, contract.now, contract.expiry)
    }

    method TouchDefinition()
      modifies this
      ensures State() == Touched(old(State()))
    {
      if contract.expiry != 0 {
        definition := Until(contract.now + contract.expiry);
      }
    }

    /**
     * Map; false for a key with a reserved character, for which the code raises. A time series key
     * gets the clock as its suffix.
     */
    method Map(value: Value, key: string, timeseries: bool) returns (ok: bool)
      modifies this, contract
      ensures ok == Allowed(key) && (ok <==> '@' !in key && ':' !in key)
      ensures var stored := if timeseries then Stamped(key, contract.now) else key;
        State() == if ok then Apply(old(State()), Storage.Map(stored, value)) else old(State())
      ensures contract.now == old(contract.now)
    {
      if '@' in key || ':' in key { return false; }
      var stored := key;
      if timeseries {
        stored := Stamped(key, contract.now);
        StampAllowed(key, contract.now);
      }
      var isNew := contract.RegisterNewKey(stored);
      contract.SetChunk(stored, value);
      TouchDefinition();
      ok := true;
    }

    /** pauses[i] is the time that passes before the i-th Pull. */
    method AllGather(fallback: Value, pauses: seq<nat>) returns (gathered: map<string, Value>)
      requires Indexed(State())
      modifies contract
      ensures State() == Cleaned(old(State())).(now := contract.now) && contract.now >= old(contract.now)
      ensures gathered.Keys == Live(old(State())).Keys
      ensures Distinct(contract.keyCache) && (forall k :: k in contract.keyCache <==> k in gathered)
      ensures forall k :: k in gathered ==> gathered[k] == Live(old(State()))[k] || gathered[k] == fallback
      ensures forall k :: k in gathered && IsLive(State(), k) ==> gathered[k] == Live(old(State()))[k]
      ensures contract.now == old(contract.now) ==> gathered == Live(old(State()))
      ensures pauses == [] ==> contract.now == old(contract.now)
    {
      CleanupForgetsTheDead(State());
      ghost var start := State();
      var n := contract.GetMapperLength();
      assert contract.keyList == Cleaned(start).keyList;
      gathered := PullAll(fallback, pauses, start);
    }

    /** The loop of AllGather over the cached keys. */
    method PullAll(fallback: Value, pauses: seq<nat>, ghost start: Store<Value>) returns (gathered: map<string, Value>)
      requires contract.chunks == start.chunks && contract.now == start.now
      requires forall k :: k in contract.keyCache ==> k in Live(start)
      modifies contract`now
      ensures contract.now >= start.now && (pauses == [] ==> contract.now == start.now)
      ensures forall k :: k in gathered <==> k in contract.keyCache
      ensures forall k :: k in gathered ==> Pulled(start, contract.now, fallback, k, gathered[k])
    {
      ghost var keys := contract.keyCache;
      var n := |contract.keyCache|;
      assert forall i :: 0 <= i < n ==> keys[i] in keys && keys[i] in Live(start);
      gathered := map[];
      var i := 0;
      while i < n
        invariant 0 <= i <= n && contract.now >= start.now
        invariant pauses == [] ==> contract.now == start.now
        invariant forall k :: k in gathered <==> k in keys[..i]
        invariant forall k :: k in gathered ==> Pulled(start, contract.now, fallback, k, gathered[k])
      {
        var pause := if i < |pauses| then pauses[i] else 0;
        contract.Elapse(pause);
        var key := contract.GetKey(i);
        var value, ok := contract.Pull(fallback, key);
        assert Pulled(start, contract.now, fallback, key, value);
        gathered := gathered[key := value];
        assert keys[..i + 1] == keys[..i] + [key];
        i := i + 1;
      }
      assert keys[..n] == keys;
    }

    /**
     * Reduce: the loop over the gathered keys, in the order in which Redis listed them. A chunk that
     * runs out before it is read counts as `init`.
     */
    method Reduce(init: Value, op: Op, pauses: seq<nat>) returns (total: Value, ghost values: map<string, Value>)
      requires Indexed(State()) && SizedAll(Live(State()), |init|)
      modifies contract
      ensures State() == Cleaned(old(State())).(now := contract.now) && contract.now >= old(contract.now)
      ensures SameKeys(contract.keyCache, contract.keyCache)
        && (forall k :: k in contract.keyCache <==> k in Live(old(State())))
      ensures values.Keys == Live(old(State())).Keys
      ensures forall k :: k in values ==>
        values[k] == Live(old(State()))[k] || (values[k] == init && !IsLive(State(), k))
      ensures pauses == [] ==> contract.now == old(contract.now) && values == Live(old(State()))
      ensures Sized(values, contract.keyCache, |init|) && total == Fold(op, init, values, contract.keyCache)
    {
      var gathered := AllGather(init, pauses);
      values := gathered;
      assert forall i :: 0 <= i < |contract.keyCache| ==> contract.keyCache[i] in gathered;
      total := FoldAll(op, init, gathered, contract.keyCache);
    }

    method ResetAll(value: Value)
      requires Indexed(State())
      modifies this, contract
      ensures State() == AllReset(old(State()), value)
    {
      CleanupForgetsTheDead(State());
      ghost var start := Cleaned(State());
      var n := contract.GetMapperLength();
      ghost var keys := contract.keyCache;
      ghost var done: set<string> := {};
      assert Overwritten(start, done, value) == start;
      var i := 0;
      while i < n
        invariant 0 <= i <= n == |keys| && contract.keyCache == keys && contract.keyList == start.keyList
        invariant State() == Overwritten(start, done, value)
        invariant forall k :: k in done <==> k in keys[..i]
      {
        var key := contract.GetKey(i);
        contract.SetChunk(key, value);
        OverwriteOne(start, done, key, value);
        done := done + {key};
        assert keys[..i + 1] == keys[..i] + [key];
        i := i + 1;
      }
      assert keys[..n] == keys;
      assert done == start.keyList;
      TouchDefinition();
    }

    method ClearAll()
      modifies this, contract
      ensures State() == AllCleared(old(State()))
      ensures contract.keyList == {} && contract.chunks == map[]
      ensures definition == old(definition) && contract.now == old(contract.now)
    {
      var n := contract.GetMapperLength();
      var i := 0;
      while i < n
        invariant 0 <= i <= n == |contract.keyCache| && contract.now == old(contract.now)
        invariant definition == old(definition)
      {
        var key := contract.GetKey(i);
        var found := contract.ClearKey(key);
        i := i + 1;
      }
      contract.ClearAll();
    }
  }

  lemma OverwriteOne<V>(st: Store<V>, keys: set<string>, key: string, v: V)
    ensures ChunkSet(Overwritten(st, keys, v), key, v) == Overwritten(st, keys + {key}, v)
  {
  }

  ghost predicate SizedAll(values: map<string, Value>, n: nat) {
    forall k :: k in values ==> |values[k]| == n
  }

  function Digits(n: nat): string {
    if n < 10 then ['0' + n as char] else Digits(n / 10) + ['0' + (n % 10) as char]
  }

  /** key#timestamp */
  function Stamped(key: string, now: int): string {
    key + "#" + (if now < 0 then "-" + Digits(-now) else Digits(now))
  }

  lemma {:induction false} DigitsOnly(n: nat)
    ensures forall i :: 0 <= i < |Digits(n)| ==> '0' <= Digits(n)[i] <= '9'
  {
    if n >= 10 { DigitsOnly(n / 10); }
  }

  lemma StampAllowed(key: string, now: int)
    requires Allowed(key)
    ensures Allowed(Stamped(key, now))
  {
    DigitsOnly(if now < 0 then -now else now);
  }

  lemma {:induction false} DigitsDiffer(m: nat, n: nat)
    requires Digits(m) == Digits(n)
    ensures m == n
  {
    assert Digits(m)[|Digits(m)| - 1] == Digits(n)[|Digits(n)| - 1];
    if m >= 10 && n >= 10 {
      assert Digits(m)[..|Digits(m)| - 1] == Digits(m / 10) && Digits(n)[..|Digits(n)| - 1] == Digits(n / 10);
      DigitsDiffer(m / 10, n / 10);
    }
  }

  function Sign(now: int): string { if now < 0 then "-" else "" }

  function Abs(now: int): nat { if now < 0 then -now else now }

  lemma StampDiffers(at: int, later: int)
    requires Sign(at) + Digits(Abs(at)) == Sign(later) + Digits(Abs(later))
    ensures at == later
  {
    DigitsOnly(Abs(at));
    DigitsOnly(Abs(later));
    var a, b := Sign(at) + Digits(Abs(at)), Sign(later) + Digits(Abs(later));
    assert a[0] == '-' <==> at < 0;
    assert b[0] == '-' <==> later < 0;
    assert a[|Sign(at)|..] == Digits(Abs(at)) && b[|Sign(later)|..] == Digits(Abs(later));
    DigitsDiffer(Abs(at), Abs(later));
  }

  lemma LastHash(a: string, x: string, b: string, y: string)
    requires a + "#" + x == b + "#" + y && '#' !in x && '#' !in y
    ensures a == b && x == y
  {
    var s, t := a + "#" + x, b + "#" + y;
    assert s[|a|] == '#' && s[|a| + 1..] == x && t[|b|] == '#' && t[|b| + 1..] == y;
    forall j | |a| < j < |s| ensures s[j] != '#' { assert s[j] == x[j - |a| - 1]; }
    forall j | |b| < j < |t| ensures t[j] != '#' { assert t[j] == y[j - |b| - 1]; }
    assert |a| == |b|;
    assert s[..|a|] == a && t[..|b|] == b;
  }

  /**
   * Two time series writes are under one key, so that the later replaces the earlier, if and only if
   * they are of the same series and made in the same second.
   */
  lemma SeriesKeysDiffer(key: string, at: int, other: string, later: int)
    ensures Stamped(key, at) == Stamped(other, later) <==> key == other && at == later
  {
    DigitsOnly(Abs(at));
    DigitsOnly(Abs(later));
    var x, y := Sign(at) + Digits(Abs(at)), Sign(later) + Digits(Abs(later));
    assert Stamped(key, at) == key + "#" + x && Stamped(other, later) == other + "#" + y;
    if Stamped(key, at) == Stamped(other, later) {
      LastHash(key, x, other, y);
      StampDiffers(at, later);
    }
  }

  /** The accumulator loop of Reduce. */
  method FoldAll(op: Op, init: Value, values: map<string, Value>, keys: seq<string>) returns (total: Value)
    requires Sized(values, keys, |init|)
    ensures total == Fold(op, init, values, keys)
  {
    total := init;
    var i := 0;
    while i < |keys|
      invariant 0 <= i <= |keys| && |total| == |init|
      invariant total == Fold(op, init, values, keys[..i])
    {
      assert keys[..i + 1][..i] == keys[..i];
      total := Perform(op, values[keys[i]], total);
      i := i + 1;
    }
    assert keys[..|keys|] == keys;
  }

  /** A Federator: the mapper the workers write to, and the one that gets the aggregate. */
  class Federator {
    const reducer: Mapper
    const mprGlobal: Mapper
    const op: Op

    constructor (reducer: Mapper, mprGlobal: Mapper, op: Op)
      ensures this.reducer == reducer && this.mprGlobal == mprGlobal && this.op == op
    {
      this.reducer, this.mprGlobal, this.op := reducer, mprGlobal, op;
    }

    /**
     * Aggregate folds onto `init` whatever is in the reducer - a chunk that runs out before it is
     * read counts as `init` - and it does not post `init` there.
     */
    method Aggregate(init: Value, pauses: seq<nat>) returns (total: Value, ghost values: map<string, Value>)
      requires reducer != mprGlobal && reducer.contract != mprGlobal.contract
      requires Indexed(reducer.State()) && SizedAll(Live(reducer.State()), |init|)
      modifies reducer, reducer.contract, mprGlobal, mprGlobal.contract
      ensures reducer.contract.now >= old(reducer.contract.now)
      ensures reducer.State() == Cleaned(old(reducer.State())).(now := reducer.contract.now)
      ensures var passed := reducer.contract.now - old(reducer.contract.now);
        mprGlobal.State() == Mapped(Later(old(mprGlobal.State()), passed), "global", total)
      ensures values.Keys == Live(old(reducer.State())).Keys
      ensures forall k :: k in values ==>
        || values[k] == Live(old(reducer.State()))[k]
        || (values[k] == init && !IsLive(reducer.State(), k))
      ensures pauses == [] ==> reducer.contract.now == old(reducer.contract.now) && values == Live(old(reducer.State()))
      ensures forall keys :: SameKeys(keys, reducer.contract.keyCache) ==>
        Sized(values, keys, |init|) && total == Fold(op, init, values, keys)
    {
      var start := reducer.contract.now;
      total, values := reducer.Reduce(init, op, pauses);
      ghost var order := reducer.contract.keyCache;
      forall keys | SameKeys(keys, order) ensures Sized(values, keys, |init|) && total == Fold(op, init, values, keys) {
        assert forall i :: 0 <= i < |keys| ==> keys[i] in keys && keys[i] in order;
        OrderDoesNotMatter(op, init, values, keys, order);
      }
      mprGlobal.contract.Elapse(reducer.contract.now - start);
      var ok := mprGlobal.Map(total, "global", false);
    }
  }

  /** A value read at `now` or earlier of the key k of `start`. */
  predicate Pulled(start: Store<Value>, now: int, fallback: Value, k: string, value: Value) {
    && k in Live(start) && (value == Live(start)[k] || value == fallback)
    && (now < start.chunks[k].until ==> value == Live(start)[k])
  }
}

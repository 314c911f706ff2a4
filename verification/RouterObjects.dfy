/** TimeoutWatcher and MessageRouter as objects. Each method performs exactly the blocks of module Router. */
module RouterObjects {
  import opened Wrappers
  import opened Router
  import opened Selection

  /** The pairs of key and handler that a scan of `deadlines` at time `now` has to start. */
  ghost predicate IsFiring<K(!new), C(!new)>(deadlines: map<K, Deadline<C>>, now: int, fired: seq<(K, C)>) {
    && (forall i, j :: 0 <= i < j < |fired| ==> fired[i].0 != fired[j].0)
    && (forall k, c :: (k, c) in fired <==> k in deadlines && deadlines[k].at <= now && deadlines[k].handler == c)
  }

  class TimeoutWatcher<K(==,!new), C(!new)> {
    var deadlines: map<K, Deadline<C>>

    constructor ()
      ensures deadlines == map[]
    {
      deadlines := map[];
    }

    method Schedule(k: K, at: int, handler: C)
      modifies this
      ensures deadlines == old(deadlines)[k := Deadline(at, handler)]
    {
      deadlines := deadlines[k := Deadline(at, handler)];
    }

    method Cancel(k: K)
      modifies this
      ensures deadlines == old(deadlines) - {k}
    {
      deadlines := deadlines - {k};
    }

    /** One pass of the scan loop: the handlers returned are those it starts. */
    method Scan(now: int) returns (fired: seq<(K, C)>)
      modifies this
      ensures deadlines == old(deadlines) - Due(old(deadlines), now)
      ensures IsFiring(old(deadlines), now, fired)
    {
      fired := [];
      var items := deadlines;
      var todo := items.Keys;
      while todo != {}
        invariant todo <= items.Keys
        invariant deadlines == items - (Due(items, now) - todo)
        invariant forall i, j :: 0 <= i < j < |fired| ==> fired[i].0 != fired[j].0
        invariant forall k, c :: (k, c) in fired <==>
          k in items && k !in todo && items[k].at <= now && items[k].handler == c
      {
        var key :| key in todo;
        var d := items[key];
        if now >= d.at {
          fired := fired + [(key, d.handler)];
          deadlines := deadlines - {key};
        }
        todo := todo - {key};
      }
    }
  }

  /** A thread the router starts. */
  datatype Started<C, M> = Callback(c: C, m: M) | OnTimeout(c: C)

  /** What one message does to the table, with the registration it wakes. */
  function Routed<K(==), C, M>(t: Table<K, C, M>, k: K, m: M): (Table<K, C, M>, seq<Started<C, M>>) {
    var (t', popped) := DeliverBlock(t, k, m);
    match popped
    case Some(c) => (CancelBlock(t', k), [Callback(c, m)])
    case None => (t', [])
  }

  /** Messages as the bus delivers them, each with the key that key_fn finds in it. */
  function RoutedAll<K(==), C, M>(t: Table<K, C, M>, msgs: seq<(Option<K>, M)>): (Table<K, C, M>, seq<Started<C, M>>) {
    if msgs == [] then (t, [])
    else
      var last := |msgs| - 1;
      var (t1, s1) := RoutedAll(t, msgs[..last]);
      if msgs[last].0.None? then (t1, s1)
      else
        var (t2, s2) := Routed(t1, msgs[last].0.value, msgs[last].1);
        (t2, s1 + s2)
  }

  /** The messages with this key (or with none), in order. */
  function Keyed<K(==), M>(msgs: seq<(Option<K>, M)>, key: Option<K>): seq<M> {
    if msgs == [] then []
    else
      var last := |msgs| - 1;
      Keyed(msgs[..last], key) + (if msgs[last].0 == key then [msgs[last].1] else [])
  }

  predicate HasKey<K(==), M>(msgs: seq<(Option<K>, M)>, key: Option<K>, i: nat) { i < |msgs| && msgs[i].0 == key }

  /** picked[i] is the message at at[i]. */
  ghost predicate Taken<K, M>(msgs: seq<(Option<K>, M)>, picked: seq<M>, at: seq<nat>) {
    Below(at, |msgs|) && |at| == |picked| && forall i :: 0 <= i < |at| ==> picked[i] == msgs[at[i]].1
  }

  /** `picked` are the messages with this key: all of them, each once, in order. `at` says where they stand. */
  ghost predicate IsKeyed<K, M>(msgs: seq<(Option<K>, M)>, key: Option<K>, picked: seq<M>, at: seq<nat>) {
    Rising(at) && Taken(msgs, picked, at) && forall i: nat :: i in at <==> HasKey(msgs, key, i)
  }

  lemma TakenMore<K, M>(msgs: seq<(Option<K>, M)>, picked: seq<M>, at: seq<nat>)
    requires msgs != [] && Taken(msgs[..|msgs| - 1], picked, at)
    ensures Taken(msgs, picked, at) && Taken(msgs, picked + [msgs[|msgs| - 1].1], at + [|msgs| - 1])
  {
  }

  lemma HasKeyStill<K, M>(msgs: seq<(Option<K>, M)>, key: Option<K>, i: nat)
    requires i < |msgs| - 1
    ensures HasKey(msgs[..|msgs| - 1], key, i) <==> HasKey(msgs, key, i)
  {
  }

  lemma KeyedMore<K, M>(msgs: seq<(Option<K>, M)>, key: Option<K>, picked: seq<M>, before: seq<nat>)
    returns (at: seq<nat>)
    requires msgs != [] && IsKeyed(msgs[..|msgs| - 1], key, picked, before)
    ensures IsKeyed(msgs, key, if HasKey(msgs, key, |msgs| - 1) then picked + [msgs[|msgs| - 1].1] else picked, at)
  {
    var n := |msgs| - 1;
    at := if HasKey(msgs, key, n) then before + [n] else before;
    RisingMore(before, n);
    TakenMore(msgs, picked, before);
    forall i: nat ensures i in at <==> HasKey(msgs, key, i) {
      if i < n { HasKeyStill(msgs, key, i); }
      assert i in before <==> HasKey(msgs[..n], key, i);
    }
  }

  lemma {:induction false} KeyedAt<K, M>(msgs: seq<(Option<K>, M)>, key: Option<K>) returns (at: seq<nat>)
    ensures IsKeyed(msgs, key, Keyed(msgs, key), at)
  {
    at := [];
    if msgs != [] {
      var front := msgs[..|msgs| - 1];
      var before := KeyedAt(front, key);
      at := KeyedMore(msgs, key, Keyed(front, key), before);
    }
  }

  /** The messages for one key, in order. */
  function ForKey<K(==), M>(msgs: seq<(Option<K>, M)>, k: K): seq<M> {
    Keyed(msgs, Some(k))
  }

  /** The first of the messages for a key whose callback is parked. */
  ghost predicate Wakes<K, C, M>(t: Table<K, C, M>, msgs: seq<(Option<K>, M)>, i: nat) {
    i < |msgs| && msgs[i].0.Some? && msgs[i].0.value in t.callbacks && forall j :: 0 <= j < i ==> msgs[j].0 != msgs[i].0
  }

  /** What the messages do to one key, in terms of the table before. */
  predicate Served<K(==), C(==), M(==)>(t: Table<K, C, M>, msgs: seq<(Option<K>, M)>, t': Table<K, C, M>, k: K) {
    var mine, woken := ForKey(msgs, k), k in t.callbacks && ForKey(msgs, k) != [];
    // a message for a parked key takes callback and deadline away
    && (k in t'.callbacks <==> k in t.callbacks && !woken)
    && (k in t'.callbacks ==> t'.callbacks[k] == t.callbacks[k])
    && (k in t'.deadlines <==> k in t.deadlines && !woken)
    && (k in t'.deadlines ==> t'.deadlines[k] == t.deadlines[k])
    // every message but the one that wakes is queued, in order
    && QueueOf(t', k) == QueueOf(t, k) + if woken then mine[1..] else mine
  }

  ghost function CallbackAt<K, C, M>(t: Table<K, C, M>, msgs: seq<(Option<K>, M)>, i: nat): Started<C, M>
    requires Wakes(t, msgs, i)
  {
    Callback(t.callbacks[msgs[i].0.value], msgs[i].1)
  }

  /** ran[i] is the callback that the message at at[i] wakes. */
  ghost predicate Ran<K, C, M>(t: Table<K, C, M>, msgs: seq<(Option<K>, M)>, ran: seq<Started<C, M>>, at: seq<nat>) {
    && Below(at, |msgs|) && |at| == |ran|
    && forall i | 0 <= i < |at| :: Wakes(t, msgs, at[i]) && ran[i] == CallbackAt(t, msgs, at[i])
  }

  /** Exactly the parked callbacks with a message are started, each once with its first, in their order. */
  ghost predicate Woken<K, C, M>(
    t: Table<K, C, M>, msgs: seq<(Option<K>, M)>, ran: seq<Started<C, M>>, at: seq<nat>)
  {
    Rising(at) && Ran(t, msgs, ran, at) && forall i: nat :: i in at <==> Wakes(t, msgs, i)
  }

  lemma {:induction false} FirstForKey<K, M>(msgs: seq<(Option<K>, M)>, k: K)
    ensures ForKey(msgs, k) == [] <==> forall i :: 0 <= i < |msgs| ==> msgs[i].0 != Some(k)
  {
    if msgs != [] { FirstForKey(msgs[..|msgs| - 1], k); }
  }

  lemma {:induction false} RoutedServes<K, C, M>(t: Table<K, C, M>, msgs: seq<(Option<K>, M)>, k: K)
    ensures Served(t, msgs, RoutedAll(t, msgs).0, k)
  {
    if msgs != [] { RoutedServes(t, msgs[..|msgs| - 1], k); }
  }

  /** What comes later does not change whom a message wakes. */
  lemma WakesStill<K, C, M>(t: Table<K, C, M>, msgs: seq<(Option<K>, M)>, i: nat)
    requires i < |msgs| - 1
    ensures Wakes(t, msgs[..|msgs| - 1], i) <==> Wakes(t, msgs, i)
  {
  }

  lemma LastWakes<K, C, M>(t: Table<K, C, M>, msgs: seq<(Option<K>, M)>)
    requires msgs != []
    ensures var last := |msgs| - 1;
      RoutedAll(t, msgs).1 == RoutedAll(t, msgs[..last]).1 +
        if Wakes(t, msgs, last) then [CallbackAt(t, msgs, last)] else []
  {
    var last := |msgs| - 1;
    if msgs[last].0.Some? {
      RoutedServes(t, msgs[..last], msgs[last].0.value);
      FirstForKey(msgs[..last], msgs[last].0.value);
      assert forall j :: 0 <= j < last ==> msgs[j] == msgs[..last][j];
    }
  }

  lemma RanMore<K, C, M>(t: Table<K, C, M>, msgs: seq<(Option<K>, M)>, ran: seq<Started<C, M>>, at: seq<nat>)
    requires msgs != [] && Ran(t, msgs[..|msgs| - 1], ran, at)
    ensures Ran(t, msgs, ran, at)
    ensures var last := |msgs| - 1;
      Wakes(t, msgs, last) ==> Ran(t, msgs, ran + [CallbackAt(t, msgs, last)], at + [last])
  {
    forall i | 0 <= i < |at| ensures Wakes(t, msgs, at[i]) && ran[i] == CallbackAt(t, msgs, at[i]) {
      WakesStill(t, msgs, at[i]);
    }
  }

  lemma {:induction false} RoutedWakes<K, C, M>(t: Table<K, C, M>, msgs: seq<(Option<K>, M)>) returns (at: seq<nat>)
    ensures Woken(t, msgs, RoutedAll(t, msgs).1, at)
  {
    at := [];
    if msgs != [] {
      var last := |msgs| - 1;
      var before := RoutedWakes(t, msgs[..last]);
      at := if Wakes(t, msgs, last) then before + [last] else before;
      RisingMore(before, last);
      LastWakes(t, msgs);
      RanMore(t, msgs, RoutedAll(t, msgs[..last]).1, before);
      forall i: nat ensures i in at <==> Wakes(t, msgs, i) {
        assert i in before <==> Wakes(t, msgs[..last], i);
        if i < last { WakesStill(t, msgs, i); }
      }
    }
  }

  // ----- receive_for: look, and look again until the time is up -----

  /** What may happen between two looks: the polling loop delivers messages, or somebody forgets a key. */
  datatype Meanwhile<K, M> = Delivered(msgs: seq<(Option<K>, M)>) | Forgotten(key: K)

  /**
   * The caller of receive_for holds the queue it found at the beginning. If the key is forgotten
   * meanwhile, that queue is no longer the router's, and the caller keeps waiting on it alone.
   */
  type Held<M> = Option<seq<M>>

  function Happened<K(==), C, M>(t: Table<K, C, M>, held: Held<M>, k: K, e: Meanwhile<K, M>):
    (Table<K, C, M>, Held<M>)
  {
    match e
    case Delivered(msgs) => (RoutedAll(t, msgs).0, held)
    case Forgotten(j) =>
      (CancelBlock(ForgetBlock(t, j), j), if j == k && held.None? then Some(QueueOf(t, k)) else held)
  }

  function HappenedAll<K(==), C, M>(t: Table<K, C, M>, held: Held<M>, k: K, es: seq<Meanwhile<K, M>>):
    (Table<K, C, M>, Held<M>)
  {
    if es == [] then (t, held)
    else
      var (t1, held1) := HappenedAll(t, held, k, es[..|es| - 1]);
      Happened(t1, held1, k, es[|es| - 1])
  }

  /** One look at the queue the caller holds. */
  function Looked<K(==), C, M>(t: Table<K, C, M>, held: Held<M>, k: K): (Table<K, C, M>, Option<M>) {
    if held.None? then TakeBlock(t, k) else (t, if held.value == [] then None else Some(held.value[0]))
  }

  function Waited<K(==), C, M>(
    t: Table<K, C, M>, held: Held<M>, k: K, looks: nat, events: nat -> seq<Meanwhile<K, M>>, i: nat):
    (Table<K, C, M>, Option<M>)
    decreases looks - i, 1
  {
    var (t1, m) := Looked(t, held, k);
    if m.Some? then (t1, m) else WaitedAfter(t1, held, k, looks, events, i)
  }

  function WaitedAfter<K(==), C, M>(
    t: Table<K, C, M>, held: Held<M>, k: K, looks: nat, events: nat -> seq<Meanwhile<K, M>>, i: nat):
    (Table<K, C, M>, Option<M>)
    decreases looks - i, 0
  {
    if i >= looks then (t, None)
    else
      var (t1, held1) := HappenedAll(t, held, k, events(i));
      Waited(t1, held1, k, looks, events, i + 1)
  }

  predicate Forgets<K(==), M>(es: seq<Meanwhile<K, M>>, k: K) { exists i :: 0 <= i < |es| && es[i] == Forgotten(k) }

  /** The messages for k that come before k is forgotten. */
  function Before<K(==), M>(es: seq<Meanwhile<K, M>>, k: K): seq<M> {
    if es == [] then []
    else
      var front, e := es[..|es| - 1], es[|es| - 1];
      Before(front, k) + (if e.Delivered? && !Forgets(front, k) then ForKey(e.msgs, k) else [])
  }

  /** The oldest message for k that is there, or comes in time and before k is forgotten. */
  function First<K(==), M>(
    q: seq<M>, gone: bool, k: K, looks: nat, events: nat -> seq<Meanwhile<K, M>>, i: nat): Option<M>
    decreases looks - i
  {
    if q != [] then Some(q[0])
    else if i >= looks || gone then None
    else First(Before(events(i), k), Forgets(events(i), k), k, looks, events, i + 1)
  }

  /** As long as no callback is parked for k, its messages are queued in order. */
  lemma {:induction false} RoutedQueues<K, C, M>(t: Table<K, C, M>, msgs: seq<(Option<K>, M)>, k: K)
    requires k !in t.callbacks
    ensures k !in RoutedAll(t, msgs).0.callbacks
    ensures QueueOf(RoutedAll(t, msgs).0, k) == QueueOf(t, k) + ForKey(msgs, k)
  {
    if msgs != [] { RoutedQueues(t, msgs[..|msgs| - 1], k); }
  }

  /** What the caller can see: its queue, as long as the key is not forgotten. */
  function Seen<K(==), C, M>(t: Table<K, C, M>, held: Held<M>, k: K): seq<M> {
    if held.Some? then held.value else QueueOf(t, k)
  }

  lemma ForgetsLast<K, M>(es: seq<Meanwhile<K, M>>, k: K)
    requires es != []
    ensures Forgets(es, k) <==> Forgets(es[..|es| - 1], k) || es[|es| - 1] == Forgotten(k)
  {
    var front := es[..|es| - 1];
    if Forgets(front, k) {
      var i :| 0 <= i < |front| && front[i] == Forgotten(k);
      assert es[i] == Forgotten(k);
    }
    if Forgets(es, k) {
      var i :| 0 <= i < |es| && es[i] == Forgotten(k);
      assert i < |es| - 1 ==> front[i] == Forgotten(k);
    }
  }

  lemma {:induction false} MeanwhileSeen<K, C, M>(t: Table<K, C, M>, k: K, es: seq<Meanwhile<K, M>>)
    requires k !in t.callbacks
    ensures var (t', held) := HappenedAll(t, None, k, es);
      && k !in t'.callbacks && (held.Some? <==> Forgets(es, k))
      && Seen(t', held, k) == QueueOf(t, k) + Before(es, k)
  {
    if es != [] {
      var front, e := es[..|es| - 1], es[|es| - 1];
      MeanwhileSeen(t, k, front);
      ForgetsLast(es, k);
      var (t1, held) := HappenedAll(t, None, k, front);
      if e.Delivered? { RoutedQueues(t1, e.msgs, k); }
    }
  }

  /** On a queue that is no longer the router's, nothing comes any more. */
  lemma {:induction false} NothingComes<K, C, M>(t: Table<K, C, M>, q: seq<M>, k: K, es: seq<Meanwhile<K, M>>)
    ensures HappenedAll(t, Some(q), k, es).1 == Some(q)
  {
    if es != [] { NothingComes(t, q, k, es[..|es| - 1]); }
  }

  lemma {:induction false} WaitInVain<K, C, M>(
    t: Table<K, C, M>, k: K, looks: nat, events: nat -> seq<Meanwhile<K, M>>, i: nat)
    ensures Waited(t, Some([]), k, looks, events, i).1 == None
    decreases looks - i
  {
    if i < looks {
      NothingComes(t, [], k, events(i));
      WaitInVain(HappenedAll(t, Some([]), k, events(i)).0, k, looks, events, i + 1);
    }
  }

  lemma {:induction false} WaitGetsFirst<K, C, M>(
    t: Table<K, C, M>, held: Held<M>, k: K, looks: nat, events: nat -> seq<Meanwhile<K, M>>, i: nat)
    requires k !in t.callbacks
    ensures Waited(t, held, k, looks, events, i).1 == First(Seen(t, held, k), held.Some?, k, looks, events, i)
    decreases looks - i
  {
    if Seen(t, held, k) == [] {
      if held.Some? {
        WaitInVain(t, k, looks, events, i);
      } else if i < looks {
        var t1 := TakeBlock(t, k).0;
        MeanwhileSeen(t1, k, events(i));
        var (t2, held2) := HappenedAll(t1, None, k, events(i));
        WaitGetsFirst(t2, held2, k, looks, events, i + 1);
      }
    }
  }

  class MessageRouter<K(==,!new), C(!new), M> {
    var queues: map<K, seq<M>>
    var callbacks: map<K, C>
    var started: seq<Started<C, M>>    // threads started so far
    var defaulted: seq<M>              // messages handed to default_handler
    const watcher: TimeoutWatcher<K, C>

    ghost function View(): Table<K, C, M>
      reads this, watcher
    {
      Table(queues, callbacks, watcher.deadlines)
    }

    constructor ()
      ensures View() == Empty() && started == [] && defaulted == [] && fresh(watcher)
    {
      queues, callbacks, started, defaulted := map[], map[], [], [];
      watcher := new TimeoutWatcher<K, C>();
    }

    /** on_key, called at time `now`. `c` stands for the callback and its on_timeout. */
    method OnKey(k: K, c: C, timeout: Option<nat>, now: int)
      modifies this, watcher
      ensures defaulted == old(defaulted)
      ensures var (t, pending) := OnKeyBlock(old(View()), k, c);
        match pending
        case Some(m) => View() == t && started == old(started) + [Callback(c, m)]
        case None =>
          && started == old(started)
          && View() == if timeout.None? then t else ScheduleBlock(t, k, Deadline(now + timeout.value, c))
    {
      var pending: Option<M> := None;
      if k in queues && queues[k] != [] {
        pending := Some(queues[k][0]);
        queues := queues[k := queues[k][1..]];
      } else {
        callbacks := callbacks[k := c];
      }
      if pending.Some? {
        started := started + [Callback(c, pending.value)];
        return;
      }
      if timeout.Some? {
        watcher.Schedule(k, now + timeout.value, c);
      }
    }

    /** One look of receive_for at the queue in the router's dictionary, which it creates if need be. */
    method Look(k: K) returns (m: Option<M>)
      modifies this`queues
      ensures (View(), m) == TakeBlock(old(View()), k)
    {
      if k !in queues {
        queues := queues[k := []];
      }
      if queues[k] != [] {
        m := Some(queues[k][0]);
        queues := queues[k := queues[k][1..]];
      } else {
        m := None;
        assert queues == queues[k := []];
      }
    }

    /** What others do while receive_for waits. */
    method Interfere(k: K, held0: Held<M>, es: seq<Meanwhile<K, M>>) returns (held: Held<M>)
      modifies this, watcher
      ensures (View(), held) == HappenedAll(old(View()), held0, k, es)
    {
      held := held0;
      var i := 0;
      while i < |es|
        invariant 0 <= i <= |es|
        invariant (View(), held) == HappenedAll(old(View()), held0, k, es[..i])
      {
        assert es[..i + 1][..i] == es[..i];
        match es[i] {
          case Delivered(msgs) => Poll(msgs);
          case Forgotten(j) =>
            if j == k && held.None? { held := Some(if k in queues then queues[k] else []); }
            Forget(j);
        }
        i := i + 1;
      }
      assert es[..|es|] == es;
    }

    /**
     * receive_for: `looks` is how often it can look again before its timeout, and `events` is what
     * the polling loop and others do before each of these looks.
     */
    method ReceiveFor(k: K, looks: nat, events: nat -> seq<Meanwhile<K, M>>) returns (m: Option<M>)
      modifies this, watcher
      ensures (View(), m) == Waited(old(View()), None, k, looks, events, 0)
      ensures k !in old(callbacks) ==> m == First(QueueOf(old(View()), k), false, k, looks, events, 0)
    {
      m := Look(k);
      var held: Held<M> := None;
      var i := 0;
      while m.None? && i < looks
        invariant 0 <= i <= looks
        invariant Waited(old(View()), None, k, looks, events, 0) ==
          if m.Some? then (View(), m) else WaitedAfter(View(), held, k, looks, events, i)
      {
        held := Interfere(k, held, events(i));
        i := i + 1;
        if held.Some? {
          m := if held.value == [] then None else Some(held.value[0]);
        } else {
          m := Look(k);
        }
      }
      if k !in old(callbacks) { WaitGetsFirst(old(View()), None, k, looks, events, 0); }
    }

    method Forget(k: K)
      modifies this, watcher
      ensures View() == CancelBlock(ForgetBlock(old(View()), k), k)
      ensures started == old(started) && defaulted == old(defaulted)
    {
      queues := queues - {k};
      callbacks := callbacks - {k};
      watcher.Cancel(k);
    }

    /**
     * The handler made for the registration `c` of key k: only the one that pops a callback acts, by
     * calling on_timeout if it was given one.
     */
    method TimeoutFired(k: K, c: C, given: bool)
      modifies this
      ensures var (t, popped) := TimeoutBlock(old(View()), k);
        View() == t && started == old(started) + (if popped.Some? && given then [OnTimeout(c)] else [])
      ensures defaulted == old(defaulted)
    {
      if k in callbacks {
        callbacks := callbacks - {k};
        if given {
          started := started + [OnTimeout(c)];
        }
      }
    }

    /** The polling loop, for the messages it gets from the bus. */
    method Poll(msgs: seq<(Option<K>, M)>)
      modifies this, watcher
      ensures (View(), started) == (RoutedAll(old(View()), msgs).0, old(started) + RoutedAll(old(View()), msgs).1)
      ensures defaulted == old(defaulted) + Keyed(msgs, None)
      ensures exists at :: IsKeyed(msgs, None, Keyed(msgs, None), at)
      ensures forall k :: Served(old(View()), msgs, View(), k)
      ensures exists at :: Woken(old(View()), msgs, started[|old(started)|..], at)
    {
      var i := 0;
      while i < |msgs|
        invariant 0 <= i <= |msgs|
        invariant View() == RoutedAll(old(View()), msgs[..i]).0
        invariant started == old(started) + RoutedAll(old(View()), msgs[..i]).1
        invariant defaulted == old(defaulted) + Keyed(msgs[..i], None)
      {
        assert msgs[..i + 1][..i] == msgs[..i];
        var (key, m) := msgs[i];
        if key.None? {
          defaulted := defaulted + [m];
        } else if key.value in callbacks {
          var c := callbacks[key.value];
          callbacks := callbacks - {key.value};
          watcher.Cancel(key.value);
          started := started + [Callback(c, m)];
        } else {
          queues := queues[key.value := (if key.value in queues then queues[key.value] else []) + [m]];
        }
        i := i + 1;
      }
      assert msgs[..|msgs|] == msgs;
      var unkeyed := KeyedAt(msgs, None);
      forall k ensures Served(old(View()), msgs, View(), k) { RoutedServes(old(View()), msgs, k); }
      var woken := RoutedWakes(old(View()), msgs);
      assert started[|old(started)|..] == RoutedAll(old(View()), msgs).1;
    }
  }

  // ----- what a sequence of scans does -----

  /** The deadlines left after scans at the given times, with nothing scheduled or cancelled in between. */
  function AfterScans<K(==), C>(deadlines: map<K, Deadline<C>>, times: seq<int>): map<K, Deadline<C>> {
    if times == [] then deadlines
    else AfterScans(deadlines - Due(deadlines, times[0]), times[1..])
  }

  /**
   * A deadline that nobody cancels survives exactly the scans before it: it never fires early,
   * and the first scan at or after it fires it.
   */
  lemma {:induction false} Punctual<K(!new), C(!new)>(deadlines: map<K, Deadline<C>>, times: seq<int>, k: K)
    requires k in deadlines
    ensures k in AfterScans(deadlines, times) <==> forall i :: 0 <= i < |times| ==> times[i] < deadlines[k].at
    ensures k in AfterScans(deadlines, times) ==> AfterScans(deadlines, times)[k] == deadlines[k]
    decreases times
  {
    if times != [] {
      var left := deadlines - Due(deadlines, times[0]);
      if k in left {
        Punctual(left, times[1..], k);
        assert forall i :: 0 <= i < |times[1..]| ==> times[1..][i] == times[i + 1];
        assert forall i :: 1 <= i < |times| ==> times[i] == times[1..][i - 1];
      } else {
        NeverAgain(left, times[1..], k);
        assert !(times[0] < deadlines[k].at);
      }
    }
  }

  lemma {:induction false} NeverAgain<K(!new), C(!new)>(deadlines: map<K, Deadline<C>>, times: seq<int>, k: K)
    requires k !in deadlines
    ensures k !in AfterScans(deadlines, times)
    decreases times
  {
    if times != [] { NeverAgain(deadlines - Due(deadlines, times[0]), times[1..], k); }
  }
}

/**
 * The state that MessageRouter and TimeoutWatcher keep under their locks, and one
 * function for each lock-protected block.
 *
 * K is the type of keys (request ids), C identifies one registration (the pair of
 * callback and timeout handler passed to on_key) and M is the type of messages.
 */
module Router {
  import opened Wrappers

  datatype Deadline<C> = Deadline(at: int, handler: C)

  datatype Table<K(==), C, M> = Table(
    queues: map<K, seq<M>>,
    callbacks: map<K, C>,
    deadlines: map<K, Deadline<C>>)

  function Empty<K(==), C, M>(): Table<K, C, M> {
    Table(map[], map[], map[])
  }

  /** The unclaimed messages for `k`: a key that was never seen has none. */
  function QueueOf<K(==), C, M>(t: Table<K, C, M>, k: K): seq<M> {
    if k in t.queues then t.queues[k] else []
  }

  /** on_key, under the lock: drain the oldest queued message, or park the callback. */
  function OnKeyBlock<K(==), C, M>(t: Table<K, C, M>, k: K, c: C): (Table<K, C, M>, Option<M>) {
    var q := QueueOf(t, k);
    if q != [] then (t.(queues := t.queues[k := q[1..]]), Some(q[0]))
    else (t.(callbacks := t.callbacks[k := c]), None)
  }

  /** The polling loop, under the lock: pop the callback for `k`, or queue the message. */
  function DeliverBlock<K(==), C, M>(t: Table<K, C, M>, k: K, m: M): (Table<K, C, M>, Option<C>) {
    if k in t.callbacks then (t.(callbacks := t.callbacks - {k}), Some(t.callbacks[k]))
    else (t.(queues := t.queues[k := QueueOf(t, k) + [m]]), None)
  }

  /** The handler a deadline fires, under the lock: pop whatever callback is parked for `k`. */
  function TimeoutBlock<K(==), C, M>(t: Table<K, C, M>, k: K): (Table<K, C, M>, Option<C>) {
    if k in t.callbacks then (t.(callbacks := t.callbacks - {k}), Some(t.callbacks[k]))
    else (t, None)
  }

  /** One non-blocking read of receive_for: create the queue if needed, take the oldest message. */
  function TakeBlock<K(==), C, M>(t: Table<K, C, M>, k: K): (Table<K, C, M>, Option<M>) {
    var q := QueueOf(t, k);
    if q != [] then (t.(queues := t.queues[k := q[1..]]), Some(q[0]))
    else (t.(queues := t.queues[k := []]), None)
  }

  /** forget, under the router's lock (the deadline is cancelled afterwards, under the watcher's). */
  function ForgetBlock<K(==), C, M>(t: Table<K, C, M>, k: K): Table<K, C, M> {
    t.(queues := t.queues - {k}, callbacks := t.callbacks - {k})
  }

  function ScheduleBlock<K(==), C, M>(t: Table<K, C, M>, k: K, d: Deadline<C>): Table<K, C, M> {
    t.(deadlines := t.deadlines[k := d])
  }

  function CancelBlock<K(==), C, M>(t: Table<K, C, M>, k: K): Table<K, C, M> {
    t.(deadlines := t.deadlines - {k})
  }

  /** The keys whose deadline a scan at time `now` finds to have passed. */
  function Due<K(==), C>(deadlines: map<K, Deadline<C>>, now: int): set<K> {
    set k | k in deadlines && deadlines[k].at <= now
  }

  /** The router's central invariant: a parked callback means that nothing is waiting for it. */
  ghost predicate NoLostWakeup<K(!new), C, M>(t: Table<K, C, M>) {
    forall k :: k in t.callbacks ==> QueueOf(t, k) == []
  }
}

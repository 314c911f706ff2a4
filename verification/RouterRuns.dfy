/**
 * MessageRouter with arbitrary clients: every lock-protected block and every thread start is
 * one step. on_key, receive_for and forget may be called with any key at any time; the poller
 * may receive any message.
 *
 * A registration is the number of its on_key call, a message the number of its arrival.
 */
module RouterRuns {
  import opened Wrappers
  import opened Router

  type Key = nat

  /** A call of on_key: its key, its timeout if it has one, and when it was made. */
  datatype Reg = Reg(key: Key, delay: Option<nat>, since: int)

  /** How a registration ended. */
  datatype Fate = Called(message: nat) | TimedOut(handler: nat) | Overwritten | Forgotten

  /** Where a message went when it left the router. */
  datatype Dest = ToCallback(reg: nat) | ToReceiver | Discarded

  datatype Thread =
    | AfterPark(r: nat)                // on_key, after releasing the lock
    | Winner(r: nat, message: nat)     // the poller, after popping the callback
    | Handler(r: nat)                  // started by the watcher for registration r's deadline
    | AfterForget(k: Key)              // forget, after releasing the router's lock

  datatype State = State(
    table: Table<Key, nat, nat>,
    now: int,
    threads: map<nat, Thread>,
    nextThread: nat,
    regs: seq<Reg>,
    arrived: seq<Key>,            // the key of every keyed message received so far
    fate: map<nat, Fate>,
    went: map<nat, Dest>)

  datatype Action =
    | OnKey(k: Key, delay: Option<nat>)
    | ReceiveFor(k: Key)          // one look into the queue
    | Forget(k: Key)
    | Receive(k: Key)             // the poller gets a message
    | Run(t: nat)
    | Tick(d: nat)
    | Fire(k: Key)                // the watcher finds k's deadline due

  function Init(): State {
    State(Empty(), 0, map[], 0, [], [], map[], map[])
  }

  function Spawn(s: State, th: Thread): State {
    s.(threads := s.threads[s.nextThread := th], nextThread := s.nextThread + 1)
  }

  function Settle(s: State, r: nat, f: Fate): State { s.(fate := s.fate[r := f]) }

  function RunThread(s: State, t: nat, th: Thread): State {
    var s1 := s.(threads := s.threads - {t});
    match th
    case AfterPark(r) =>
      if r < |s.regs| && s.regs[r].delay.Some?
      then s1.(table := ScheduleBlock(s.table, s.regs[r].key, Deadline(s.now + s.regs[r].delay.value, r)))
      else s1
    case Winner(r, _) =>
      if r < |s.regs| then s1.(table := CancelBlock(s.table, s.regs[r].key)) else s1
    case Handler(r) =>
      if r >= |s.regs| then s1
      else
        var (table, popped) := TimeoutBlock(s.table, s.regs[r].key);
        (match popped
         case Some(parked) => Settle(s1.(table := table), parked, TimedOut(r))
         case None => s1)
    case AfterForget(k) => s1.(table := CancelBlock(s.table, k))
  }

  /** The messages in `ids` leave the router for `d`. */
  function Leave(went: map<nat, Dest>, ids: seq<nat>, d: Dest): map<nat, Dest> {
    went + map i | i in ids :: d
  }

  function Apply(s: State, a: Action): Option<State> {
    match a
    case OnKey(k, delay) =>
      var r := |s.regs|;
      var (table, pending) := OnKeyBlock(s.table, k, r);
      var s1 := s.(table := table, regs := s.regs + [Reg(k, delay, s.now)]);
      (match pending
       case Some(m) => Some(Settle(s1.(went := s.went[m := ToCallback(r)]), r, Called(m)))
       case None =>
         var s2 := if k in s.table.callbacks then Settle(s1, s.table.callbacks[k], Overwritten) else s1;
         Some(Spawn(s2, AfterPark(r))))
    case ReceiveFor(k) =>
      var (table, taken) := TakeBlock(s.table, k);
      (match taken
       case Some(m) => Some(s.(table := table, went := s.went[m := ToReceiver]))
       case None => Some(s.(table := table)))
    case Forget(k) =>
      var s1 := s.(table := ForgetBlock(s.table, k), went := Leave(s.went, QueueOf(s.table, k), Discarded));
      var s2 := if k in s.table.callbacks then Settle(s1, s.table.callbacks[k], Forgotten) else s1;
      Some(Spawn(s2, AfterForget(k)))
    case Receive(k) =>
      var m := |s.arrived|;
      var (table, popped) := DeliverBlock(s.table, k, m);
      var s1 := s.(table := table, arrived := s.arrived + [k]);
      (match popped
       case Some(r) => Some(Spawn(Settle(s1.(went := s.went[m := ToCallback(r)]), r, Called(m)), Winner(r, m)))
       case None => Some(s1))
    case Run(t) => if t in s.threads then Some(RunThread(s, t, s.threads[t])) else None
    case Tick(d) => Some(s.(now := s.now + d))
    case Fire(k) =>
      if k in s.table.deadlines && s.table.deadlines[k].at <= s.now
      then Some(Spawn(s.(table := CancelBlock(s.table, k)), Handler(s.table.deadlines[k].handler)))
      else None
  }

  function Exec(s: State, run: seq<Action>): Option<State>
    decreases run
  {
    if run == [] then Some(s)
    else
      var next := Apply(s, run[0]);
      if next.None? then None else Exec(next.value, run[1..])
  }

  ghost predicate Reachable(s: State) {
    exists run :: Exec(Init(), run) == Some(s)
  }

  // ----- every registration and every message is settled exactly once -----

  predicate Parked(s: State, r: nat) {
    r < |s.regs| && s.regs[r].key in s.table.callbacks && s.table.callbacks[s.regs[r].key] == r
  }

  /** Messages of one key, oldest first and none twice. */
  predicate Ascending(q: seq<nat>) {
    forall i, j :: 0 <= i < j < |q| ==> q[i] < q[j]
  }

  /** The queue of k holds exactly the messages for k that have not left, in the order of arrival. */
  ghost predicate QueueExact(s: State, k: Key, q: seq<nat>) {
    && Ascending(q)
    && (forall m: nat :: m in q <==> m < |s.arrived| && s.arrived[m] == k && m !in s.went)
  }

  ghost predicate Messages(s: State) {
    && (forall k: nat :: QueueExact(s, k, QueueOf(s.table, k)))
    && (forall m :: m in s.went ==> m < |s.arrived|)
  }

  /** Callbacks, deadlines and threads refer to registrations made for their key. */
  ghost predicate Wired(s: State) {
    && (forall k :: k in s.table.callbacks ==> MadeFor(s, s.table.callbacks[k], k))
    && (forall k :: k in s.table.deadlines ==> MadeFor(s, s.table.deadlines[k].handler, k))
    && (forall t :: t in s.threads ==> t < s.nextThread && Known(s, s.threads[t]))
  }

  predicate MadeFor(s: State, r: nat, k: Key) { r < |s.regs| && s.regs[r].key == k }

  predicate Known(s: State, th: Thread) { th.AfterForget? || th.r < |s.regs| }

  /** A registration is either parked or settled, never both. */
  ghost predicate Settled(s: State) {
    forall r: nat :: r in s.fate <==> r < |s.regs| && !Parked(s, r)
  }

  /** A callback was given a message exactly when that message went to it. */
  ghost predicate Paired(s: State) {
    forall r: nat, m: nat :: CalledWith(s.fate, r, m) <==> HandedTo(s.went, m, r)
  }

  /** A callback is given messages of the key it was registered for, and no others. */
  ghost predicate Matched(s: State) {
    forall r: nat, m: nat :: CalledWith(s.fate, r, m) ==> SameKey(s, r, m)
  }

  predicate SameKey(s: State, r: nat, m: nat) {
    r < |s.regs| && m < |s.arrived| && s.arrived[m] == s.regs[r].key
  }

  /** The timeout of registration r has been asked for and has passed. */
  predicate Elapsed(s: State, r: nat) {
    r < |s.regs| && s.regs[r].delay.Some? && s.regs[r].since + s.regs[r].delay.value <= s.now
  }

  /** No timeout is ahead of its time: not a scheduled one, not one that fired, not one that took effect. */
  ghost predicate Patient(s: State) {
    && (forall r :: 0 <= r < |s.regs| ==> s.regs[r].since <= s.now)
    && (forall k :: k in s.table.deadlines ==> InTime(s, s.table.deadlines[k]))
    && (forall t :: t in s.threads && s.threads[t].Handler? ==> Elapsed(s, s.threads[t].r))
    && (forall r :: r in s.fate && s.fate[r].TimedOut? ==> Elapsed(s, s.fate[r].handler))
  }

  predicate InTime(s: State, d: Deadline<nat>) {
    && d.handler < |s.regs| && s.regs[d.handler].delay.Some?
    && s.regs[d.handler].since + s.regs[d.handler].delay.value <= d.at
  }

  predicate CalledWith(fate: map<nat, Fate>, r: nat, m: nat) { r in fate && fate[r] == Called(m) }

  predicate HandedTo(went: map<nat, Dest>, m: nat, r: nat) { m in went && went[m] == ToCallback(r) }

  ghost predicate Inv(s: State) {
    NoLostWakeup(s.table) && Messages(s) && Wired(s) && Settled(s) && Paired(s)
  }

  lemma InitInv()
    ensures Inv(Init())
  {
    forall k: nat ensures QueueExact(Init(), k, QueueOf(Init().table, k)) {}
  }

  lemma QueuesKept(s: State, s': State)
    requires Messages(s) && s'.arrived == s.arrived && s'.went == s.went
    requires forall k: nat :: QueueOf(s'.table, k) == QueueOf(s.table, k)
    ensures Messages(s')
  {
    forall k: nat ensures QueueExact(s', k, QueueOf(s'.table, k)) {
      assert QueueExact(s, k, QueueOf(s.table, k));
    }
  }

  /** The oldest message for k leaves. */
  lemma HeadLeaves(s: State, k: Key, d: Dest, s': State)
    requires Messages(s) && QueueOf(s.table, k) != []
    requires s'.arrived == s.arrived && s'.went == s.went[QueueOf(s.table, k)[0] := d]
    requires s'.table.queues == s.table.queues[k := QueueOf(s.table, k)[1..]]
    ensures Messages(s')
  {
    var q := QueueOf(s.table, k);
    assert QueueExact(s, k, q) && q[0] in q;
    forall j: nat ensures QueueExact(s', j, QueueOf(s'.table, j)) {
      assert QueueExact(s, j, QueueOf(s.table, j));
      if j == k {
        assert forall m: nat :: m in q[1..] <==> m in q && m != q[0];
      } else {
        assert QueueOf(s'.table, j) == QueueOf(s.table, j);
      }
    }
  }

  /** The parked registration r of key k is settled with fate f, and no other one changes. */
  lemma SettleParked(s: State, s': State, r: nat, f: Fate)
    requires Wired(s) && Settled(s) && Parked(s, r)
    requires s'.regs == s.regs && s'.fate == s.fate[r := f]
    requires s'.table.callbacks == s.table.callbacks - {s.regs[r].key}
    ensures Settled(s')
  {
    forall x: nat ensures x in s'.fate <==> x < |s'.regs| && !Parked(s', x) {
      assert Parked(s', x) <==> Parked(s, x) && x != r;
    }
  }

  lemma CallbacksKept(s: State, s': State)
    requires Settled(s) && s'.regs == s.regs && s'.fate == s.fate && s'.table.callbacks == s.table.callbacks
    ensures Settled(s')
  {
    forall x: nat ensures x in s'.fate <==> x < |s'.regs| && !Parked(s', x) {
      assert Parked(s', x) <==> Parked(s, x);
    }
  }

  lemma PairedSilent(s: State, s': State, r: nat, f: Fate)
    requires Paired(s) && r !in s.fate && !f.Called? && s'.fate == s.fate[r := f] && s'.went == s.went
    ensures Paired(s')
  {
    forall x: nat, m: nat ensures CalledWith(s'.fate, x, m) <==> HandedTo(s'.went, m, x) {
      assert CalledWith(s.fate, x, m) <==> HandedTo(s.went, m, x);
    }
  }

  lemma PairedCall(s: State, s': State, r: nat, m: nat)
    requires Paired(s) && r !in s.fate && m !in s.went
    requires s'.fate == s.fate[r := Called(m)] && s'.went == s.went[m := ToCallback(r)]
    ensures Paired(s')
  {
    forall x: nat, y: nat ensures CalledWith(s'.fate, x, y) <==> HandedTo(s'.went, y, x) {
      assert CalledWith(s.fate, x, y) <==> HandedTo(s.went, y, x);
      assert CalledWith(s.fate, r, y) <==> HandedTo(s.went, y, r);
      assert CalledWith(s.fate, x, m) <==> HandedTo(s.went, m, x);
    }
  }

  /** Messages that go nowhere near a callback leave the pairing alone. */
  lemma PairedLeave(s: State, s': State, ids: seq<nat>, d: Dest)
    requires Paired(s) && !d.ToCallback? && (forall m :: m in ids ==> m !in s.went)
    requires s'.fate == s.fate && s'.went == Leave(s.went, ids, d)
    ensures Paired(s')
  {
    forall x: nat, y: nat ensures CalledWith(s'.fate, x, y) <==> HandedTo(s'.went, y, x) {
      assert CalledWith(s.fate, x, y) <==> HandedTo(s.went, y, x);
    }
  }

  lemma OldestHere(s: State, k: Key)
    requires Messages(s) && QueueOf(s.table, k) != []
    ensures QueueOf(s.table, k)[0] < |s.arrived| && QueueOf(s.table, k)[0] !in s.went
    ensures s.arrived[QueueOf(s.table, k)[0]] == k
  {
    assert QueueExact(s, k, QueueOf(s.table, k)) && QueueOf(s.table, k)[0] in QueueOf(s.table, k);
  }

  lemma OnKeyDrainInv(s: State, a: Action, s': State)
    requires Inv(s) && a.OnKey? && Apply(s, a) == Some(s') && QueueOf(s.table, a.k) != []
    ensures Inv(s')
  {
    var r, m := |s.regs|, QueueOf(s.table, a.k)[0];
    OldestHere(s, a.k);
    HeadLeaves(s, a.k, ToCallback(r), s');
    assert a.k !in s.table.callbacks;
    PairedCall(s, s', r, m);
    assert Settled(s') by {
      forall x: nat ensures x in s'.fate <==> x < |s'.regs| && !Parked(s', x) {
        assert x < r ==> (Parked(s', x) <==> Parked(s, x));
      }
    }
    assert NoLostWakeup(s'.table);
  }

  lemma OnKeyParkRegs(s: State, a: Action, s': State)
    requires Inv(s) && a.OnKey? && Apply(s, a) == Some(s') && QueueOf(s.table, a.k) == []
    ensures Settled(s') && Paired(s')
  {
    var r := |s.regs|;
    if a.k in s.table.callbacks {
      var old_r := s.table.callbacks[a.k];
      assert Parked(s, old_r);
      PairedSilent(s, s', old_r, Overwritten);
    }
    forall x: nat ensures x in s'.fate <==> x < |s'.regs| && !Parked(s', x) {
      assert x < r ==> (Parked(s', x) <==> Parked(s, x) && s.regs[x].key != a.k);
    }
  }

  lemma OnKeyParkInv(s: State, a: Action, s': State)
    requires Inv(s) && a.OnKey? && Apply(s, a) == Some(s') && QueueOf(s.table, a.k) == []
    ensures Inv(s')
  {
    OnKeyParkRegs(s, a, s');
    OnKeyParkWired(s, a, s');
    forall k: nat ensures QueueOf(s'.table, k) == QueueOf(s.table, k) {}
    QueuesKept(s, s');
  }

  lemma OnKeyParkWired(s: State, a: Action, s': State)
    requires Wired(s) && NoLostWakeup(s.table)
    requires a.OnKey? && Apply(s, a) == Some(s') && QueueOf(s.table, a.k) == []
    ensures Wired(s') && NoLostWakeup(s'.table)
  {
  }

  lemma ReceiveForInv(s: State, a: Action, s': State)
    requires Inv(s) && a.ReceiveFor? && Apply(s, a) == Some(s')
    ensures Inv(s')
  {
    if QueueOf(s.table, a.k) != [] {
      HeadLeaves(s, a.k, ToReceiver, s');
      OldestHere(s, a.k);
    } else {
      QueuesKept(s, s');
    }
    CallbacksKept(s, s');
  }

  lemma ForgetMessages(s: State, a: Action, s': State)
    requires Inv(s) && a.Forget? && Apply(s, a) == Some(s')
    ensures Messages(s')
  {
    var q := QueueOf(s.table, a.k);
    assert QueueExact(s, a.k, q);
    forall j: nat ensures QueueExact(s', j, QueueOf(s'.table, j)) {
      assert QueueExact(s, j, QueueOf(s.table, j));
      assert j != a.k ==> QueueOf(s'.table, j) == QueueOf(s.table, j);
    }
  }

  lemma ForgetRegs(s: State, a: Action, s': State)
    requires Inv(s) && a.Forget? && Apply(s, a) == Some(s')
    ensures Settled(s') && Paired(s')
  {
    var q := QueueOf(s.table, a.k);
    assert QueueExact(s, a.k, q);
    var s1 := s.(went := Leave(s.went, q, Discarded));
    PairedLeave(s, s1, q, Discarded);
    if a.k in s.table.callbacks {
      var r := s.table.callbacks[a.k];
      assert Parked(s, r);
      SettleParked(s, s', r, Forgotten);
      PairedSilent(s1, s', r, Forgotten);
    } else {
      CallbacksKept(s, s');
      assert Paired(s');
    }
  }

  lemma ForgetInv(s: State, a: Action, s': State)
    requires Inv(s) && a.Forget? && Apply(s, a) == Some(s')
    ensures Inv(s')
  {
    ForgetMessages(s, a, s');
    ForgetRegs(s, a, s');
    assert NoLostWakeup(s'.table) by {
      assert forall k :: k in s'.table.callbacks ==>
        k in s.table.callbacks && QueueOf(s'.table, k) == QueueOf(s.table, k);
    }
  }

  /** The message goes to the callback: no queue changes, and the message is not in any. */
  lemma WakeQueue(s: State, s': State, r: nat, k: Key, j: Key, q: seq<nat>)
    requires QueueExact(s, j, q)
    requires s'.arrived == s.arrived + [k] && s'.went == s.went[|s.arrived| := ToCallback(r)]
    ensures QueueExact(s', j, q)
  {
  }

  lemma WakeMessages(s: State, a: Action, s': State)
    requires Inv(s) && a.Receive? && Apply(s, a) == Some(s') && a.k in s.table.callbacks
    ensures Messages(s')
  {
    var r := s.table.callbacks[a.k];
    forall j: nat ensures QueueExact(s', j, QueueOf(s'.table, j)) {
      assert QueueExact(s, j, QueueOf(s.table, j));
      WakeQueue(s, s', r, a.k, j, QueueOf(s.table, j));
    }
  }

  lemma QueueMessages(s: State, a: Action, s': State)
    requires Inv(s) && a.Receive? && Apply(s, a) == Some(s') && a.k !in s.table.callbacks
    ensures Messages(s')
  {
    forall j: nat ensures QueueExact(s', j, QueueOf(s'.table, j)) {
      var q, q' := QueueOf(s.table, j), QueueOf(s'.table, j);
      assert QueueExact(s, j, q);
      if q' != q {
        assert q' == q + [|s.arrived|];
        assert forall i :: 0 <= i < |q| ==> q[i] in q;
      }
    }
  }

  lemma WakeInv(s: State, a: Action, s': State)
    requires Inv(s) && a.Receive? && Apply(s, a) == Some(s') && a.k in s.table.callbacks
    ensures Inv(s')
  {
    var r := s.table.callbacks[a.k];
    WakeMessages(s, a, s');
    assert Parked(s, r);
    SettleParked(s, s', r, Called(|s.arrived|));
    PairedCall(s, s', r, |s.arrived|);
    assert NoLostWakeup(s'.table) by {
      assert forall k :: k in s'.table.callbacks ==>
        k in s.table.callbacks && QueueOf(s'.table, k) == QueueOf(s.table, k);
    }
  }

  lemma QueueInv(s: State, a: Action, s': State)
    requires Inv(s) && a.Receive? && Apply(s, a) == Some(s') && a.k !in s.table.callbacks
    ensures Inv(s')
  {
    QueueMessages(s, a, s');
    CallbacksKept(s, s');
    assert NoLostWakeup(s'.table) by {
      assert forall k :: k in s'.table.callbacks ==>
        k in s.table.callbacks && QueueOf(s'.table, k) == QueueOf(s.table, k);
    }
  }

  lemma ReceiveInv(s: State, a: Action, s': State)
    requires Inv(s) && a.Receive? && Apply(s, a) == Some(s')
    ensures Inv(s')
  {
    if a.k in s.table.callbacks { WakeInv(s, a, s'); } else { QueueInv(s, a, s'); }
  }

  lemma HandlerInv(s: State, t: nat, s': State)
    requires Inv(s) && t in s.threads && s.threads[t].Handler? && Apply(s, Run(t)) == Some(s')
    ensures Inv(s')
  {
    var r := s.threads[t].r;
    var k := s.regs[r].key;
    QueuesKept(s, s');
    if k in s.table.callbacks {
      var parked := s.table.callbacks[k];
      assert Parked(s, parked);
      SettleParked(s, s', parked, TimedOut(r));
      PairedSilent(s, s', parked, TimedOut(r));
    } else {
      CallbacksKept(s, s');
    }
    assert NoLostWakeup(s'.table) by {
      assert forall j :: j in s'.table.callbacks ==>
        j in s.table.callbacks && QueueOf(s'.table, j) == QueueOf(s.table, j);
    }
  }

  /** A step that touches only deadlines, threads and the clock. */
  lemma OnlyDeadlines(s: State, s': State)
    requires Inv(s) && Wired(s')
    requires s'.table.queues == s.table.queues && s'.table.callbacks == s.table.callbacks
    requires s'.regs == s.regs && s'.arrived == s.arrived && s'.fate == s.fate && s'.went == s.went
    ensures Inv(s')
  {
    forall k: nat ensures QueueOf(s'.table, k) == QueueOf(s.table, k) {}
    QueuesKept(s, s');
    CallbacksKept(s, s');
  }

  lemma ScheduleWired(s: State, t: nat, s': State)
    requires Wired(s) && t in s.threads && s.threads[t].AfterPark? && Apply(s, Run(t)) == Some(s')
    ensures Wired(s')
    ensures s'.table.queues == s.table.queues && s'.table.callbacks == s.table.callbacks
    ensures s'.regs == s.regs && s'.arrived == s.arrived && s'.fate == s.fate && s'.went == s.went
  {
  }

  lemma CancelWired(s: State, t: nat, s': State)
    requires Wired(s) && t in s.threads && (s.threads[t].Winner? || s.threads[t].AfterForget?)
    requires Apply(s, Run(t)) == Some(s')
    ensures Wired(s')
    ensures s'.table.queues == s.table.queues && s'.table.callbacks == s.table.callbacks
    ensures s'.regs == s.regs && s'.arrived == s.arrived && s'.fate == s.fate && s'.went == s.went
  {
  }

  lemma RunDeadlineInv(s: State, t: nat, s': State)
    requires Inv(s) && t in s.threads && !s.threads[t].Handler? && Apply(s, Run(t)) == Some(s')
    ensures Inv(s')
  {
    if s.threads[t].AfterPark? { ScheduleWired(s, t, s'); } else { CancelWired(s, t, s'); }
    OnlyDeadlines(s, s');
  }

  lemma RunInv(s: State, t: nat, s': State)
    requires Inv(s) && t in s.threads && Apply(s, Run(t)) == Some(s')
    ensures Inv(s')
  {
    if s.threads[t].Handler? { HandlerInv(s, t, s'); } else { RunDeadlineInv(s, t, s'); }
  }

  lemma FireInv(s: State, k: Key, s': State)
    requires Inv(s) && Apply(s, Fire(k)) == Some(s')
    ensures Inv(s')
  {
    FireWired(s, k, s');
    OnlyDeadlines(s, s');
  }

  lemma FireWired(s: State, k: Key, s': State)
    requires Wired(s) && Apply(s, Fire(k)) == Some(s')
    ensures Wired(s')
  {
  }

  lemma StepInv(s: State, a: Action, s': State)
    requires Inv(s) && Apply(s, a) == Some(s')
    ensures Inv(s')
  {
    match a
    case OnKey(k, _) => if QueueOf(s.table, k) != [] { OnKeyDrainInv(s, a, s'); } else { OnKeyParkInv(s, a, s'); }
    case ReceiveFor(_) => ReceiveForInv(s, a, s');
    case Forget(_) => ForgetInv(s, a, s');
    case Receive(_) => ReceiveInv(s, a, s');
    case Run(t) => RunInv(s, t, s');
    case Fire(k) => FireInv(s, k, s');
    case Tick(_) =>
  }

  lemma {:induction false} ExecInv(s: State, run: seq<Action>, s': State)
    requires Inv(s) && Exec(s, run) == Some(s')
    ensures Inv(s')
    decreases run
  {
    if run != [] {
      StepInv(s, run[0], Apply(s, run[0]).value);
      ExecInv(Apply(s, run[0]).value, run[1..], s');
    }
  }

  lemma ReachableInv(s: State)
    requires Reachable(s)
    ensures Inv(s)
  {
    var run :| Exec(Init(), run) == Some(s);
    InitInv();
    ExecInv(Init(), run, s);
  }

  // ----- the right message, and not too early -----

  /** A step settles at most one registration with a call, and that one by a message of its key. */
  lemma StepMatched(s: State, a: Action, s': State)
    requires Inv(s) && Matched(s) && Apply(s, a) == Some(s')
    ensures Matched(s')
  {
    forall r: nat, m: nat | CalledWith(s'.fate, r, m) ensures SameKey(s', r, m) {
      if CalledWith(s.fate, r, m) {
        assert SameKey(s, r, m);
      } else {
        NewCall(s, a, s', r, m);
      }
    }
  }

  lemma NewCall(s: State, a: Action, s': State, r: nat, m: nat)
    requires Inv(s) && Apply(s, a) == Some(s') && CalledWith(s'.fate, r, m) && !CalledWith(s.fate, r, m)
    ensures SameKey(s', r, m)
  {
    if a.OnKey? { NewCallOnKey(s, a, s', r, m); }
    else { NewCallElsewhere(s, a, s', r, m); }
  }

  lemma NewCallOnKey(s: State, a: Action, s': State, r: nat, m: nat)
    requires Inv(s) && a.OnKey? && Apply(s, a) == Some(s')
    requires CalledWith(s'.fate, r, m) && !CalledWith(s.fate, r, m)
    ensures SameKey(s', r, m)
  {
    if QueueOf(s.table, a.k) != [] { OldestHere(s, a.k); }
  }

  lemma NewCallElsewhere(s: State, a: Action, s': State, r: nat, m: nat)
    requires Wired(s) && !a.OnKey? && Apply(s, a) == Some(s')
    requires CalledWith(s'.fate, r, m) && !CalledWith(s.fate, r, m)
    ensures SameKey(s', r, m)
  {
    assert a.Receive?;
    assert MadeFor(s, s.table.callbacks[a.k], a.k);
  }

  /** What is due stays due. */
  lemma StaysDue(s: State, s': State)
    requires s.regs <= s'.regs && s.now <= s'.now
    ensures forall r: nat :: Elapsed(s, r) ==> Elapsed(s', r)
    ensures forall d :: InTime(s, d) ==> InTime(s', d)
  {
  }

  lemma OnKeyPatient(s: State, a: Action, s': State)
    requires Patient(s) && a.OnKey? && Apply(s, a) == Some(s')
    ensures Patient(s')
  {
    assert s.regs <= s'.regs;
    StaysDue(s, s');
  }

  lemma SchedulePatient(s: State, t: nat, s': State)
    requires Patient(s) && t in s.threads && s.threads[t].AfterPark? && Apply(s, Run(t)) == Some(s')
    ensures Patient(s')
  {
    StaysDue(s, s');
  }

  lemma HandlerPatient(s: State, t: nat, s': State)
    requires Patient(s) && t in s.threads && s.threads[t].Handler? && Apply(s, Run(t)) == Some(s')
    ensures Patient(s')
  {
    StaysDue(s, s');
  }

  lemma FirePatient(s: State, k: Key, s': State)
    requires Patient(s) && Apply(s, Fire(k)) == Some(s')
    ensures Patient(s')
  {
    assert InTime(s, s.table.deadlines[k]);
    StaysDue(s, s');
  }

  lemma OtherPatient(s: State, a: Action, s': State)
    requires Patient(s) && Apply(s, a) == Some(s') && !a.OnKey? && !a.Fire?
    requires a.Run? ==> s.threads[a.t].Winner? || s.threads[a.t].AfterForget?
    ensures Patient(s')
  {
    StaysDue(s, s');
  }

  lemma StepPatient(s: State, a: Action, s': State)
    requires Patient(s) && Apply(s, a) == Some(s')
    ensures Patient(s')
  {
    if a.OnKey? { OnKeyPatient(s, a, s'); }
    else if a.Fire? { FirePatient(s, a.k, s'); }
    else if a.Run? && s.threads[a.t].AfterPark? { SchedulePatient(s, a.t, s'); }
    else if a.Run? && s.threads[a.t].Handler? { HandlerPatient(s, a.t, s'); }
    else { OtherPatient(s, a, s'); }
  }

  lemma {:induction false} ExecMatched(s: State, run: seq<Action>, s': State)
    requires Inv(s) && Matched(s) && Patient(s) && Exec(s, run) == Some(s')
    ensures Matched(s') && Patient(s')
    decreases run
  {
    if run != [] {
      var next := Apply(s, run[0]).value;
      StepInv(s, run[0], next);
      StepMatched(s, run[0], next);
      StepPatient(s, run[0], next);
      ExecMatched(next, run[1..], s');
    }
  }

  lemma ReachableMatched(s: State)
    requires Reachable(s)
    ensures Matched(s) && Patient(s)
  {
    var run :| Exec(Init(), run) == Some(s);
    InitInv();
    ExecMatched(Init(), run, s);
  }

  // ----- what follows for every run -----

  /** A parked callback never waits beside a message for its key. */
  lemma NoLostWakeupEver(s: State, k: Key)
    requires Reachable(s) && k in s.table.callbacks
    ensures forall m: nat :: m < |s.arrived| && s.arrived[m] == k ==> m in s.went
  {
    ReachableInv(s);
    assert QueueExact(s, k, QueueOf(s.table, k));
  }

  /** Every keyed message received is in exactly one place: queued once under its key, or gone to one destination. */
  lemma MessagesConserved(s: State, m: nat)
    requires Reachable(s) && m < |s.arrived|
    ensures m in s.went <==> m !in QueueOf(s.table, s.arrived[m])
    ensures forall k: nat :: m in QueueOf(s.table, k) ==> k == s.arrived[m]
    ensures forall k: nat :: Ascending(QueueOf(s.table, k))
  {
    ReachableInv(s);
    assert QueueExact(s, s.arrived[m], QueueOf(s.table, s.arrived[m]));
    forall k: nat ensures Ascending(QueueOf(s.table, k)) && (m in QueueOf(s.table, k) ==> k == s.arrived[m]) {
      assert QueueExact(s, k, QueueOf(s.table, k));
    }
  }

  /**
   * Every registration is either still parked or has ended in exactly one way; a callback that ran
   * got one message, which carries the registration's key and went nowhere else.
   */
  lemma RegistrationsConserved(s: State, r: nat)
    requires Reachable(s) && r < |s.regs|
    ensures r in s.fate <==> !Parked(s, r)
    ensures forall m :: CalledWith(s.fate, r, m) ==> HandedTo(s.went, m, r) && SameKey(s, r, m)
  {
    ReachableInv(s);
    ReachableMatched(s);
  }

  /**
   * No registration is ended by a timeout that is not due: in every reachable state, hence already
   * in the one in which it ends, the delay that ended it has passed since that on_key.
   */
  lemma NeverTooEarly(s: State, r: nat)
    requires Reachable(s) && r in s.fate && s.fate[r].TimedOut?
    ensures Elapsed(s, s.fate[r].handler)
  {
    ReachableMatched(s);
  }

  /** What has been settled stays settled the same way, for registrations and for messages. */
  lemma SettledForGood(s: State, a: Action, s': State)
    requires Reachable(s) && Apply(s, a) == Some(s')
    ensures forall r :: r in s.fate ==> r in s'.fate && s'.fate[r] == s.fate[r]
    ensures forall m :: m in s.went ==> m in s'.went && s'.went[m] == s.went[m]
  {
    ReachableInv(s);
    FateKept(s, a, s');
    WentKept(s, a, s');
  }

  lemma FateKept(s: State, a: Action, s': State)
    requires Wired(s) && Settled(s) && Apply(s, a) == Some(s')
    ensures forall r :: r in s.fate ==> r in s'.fate && s'.fate[r] == s.fate[r]
  {
    assert forall k :: k in s.table.callbacks ==> Parked(s, s.table.callbacks[k]);
  }

  lemma WentKept(s: State, a: Action, s': State)
    requires Messages(s) && Apply(s, a) == Some(s')
    ensures forall m :: m in s.went ==> m in s'.went && s'.went[m] == s.went[m]
  {
    if a.OnKey? || a.ReceiveFor? || a.Forget? {
      var q := QueueOf(s.table, a.k);
      assert QueueExact(s, a.k, q);
      assert q != [] ==> q[0] in q;
    }
  }
}

/**
 * The inbox of one agent on one bus: a Redis hash with a head and a tail cursor and one field
 * for each message. A send is two commands (HINCRBY of the tail, HSET of the payload), so any
 * number of sends can be half done at any time. One reader polls the inbox and acknowledges.
 */
module Inbox {
  import opened Wrappers

  datatype Message<M> = Message(sender: nat, body: M)

  /**
   * The hash (`head`, `tail`, `fields`), the sends that have their number but not yet their
   * payload (`pending`), and the history since the hash was last created: every send in the
   * order of its number, every message the reader has acknowledged.
   */
  datatype State<M> = State(
    head: nat,
    tail: nat,
    fields: map<nat, Message<M>>,
    pending: map<nat, Message<M>>,
    sends: seq<Message<M>>,
    received: seq<Message<M>>)

  function Empty<M>(): State<M> { State(0, 0, map[], map[], [], []) }

  datatype Step<M> =
    | Reserve(m: Message<M>)   // _nextSeq of a send
    | Write(n: nat)            // the HSET of the send that holds number n
    | Crash(n: nat)            // the send that holds number n never gets to its HSET
    | Take                     // the reader finds the payload of head + 1 and acknowledges it
    | Expire                   // the whole hash expires

  /** What the senders do, in steps that may interleave with anything. */
  predicate BySender<M>(step: Step<M>) { step.Reserve? || step.Write? || step.Crash? }

  function Apply<M>(s: State<M>, step: Step<M>): Option<State<M>> {
    match step
    case Reserve(m) =>
      Some(s.(tail := s.tail + 1, pending := s.pending[s.tail + 1 := m], sends := s.sends + [m]))
    case Write(n) =>
      if n in s.pending then Some(s.(fields := s.fields[n := s.pending[n]], pending := s.pending - {n})) else None
    case Crash(n) =>
      if n in s.pending then Some(s.(pending := s.pending - {n})) else None
    case Take =>
      if s.head < s.tail && s.head + 1 in s.fields
      then Some(s.(head := s.head + 1, received := s.received + [s.fields[s.head + 1]]))
      else None
    case Expire =>
      // only with no operation in flight
      if s.pending == map[] then Some(Empty()) else None
  }

  function Exec<M>(s: State<M>, run: seq<Step<M>>): Option<State<M>>
    decreases run
  {
    if run == [] then Some(s)
    else
      var next := Apply(s, run[0]);
      if next.None? then None else Exec(next.value, run[1..])
  }

  ghost predicate Inv<M>(s: State<M>) {
    && s.head <= s.tail == |s.sends|
    // every stored or pending payload has its own number and is the payload of that send
    && (forall n :: n in s.fields ==> 1 <= n <= s.tail && s.fields[n] == s.sends[n - 1])
    && (forall n :: n in s.pending ==> 1 <= n <= s.tail && s.pending[n] == s.sends[n - 1] && n !in s.fields)
    // the reader has had exactly the first `head` sends
    && s.received == s.sends[..s.head]
  }

  lemma SenderInv<M>(s: State<M>, step: Step<M>, s': State<M>)
    requires Inv(s) && BySender(step) && Apply(s, step) == Some(s')
    ensures Inv(s')
  {
    assert s'.sends[..s.head] == s.sends[..s.head];
  }

  lemma ReaderInv<M>(s: State<M>, s': State<M>)
    requires Inv(s) && Apply(s, Take) == Some(s')
    ensures Inv(s')
  {
    assert s.sends[..s.head + 1] == s.sends[..s.head] + [s.sends[s.head]];
  }

  lemma StepInv<M>(s: State<M>, step: Step<M>, s': State<M>)
    requires Inv(s) && Apply(s, step) == Some(s')
    ensures Inv(s')
  {
    if step.Take? { ReaderInv(s, s'); } else if BySender(step) { SenderInv(s, step, s'); }
  }

  lemma {:induction false} Always<M>(run: seq<Step<M>>, s0: State<M>, s: State<M>)
    requires Inv(s0) && Exec(s0, run) == Some(s)
    ensures Inv(s)
    decreases run
  {
    if run != [] {
      StepInv(s0, run[0], Apply(s0, run[0]).value);
      Always(run[1..], Apply(s0, run[0]).value, s);
    }
  }

  /**
   * First in, first out, for every interleaving of any number of senders with the reader: what
   * was received is exactly sends 1..head, in the order of their numbers.
   */
  lemma Fifo<M>(run: seq<Step<M>>, s: State<M>)
    requires Exec(Empty(), run) == Some(s)
    ensures s.head <= s.tail == |s.sends|
    ensures s.received == s.sends[..s.head]
  {
    Always(run, Empty(), s);
  }

  /** A number belongs to one send for good: later steps only append, until the hash expires. */
  lemma NumbersStay<M>(s: State<M>, step: Step<M>, s': State<M>)
    requires Inv(s) && Apply(s, step) == Some(s') && !step.Expire?
    ensures s.sends <= s'.sends && s.received <= s'.received
    ensures step.Reserve? ==> s'.sends[s'.tail - 1] == step.m && s'.tail !in s.fields && s'.tail !in s.pending
  {
  }

  /** A send that never wrote its payload stops the reader in front of its number for good. */
  ghost predicate Stuck<M>(s: State<M>, n: nat) {
    1 <= n <= s.tail && n !in s.fields && n !in s.pending
  }

  lemma {:induction false} StuckStays<M>(s: State<M>, run: seq<Step<M>>, n: nat, s': State<M>)
    requires Inv(s) && Stuck(s, n) && s.head < n
    requires Exec(s, run) == Some(s') && forall i :: 0 <= i < |run| ==> !run[i].Expire?
    ensures Stuck(s', n) && s'.head < n
    decreases run
  {
    if run != [] {
      var next := Apply(s, run[0]).value;
      StepInv(s, run[0], next);
      assert !run[0].Expire?;
      assert forall i :: 0 <= i < |run[1..]| ==> run[1..][i] == run[i + 1];
      StuckStays(next, run[1..], n, s');
    }
  }

  predicate NoExpiry<M>(run: seq<Step<M>>) { forall i :: 0 <= i < |run| ==> !run[i].Expire? }

  /** A run in which the reader gets number n. */
  predicate Reaches<M>(s: State<M>, run: seq<Step<M>>, n: nat) {
    NoExpiry(run) && Exec(s, run).Some? && n <= Exec(s, run).value.head
  }

  ghost predicate CanReach<M(!new)>(s: State<M>, n: nat) { exists run :: Reaches(s, run, n) }

  lemma ExecFirst<M>(s: State<M>, step: Step<M>, run: seq<Step<M>>)
    requires Apply(s, step).Some?
    ensures Exec(s, [step] + run) == Exec(Apply(s, step).value, run)
  {
    assert ([step] + run)[1..] == run;
  }

  /** If nothing up to n is lost, the senders can write what is missing and the reader can take it. */
  lemma {:induction false} ReachNumber<M>(s: State<M>, n: nat) returns (run: seq<Step<M>>)
    requires Inv(s) && n <= s.tail && forall j :: s.head < j <= n ==> !Stuck(s, j)
    ensures Reaches(s, run, n)
    decreases n - s.head, s.pending.Keys
  {
    if n <= s.head { return []; }
    var next := s.head + 1;
    assert !Stuck(s, next);
    var step := if next in s.fields then Take else Write(next);
    var s1 := Apply(s, step).value;
    StepInv(s, step, s1);
    forall j | s1.head < j <= n ensures !Stuck(s1, j) {
      assert !Stuck(s, j);
    }
    var rest := ReachNumber(s1, n);
    ExecFirst(s, step, rest);
    run := [step] + rest;
  }

  /** The reader can get number n, without the hash expiring, if and only if no send up to n has lost its payload. */
  lemma ReachableIff<M(!new)>(s: State<M>, n: nat)
    requires Inv(s) && n <= s.tail
    ensures CanReach(s, n) <==> forall j :: s.head < j <= n ==> !Stuck(s, j)
  {
    if j :| s.head < j <= n && Stuck(s, j) {
      forall run ensures !Reaches(s, run, n) {
        if NoExpiry(run) && Exec(s, run).Some? { StuckStays(s, run, j, Exec(s, run).value); }
      }
    } else {
      var run := ReachNumber(s, n);
    }
  }

  /** The sends that are half done give up. */
  lemma {:induction false} Drain<M>(s: State<M>) returns (run: seq<Step<M>>)
    ensures Exec(s, run).Some? && Exec(s, run).value.pending == map[]
    decreases s.pending.Keys
  {
    if s.pending == map[] { return []; }
    assert s.pending.Keys != {};
    var n :| n in s.pending.Keys;
    var rest := Drain(Apply(s, Crash(n)).value);
    ExecFirst(s, Crash(n), rest);
    run := [Crash(n)] + rest;
  }

  lemma {:induction false} ExecThen<M>(s: State<M>, run: seq<Step<M>>, rest: seq<Step<M>>)
    requires Exec(s, run).Some?
    ensures Exec(s, run + rest) == Exec(Exec(s, run).value, rest)
    decreases run
  {
    if run == [] {
      assert run + rest == rest;
    } else {
      ExecThen(Apply(s, run[0]).value, run[1..], rest);
      assert (run + rest)[1..] == run[1..] + rest;
    }
  }

  lemma SendAndTake<M>(m: Message<M>)
    ensures Exec(Empty(), [Reserve(m), Write(1), Take]).Some?
    ensures Exec(Empty(), [Reserve(m), Write(1), Take]).value.received == [m]
  {
    var s1 := Apply(Empty<M>(), Reserve(m)).value;
    var s2 := Apply(s1, Write(1)).value;
    var last: seq<Step<M>>, two: seq<Step<M>> := [Take], [Write(1), Take];
    ExecFirst(Empty(), Reserve(m), two);
    ExecFirst(s1, Write(1), last);
    ExecFirst(s2, Take, []);
    assert [Reserve(m), Write(1), Take] == [Reserve(m)] + two && two == [Write(1)] + last && last + [] == last;
  }

  /** Expiry frees a reader that is stuck: from every state the hash can run out, and a new message is then received. */
  lemma ExpiryFrees<M>(s: State<M>, m: Message<M>) returns (run: seq<Step<M>>)
    ensures Exec(s, run).Some? && Exec(s, run).value.received == [m]
  {
    var drain := Drain(s);
    var again := [Reserve(m), Write(1), Take];
    ExecThen(s, drain, [Expire] + again);
    ExecFirst(Exec(s, drain).value, Expire, again);
    SendAndTake(m);
    run := drain + ([Expire] + again);
  }

  // ----- order per sender -----

  /** The messages of one sender. */
  function From<M>(ms: seq<Message<M>>, sender: nat): seq<Message<M>> {
    if ms == [] then []
    else From(ms[..|ms| - 1], sender) + (if ms[|ms| - 1].sender == sender then [ms[|ms| - 1]] else [])
  }

  /** The messages a sender starts to send in a run, in its own order. */
  function Started<M>(run: seq<Step<M>>, sender: nat): seq<Message<M>> {
    if run == [] then []
    else (if run[0].Reserve? && run[0].m.sender == sender then [run[0].m] else []) + Started(run[1..], sender)
  }

  lemma {:induction false} PrefixFrom<M>(ms: seq<Message<M>>, k: nat, sender: nat)
    requires k <= |ms|
    ensures From(ms[..k], sender) <= From(ms, sender)
  {
    if k < |ms| {
      PrefixFrom(ms[..|ms| - 1], k, sender);
      assert ms[..|ms| - 1][..k] == ms[..k];
    } else {
      assert ms[..k] == ms;
    }
  }

  lemma SendAppends<M>(s: State<M>, step: Step<M>, sender: nat, s': State<M>)
    requires Apply(s, step) == Some(s') && !step.Expire?
    ensures From(s'.sends, sender) == From(s.sends, sender) + Started([step], sender)
  {
    if step.Reserve? {
      assert s'.sends[..|s'.sends| - 1] == s.sends;
    }
  }

  lemma StartedFirst<M>(run: seq<Step<M>>, sender: nat)
    requires run != []
    ensures Started(run, sender) == Started([run[0]], sender) + Started(run[1..], sender)
  {
  }

  lemma Regroup<T>(a: seq<T>, b: seq<T>, c: seq<T>)
    ensures a + b + c == a + (b + c)
  {
  }

  lemma {:induction false} SendsInOrder<M>(s: State<M>, run: seq<Step<M>>, sender: nat, s': State<M>)
    requires Exec(s, run) == Some(s') && forall i :: 0 <= i < |run| ==> !run[i].Expire?
    ensures From(s'.sends, sender) == From(s.sends, sender) + Started(run, sender)
    decreases run
  {
    if run != [] {
      var next, rest := Apply(s, run[0]).value, run[1..];
      assert !run[0].Expire?;
      assert forall i :: 0 <= i < |rest| ==> rest[i] == run[i + 1];
      SendAppends(s, run[0], sender, next);
      SendsInOrder(next, rest, sender, s');
      StartedFirst(run, sender);
      Regroup(From(s.sends, sender), Started([run[0]], sender), Started(rest, sender));
    }
  }

  /** What the reader gets from one sender is a prefix of what that sender sent, in the sender's order. */
  lemma PerSenderFifo<M>(run: seq<Step<M>>, s: State<M>, sender: nat)
    requires Exec(Empty(), run) == Some(s) && forall i :: 0 <= i < |run| ==> !run[i].Expire?
    ensures From(s.received, sender) <= Started(run, sender)
  {
    Fifo(run, s);
    SendsInOrder(Empty(), run, sender, s);
    PrefixFrom(s.sends, s.head, sender);
  }

  // ----- Messenger as an object -----

  /**
   * The steps of `steps` that are possible, in order: what the senders do while the reader sleeps or
   * waits for Redis.
   */
  function SenderRun<M>(s: State<M>, steps: seq<Step<M>>): State<M> {
    if steps == [] then s
    else
      var last := |steps| - 1;
      var before := SenderRun(s, steps[..last]);
      if BySender(steps[last]) && Apply(before, steps[last]).Some? then Apply(before, steps[last]).value else before
  }

  /** What the senders can do to an inbox while its reader is polling. */
  ghost predicate OnlySends<M>(s: State<M>, s': State<M>) {
    && s'.head == s.head && s'.received == s.received
    && s.tail <= s'.tail && s.sends <= s'.sends
    && (forall n :: n in s.fields ==> n in s'.fields && s'.fields[n] == s.fields[n])
  }

  lemma {:induction false} SenderRunSends<M>(s: State<M>, steps: seq<Step<M>>)
    requires Inv(s)
    ensures Inv(SenderRun(s, steps)) && OnlySends(s, SenderRun(s, steps))
  {
    if steps != [] {
      SenderRunSends(s, steps[..|steps| - 1]);
      var before := SenderRun(s, steps[..|steps| - 1]);
      if BySender(steps[|steps| - 1]) && Apply(before, steps[|steps| - 1]).Some? {
        StepInv(before, steps[|steps| - 1], Apply(before, steps[|steps| - 1]).value);
      }
    }
  }

  class InboxHash<M> {
    var s: State<M>

    constructor ()
      ensures s == Empty()
    {
      s := Empty();
    }

    /** _nextSeq, the first half of Send. */
    method NextSeq(m: Message<M>) returns (n: nat)
      requires Inv(s)
      modifies this
      ensures Inv(s) && Apply(old(s), Reserve(m)) == Some(s)
      ensures n == s.tail && n !in old(s.pending) && n !in old(s.fields)
    {
      n := s.tail + 1;
      s := s.(tail := n, pending := s.pending[n := m], sends := s.sends + [m]);
    }

    /** The HSET, the second half of Send. */
    method WritePayload(n: nat)
      requires Inv(s) && n in s.pending
      modifies this
      ensures Inv(s) && Apply(old(s), Write(n)) == Some(s)
    {
      s := s.(fields := s.fields[n := s.pending[n]], pending := s.pending - {n});
    }

    /** Whatever the senders do at this moment. */
    method Interfere(steps: seq<Step<M>>)
      requires Inv(s)
      modifies this
      ensures s == SenderRun(old(s), steps)
      ensures Inv(s) && OnlySends(old(s), s)
    {
      var i := 0;
      while i < |steps|
        invariant 0 <= i <= |steps|
        invariant s == SenderRun(old(s), steps[..i])
      {
        assert steps[..i + 1][..i] == steps[..i];
        if BySender(steps[i]) {
          var next := Apply(s, steps[i]);
          if next.Some? { s := next.value; }
        }
        i := i + 1;
      }
      assert steps[..|steps|] == steps;
      SenderRunSends(old(s), steps);
    }

    /** The reads of the payload, retried up to 50 times while its HSET is still to come. */
    method ReadPayload(next: nat, during: nat -> seq<Step<M>>) returns (raw: Option<Message<M>>)
      requires Inv(s)
      modifies this
      ensures Inv(s) && OnlySends(old(s), s)
      ensures if raw.Some? then next in s.fields && raw.value == s.fields[next] else next !in old(s.fields)
    {
      raw := if next in s.fields then Some(s.fields[next]) else None;
      var retries := 0;
      while raw.None? && retries < 50
        invariant Inv(s) && OnlySends(old(s), s)
        invariant if raw.Some? then next in s.fields && raw.value == s.fields[next] else next !in old(s.fields)
      {
        Interfere(during(retries));
        retries := retries + 1;
        raw := if next in s.fields then Some(s.fields[next]) else None;
      }
    }

    /** _ack, and with it the return of the message to the caller. */
    method Ack(next: nat)
      requires Inv(s) && next == s.head + 1 && next in s.fields
      modifies this
      ensures Inv(s) && Apply(old(s), Take) == Some(s)
      ensures s.received == old(s.received) + [s.sends[next - 1]] && s.head == next && s.sends == old(s.sends)
    {
      assert s.sends[..next] == s.sends[..s.head] + [s.sends[s.head]];
      s := s.(head := next, received := s.received + [s.fields[next]]);
    }

    /**
     * _pollInbox. `polls` is how often the deadline lets it look at the tail again; `waiting` and
     * `reading` say what the senders do before each look. It returns the next send and moves the
     * cursor past it, or returns nothing and leaves the cursor where it was.
     */
    method PollInbox(polls: nat, waiting: nat -> seq<Step<M>>, reading: nat -> seq<Step<M>>)
      returns (m: Option<Message<M>>)
      requires Inv(s)
      modifies this
      ensures Inv(s) && old(s.sends) <= s.sends
      ensures m.Some? ==> s.head == old(s.head) + 1 && s.received == old(s.received) + [m.value]
      ensures m.Some? ==> m.value == s.sends[old(s.head)]
      ensures m.None? ==> s.head == old(s.head) && s.received == old(s.received)
      ensures m.None? ==> old(s.head) == old(s.tail) || old(s.head) + 1 !in old(s.fields)
    {
      var head := s.head;
      Interfere(waiting(0));
      var tail := s.tail;
      var looks := 0;
      while head >= tail
        invariant Inv(s) && OnlySends(old(s), s) && old(s.tail) <= tail <= s.tail
        decreases polls - looks
      {
        if looks >= polls { return None; }
        looks := looks + 1;
        Interfere(waiting(looks));
        tail := s.tail;
      }
      m := ReadPayload(head + 1, reading);
      if m.None? { return None; }
      Ack(head + 1);
    }
  }
}

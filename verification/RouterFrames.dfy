/** What one step of the router may touch, and that no call is ever refused. */
module RouterFrames {
  import opened Wrappers
  import opened Router
  import opened RouterRuns

  /** The key a step is about: that of the call or message, or of the thread's own registration. */
  function KeyOf(s: State, a: Action): Option<Key> {
    match a
    case OnKey(k, _) => Some(k)
    case ReceiveFor(k) => Some(k)
    case Forget(k) => Some(k)
    case Receive(k) => Some(k)
    case Fire(k) => Some(k)
    case Tick(_) => None
    case Run(t) => if t in s.threads then KeyOfThread(s, s.threads[t]) else None
  }

  function KeyOfThread(s: State, th: Thread): Option<Key> {
    match th
    case AfterPark(r) => KeyOfReg(s, r)
    case Winner(r, _) => KeyOfReg(s, r)
    case Handler(r) => KeyOfReg(s, r)
    case AfterForget(k) => Some(k)
  }

  function KeyOfReg(s: State, r: nat): Option<Key> { if r < |s.regs| then Some(s.regs[r].key) else None }

  /** The router has the same to say about key k. */
  predicate SameFor(s: State, s': State, k: Key) {
    && QueueOf(s'.table, k) == QueueOf(s.table, k)
    && (k in s'.table.callbacks <==> k in s.table.callbacks)
    && (k in s.table.callbacks ==> s'.table.callbacks[k] == s.table.callbacks[k])
    && (k in s'.table.deadlines <==> k in s.table.deadlines)
    && (k in s.table.deadlines ==> s'.table.deadlines[k] == s.table.deadlines[k])
  }

  lemma ThreadsKeepOthers(s: State, t: nat, k: Key)
    requires t in s.threads && KeyOfThread(s, s.threads[t]) != Some(k)
    ensures SameFor(s, RunThread(s, t, s.threads[t]), k)
  {
  }

  /** Keys do not get in each other's way: a step changes nothing about any key but its own. */
  lemma OneKeyAtATime(s: State, a: Action, s': State, k: Key)
    requires Apply(s, a) == Some(s') && KeyOf(s, a) != Some(k)
    ensures SameFor(s, s', k)
  {
    if a.Run? { ThreadsKeepOthers(s, a.t, k); }
  }

  /** A thread that got the message before the timeout leaves no deadline of its key behind. */
  lemma WinnerCancels(s: State, t: nat)
    requires t in s.threads && s.threads[t].Winner? && s.threads[t].r < |s.regs|
    ensures Apply(s, Run(t)).Some? && s.regs[s.threads[t].r].key !in Apply(s, Run(t)).value.table.deadlines
  {
  }

  /** No call and no message is refused, and a look takes the oldest message that is there. */
  lemma NeverRefuses(s: State, a: Action)
    requires !a.Run? && !a.Fire?
    ensures Apply(s, a).Some?
    ensures a.ReceiveFor? && QueueOf(s.table, a.k) != [] ==>
      var s' := Apply(s, a).value;
      && QueueOf(s'.table, a.k) == QueueOf(s.table, a.k)[1..]
      && s'.went == s.went[QueueOf(s.table, a.k)[0] := ToReceiver]
  {
  }

  predicate Numbered(s: State) { forall t :: t in s.threads ==> t < s.nextThread }

  lemma StepNumbered(s: State, a: Action, s': State)
    requires Numbered(s) && Apply(s, a) == Some(s')
    ensures Numbered(s') && s.nextThread <= s'.nextThread
    ensures forall t :: t in s'.threads ==> t in s.threads || t >= s.nextThread
    ensures a.Run? ==> a.t !in s'.threads
  {
  }

  lemma {:induction false} StaysGone(s: State, run: seq<Action>, t: nat, s': State)
    requires Numbered(s) && t < s.nextThread && t !in s.threads && Exec(s, run) == Some(s')
    ensures t !in s'.threads && t < s'.nextThread
    decreases run
  {
    if run != [] {
      var next := Apply(s, run[0]).value;
      StepNumbered(s, run[0], next);
      StaysGone(next, run[1..], t, s');
    }
  }

  lemma {:induction false} AlwaysNumbered(s: State, run: seq<Action>, s': State)
    requires Numbered(s) && Exec(s, run) == Some(s')
    ensures Numbered(s')
    decreases run
  {
    if run != [] {
      StepNumbered(s, run[0], Apply(s, run[0]).value);
      AlwaysNumbered(Apply(s, run[0]).value, run[1..], s');
    }
  }

  /** Every thread takes its step once: afterwards, in every continuation, it is gone. */
  lemma ThreadsRunOnce(s: State, t: nat, run: seq<Action>, s': State)
    requires Reachable(s) && t in s.threads && Exec(s, [Run(t)] + run) == Some(s')
    ensures Apply(s', Run(t)) == None
  {
    var before :| Exec(Init(), before) == Some(s);
    AlwaysNumbered(Init(), before, s);
    var next := Apply(s, Run(t)).value;
    StepNumbered(s, Run(t), next);
    assert ([Run(t)] + run)[1..] == run;
    StaysGone(next, run, t, s');
  }
}

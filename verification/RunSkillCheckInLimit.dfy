/**
 * run_skill's documentation says that max_check_ins caps the check-ins of an attempt. It does
 * not: a WAIT re-arms the wait with on_timeout(0), so every later timeout counts from zero
 * again. The limit holds exactly when no check-in can ever happen.
 */
module RunSkillCheckInLimit {
  import opened Wrappers
  import opened Router
  import opened RunSkill
  import opened RunSkillTalk
  import opened RunSkillTheorems

  function CheckInsOf(checkIns: seq<CheckIn>, n: nat): nat {
    if checkIns == [] then 0
    else (if checkIns[|checkIns| - 1].attempt == n then 1 else 0) + CheckInsOf(checkIns[..|checkIns| - 1], n)
  }

  /** The documented bound, for every attempt. */
  ghost predicate WithinLimit(cfg: Config, s: State) {
    forall n: nat :: CheckInsOf(s.checkIns, n) <= if cfg.maxCheckIns < 0 then 0 else cfg.maxCheckIns
  }

  lemma {:induction false} AllOfOne(checkIns: seq<CheckIn>, n: nat)
    requires forall c :: 0 <= c < |checkIns| ==> checkIns[c].attempt == n
    ensures CheckInsOf(checkIns, n) == |checkIns|
  {
    if checkIns != [] { AllOfOne(checkIns[..|checkIns| - 1], n); }
  }

  lemma {:induction false} ExecMore(cfg: Config, s: State, run: seq<Action>, a: Action, s': State, s'': State)
    requires Exec(cfg, s, run) == Some(s') && Apply(cfg, s', a) == Some(s'')
    ensures Exec(cfg, s, run + [a]) == Some(s'')
    decreases run
  {
    if run == [] {
      assert (run + [a])[1..] == [];
    } else {
      ExecMore(cfg, Apply(cfg, s, run[0]).value, run[1..], a, s', s'');
      assert (run + [a])[1..] == run[1..] + [a];
    }
  }

  lemma ReachMore(cfg: Config, s: State, a: Action, s': State)
    requires Reachable(cfg, s) && Apply(cfg, s, a) == Some(s')
    ensures Reachable(cfg, s')
  {
    var run :| Exec(cfg, Init(), run) == Some(s);
    ExecMore(cfg, Init(), run, a, s, s');
  }

  /** Attempt 1 is running, k check-ins were all resolved by WAIT, and thread t is at `th`. */
  ghost predicate Cycle(cfg: Config, s: State, t: nat, th: Thread, k: nat) {
    && Reachable(cfg, s)
    && t in s.threads && s.threads[t] == th
    && |s.attempts| == 1 && |s.checkIns| == k
    && (forall c :: 0 <= c < k ==> s.checkIns[c].attempt == 1)
    && QueueOf(s.table, Own(1)) == []
  }

  lemma Start(cfg: Config) returns (s: State)
    ensures Cycle(cfg, s, 0, Arm(1), 0)
  {
    var w := cfg.agent + 1;
    s := Init();
    assert Exec(cfg, s, []) == Some(s);
    s := Apply(cfg, Init(), Run(0, Workers([w], w))).value;
    ReachMore(cfg, Init(), Run(0, Workers([w], w)), s);
    var s2 := Apply(cfg, s, Run(0, Go)).value;
    ReachMore(cfg, s, Run(0, Go), s2);
    s := Apply(cfg, s2, Run(0, Go)).value;
    ReachMore(cfg, s2, Run(0, Go), s);
  }

  /** The wait is armed. */
  lemma Armed(cfg: Config, s: State, t: nat, k: nat) returns (s': State)
    requires Cycle(cfg, s, t, Arm(1), k)
    ensures Reachable(cfg, s') && |s'.attempts| == 1 && s'.checkIns == s.checkIns && QueueOf(s'.table, Own(1)) == []
    ensures Own(1) in s'.table.callbacks && Own(1) in s'.table.deadlines
    ensures s'.table.deadlines[Own(1)].at == s'.now + cfg.replyTimeout
  {
    var s1 := Apply(cfg, s, Run(t, Go)).value;
    ReachMore(cfg, s, Run(t, Go), s1);
    s' := Apply(cfg, s1, Run(t, Go)).value;
    ReachMore(cfg, s1, Run(t, Go), s');
  }

  /** The deadline passes, and its handler finds the callback. */
  lemma Struck(cfg: Config, s: State) returns (s': State, t: nat)
    requires Reachable(cfg, s) && Own(1) in s.table.callbacks && Own(1) in s.table.deadlines
    requires s.table.deadlines[Own(1)].at <= s.now
    ensures Reachable(cfg, s') && t in s'.threads && s'.threads[t] == OnTimeout(1, 0)
    ensures s'.attempts == s.attempts && s'.checkIns == s.checkIns && s'.table.queues == s.table.queues
  {
    var s1 := Apply(cfg, s, Fire(1)).value;
    ReachMore(cfg, s, Fire(1), s1);
    t := s.nextThread;
    s' := Apply(cfg, s1, Run(t, Go)).value;
    ReachMore(cfg, s1, Run(t, Go), s');
  }

  /** The wait is armed and nothing arrives before its deadline. */
  lemma TimeOut(cfg: Config, s: State, t: nat, k: nat) returns (s': State, t': nat)
    requires Cycle(cfg, s, t, Arm(1), k)
    ensures Cycle(cfg, s', t', OnTimeout(1, 0), k)
  {
    var s2 := Armed(cfg, s, t, k);
    var d := if cfg.replyTimeout < 0 then 0 else cfg.replyTimeout;
    var s3 := Apply(cfg, s2, Tick(d)).value;
    ReachMore(cfg, s2, Tick(d), s3);
    s', t' := Struck(cfg, s3);
  }

  /** The check-in opens: its question is sent and the dialogue waits for the answer. */
  lemma Asked(cfg: Config, s: State, t: nat, k: nat) returns (s': State)
    requires Cycle(cfg, s, t, OnTimeout(1, 0), k) && !NeverChecksIn(cfg)
    ensures Cycle(cfg, s', t, BindConv(k), k + 1) && !s'.checkIns[k].resolved && s'.checkIns[k].waiting
    ensures s'.checkIns[k].turns == 1
  {
    assert t < s.nextThread by {
      var p := Everywhere(cfg, s);
    }
    var s1 := Apply(cfg, s, Run(t, Go)).value;
    ReachMore(cfg, s, Run(t, Go), s1);
    s' := Apply(cfg, s1, Run(t, Go)).value;
    ReachMore(cfg, s1, Run(t, Go), s');
  }

  /** The coordinator answers. */
  lemma Answered(cfg: Config, s: State, t: nat, k: nat) returns (s': State, t': nat, allow: bool)
    requires Cycle(cfg, s, t, BindConv(k), k + 1) && !s.checkIns[k].resolved && s.checkIns[k].waiting
    ensures Cycle(cfg, s', t', Deliberating(k, allow), k + 1) && !s'.checkIns[k].resolved
  {
    var s1 := Apply(cfg, s, AgentMessage(k)).value;
    ReachMore(cfg, s, AgentMessage(k), s1);
    t' := s.nextThread;
    s' := Apply(cfg, s1, Run(t', Go)).value;
    ReachMore(cfg, s1, Run(t', Go), s');
    allow := s1.checkIns[k].turns < cfg.checkInMaxTurns;
  }

  lemma SaysWait(allow: bool)
    ensures Decide("WAIT", allow) == Wait
  {
    var w := "WAIT";
    assert Strip(w) == w;
    assert Upper(w)[0] == 'W' && "ASK:"[0] == 'A';
    assert Upper(w) == w;
  }

  /** The model decides to wait: the same attempt is armed again, one check-in later. */
  lemma WaitAgain(cfg: Config, s: State, t: nat, allow: bool, k: nat) returns (s': State)
    requires Cycle(cfg, s, t, Deliberating(k, allow), k + 1) && !s.checkIns[k].resolved
    ensures Cycle(cfg, s', t, Arm(1), k + 1)
  {
    SaysWait(allow);
    s' := Apply(cfg, s, Run(t, Text("WAIT"))).value;
    ReachMore(cfg, s, Run(t, Text("WAIT")), s');
  }

  lemma {:induction false} AnyNumberOfCheckIns(cfg: Config, k: nat) returns (s: State, t: nat)
    requires !NeverChecksIn(cfg)
    ensures Cycle(cfg, s, t, Arm(1), k)
  {
    if k == 0 {
      t := 0;
      s := Start(cfg);
    } else {
      s, t := AnyNumberOfCheckIns(cfg, k - 1);
      s, t := TimeOut(cfg, s, t, k - 1);
      s := Asked(cfg, s, t, k - 1);
      var allow;
      s, t, allow := Answered(cfg, s, t, k - 1);
      s := WaitAgain(cfg, s, t, allow, k - 1);
    }
  }

  /** max_check_ins bounds the check-ins of every attempt, in every run, exactly when there are none at all. */
  lemma CheckInLimitIff(cfg: Config)
    ensures (forall s :: Reachable(cfg, s) ==> WithinLimit(cfg, s)) <==> NeverChecksIn(cfg)
  {
    if NeverChecksIn(cfg) {
      forall s | Reachable(cfg, s) ensures WithinLimit(cfg, s) {
        var p := Everywhere(cfg, s);
      }
    } else {
      var s, t := AnyNumberOfCheckIns(cfg, cfg.maxCheckIns + 1);
      AllOfOne(s.checkIns, 1);
      assert !WithinLimit(cfg, s);
    }
  }

  /** A run with max_check_ins == 1 and two check-ins in its one attempt. */
  lemma CheckInLimitFails(cfg: Config)
    requires cfg == Config(0, 1, true, 1, 1, 10, 5)
    ensures exists s :: Reachable(cfg, s) && |s.attempts| == 1 && CheckInsOf(s.checkIns, 1) == 2
  {
    var s, t := AnyNumberOfCheckIns(cfg, 2);
    AllOfOne(s.checkIns, 1);
  }
}

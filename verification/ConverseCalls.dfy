/**
 * A tool call of `converse` is one call of `run_skill`. Every step of the run_skill protocol is,
 * seen from the loop, a step that Converse allows such a call - or none at all.
 */
module ConverseCalls {
  import opened Wrappers
  import opened RunSkill
  import Safety = RunSkillSafety
  import Theorems = RunSkillTheorems
  import Converse

  /** The attempts of a call as its dispatch events name them: request id and attempt number. */
  function Attempts(s: State, ids: nat -> nat): seq<(nat, nat)> {
    seq(|s.attempts|, i requires 0 <= i < |s.attempts| => (ids(i + 1), i + 1))
  }

  /** What the loop sees of a call of run_skill. */
  function Seen(s: State, ids: nat -> nat, code: Result -> nat): Converse.Status {
    if s.results == [] then Converse.Running(Attempts(s, ids))
      else Converse.Answered(Attempts(s, ids), code(s.results[0]))
  }

  /** One attempt more, or one result more, or neither. */
  lemma QuietStep(cfg: Config, s: State, t: nat, choice: Choice, s': State)
    requires t in s.threads && !Safety.Owes(s.threads[t]) && RunThread(cfg, s, t, s.threads[t], choice) == Some(s')
    ensures s'.attempts == s.attempts && s'.results == s.results
  {
  }

  lemma StepReports(cfg: Config, s: State, t: nat, choice: Choice, s': State)
    requires t in s.threads && RunThread(cfg, s, t, s.threads[t], choice) == Some(s')
    ensures
      || (s'.attempts == s.attempts && s'.results == s.results)
      || (s.threads[t].Survey? && |s'.attempts| == |s.attempts| + 1 && s'.results == s.results)
      || (Safety.Owes(s.threads[t]) && s'.attempts == s.attempts && |s'.results| == |s.results| + 1)
  {
    if !Safety.Owes(s.threads[t]) { QuietStep(cfg, s, t, choice, s'); }
  }

  /** The step the loop sees. */
  predicate Follows(before: Converse.Status, next: Converse.Status) {
    || next == before
    || (before.Running? && next.Running? && |next.attempts| == |before.attempts| + 1 && before.attempts <= next.attempts
        && next.attempts[|before.attempts|].1 == |next.attempts|)
    || (before.Running? && next.Answered? && next.attempts == before.attempts)
  }

  /**
   * run_skill refines the call that Converse assumes: attempts one by one and in order, then one
   * result, then nothing.
   */
  lemma CallRefines(cfg: Config, s: State, a: Action, s': State, ids: nat -> nat, code: Result -> nat)
    requires Reachable(cfg, s) && Apply(cfg, s, a) == Some(s')
    ensures Follows(Seen(s, ids, code), Seen(s', ids, code))
  {
    Theorems.ExactlyOnce(cfg, s);
    if a.Run? {
      StepReports(cfg, s, a.t, a.choice, s');
      if s.results != [] && Safety.Owes(s.threads[a.t]) {
        assert Safety.IsLive(s, Safety.Thr(a.t));
        assert false;
      }
    }
  }
}

/** worker.py `handle_message`: which skill_result, if any, a dispatched worker sends back. */
module WorkerReports {
  import opened Wrappers
  import RunSkill
  import S = SafeEval
  import I = Inbox
  import Theorems = RunSkillTheorems

  datatype Kind = Contribute | Coordinate | AnotherType

  /** How a call of the skill's own code ends. */
  datatype Attempt<T> = Returns(value: T) | Raises

  const Failure := RunSkill.Answer(false, false, 0)   // status "error", "retryable" False

  /**
   * The handler of one dispatch message: at most one skill_result. A coordinator always sends one,
   * whatever goes wrong; a contributor exactly when it does not know the skill or its
   * contribute raised. Only a result that coordinate itself returned can ask for a retry.
   */
  method HandleMessage(kind: Kind, known: bool, contribute: Attempt<()>, coordinate: Attempt<RunSkill.Result>)
    returns (sent: seq<RunSkill.Result>, raised: bool)
    ensures kind.AnotherType? ==> sent == [] && !raised
    ensures kind.Coordinate? ==> |sent| == 1
    ensures kind.Contribute? ==> sent == if !known || contribute.Raises? then [Failure] else []
    ensures kind.Coordinate? && known && contribute.Returns? && coordinate.Returns? ==> sent == [coordinate.value]
    ensures kind.Coordinate? && !(known && contribute.Returns? && coordinate.Returns?) ==> sent == [Failure]
    ensures raised <==> !kind.AnotherType? && known && (contribute.Raises? || (kind.Coordinate? && coordinate.Raises?))
  {
    sent, raised := [], false;
    if kind.AnotherType? { return; }
    if !known {
      sent := [Failure];
      return;
    }
    if contribute.Raises? {
      sent, raised := [Failure], true;
      return;
    }
    if kind.Coordinate? {
      if coordinate.Raises? {
        sent, raised := [Failure], true;
      } else {
        sent := [coordinate.value];
      }
    }
  }

  /** CombineSkill.coordinate as the worker's handler sees it. */
  function Combine(pw: S.Powers, expression: S.Expression, vars: S.Variables, payload: S.Num -> nat):
    Attempt<RunSkill.Result>
  {
    match S.Coordinate(pw, expression, vars)
    case Ok(n) => Returns(RunSkill.Answer(true, false, payload(n)))
    case Invalid => Returns(Failure)
    case Escapes => Raises
  }

  /** A result that the handler of some dispatch of a combine may have sent. */
  ghost predicate FromCombine(r: RunSkill.Result) {
    r == Failure || exists pw, expression, vars, payload :: CombineReturns(pw, expression, vars, payload, r)
  }

  predicate CombineReturns(
    pw: S.Powers, expression: S.Expression, vars: S.Variables, payload: S.Num -> nat, r: RunSkill.Result)
  {
    Combine(pw, expression, vars, payload) == Returns(r)
  }

  /** The coordinator of a combine calls Send once, whatever the expression, and never with a retryable result. */
  method CombineIsReported(pw: S.Powers, expression: S.Expression, vars: S.Variables, payload: S.Num -> nat)
    returns (sent: seq<RunSkill.Result>, raised: bool)
    ensures raised <==> S.Coordinate(pw, expression, vars).Escapes?
    ensures |sent| == 1 && FromCombine(sent[0]) && sent[0].Answer? && !sent[0].Retryable()
    ensures match S.Coordinate(pw, expression, vars)
      case Ok(n) => sent[0].Ok() && sent[0].payload == payload(n)
      case _ => sent[0] == Failure
  {
    var coordinate := Combine(pw, expression, vars, payload);
    sent, raised := HandleMessage(Coordinate, true, Returns(()), coordinate);
    assert coordinate.Returns? ==> CombineReturns(pw, expression, vars, payload, coordinate.value);
  }

  // ----- whether the head hears it -----

  /** JSON has no complex numbers. */
  predicate Encodable(reply: S.Reply) { reply.Ok? ==> reply.n.Real? }

  /**
   * Send: the number is taken first, then the message is encoded. If that fails, the exception is
   * logged and swallowed, and the number stays without a payload.
   */
  function Send(s: I.State<RunSkill.Result>, m: I.Message<RunSkill.Result>, encodable: bool):
    (s': I.State<RunSkill.Result>)
    ensures I.Exec(s, SendSteps(s, m, encodable)) == Some(s')
    ensures s'.tail == s.tail + 1 && s'.head == s.head && s'.sends == s.sends + [m]
  {
    var steps := SendSteps(s, m, encodable);
    var s1 := I.Apply(s, steps[0]).value;
    I.ExecFirst(s, steps[0], [steps[1]]);
    I.ExecFirst(s1, steps[1], []);
    assert steps == [steps[0]] + [steps[1]] && [steps[1]] == [steps[1]] + [];
    I.Apply(s1, steps[1]).value
  }

  function SendSteps(s: I.State<RunSkill.Result>, m: I.Message<RunSkill.Result>, encodable: bool):
    seq<I.Step<RunSkill.Result>>
  {
    [I.Reserve(m), if encodable then I.Write(s.tail + 1) else I.Crash(s.tail + 1)]
  }

  lemma SendInv(s: I.State<RunSkill.Result>, m: I.Message<RunSkill.Result>, encodable: bool)
    requires I.Inv(s)
    ensures I.Inv(Send(s, m, encodable))
    ensures forall j :: 1 <= j <= s.tail ==> (I.Stuck(Send(s, m, encodable), j) <==> I.Stuck(s, j))
    ensures I.Stuck(Send(s, m, encodable), s.tail + 1) <==> !encodable
  {
    var steps := SendSteps(s, m, encodable);
    var s1 := I.Apply(s, steps[0]).value;
    I.StepInv(s, steps[0], s1);
    I.StepInv(s1, steps[1], Send(s, m, encodable));
  }

  /** No message that the head has yet to take has lost its payload. */
  ghost predicate NothingLost(s: I.State<RunSkill.Result>) {
    forall j :: s.head < j <= s.tail ==> !I.Stuck(s, j)
  }

  /**
   * When the head can hear from the coordinator of a combine: if and only if the value is not
   * complex and nothing before it in the head's inbox was lost. A complex value is worse than
   * silence: it stops the head's inbox for everything that comes after it.
   */
  lemma CombineIsHeardIff(
    pw: S.Powers, expression: S.Expression, vars: S.Variables, s: I.State<RunSkill.Result>,
    m: I.Message<RunSkill.Result>)
    requires I.Inv(s)
    ensures var reply := S.Coordinate(pw, expression, vars);
      var s' := Send(s, m, Encodable(reply));
      && (I.CanReach(s', s.tail + 1) <==> Encodable(reply) && NothingLost(s))
      && (!Encodable(reply) ==> forall run, t :: I.NoExpiry(run) && I.Exec(s', run) == Some(t) ==> t.head <= s.tail)
  {
    var encodable := Encodable(S.Coordinate(pw, expression, vars));
    var s' := Send(s, m, encodable);
    SendInv(s, m, encodable);
    I.ReachableIff(s', s.tail + 1);
    if !encodable {
      forall run, t | I.NoExpiry(run) && I.Exec(s', run) == Some(t) ensures t.head <= s.tail {
        I.StuckStays(s', run, s.tail + 1, t);
      }
    }
  }

  /** The square root of minus one: coordinate answers, and the answer is lost. */
  lemma ComplexIsLost(pw: S.Powers)
    ensures var minusOne := S.Unary(S.USub, S.Constant(S.Number(1.0)));
      var reply := S.Coordinate(pw, S.Parsed(S.Binary(S.Pow, minusOne, S.Constant(S.Number(0.5)))), map[]);
      reply.Ok? && !Encodable(reply)
  {
    var minusOne, half := S.Unary(S.USub, S.Constant(S.Number(1.0))), S.Constant(S.Number(0.5));
    assert S.Eval(pw, minusOne, map[]) == S.Value(S.Real(-1.0));
    assert S.Eval(pw, half, map[]) == S.Value(S.Real(0.5));
    assert (0.5 as real).Floor == 0;
  }

  // ----- retries -----

  /**
   * The head and the workers together: in every run of run_skill in which all the results that
   * arrive are sent by handlers of a combine, an attempt is followed by another one only if
   * nothing came back in time - never because of what a worker said.
   */
  lemma CombineRetriedOnSilence(cfg: RunSkill.Config, s: RunSkill.State, n: nat)
    requires RunSkill.Reachable(cfg, s) && 1 <= n < |s.attempts|
    requires forall p :: p in s.arrived ==> FromCombine(p.1)
    ensures n in s.superseded && s.superseded[n].TimedOut?
  {
    Theorems.RetryJustified(cfg, s, n);
    var r := s.superseded[n];
    if r.Answer? {
      assert (n, r) in s.arrived && r.again;
      NeverRetryable((n, r).1);
    }
  }

  lemma NeverRetryable(r: RunSkill.Result)
    requires FromCombine(r)
    ensures r.Answer? && !r.again
  {
  }
}

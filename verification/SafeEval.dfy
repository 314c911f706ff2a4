/**
 * skills/safe_eval.py and skills/combine.py: arithmetic on the syntax tree of an expression. The
 * text has been parsed. Floats are real numbers; a power may turn out complex, as it does in Python.
 */
module SafeEval {
  datatype BinaryOp = Add | Sub | Mult | Div | Pow | OtherBinary
  datatype UnaryOp = UAdd | USub | OtherUnary

  /** A literal or the value of a variable: an int or float, or anything else - a complex number, say. */
  datatype Object = Number(r: real) | NotANumber

  /** A node of the tree; `Element` is every kind of node that is not in the allow-list. */
  datatype Node =
    | Constant(value: Object)
    | Name(id: string)
    | Binary(op: BinaryOp, left: Node, right: Node)
    | Unary(uop: UnaryOp, operand: Node)
    | Element

  /** The value of an expression: an int or float, or a complex number (also one without imaginary part). */
  datatype Num = Real(r: real) | Complex(re: real, im: real)

  /** A value, a SafeEvalError, or a ZeroDivisionError. */
  datatype Outcome = Value(n: Num) | Rejected | ZeroDivision

  type Variables = map<string, Object>

  /**
   * The powers that real arithmetic does not define: a positive base to an exponent that is no
   * integer, and a complex base other than 0 to an exponent other than 0. Nothing is assumed of them.
   */
  datatype Powers = Powers(root: (real, real) -> real, complex: (Num, Num) -> (real, real))

  // ----- the operators -----

  function Re(x: Num): real { if x.Real? then x.r else x.re }

  function Im(x: Num): real { if x.Real? then 0.0 else x.im }

  predicate IsZero(x: Num) { Re(x) == 0.0 && Im(x) == 0.0 }

  function Power(x: real, n: nat): real { if n == 0 then 1.0 else x * Power(x, n - 1) }

  lemma PowerNonZero(x: real, n: nat)
    requires x != 0.0
    ensures Power(x, n) != 0.0
  {
  }

  predicate Integral(y: real) { y == y.Floor as real }

  /** x ** y for ints and floats: a negative base to an exponent that is no integer is a complex power. */
  function RealPower(pw: Powers, x: real, y: real): Outcome {
    if Integral(y) then
      if y >= 0.0 then Value(Real(Power(x, y.Floor)))
      else if x == 0.0 then ZeroDivision
      else PowerNonZero(x, -y.Floor); Value(Real(1.0 / Power(x, -y.Floor)))
    else if x > 0.0 then Value(Real(pw.root(x, y)))
    else if x == 0.0 then (if y < 0.0 then ZeroDivision else Value(Real(0.0)))
    else ComplexPower(pw, Real(x), Real(y))
  }

  function ComplexPower(pw: Powers, x: Num, y: Num): Outcome {
    if IsZero(y) then Value(Complex(1.0, 0.0))
    else if IsZero(x) then (if Im(y) != 0.0 || Re(y) < 0.0 then ZeroDivision else Value(Complex(0.0, 0.0)))
    else
      var (re, im) := pw.complex(x, y);
      Value(Complex(re, im))
  }

  lemma SquareNotNegative(x: real)
    ensures x * x >= 0.0
  {
  }

  function Product(x: real, y: real): real { x * y }

  lemma SameSignProduct(x: real, y: real)
    requires (x > 0.0 && y > 0.0) || (x < 0.0 && y < 0.0)
    ensures Product(x, y) > 0.0
  {
    if x < 0.0 { assert x * y == (-x) * (-y); }
  }

  lemma SumOfSquares(a: real, b: real)
    requires a != 0.0 || b != 0.0
    ensures Product(a, a) + Product(b, b) > 0.0
  {
    if a != 0.0 { SameSignProduct(a, a); } else { assert Product(a, a) == 0.0; }
    if b != 0.0 { SameSignProduct(b, b); } else { assert Product(b, b) == 0.0; }
  }

  /** The square of the absolute value. */
  function Norm(x: Num): real { Product(Re(x), Re(x)) + Product(Im(x), Im(x)) }

  lemma NormPositive(x: Num)
    requires !IsZero(x)
    ensures Norm(x) > 0.0
  {
    SumOfSquares(Re(x), Im(x));
  }

  function RealCompute(pw: Powers, op: BinaryOp, x: real, y: real): Outcome {
    match op
    case Add => Value(Real(x + y))
    case Sub => Value(Real(x - y))
    case Mult => Value(Real(x * y))
    case Div => if y == 0.0 then ZeroDivision else Value(Real(x / y))
    case Pow => RealPower(pw, x, y)
    case OtherBinary => Rejected
  }

  function ComplexCompute(pw: Powers, op: BinaryOp, x: Num, y: Num): Outcome {
    match op
    case Add => Value(Complex(Re(x) + Re(y), Im(x) + Im(y)))
    case Sub => Value(Complex(Re(x) - Re(y), Im(x) - Im(y)))
    case Mult => Value(Complex(Re(x) * Re(y) - Im(x) * Im(y), Re(x) * Im(y) + Im(x) * Re(y)))
    case Div =>
      if IsZero(y) then ZeroDivision
      else
        NormPositive(y);
        Value(Complex((Re(x) * Re(y) + Im(x) * Im(y)) / Norm(y), (Im(x) * Re(y) - Re(x) * Im(y)) / Norm(y)))
    case Pow => ComplexPower(pw, x, y)
    case OtherBinary => Rejected
  }

  function Compute(pw: Powers, op: BinaryOp, x: Num, y: Num): Outcome {
    if x.Real? && y.Real? then RealCompute(pw, op, x.r, y.r) else ComplexCompute(pw, op, x, y)
  }

  function Negated(x: Num): Num {
    match x
    case Real(r) => Real(-r)
    case Complex(re, im) => Complex(-re, -im)
  }

  /** Exactly when an operator of the allow-list raises: a quotient or a power of this form. */
  predicate DividesByZero(op: BinaryOp, x: Num, y: Num) {
    || (op.Div? && IsZero(y))
    || (op.Pow? && IsZero(x) && (Re(y) < 0.0 || Im(y) != 0.0))
  }

  lemma ComputeFailsIff(pw: Powers, op: BinaryOp, x: Num, y: Num)
    requires !op.OtherBinary?
    ensures Compute(pw, op, x, y) == ZeroDivision <==> DividesByZero(op, x, y)
    ensures Compute(pw, op, x, y).Value? <==> !DividesByZero(op, x, y)
  {
  }

  // ----- what the operators mean -----

  /** The same number, whether it is written as a real or as a complex one. */
  predicate Same(x: Num, y: Num) { Re(x) == Re(y) && Im(x) == Im(y) }

  /** The result of an operator that does not raise. */
  predicate Gives(pw: Powers, op: BinaryOp, x: Num, y: Num, z: Num) {
    Compute(pw, op, x, y).Value? && Same(Compute(pw, op, x, y).n, z)
  }

  function Sum(pw: Powers, x: Num, y: Num): Num { Compute(pw, Add, x, y).n }

  function Times(pw: Powers, x: Num, y: Num): Num { Compute(pw, Mult, x, y).n }

  /** The operators are those of the complex numbers: sums, */
  lemma SumLaws(pw: Powers, x: Num, y: Num, z: Num)
    ensures Gives(pw, Add, x, y, Sum(pw, y, x)) && Gives(pw, Add, x, Real(0.0), x)
    ensures Gives(pw, Add, Sum(pw, x, y), z, Sum(pw, x, Sum(pw, y, z)))
  {
  }

  lemma ZeroTimes(a: real)
    ensures Product(0.0, a) == 0.0 && Product(a, 0.0) == 0.0
  {
  }

  /** A product part by part. */
  lemma Parts(pw: Powers, x: Num, y: Num)
    ensures Compute(pw, Mult, x, y).Value?
    ensures Re(Times(pw, x, y)) == Product(Re(x), Re(y)) - Product(Im(x), Im(y))
    ensures Im(Times(pw, x, y)) == Product(Re(x), Im(y)) + Product(Im(x), Re(y))
  {
    if x.Real? && y.Real? {
      ZeroTimes(Re(x));
      ZeroTimes(Re(y));
      ZeroTimes(0.0);
    }
  }

  lemma ProductCommutes(a: real, b: real)
    ensures Product(a, b) == Product(b, a)
  {
  }

  /** products, */
  lemma ProductLaws(pw: Powers, x: Num, y: Num)
    ensures Gives(pw, Mult, x, y, Times(pw, y, x)) && Gives(pw, Mult, x, Real(1.0), x)
    ensures Gives(pw, Mult, Complex(0.0, 1.0), Complex(0.0, 1.0), Real(-1.0))
  {
    Parts(pw, x, y);
    Parts(pw, y, x);
    ProductCommutes(Re(x), Re(y));
    ProductCommutes(Re(x), Im(y));
    ProductCommutes(Im(x), Re(y));
    ProductCommutes(Im(x), Im(y));
    Parts(pw, x, Real(1.0));
    ZeroTimes(Re(x));
    ZeroTimes(Im(x));
  }

  lemma ProductOfSum(a: real, b: real, c: real)
    ensures Product(a, b + c) == Product(a, b) + Product(a, c)
  {
  }

  lemma TimesSum(pw: Powers, x: Num, y: Num, z: Num, s: Num)
    requires Re(s) == Re(y) + Re(z) && Im(s) == Im(y) + Im(z)
    ensures Re(Times(pw, x, s)) == Re(Times(pw, x, y)) + Re(Times(pw, x, z))
    ensures Im(Times(pw, x, s)) == Im(Times(pw, x, y)) + Im(Times(pw, x, z))
  {
    Parts(pw, x, y);
    Parts(pw, x, z);
    Parts(pw, x, s);
    ProductOfSum(Re(x), Re(y), Re(z));
    ProductOfSum(Re(x), Im(y), Im(z));
    ProductOfSum(Im(x), Re(y), Re(z));
    ProductOfSum(Im(x), Im(y), Im(z));
  }

  /** a product of a sum, */
  lemma DistributiveLaw(pw: Powers, x: Num, y: Num, z: Num)
    ensures Gives(pw, Mult, x, Sum(pw, y, z), Sum(pw, Times(pw, x, y), Times(pw, x, z)))
  {
    TimesSum(pw, x, y, z, Sum(pw, y, z));
  }

  /** a difference undoes a sum, */
  lemma DifferenceLaw(pw: Powers, x: Num, y: Num)
    ensures Compute(pw, Sub, x, y).Value? && Gives(pw, Add, Compute(pw, Sub, x, y).n, y, x)
    ensures Gives(pw, Add, x, Negated(x), Real(0.0))
  {
  }

  lemma QuotientTimes(p: real, q: real, c: real, d: real, n: real, a: real)
    requires n != 0.0 && p * c - q * d == a * n
    ensures (p / n) * c - (q / n) * d == a
  {
    assert (p / n) * c == (p * c) / n && (q / n) * d == (q * d) / n;
    assert (p * c) / n - (q * d) / n == (p * c - q * d) / n;
  }

  lemma Expanded(a: real, b: real, c: real, d: real)
    ensures (a * c + b * d) * c - (b * c - a * d) * d == a * (Product(c, c) + Product(d, d))
    ensures (a * c + b * d) * d + (b * c - a * d) * c == b * (Product(c, c) + Product(d, d))
  {
    assert (a * c + b * d) * c == a * (c * c) + b * c * d && (b * c - a * d) * d == b * c * d - a * (d * d);
    assert (a * c + b * d) * d == a * c * d + b * (d * d) && (b * c - a * d) * c == b * (c * c) - a * c * d;
  }

  lemma ComplexQuotient(a: real, b: real, c: real, d: real, p: real, q: real, n: real)
    requires n != 0.0 && n == Product(c, c) + Product(d, d)
    requires p == (a * c + b * d) / n && q == (b * c - a * d) / n
    ensures Product(p, c) - Product(q, d) == a && Product(p, d) + Product(q, c) == b
  {
    Expanded(a, b, c, d);
    QuotientTimes(a * c + b * d, b * c - a * d, c, d, n, a);
    QuotientTimes(a * c + b * d, -(b * c - a * d), d, c, n, b);
    assert -(b * c - a * d) / n == -q;
  }

  /** and a quotient undoes a product. */
  lemma QuotientLaw(pw: Powers, x: Num, y: Num)
    requires !IsZero(y)
    ensures Compute(pw, Div, x, y).Value? && Gives(pw, Mult, Compute(pw, Div, x, y).n, y, x)
  {
    if !(x.Real? && y.Real?) {
      NormPositive(y);
      var z := Compute(pw, Div, x, y).n;
      Parts(pw, z, y);
      ComplexQuotient(Re(x), Im(x), Re(y), Im(y), Re(z), Im(z), Norm(y));
    }
  }

  /** A whole power is repeated multiplication, and a negative one its reciprocal. */
  lemma PowerLaw(pw: Powers, x: real, n: nat)
    ensures Compute(pw, Pow, Real(x), Real(0.0)) == Value(Real(1.0))
    ensures var y := Compute(pw, Pow, Real(x), Real(n as real));
      y.Value? && Gives(pw, Pow, Real(x), Real((n + 1) as real), Times(pw, Real(x), y.n))
    ensures x != 0.0 ==>
      var y, z := Compute(pw, Pow, Real(x), Real(n as real)), Compute(pw, Pow, Real(x), Real(-(n as real)));
      y.Value? && z.Value? && Gives(pw, Mult, z.n, y.n, Real(1.0))
  {
    var m := n + 1;
    assert (n as real).Floor == n && (m as real).Floor == m && (-(n as real)).Floor + n == 0 && (0.0).Floor == 0;
    assert Power(x, 0) == 1.0;
    assert Power(x, m) == x * Power(x, n);
    if x != 0.0 { PowerNonZero(x, n); }
  }

  /** Anything to the power of 0 is 1, and 0 to a power that is real and positive is 0. */
  lemma PowerEdges(pw: Powers, x: Num, y: Num)
    ensures IsZero(y) ==> Gives(pw, Pow, x, y, Real(1.0))
    ensures IsZero(x) && Re(y) > 0.0 && Im(y) == 0.0 ==> Gives(pw, Pow, x, y, Real(0.0))
  {
    assert Power(0.0, 0) == 1.0 && (0.0).Floor == 0;
    if x.Real? { assert Power(x.r, 0) == 1.0; }
    if y.Real? && y.r > 0.0 && Integral(y.r) { assert Power(0.0, y.r.Floor) == 0.0 * Power(0.0, y.r.Floor - 1); }
  }

  /** Every other power is left to `pw`: with powers that are right, the operator is right. */
  lemma PowerElsewhere(pw: Powers, x: Num, y: Num, z: Num)
    requires !IsZero(x) && !IsZero(y)
    requires x.Real? && y.Real? ==> x.r < 0.0 && !Integral(y.r)
    requires pw.complex(x, y) == (Re(z), Im(z))
    ensures Gives(pw, Pow, x, y, z)
  {
  }

  /** _eval_node: the operator is checked first, then the operands are evaluated from left to right. */
  function Eval(pw: Powers, node: Node, vars: Variables): Outcome {
    match node
    case Constant(value) => if value.Number? then Value(Real(value.r)) else Rejected
    case Name(id) => if id in vars && vars[id].Number? then Value(Real(vars[id].r)) else Rejected
    case Binary(op, left, right) =>
      if op.OtherBinary? then Rejected
      else
        var x := Eval(pw, left, vars);
        if !x.Value? then x
        else
          var y := Eval(pw, right, vars);
          if !y.Value? then y else Compute(pw, op, x.n, y.n)
    case Unary(op, operand) =>
      if op.OtherUnary? then Rejected
      else
        var x := Eval(pw, operand, vars);
        if !x.Value? then x else Value(if op.USub? then Negated(x.n) else x.n)
    case Element => Rejected
  }

  // ----- the allow-list -----

  /** All nodes of a tree. */
  function Nodes(node: Node): set<Node> {
    match node
    case Binary(_, left, right) => {node} + Nodes(left) + Nodes(right)
    case Unary(_, operand) => {node} + Nodes(operand)
    case _ => {node}
  }

  /** What the allow-list says about one node. */
  predicate Permitted(node: Node, vars: Variables) {
    match node
    case Constant(value) => value.Number?
    case Name(id) => id in vars && vars[id].Number?
    case Binary(op, _, _) => !op.OtherBinary?
    case Unary(op, _) => !op.OtherUnary?
    case Element => false
  }

  predicate Allowed(node: Node, vars: Variables) {
    forall n :: n in Nodes(node) ==> Permitted(n, vars)
  }

  lemma AllowedParts(node: Node, vars: Variables)
    ensures node.Binary? ==> (Allowed(node, vars) <==>
      Permitted(node, vars) && Allowed(node.left, vars) && Allowed(node.right, vars))
    ensures node.Unary? ==> (Allowed(node, vars) <==> Permitted(node, vars) && Allowed(node.operand, vars))
    ensures !node.Binary? && !node.Unary? ==> (Allowed(node, vars) <==> Permitted(node, vars))
  {
  }

  /**
   * It is not true that anything outside the allow-list is rejected before any arithmetic: an
   * operand to the left that fails decides first.
   */
  lemma NotRejectedFirst(pw: Powers)
    ensures var node := Binary(Add, Binary(Div, Constant(Number(1.0)), Constant(Number(0.0))), Element);
      !Allowed(node, map[]) && Eval(pw, node, map[]) == ZeroDivision
  {
    var node := Binary(Add, Binary(Div, Constant(Number(1.0)), Constant(Number(0.0))), Element);
    assert Element in Nodes(node);
    assert Eval(pw, Constant(Number(0.0)), map[]) == Value(Real(0.0));
    assert Eval(pw, node.left, map[]) == ZeroDivision;
  }

  /** Some arithmetic in the expression is between operands with a value and fails. */
  predicate Fails(pw: Powers, node: Node, vars: Variables) {
    match node
    case Binary(_, left, right) => Fails(pw, left, vars) || Fails(pw, right, vars) || FailsHere(pw, node, vars)
    case Unary(_, operand) => Fails(pw, operand, vars)
    case _ => false
  }

  /** Both operands have a value, and their quotient or power is a division by zero. */
  predicate FailsHere(pw: Powers, node: Node, vars: Variables)
    requires node.Binary?
  {
    var x, y := Eval(pw, node.left, vars), Eval(pw, node.right, vars);
    x.Value? && y.Value? && DividesByZero(node.op, x.n, y.n)
  }

  /** An expression has a value if and only if it is allowed and nothing in it divides by zero. */
  lemma {:induction false} HasValueIff(pw: Powers, node: Node, vars: Variables)
    ensures Eval(pw, node, vars).Value? <==> Allowed(node, vars) && !Fails(pw, node, vars)
  {
    AllowedParts(node, vars);
    match node
    case Binary(_, left, right) =>
      HasValueIff(pw, left, vars);
      HasValueIff(pw, right, vars);
    case Unary(_, operand) => HasValueIff(pw, operand, vars);
    case _ =>
  }

  predicate Fine(pw: Powers, node: Node, vars: Variables) { Allowed(node, vars) && !Fails(pw, node, vars) }

  /**
   * Going through the expression as _eval_node does - operator, left operand, right operand, then
   * the arithmetic - a failing arithmetic comes before any node outside the allow-list.
   */
  predicate FailsFirst(pw: Powers, node: Node, vars: Variables) {
    match node
    case Binary(op, left, right) =>
      !op.OtherBinary? &&
      (FailsFirst(pw, left, vars) ||
       (Fine(pw, left, vars) && (FailsFirst(pw, right, vars) || (Fine(pw, right, vars) && FailsHere(pw, node, vars)))))
    case Unary(op, operand) => !op.OtherUnary? && FailsFirst(pw, operand, vars)
    case _ => false
  }

  /**
   * When safe_eval keeps its promise: an expression is rejected if and only if it has a node outside
   * the allow-list and no arithmetic fails before the evaluation gets there.
   */
  lemma {:induction false} RejectedIff(pw: Powers, node: Node, vars: Variables)
    ensures Eval(pw, node, vars).Rejected? <==> !Allowed(node, vars) && !FailsFirst(pw, node, vars)
  {
    AllowedParts(node, vars);
    match node
    case Binary(_, left, right) =>
      RejectedIff(pw, left, vars);
      RejectedIff(pw, right, vars);
      HasValueIff(pw, left, vars);
      HasValueIff(pw, right, vars);
      FailsFirstFails(pw, left, vars);
      FailsFirstFails(pw, right, vars);
    case Unary(_, operand) => RejectedIff(pw, operand, vars);
    case _ =>
  }

  /** For an allowed expression the order does not matter. */
  lemma {:induction false} FailsFirstFails(pw: Powers, node: Node, vars: Variables)
    ensures FailsFirst(pw, node, vars) ==> Fails(pw, node, vars)
    ensures Allowed(node, vars) ==> (FailsFirst(pw, node, vars) <==> Fails(pw, node, vars))
  {
    AllowedParts(node, vars);
    match node
    case Binary(_, left, right) =>
      FailsFirstFails(pw, left, vars);
      FailsFirstFails(pw, right, vars);
    case Unary(_, operand) => FailsFirstFails(pw, operand, vars);
    case _ =>
  }

  // ----- composing expressions -----

  /** The expression with e in place of a variable. */
  function Substitute(node: Node, id: string, e: Node): Node {
    match node
    case Name(x) => if x == id then e else node
    case Binary(op, left, right) => Binary(op, Substitute(left, id, e), Substitute(right, id, e))
    case Unary(op, operand) => Unary(op, Substitute(operand, id, e))
    case _ => node
  }

  /** The result of an earlier `combine` as the value of a variable. Only ints and floats are numeric. */
  function Bound(n: Num): Object { if n.Real? then Number(n.r) else NotANumber }

  /** Binding the result of e to a variable does the same as writing e in its place. */
  predicate Composes(pw: Powers, node: Node, id: string, e: Node, vars: Variables)
    requires Eval(pw, e, vars).Value?
  {
    Eval(pw, Substitute(node, id, e), vars) == Eval(pw, node, vars[id := Bound(Eval(pw, e, vars).n)])
  }

  lemma {:induction false} CombineInSteps(pw: Powers, node: Node, id: string, e: Node, vars: Variables)
    requires Eval(pw, e, vars).Value? && Eval(pw, e, vars).n.Real?
    ensures Composes(pw, node, id, e, vars)
  {
    match node
    case Binary(_, left, right) =>
      CombineInSteps(pw, left, id, e, vars);
      CombineInSteps(pw, right, id, e, vars);
    case Unary(_, operand) => CombineInSteps(pw, operand, id, e, vars);
    case _ =>
  }

  /** An expression can be computed in steps, whatever comes after, if and only if its value is not complex. */
  lemma ComposesIff(pw: Powers, id: string, e: Node, vars: Variables)
    requires Eval(pw, e, vars).Value?
    ensures (forall node :: Composes(pw, node, id, e, vars)) <==> Eval(pw, e, vars).n.Real?
  {
    if Eval(pw, e, vars).n.Real? {
      forall node ensures Composes(pw, node, id, e, vars) {
        CombineInSteps(pw, node, id, e, vars);
      }
    } else {
      assert !Composes(pw, Name(id), id, e, vars);
    }
  }

  // ----- CombineSkill.coordinate -----

  datatype Expression = Missing | Unparsable | Parsed(node: Node)

  /** What coordinate does: an answer, an error that is not retryable, or an exception it does not catch. */
  datatype Reply = Ok(n: Num) | Invalid | Escapes

  function Coordinate(pw: Powers, expression: Expression, vars: Variables): Reply {
    match expression
    case Missing => Invalid
    case Unparsable => Invalid
    case Parsed(node) =>
      match Eval(pw, node, vars)
      case Value(n) => Ok(n)
      case Rejected => Invalid
      case ZeroDivision => Escapes
  }

  /** Every exception but SafeEvalError leaves coordinate: exactly when an arithmetic that fails comes first. */
  lemma CoordinateEscapesIff(pw: Powers, node: Node, vars: Variables)
    ensures Coordinate(pw, Parsed(node), vars).Escapes? <==> FailsFirst(pw, node, vars)
  {
    HasValueIff(pw, node, vars);
    RejectedIff(pw, node, vars);
    FailsFirstFails(pw, node, vars);
  }
}

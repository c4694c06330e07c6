/**
 * The expression-only evaluator of Interpreter.java, an earlier snapshot of the
 * interpreter: it evaluates binary, grouping, literal and unary expressions and
 * nothing else, by plain recursion.
 *
 * Unlike the later interpreter it checks operand types only for unary minus and
 * `+`; every other arithmetic or relational operator casts its operands to
 * double, so an operand of another type makes Java throw (ClassCastException,
 * or NullPointerException when unboxing null). Division by zero gives an
 * infinite or NaN double, which real numbers cannot express.
 */
module ExpressionEvaluator {
  import opened Tokens
  import opened Ast
  import opened LoxValues
  import Interpreting

  /** What evaluating an expression produces: a value, or the exception Java throws. */
  datatype Result =
    | Value(value: LoxValues.Value)
    | RuntimeError(token: Token, message: string)
    | NotImplemented(message: string)
    | ClassCast
    | NullPointer
    | NonFinite

  /** `(double) v`: a Double unboxes, null throws NullPointerException, anything else ClassCastException. */
  function CastFailure(v: LoxValues.Value): Result
    requires !v.Num?
  {
    if v.Nil? then NullPointer else ClassCast
  }

  /** An arithmetic operator on two casts, left operand cast first. */
  function Arithmetic(kind: TokenType, left: LoxValues.Value, right: LoxValues.Value): (r: Result)
    requires kind in {MINUS, SLASH, STAR}
    ensures r.Value? <==> left.Num? && right.Num? && !(kind == SLASH && right.n == 0.0)
    ensures r.Value? ==> r.value.Num?
  {
    if !left.Num? then CastFailure(left)
    else if !right.Num? then CastFailure(right)
    else match kind
      case MINUS => Value(Num(left.n - right.n))
      case STAR => Value(Num(left.n * right.n))
      case SLASH => if right.n == 0.0 then NonFinite else Value(Num(left.n / right.n))
  }

  /** A relational operator on two casts. */
  function Relational(kind: TokenType, left: LoxValues.Value, right: LoxValues.Value): (r: Result)
    requires kind in {GREATER, GREATER_EQUAL, LESS, LESS_EQUAL}
    ensures r.Value? <==> left.Num? && right.Num?
    ensures r.Value? ==> r.value.Bool?
  {
    if !left.Num? then CastFailure(left)
    else if !right.Num? then CastFailure(right)
    else Value(Bool(Interpreting.Ordered(kind, left.n, right.n)))
  }

  /** visitBinaryExpr's switch on two operand values. */
  function BinaryOperator(operator: Token, left: LoxValues.Value, right: LoxValues.Value): (r: Result)
    ensures operator.tokenType == PLUS ==>
              (r.Value? <==> (left.Num? && right.Num?) || (left.Str? && right.Str?))
    ensures operator.tokenType == PLUS && !r.Value? ==>
              r == NotImplemented(", unsupported types in PLUS operation.")
    ensures operator.tokenType in {BANG_EQUAL, EQUAL_EQUAL} ==>
              r == Value(Bool((left == right) == (operator.tokenType == EQUAL_EQUAL)))
    ensures operator.tokenType !in Interpreting.BinaryKinds ==> r == NotImplemented(", unreachable at end.")
  {
    match operator.tokenType
    case MINUS => Arithmetic(MINUS, left, right)
    case PLUS =>
      if left.Num? && right.Num? then Value(Num(left.n + right.n))
      else if left.Str? && right.Str? then Value(Str(left.s + right.s))
      else NotImplemented(", unsupported types in PLUS operation.")
    case SLASH => Arithmetic(SLASH, left, right)
    case STAR => Arithmetic(STAR, left, right)
    case GREATER => Relational(GREATER, left, right)
    case GREATER_EQUAL => Relational(GREATER_EQUAL, left, right)
    case LESS => Relational(LESS, left, right)
    case LESS_EQUAL => Relational(LESS_EQUAL, left, right)
    case BANG_EQUAL => Value(Bool(!IsEqual(left, right)))
    case EQUAL_EQUAL => Value(Bool(IsEqual(left, right)))
    case _ => NotImplemented(", unreachable at end.")
  }

  /** visitUnaryExpr's switch on the operand value. */
  function UnaryOperator(operator: Token, right: LoxValues.Value): (r: Result)
    ensures r.Value? <==> operator.tokenType == BANG || (operator.tokenType == MINUS && right.Num?)
    ensures operator.tokenType == BANG ==> r.value.Bool? && (r.value.b <==> !IsTruthy(right))
    ensures operator.tokenType == MINUS && r.Value? ==> r.value.Num? && r.value.n + right.n == 0.0
    ensures operator.tokenType == MINUS && !right.Num? ==> r == RuntimeError(operator, "Operand must be a Number.")
    ensures operator.tokenType !in {BANG, MINUS} ==> r.NotImplemented?
  {
    match operator.tokenType
    case BANG => Value(Bool(!IsTruthy(right)))
    case MINUS => if right.Num? then Value(Num(-right.n)) else RuntimeError(operator, "Operand must be a Number.")
    case _ => NotImplemented(", unreachable at end.")
  }

  /**
   * Each unary operator undoes itself: `!!v` is v's truthiness and `--n` is n;
   * a second `-` never fails once the first has succeeded.
   */
  lemma UnaryTwice(operator: Token, v: LoxValues.Value)
    requires operator.tokenType in {BANG, MINUS}
    requires UnaryOperator(operator, v).Value?
    ensures operator.tokenType == BANG ==> UnaryOperator(operator, UnaryOperator(operator, v).value) == Value(Bool(IsTruthy(v)))
    ensures operator.tokenType == MINUS ==> UnaryOperator(operator, UnaryOperator(operator, v).value) == Value(v)
  {
    var once := UnaryOperator(operator, v).value;
    if operator.tokenType == BANG {
      assert IsTruthy(once) == !IsTruthy(v);
    }
  }

  /** evaluate: both operands before the operator, left first; the first exception wins. */
  function Evaluate(e: Expr): (r: Result)
    requires SimpleExpr(e)
    decreases e
  {
    match e
    case Binary(left, operator, right) =>
      var l := Evaluate(left);
      if !l.Value? then l
      else
        var rr := Evaluate(right);
        if !rr.Value? then rr else BinaryOperator(operator, l.value, rr.value)
    case Grouping(inner) => Evaluate(inner)
    case Literal(literal) => Value(FromLiteral(literal))
    case Unary(operator, right) =>
      var v := Evaluate(right);
      if !v.Value? then v else UnaryOperator(operator, v.value)
  }

  /**
   * evaluate only ever produces nil, a boolean, a number or a string: no
   * callable and no heap object can arise from these four kinds of expression.
   */
  lemma {:induction false} EvaluatePlainValues(e: Expr)
    requires SimpleExpr(e)
    ensures Evaluate(e).Value? ==> var v := Evaluate(e).value; v.Nil? || v.Bool? || v.Num? || v.Str?
    decreases e
  {
    match e
    case Binary(left, _, right) =>
      EvaluatePlainValues(left);
      EvaluatePlainValues(right);
    case Grouping(inner) =>
      EvaluatePlainValues(inner);
    case Literal(_) =>
    case Unary(_, right) =>
      EvaluatePlainValues(right);
  }

  /** A literal evaluates to its stored value and a grouping to its inner expression's value. */
  lemma LiteralAndGrouping(literal: LiteralValue, inner: Expr)
    requires SimpleExpr(inner)
    ensures Evaluate(Literal(literal)) == Value(FromLiteral(literal))
    ensures Evaluate(Grouping(inner)) == Evaluate(inner)
  {
  }

  /** The nesting depth of an expression: the fuel the later interpreter needs for it. */
  function Depth(e: Expr): (d: nat)
    requires SimpleExpr(e)
    ensures d >= 1
    decreases e
  {
    match e
    case Binary(left, _, right) => 1 + (if Depth(left) > Depth(right) then Depth(left) else Depth(right))
    case Grouping(inner) => 1 + Depth(inner)
    case Literal(_) => 1
    case Unary(_, right) => 1 + Depth(right)
  }

  /**
   * The later binary operators extend these: wherever the early operator
   * yields a value, the later one yields the same value.
   */
  lemma BinaryAgrees(operator: Token, left: LoxValues.Value, right: LoxValues.Value, rightText: string)
    requires BinaryOperator(operator, left, right).Value?
    ensures Interpreting.BinaryOp(operator, left, right, rightText) == Interpreting.Normal(BinaryOperator(operator, left, right).value)
  {
    if operator.tokenType in {GREATER, GREATER_EQUAL, LESS, LESS_EQUAL} {
      assert BinaryOperator(operator, left, right) == Relational(operator.tokenType, left, right);
    } else if operator.tokenType in {MINUS, SLASH, STAR} {
      assert BinaryOperator(operator, left, right) == Arithmetic(operator.tokenType, left, right);
      assert left.Num? && right.Num?;
      if operator.tokenType == MINUS {
        assert Interpreting.BinaryOp(operator, left, right, rightText) == Interpreting.Normal(Num(left.n - right.n));
      } else if operator.tokenType == STAR {
        var product := left.n * right.n;
        assert Arithmetic(STAR, left, right) == Value(Num(product));
        assert Interpreting.BinaryOp(operator, left, right, rightText).Normal?;
        assert Interpreting.BinaryOp(operator, left, right, rightText).value == Num(product);
        assert Interpreting.BinaryOp(operator, left, right, rightText) == Interpreting.Normal(Num(product));
      } else {
        assert right.n != 0.0;
        var quotient := left.n / right.n;
        assert Arithmetic(SLASH, left, right) == Value(Num(quotient));
        assert Interpreting.BinaryOp(operator, left, right, rightText).Normal?;
        assert Interpreting.BinaryOp(operator, left, right, rightText).value == Num(quotient);
        assert Interpreting.BinaryOp(operator, left, right, rightText) == Interpreting.Normal(Num(quotient));
      }
    }
  }

  /** The later unary operators extend these in the same way. */
  lemma UnaryAgrees(operator: Token, right: LoxValues.Value)
    requires UnaryOperator(operator, right).Value?
    ensures Interpreting.UnaryOp(operator, right) == Interpreting.Normal(UnaryOperator(operator, right).value)
  {
  }

  /**
   * The later interpreter on a binary node whose operands evaluate without side
   * effects to values the early binary operator accepts.
   */
  lemma BinaryNodeAgrees(ctx: Interpreting.Context, s: Interpreting.State, left: Expr, operator: Token, right: Expr,
                         fuel: nat, l: LoxValues.Value, r: LoxValues.Value)
    requires fuel >= 1 && BinaryOperator(operator, l, r).Value?
    requires Interpreting.Eval(ctx, s, left, fuel - 1) == (Interpreting.Normal(l), s)
    requires Interpreting.Eval(ctx, s, right, fuel - 1) == (Interpreting.Normal(r), s)
    ensures Interpreting.Eval(ctx, s, Binary(left, operator, right), fuel)
         == (Interpreting.Normal(BinaryOperator(operator, l, r).value), s)
  {
    BinaryAgrees(operator, l, r, Interpreting.Stringify(ctx.numberText, s.objects, r));
  }

  /** The later interpreter on a unary node whose operand evaluates without side effects. */
  lemma UnaryNodeAgrees(ctx: Interpreting.Context, s: Interpreting.State, operator: Token, right: Expr,
                        fuel: nat, r: LoxValues.Value)
    requires fuel >= 1 && UnaryOperator(operator, r).Value?
    requires Interpreting.Eval(ctx, s, right, fuel - 1) == (Interpreting.Normal(r), s)
    ensures Interpreting.Eval(ctx, s, Unary(operator, right), fuel) == (Interpreting.Normal(UnaryOperator(operator, r).value), s)
  {
    UnaryAgrees(operator, r);
  }

  /**
   * The later interpreter refines this evaluator: wherever the early one yields
   * a value, the later one, given enough fuel, yields the same value and leaves
   * the interpreter state untouched, whatever the state.
   */
  lemma {:induction false} LaterInterpreterAgrees(ctx: Interpreting.Context, s: Interpreting.State, e: Expr, fuel: nat)
    requires SimpleExpr(e) && Evaluate(e).Value?
    requires fuel >= Depth(e)
    ensures Interpreting.Eval(ctx, s, e, fuel) == (Interpreting.Normal(Evaluate(e).value), s)
    decreases e
  {
    match e
    case Binary(left, operator, right) =>
      assert Evaluate(left).Value? && Evaluate(right).Value?;
      assert Evaluate(e) == BinaryOperator(operator, Evaluate(left).value, Evaluate(right).value);
      LaterInterpreterAgrees(ctx, s, left, fuel - 1);
      LaterInterpreterAgrees(ctx, s, right, fuel - 1);
      BinaryNodeAgrees(ctx, s, left, operator, right, fuel, Evaluate(left).value, Evaluate(right).value);
    case Grouping(inner) =>
      LaterInterpreterAgrees(ctx, s, inner, fuel - 1);
    case Literal(_) =>
    case Unary(operator, right) =>
      assert Evaluate(e) == UnaryOperator(operator, Evaluate(right).value);
      LaterInterpreterAgrees(ctx, s, right, fuel - 1);
      UnaryNodeAgrees(ctx, s, operator, right, fuel, Evaluate(right).value);
  }
}

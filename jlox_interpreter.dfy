/**
 * jlox's tree-walking interpreter (the class Interpreter in Interpeter.java).
 *
 * The interpreter's mutable state is its current `environment`, the `locals`
 * table the resolver fills, and the heap of Environment, LoxFunction, LoxClass
 * and LoxInstance objects it creates. Environments are frames of an arena (see
 * Environments); the runtime objects are entries of a second arena, `objects`;
 * `output` holds the lines System.out.println has written.
 *
 * Evaluation is specified by pure functions over a State value (Eval, Exec and
 * one function per visit method), and the Interpreter class's methods, which
 * update the fields step by step as the Java code does, are proved to compute
 * exactly those functions. Java exceptions are Outcomes: a break, a return, a
 * RuntimeError, a NotImplementedException or a NullPointerException unwinds the
 * evaluation as the exception would. Lox programs need not terminate, so every
 * evaluation step spends one unit of `fuel`; running out is the OutOfFuel outcome.
 *
 * LoxCallable, LoxFunction, LoxClass and LoxInstance are not part of this model;
 * they behave as in chapter 12 of Crafting Interpreters before `this` is added:
 * a function's arity is its parameter count and a call runs its body in a new
 * environment enclosed by the closure, with the parameters bound and a Return
 * caught; a class has arity 0 and a call makes a new instance; a property read
 * finds a field, then a method.
 */
module Interpreting {
  import opened Tokens
  import opened Ast
  import opened Wrappers
  import opened LoxValues
  import Env = Environments

  /** The globals environment is the first frame of the arena. */
  const Globals: nat := 0

  /** Why an evaluation stops early: the Java exception it throws. */
  datatype Signal =
    | BreakSignal
    | ReturnSignal(value: Value)
    | RuntimeError(token: Token, message: string)
    | NotImplemented
    | NullPointer
    | OutOfFuel

  /** A completed evaluation (an expression's value, or () for a statement) or an unwinding one. */
  datatype Outcome<T> = Normal(value: T) | Abrupt(signal: Signal)

  /** The runtime objects the interpreter allocates. */
  datatype LoxObject =
    | LoxFunction(declaration: FunctionDecl, closure: nat)
    | LoxClass(name: string, methods: map<string, nat>)
    | LoxInstance(klass: nat, fields: map<string, Value>)

  /** The interpreter's state: environments, current environment, objects, printed lines. */
  datatype State = State(frames: seq<Env.Frame>, environment: nat, objects: seq<LoxObject>, output: seq<string>)

  /**
   * What evaluation reads but never changes: the resolver's `locals` (expression
   * id to scope distance), Double.toString as a function, and the time the
   * clock native reports.
   */
  datatype Context = Context(locals: map<int, int>, numberText: real -> string, clockSeconds: real)

  /**
   * After any evaluation the current environment is the one it started in (the
   * finally of executeBlock), the arenas have only grown and printed lines stay printed.
   */
  predicate Restores(s: State, t: State) {
    && t.environment == s.environment
    && |s.frames| <= |t.frames|
    && |s.objects| <= |t.objects|
    && s.output <= t.output
  }

  // ---------------------------------------------------------------------------
  // Messages

  function UndefinedVariable(name: string): string {
    "Undefined variable '" + name + "'."
  }

  function UndefinedProperty(name: string): string {
    "Undefined property '" + name + "'."
  }

  const NotCallable := "Can only call functions and classes."
  const OnlyInstancesHaveProperties := "Only instances have properties."
  const OnlyInstancesHaveFields := "Only instances have fields."
  const OperandMustBeNumber := "Operand must be a Number."
  const OperandsMustBeNumbers := "Operands must be Numbers."
  const OperandsMustBeNumbersOrStrings := "Operands must be two Numbers, or two Strings."
  const DivisionByZero := "Division by zero."

  /** The decimal digit for 0..9. */
  function Digit(d: nat): char
    requires d < 10
  {
    "0123456789"[d]
  }

  /** Java's int-to-string for a non-negative int: its decimal digits. */
  function Decimal(n: nat): (s: string)
    ensures |s| >= 1
    ensures forall k :: 0 <= k < |s| ==> '0' <= s[k] <= '9'
    ensures |s| > 1 ==> s[0] != '0'
    decreases n
  {
    if n < 10 then [Digit(n)] else Decimal(n / 10) + [Digit(n % 10)]
  }

  /** The number a string of decimal digits denotes. */
  function DigitsValue(s: string): int
    decreases |s|
  {
    if s == [] then 0 else DigitsValue(s[..|s| - 1]) * 10 + (s[|s| - 1] as int - '0' as int)
  }

  /** Decimal loses nothing: reading its digits back gives the number. */
  lemma {:induction false} DecimalRoundTrip(n: nat)
    ensures DigitsValue(Decimal(n)) == n
    decreases n
  {
    if n >= 10 {
      DecimalRoundTrip(n / 10);
      var s := Decimal(n);
      assert s[..|s| - 1] == Decimal(n / 10);
    }
  }

  function ArityMessage(arity: nat, count: nat): string {
    "Expected " + Decimal(arity) + " arguments," + " but got " + Decimal(count) + "."
  }

  // ---------------------------------------------------------------------------
  // Operators

  /**
   * A Java string holds UTF-16 code units: a character below U+10000 is one
   * unit, any other a high surrogate (U+D800..U+DBFF) then a low one
   * (U+DC00..U+DFFF).
   */
  function CodeUnits(c: char): (u: seq<int>)
    ensures c as int < 0x1_0000 ==> u == [c as int] && !(0xD800 <= u[0] < 0xE000)
    ensures c as int >= 0x1_0000 ==> |u| == 2 && 0xD800 <= u[0] < 0xDC00 && 0xDC00 <= u[1] < 0xE000
  {
    if c as int < 0x1_0000 then [c as int]
    else
      var v := c as int - 0x1_0000;
      [0xD800 + v / 0x400, 0xDC00 + v % 0x400]
  }

  /** The UTF-16 code units of a whole string, character by character. */
  function Utf16(s: string): seq<int> {
    if |s| == 0 then [] else CodeUnits(s[0]) + Utf16(s[1..])
  }

  /** A character's code units are never the start of another character's: the encoding can be read back. */
  lemma CodeUnitsDetermine(c: char, d: char, x: seq<int>, y: seq<int>)
    requires CodeUnits(c) + x == CodeUnits(d) + y
    ensures c == d && x == y
  {
    var u, w := CodeUnits(c), CodeUnits(d);
    assert (u + x)[0] == u[0] && (w + y)[0] == w[0];
    if c as int < 0x1_0000 {
      assert u[0] == c as int;
      assert d as int < 0x1_0000;
      assert (u + x)[1..] == x && (w + y)[1..] == y;
    } else {
      assert d as int >= 0x1_0000;
      assert (u + x)[1] == u[1] && (w + y)[1] == w[1];
      var v, v' := c as int - 0x1_0000, d as int - 0x1_0000;
      assert v == 0x400 * (v / 0x400) + v % 0x400;
      assert v' == 0x400 * (v' / 0x400) + v' % 0x400;
      assert (u + x)[2..] == x && (w + y)[2..] == y;
    }
  }

  /** Two strings with the same code units are the same string. */
  lemma {:induction false} Utf16Injective(a: string, b: string)
    requires Utf16(a) == Utf16(b)
    ensures a == b
    decreases |a|
  {
    if |a| != 0 && |b| != 0 {
      CodeUnitsDetermine(a[0], b[0], Utf16(a[1..]), Utf16(b[1..]));
      Utf16Injective(a[1..], b[1..]);
      assert a == [a[0]] + a[1..] && b == [b[0]] + b[1..];
    }
  }

  /**
   * String.compareTo on code units: the difference of the first differing
   * units, or of the lengths when one is a prefix of the other.
   */
  function CompareUnits(x: seq<int>, y: seq<int>): int
    decreases |x|
  {
    if |x| == 0 || |y| == 0 then |x| - |y|
    else if x[0] != y[0] then x[0] - y[0]
    else CompareUnits(x[1..], y[1..])
  }

  /** String.compareTo, which compares the UTF-16 code units of the two strings. */
  function CompareTo(a: string, b: string): int {
    CompareUnits(Utf16(a), Utf16(b))
  }

  /** Comparing code units gives zero exactly on equal unit sequences. */
  lemma {:induction false} CompareUnitsZero(x: seq<int>, y: seq<int>)
    ensures CompareUnits(x, y) == 0 <==> x == y
    decreases |x|
  {
    if |x| != 0 && |y| != 0 && x[0] == y[0] {
      CompareUnitsZero(x[1..], y[1..]);
      if x[1..] == y[1..] {
        assert x == [x[0]] + x[1..] && y == [y[0]] + y[1..];
      }
    }
  }

  /** compareTo is zero exactly on equal strings. */
  lemma CompareToZero(a: string, b: string)
    ensures CompareTo(a, b) == 0 <==> a == b
  {
    CompareUnitsZero(Utf16(a), Utf16(b));
    if Utf16(a) == Utf16(b) {
      Utf16Injective(a, b);
    }
  }

  /** Comparing code units is antisymmetric. */
  lemma {:induction false} CompareUnitsAntisymmetric(x: seq<int>, y: seq<int>)
    ensures CompareUnits(x, y) == -CompareUnits(y, x)
    decreases |x|
  {
    if |x| != 0 && |y| != 0 && x[0] == y[0] {
      CompareUnitsAntisymmetric(x[1..], y[1..]);
    }
  }

  /** compareTo is antisymmetric. */
  lemma CompareToAntisymmetric(a: string, b: string)
    ensures CompareTo(a, b) == -CompareTo(b, a)
  {
    CompareUnitsAntisymmetric(Utf16(a), Utf16(b));
  }

  /**
   * The order is that of code units, not of characters: U+FFFF sorts after
   * U+1F600, whose first unit is the high surrogate U+D83D.
   */
  lemma SurrogatesSortBelowHighBmp()
    ensures CompareTo("\U{FFFF}", "\U{1F600}") == 0xFFFF - 0xD83D
  {
    assert Utf16("\U{1F600}") == [0xD83D, 0xDE00];
  }

  /** The comparison a relational operator makes between x and y. */
  predicate Ordered(kind: TokenType, x: real, y: real)
    requires kind in {GREATER, GREATER_EQUAL, LESS, LESS_EQUAL}
  {
    match kind
    case GREATER => x > y
    case GREATER_EQUAL => x >= y
    case LESS => x < y
    case LESS_EQUAL => x <= y
  }

  /** The relational operators: two numbers compare by value, two strings by compareTo. */
  function Comparison(operator: Token, left: Value, right: Value): (r: Outcome<Value>)
    requires operator.tokenType in {GREATER, GREATER_EQUAL, LESS, LESS_EQUAL}
    ensures r.Normal? <==> (left.Num? && right.Num?) || (left.Str? && right.Str?)
    ensures r.Normal? ==> r.value.Bool?
    ensures r.Abrupt? ==> r.signal == RuntimeError(operator, OperandsMustBeNumbersOrStrings)
  {
    if left.Num? && right.Num? then Normal(Bool(Ordered(operator.tokenType, left.n, right.n)))
    else if left.Str? && right.Str? then Normal(Bool(Ordered(operator.tokenType, CompareTo(left.s, right.s) as real, 0.0)))
    else Abrupt(RuntimeError(operator, OperandsMustBeNumbersOrStrings))
  }

  /** The operator kinds visitBinaryExpr handles. */
  const BinaryKinds := {PLUS, MINUS, SLASH, STAR, GREATER, GREATER_EQUAL, LESS, LESS_EQUAL, BANG_EQUAL, EQUAL_EQUAL}

  /**
   * The switch of visitBinaryExpr, on operand values already computed;
   * `rightText` is stringify(right), which `+` appends to a string.
   */
  function BinaryOp(operator: Token, left: Value, right: Value, rightText: string): (r: Outcome<Value>)
    ensures r.Abrupt? ==> r.signal.NotImplemented? || (r.signal.RuntimeError? && r.signal.token == operator)
    ensures r.Abrupt? && r.signal.NotImplemented? <==> operator.tokenType !in BinaryKinds
    ensures operator.tokenType == PLUS ==> (r.Normal? <==> (left.Num? && right.Num?) || left.Str?)
    ensures operator.tokenType == PLUS && left.Num? && right.Num? ==> r == Normal(Num(left.n + right.n))
    ensures operator.tokenType == PLUS && left.Str? ==> r == Normal(Str(left.s + if right.Str? then right.s else rightText))
    ensures operator.tokenType in {MINUS, STAR, SLASH} ==>
              (r.Normal? <==> left.Num? && right.Num? && !(operator.tokenType == SLASH && right.n == 0.0))
    ensures operator.tokenType in {MINUS, STAR, SLASH} && !(left.Num? && right.Num?) ==>
              r == Abrupt(RuntimeError(operator, OperandsMustBeNumbers))
    ensures operator.tokenType == SLASH && left.Num? && right == Num(0.0) ==> r == Abrupt(RuntimeError(operator, DivisionByZero))
    ensures operator.tokenType == SLASH && r.Normal? ==> r.value.Num? && r.value.n * right.n == left.n
    ensures operator.tokenType in {BANG_EQUAL, EQUAL_EQUAL} ==>
              r == Normal(Bool((left == right) == (operator.tokenType == EQUAL_EQUAL)))
  {
    match operator.tokenType
    case PLUS =>
      if left.Num? && right.Num? then Normal(Num(left.n + right.n))
      else if left.Str? && right.Str? then Normal(Str(left.s + right.s))
      else if left.Str? then Normal(Str(left.s + rightText))
      else Abrupt(RuntimeError(operator, OperandsMustBeNumbersOrStrings))
    case MINUS =>
      if left.Num? && right.Num? then Normal(Num(left.n - right.n))
      else Abrupt(RuntimeError(operator, OperandsMustBeNumbers))
    case SLASH =>
      if !(left.Num? && right.Num?) then Abrupt(RuntimeError(operator, OperandsMustBeNumbers))
      else if 0.0 == right.n then Abrupt(RuntimeError(operator, DivisionByZero))
      else Normal(Num(left.n / right.n))
    case STAR =>
      if left.Num? && right.Num? then Normal(Num(left.n * right.n))
      else Abrupt(RuntimeError(operator, OperandsMustBeNumbers))
    case GREATER => Comparison(operator, left, right)
    case GREATER_EQUAL => Comparison(operator, left, right)
    case LESS => Comparison(operator, left, right)
    case LESS_EQUAL => Comparison(operator, left, right)
    case BANG_EQUAL => Normal(Bool(!IsEqual(left, right)))
    case EQUAL_EQUAL => Normal(Bool(IsEqual(left, right)))
    case _ => Abrupt(NotImplemented)
  }

  /** `!=` always answers the opposite of `==`. */
  lemma EqualityOperatorsComplement(ne: Token, eq: Token, left: Value, right: Value, text: string)
    requires ne.tokenType == BANG_EQUAL && eq.tokenType == EQUAL_EQUAL
    ensures BinaryOp(ne, left, right, text).value.b == !BinaryOp(eq, left, right, text).value.b
  {
  }

  /** `a < b` and `b > a` agree, and so do `a <= b` and `b >= a`, on numbers and on strings alike. */
  lemma ComparisonConverse(lt: Token, gt: Token, left: Value, right: Value)
    requires (lt.tokenType, gt.tokenType) in {(LESS, GREATER), (LESS_EQUAL, GREATER_EQUAL)}
    ensures Comparison(lt, left, right).Normal? <==> Comparison(gt, right, left).Normal?
    ensures Comparison(lt, left, right).Normal? ==> Comparison(lt, left, right) == Comparison(gt, right, left)
  {
    if left.Str? && right.Str? {
      CompareToAntisymmetric(left.s, right.s);
    }
  }

  /** The switch of visitUnaryExpr, on the operand's value. */
  function UnaryOp(operator: Token, right: Value): (r: Outcome<Value>)
    ensures operator.tokenType == BANG ==> r.Normal? && r.value.Bool? && IsTruthy(r.value) != IsTruthy(right)
    ensures operator.tokenType == MINUS ==> (r.Normal? <==> right.Num?)
    ensures operator.tokenType == MINUS && r.Normal? ==> r.value.Num? && r.value.n + right.n == 0.0
    ensures operator.tokenType == MINUS && r.Abrupt? ==> r.signal == RuntimeError(operator, OperandMustBeNumber)
    ensures operator.tokenType !in {BANG, MINUS} ==> r == Abrupt(NotImplemented)
  {
    match operator.tokenType
    case BANG => Normal(Bool(!IsTruthy(right)))
    case MINUS => if right.Num? then Normal(Num(-right.n)) else Abrupt(RuntimeError(operator, OperandMustBeNumber))
    case _ => Abrupt(NotImplemented)
  }

  /** Double.toString's text with a trailing ".0" removed, as stringify does for numbers. */
  function StripPointZero(text: string): (r: string)
    ensures r == text || r + ".0" == text
    ensures r != text <==> |text| >= 2 && text[|text| - 2..] == ".0"
  {
    if |text| >= 2 && text[|text| - 2..] == ".0" then text[..|text| - 2] else text
  }

  /** The name of the class an instance belongs to. */
  function ClassName(objects: seq<LoxObject>, klass: nat): string {
    if klass < |objects| && objects[klass].LoxClass? then objects[klass].name else ""
  }

  /** stringify: "nil" for null, the trimmed Double text for numbers, toString otherwise. */
  function Stringify(numberText: real -> string, objects: seq<LoxObject>, v: Value): (r: string)
    ensures v.Nil? ==> r == "nil"
    ensures v.Bool? ==> r == if v.b then "true" else "false"
    ensures v.Str? ==> r == v.s
    ensures v.Num? ==> r == numberText(v.n) || r + ".0" == numberText(v.n)
    ensures v.Num? && r != numberText(v.n) ==> numberText(v.n)[|numberText(v.n)| - 2..] == ".0"
    ensures v.Ref? && v.index < |objects| && objects[v.index].LoxInstance? ==> |r| >= 9 && r[|r| - 9..] == " instance"
    ensures v.Ref? && v.index < |objects| && objects[v.index].LoxFunction? ==> |r| >= 5 && r[..4] == "<fn " && r[|r| - 1] == '>'
  {
    match v
    case Nil => "nil"
    case Bool(b) => if b then "true" else "false"
    case Num(n) => StripPointZero(numberText(n))
    case Str(s) => s
    case Clock => "<native fn>"
    case Ref(i) =>
      if i >= |objects| then ""
      else match objects[i]
        case LoxFunction(declaration, _) => "<fn " + declaration.name.lexeme + ">"
        case LoxClass(name, _) => name
        case LoxInstance(klass, _) => ClassName(objects, klass) + " instance"
  }

  // ---------------------------------------------------------------------------
  // Runtime objects

  /** A value a call expression can call: the clock native, a LoxFunction or a LoxClass. */
  predicate Callable(objects: seq<LoxObject>, v: Value) {
    v.Clock? || (v.Ref? && v.index < |objects| && !objects[v.index].LoxInstance?)
  }

  /** LoxCallable.arity. */
  function Arity(objects: seq<LoxObject>, v: Value): nat
    requires Callable(objects, v)
  {
    if v.Clock? then 0
    else if objects[v.index].LoxFunction? then |objects[v.index].declaration.params|
    else 0
  }

  predicate IsInstance(objects: seq<LoxObject>, v: Value) {
    v.Ref? && v.index < |objects| && objects[v.index].LoxInstance?
  }

  /** LoxInstance.get: a field, else a method of the instance's class, else "Undefined property". */
  function InstanceGet(objects: seq<LoxObject>, instance: nat, name: Token): (r: Outcome<Value>)
    requires instance < |objects| && objects[instance].LoxInstance?
    ensures name.lexeme in objects[instance].fields ==> r == Normal(objects[instance].fields[name.lexeme])
    ensures r.Abrupt? ==> r.signal == RuntimeError(name, UndefinedProperty(name.lexeme))
  {
    var target := objects[instance];
    if name.lexeme in target.fields then Normal(target.fields[name.lexeme])
    else if target.klass < |objects| && objects[target.klass].LoxClass? && name.lexeme in objects[target.klass].methods
    then Normal(Ref(objects[target.klass].methods[name.lexeme]))
    else Abrupt(RuntimeError(name, UndefinedProperty(name.lexeme)))
  }

  /** LoxInstance.set: put `value` in the instance's fields. */
  function SetField(objects: seq<LoxObject>, instance: nat, name: string, value: Value): (r: seq<LoxObject>)
    ensures |r| == |objects|
    ensures instance < |objects| && objects[instance].LoxInstance? ==>
              r[instance] == objects[instance].(fields := objects[instance].fields[name := value])
    ensures forall i :: 0 <= i < |objects| && i != instance ==> r[i] == objects[i]
  {
    if instance < |objects| && objects[instance].LoxInstance?
    then objects[instance := objects[instance].(fields := objects[instance].fields[name := value])]
    else objects
  }

  /** The new environment of a function call: each parameter bound to its argument, in order. */
  function Bind(params: seq<Token>, arguments: seq<Value>): (m: map<string, Value>)
    requires |params| == |arguments|
    ensures m.Keys == set k | 0 <= k < |params| :: params[k].lexeme
    decreases |params|
  {
    if params == [] then map[]
    else
      var n := |params| - 1;
      Bind(params[..n], arguments[..n])[params[n].lexeme := arguments[n]]
  }

  /**
   * A parameter whose name no later parameter repeats is bound to its own
   * argument; where a name repeats, the later define wins, as in Java.
   */
  lemma {:induction false} BindParameters(params: seq<Token>, arguments: seq<Value>, k: nat)
    requires |params| == |arguments| && k < |params|
    requires forall j :: k < j < |params| ==> params[j].lexeme != params[k].lexeme
    ensures Bind(params, arguments)[params[k].lexeme] == arguments[k]
    decreases |params|
  {
    var n := |params| - 1;
    if k < n {
      BindParameters(params[..n], arguments[..n], k);
    }
  }

  /**
   * The method table of visitClassStmt: one new LoxFunction per method, closed
   * over `closure`, created in order; a later method of the same name wins.
   */
  function MethodTable(methods: seq<FunctionDecl>, closure: nat, objects: seq<LoxObject>): (r: (map<string, nat>, seq<LoxObject>))
    ensures |r.1| == |objects| + |methods| && r.1[..|objects|] == objects
    ensures forall k :: 0 <= k < |methods| ==> r.1[|objects| + k] == LoxFunction(methods[k], closure)
    ensures r.0.Keys == set k | 0 <= k < |methods| :: methods[k].name.lexeme
    ensures forall name :: name in r.0 ==>
              |objects| <= r.0[name] < |r.1| && r.1[r.0[name]].LoxFunction? && r.1[r.0[name]].declaration.name.lexeme == name
    decreases |methods|
  {
    if methods == [] then (map[], objects)
    else
      var n := |methods| - 1;
      var (table, created) := MethodTable(methods[..n], closure, objects);
      (table[methods[n].name.lexeme := |created|], created + [LoxFunction(methods[n], closure)])
  }

  /** How the while statement's catch ends a loop: a break completes it, anything else passes on. */
  function EndLoop(signal: Signal): (r: Outcome<()>)
    ensures r != Abrupt(BreakSignal)
  {
    if signal.BreakSignal? then Normal(()) else Abrupt(signal)
  }

  /** The statement's view of an expression's outcome: its value is discarded. */
  function Discard(o: Outcome<Value>): Outcome<()> {
    if o.Normal? then Normal(()) else Abrupt(o.signal)
  }

  /** No return escapes an evaluation: the call that ran the body caught it. */
  predicate NoReturn<T>(o: Outcome<T>) {
    o.Abrupt? ==> !o.signal.ReturnSignal?
  }

  // ---------------------------------------------------------------------------
  // The evaluation, as functions of the state

  /**
   * lookUpVariable: through getAt at the resolved distance, or in the globals
   * when the resolver left the expression out.
   */
  function LookUpVariable(ctx: Context, s: State, name: Token, id: int): (r: Outcome<Value>)
    ensures id !in ctx.locals ==>
              (r.Normal? <==> Env.Get(s.frames, Globals, name.lexeme).Some?)
    ensures id !in ctx.locals && r.Abrupt? ==> r.signal == RuntimeError(name, UndefinedVariable(name.lexeme))
    ensures id in ctx.locals && r.Abrupt? ==> r.signal == NullPointer
    ensures id !in ctx.locals && r.Normal? ==> Env.Get(s.frames, Globals, name.lexeme) == Wrappers.Some(r.value)
    ensures id in ctx.locals ==>
              (r.Normal? <==> Env.Ancestor(s.frames, s.environment, ctx.locals[id]).Some?)
    ensures id in ctx.locals && r.Normal? ==>
              Env.GetAt(s.frames, s.environment, ctx.locals[id], name.lexeme) == Wrappers.Some(r.value)
  {
    if id in ctx.locals then
      match Env.GetAt(s.frames, s.environment, ctx.locals[id], name.lexeme)
      case None => Abrupt(NullPointer)
      case Some(v) => Normal(v)
    else
      match Env.Get(s.frames, Globals, name.lexeme)
      case None => Abrupt(RuntimeError(name, UndefinedVariable(name.lexeme)))
      case Some(v) => Normal(v)
  }

  /** evaluate: one step of fuel, then the visit method of the expression's kind. */
  function Eval(ctx: Context, s: State, e: Expr, fuel: nat): (r: (Outcome<Value>, State))
    ensures Restores(s, r.1) && NoReturn(r.0)
    decreases fuel, 0, 0
  {
    if fuel == 0 then (Abrupt(OutOfFuel), s)
    else match e
      case Assign(_, _, _) => EvalAssign(ctx, s, e, fuel - 1)
      case Binary(_, _, _) => EvalBinary(ctx, s, e, fuel - 1)
      case Call(_, _, _) => EvalCall(ctx, s, e, fuel - 1)
      case Get(_, _) => EvalGet(ctx, s, e, fuel - 1)
      case Grouping(inner) => Eval(ctx, s, inner, fuel - 1)
      case Literal(literal) => (Normal(FromLiteral(literal)), s)
      case Logical(_, _, _) => EvalLogical(ctx, s, e, fuel - 1)
      case Set(_, _, _) => EvalSet(ctx, s, e, fuel - 1)
      case This(_) => (Abrupt(NotImplemented), s)
      case Unary(_, _) => EvalUnary(ctx, s, e, fuel - 1)
      case Variable(id, name) => (LookUpVariable(ctx, s, name, id), s)
  }

  /** visitAssignExpr: evaluate the value, store it (assignAt or globals.assign), yield it. */
  function EvalAssign(ctx: Context, s: State, e: Expr, fuel: nat): (r: (Outcome<Value>, State))
    requires e.Assign?
    ensures Restores(s, r.1) && NoReturn(r.0)
    ensures r.0.Normal? ==> r.0 == Eval(ctx, s, e.value, fuel).0
    decreases fuel, 4, 0
  {
    var (v, s1) := Eval(ctx, s, e.value, fuel);
    if v.Abrupt? then (v, s1)
    else if e.id in ctx.locals then
      match Env.AssignAt(s1.frames, s1.environment, ctx.locals[e.id], e.name.lexeme, v.value)
      case None => (Abrupt(NullPointer), s1)
      case Some(frames) => (v, s1.(frames := frames))
    else
      match Env.Assign(s1.frames, Globals, e.name.lexeme, v.value)
      case None => (Abrupt(RuntimeError(e.name, UndefinedVariable(e.name.lexeme))), s1)
      case Some(frames) => (v, s1.(frames := frames))
  }

  /** visitBinaryExpr: both operands, left first, then the operator. */
  function EvalBinary(ctx: Context, s: State, e: Expr, fuel: nat): (r: (Outcome<Value>, State))
    requires e.Binary?
    ensures Restores(s, r.1) && NoReturn(r.0)
    decreases fuel, 4, 0
  {
    var (left, s1) := Eval(ctx, s, e.left, fuel);
    if left.Abrupt? then (left, s1)
    else
      var (right, s2) := Eval(ctx, s1, e.right, fuel);
      if right.Abrupt? then (right, s2)
      else (BinaryOp(e.operator, left.value, right.value, Stringify(ctx.numberText, s2.objects, right.value)), s2)
  }

  /** The argument loop of visitCallExpr: evaluate arguments[i..] in order after `values`. */
  function EvalArguments(ctx: Context, s: State, arguments: seq<Expr>, i: nat, values: seq<Value>, fuel: nat)
    : (r: (Outcome<seq<Value>>, State))
    ensures Restores(s, r.1) && NoReturn(r.0)
    ensures r.0.Normal? && i <= |arguments| ==> |r.0.value| == |values| + |arguments| - i
    decreases fuel, 1, |arguments| - i
  {
    if i >= |arguments| then (Normal(values), s)
    else
      var (v, s1) := Eval(ctx, s, arguments[i], fuel);
      if v.Abrupt? then (Abrupt(v.signal), s1)
      else EvalArguments(ctx, s1, arguments, i + 1, values + [v.value], fuel)
  }

  /** visitCallExpr: the callee, then the arguments, then the call. */
  function EvalCall(ctx: Context, s: State, e: Expr, fuel: nat): (r: (Outcome<Value>, State))
    requires e.Call?
    ensures Restores(s, r.1) && NoReturn(r.0)
    decreases fuel, 4, 0
  {
    var (callee, s1) := Eval(ctx, s, e.callee, fuel);
    if callee.Abrupt? then (callee, s1)
    else
      var (arguments, s2) := EvalArguments(ctx, s1, e.arguments, 0, [], fuel);
      if arguments.Abrupt? then (Abrupt(arguments.signal), s2)
      else Invoke(ctx, s2, callee.value, e.paren, arguments.value, fuel)
  }

  /**
   * The checks of visitCallExpr on the evaluated callee and arguments, then
   * LoxCallable.call: the clock reads the time, a class makes a new instance, and
   * a function runs its body as a block in a new environment that encloses the
   * closure and binds the parameters; a Return it throws is the call's value,
   * and falling off the end yields nil.
   */
  function Invoke(ctx: Context, s: State, callee: Value, paren: Token, arguments: seq<Value>, fuel: nat)
    : (r: (Outcome<Value>, State))
    ensures Restores(s, r.1) && NoReturn(r.0)
    ensures !Callable(s.objects, callee) ==> r == (Abrupt(RuntimeError(paren, NotCallable)), s)
    ensures Callable(s.objects, callee) && |arguments| != Arity(s.objects, callee) ==>
              r == (Abrupt(RuntimeError(paren, ArityMessage(Arity(s.objects, callee), |arguments|))), s)
    ensures callee.Ref? && callee.index < |s.objects| && s.objects[callee.index].LoxClass? && arguments == [] ==>
              r.0 == Normal(Ref(|s.objects|)) && r.1.objects == s.objects + [LoxInstance(callee.index, map[])]
    decreases fuel, 3, 0
  {
    if !Callable(s.objects, callee) then (Abrupt(RuntimeError(paren, NotCallable)), s)
    else if |arguments| != Arity(s.objects, callee) then
      (Abrupt(RuntimeError(paren, ArityMessage(Arity(s.objects, callee), |arguments|))), s)
    else if callee.Clock? then (Normal(Num(ctx.clockSeconds)), s)
    else
      var target := s.objects[callee.index];
      if target.LoxFunction? then
        var env := |s.frames|;
        var s1 := s.(frames := s.frames + [Env.Frame(Bind(target.declaration.params, arguments), Some(target.closure))]);
        var (c, s2) := ExecBlockIn(ctx, s1, target.declaration.body, env, fuel);
        (if c.Normal? then Normal(Nil) else if c.signal.ReturnSignal? then Normal(c.signal.value) else Abrupt(c.signal), s2)
      else
        (Normal(Ref(|s.objects|)), s.(objects := s.objects + [LoxInstance(callee.index, map[])]))
  }

  /** visitGetExpr: the receiver must be an instance; then LoxInstance.get. */
  function EvalGet(ctx: Context, s: State, e: Expr, fuel: nat): (r: (Outcome<Value>, State))
    requires e.Get?
    ensures Restores(s, r.1) && NoReturn(r.0)
    ensures r.1 == Eval(ctx, s, e.receiver, fuel).1
    decreases fuel, 4, 0
  {
    var (target, s1) := Eval(ctx, s, e.receiver, fuel);
    if target.Abrupt? then (target, s1)
    else if IsInstance(s1.objects, target.value) then (InstanceGet(s1.objects, target.value.index, e.name), s1)
    else (Abrupt(RuntimeError(e.name, OnlyInstancesHaveProperties)), s1)
  }

  /** visitLogicalExpr: `or` stops at a truthy left operand, `and` at a falsey one, and yields it. */
  function EvalLogical(ctx: Context, s: State, e: Expr, fuel: nat): (r: (Outcome<Value>, State))
    requires e.Logical?
    ensures Restores(s, r.1) && NoReturn(r.0)
    decreases fuel, 4, 0
  {
    var (left, s1) := Eval(ctx, s, e.left, fuel);
    if left.Abrupt? then (left, s1)
    else if e.operator.tokenType == OR && IsTruthy(left.value) then (left, s1)
    else if e.operator.tokenType != OR && !IsTruthy(left.value) then (left, s1)
    else Eval(ctx, s1, e.right, fuel)
  }

  /** visitSetExpr: the receiver must be an instance (checked before the value is evaluated); then LoxInstance.set. */
  function EvalSet(ctx: Context, s: State, e: Expr, fuel: nat): (r: (Outcome<Value>, State))
    requires e.Set?
    ensures Restores(s, r.1) && NoReturn(r.0)
    decreases fuel, 4, 0
  {
    var (target, s1) := Eval(ctx, s, e.receiver, fuel);
    if target.Abrupt? then (target, s1)
    else if !IsInstance(s1.objects, target.value) then (Abrupt(RuntimeError(e.name, OnlyInstancesHaveFields)), s1)
    else
      var (v, s2) := Eval(ctx, s1, e.value, fuel);
      if v.Abrupt? then (v, s2)
      else (v, s2.(objects := SetField(s2.objects, target.value.index, e.name.lexeme, v.value)))
  }

  /** visitUnaryExpr: the operand, then the operator. */
  function EvalUnary(ctx: Context, s: State, e: Expr, fuel: nat): (r: (Outcome<Value>, State))
    requires e.Unary?
    ensures Restores(s, r.1) && NoReturn(r.0)
    decreases fuel, 4, 0
  {
    var (right, s1) := Eval(ctx, s, e.right, fuel);
    if right.Abrupt? then (right, s1) else (UnaryOp(e.operator, right.value), s1)
  }

  /** execute: one step of fuel, then the visit method of the statement's kind. */
  function Exec(ctx: Context, s: State, stmt: Stmt, fuel: nat): (r: (Outcome<()>, State))
    ensures Restores(s, r.1)
    decreases fuel, 0, 0
  {
    if fuel == 0 then (Abrupt(OutOfFuel), s)
    else match stmt
      case Block(_) => ExecBlock(ctx, s, stmt, fuel - 1)
      case Break => (Abrupt(BreakSignal), s)
      case Class(_, _) => ExecClass(s, stmt)
      case Expression(expression) =>
        var (v, s1) := Eval(ctx, s, expression, fuel - 1);
        (Discard(v), s1)
      case Function(decl) => ExecFunction(s, decl)
      case If(_, _, _) => ExecIf(ctx, s, stmt, fuel - 1)
      case Print(expression) => ExecPrint(ctx, s, expression, fuel - 1)
      case Return(_, _) => ExecReturn(ctx, s, stmt, fuel - 1)
      case Var(_, _) => ExecVar(ctx, s, stmt, fuel - 1)
      case While(_, _) => ExecWhile(ctx, s, stmt, fuel - 1)
  }

  /** The statement loop of executeBlock and interpret: statements[i..] in order until one unwinds. */
  function ExecStatements(ctx: Context, s: State, statements: seq<Option<Stmt>>, i: nat, fuel: nat)
    : (r: (Outcome<()>, State))
    ensures Restores(s, r.1)
    decreases fuel, 1, |statements| - i
  {
    if i >= |statements| then (Normal(()), s)
    else match statements[i]
      case None => (Abrupt(NullPointer), s)
      case Some(stmt) =>
        var (c, s1) := Exec(ctx, s, stmt, fuel);
        if c.Abrupt? then (c, s1) else ExecStatements(ctx, s1, statements, i + 1, fuel)
  }

  /**
   * executeBlock: run the statements with `env` as the current environment, and
   * put the previous one back however they end.
   */
  function ExecBlockIn(ctx: Context, s: State, statements: seq<Option<Stmt>>, env: nat, fuel: nat)
    : (r: (Outcome<()>, State))
    ensures Restores(s, r.1)
    ensures r.1.environment == s.environment
    decreases fuel, 2, 0
  {
    var (c, s1) := ExecStatements(ctx, s.(environment := env), statements, 0, fuel);
    (c, s1.(environment := s.environment))
  }

  /** visitBlockStmt: executeBlock in a new environment enclosed by the current one. */
  function ExecBlock(ctx: Context, s: State, stmt: Stmt, fuel: nat): (r: (Outcome<()>, State))
    requires stmt.Block?
    ensures Restores(s, r.1)
    ensures |r.1.frames| > |s.frames|
    decreases fuel, 4, 0
  {
    var s1 := s.(frames := s.frames + [Env.Frame(map[], Some(s.environment))]);
    ExecBlockIn(ctx, s1, stmt.statements, |s.frames|, fuel)
  }

  /**
   * visitClassStmt: define the name as nil, build the method table, make the
   * class, then assign it to the name.
   */
  function ExecClass(s: State, stmt: Stmt): (r: (Outcome<()>, State))
    requires stmt.Class?
    ensures Restores(s, r.1)
    ensures |r.1.objects| == |s.objects| + |stmt.methods| + 1
    ensures r.1.objects[|r.1.objects| - 1].LoxClass? && r.1.objects[|r.1.objects| - 1].name == stmt.name.lexeme
    ensures s.environment < |s.frames| ==>
              r.0.Normal? && Env.Get(r.1.frames, s.environment, stmt.name.lexeme) == Some(Ref(|r.1.objects| - 1))
  {
    var frames := Env.Define(s.frames, s.environment, stmt.name.lexeme, Nil);
    Env.GetAfterDefine(s.frames, s.environment, stmt.name.lexeme, Nil);
    var (table, objects) := MethodTable(stmt.methods, s.environment, s.objects);
    var s1 := s.(frames := frames, objects := objects + [LoxClass(stmt.name.lexeme, table)]);
    match Env.Assign(frames, s.environment, stmt.name.lexeme, Ref(|objects|))
    case None => (Abrupt(RuntimeError(stmt.name, UndefinedVariable(stmt.name.lexeme))), s1)
    case Some(updated) =>
      Env.GetAfterAssign(frames, s.environment, stmt.name.lexeme, Ref(|objects|), stmt.name.lexeme);
      (Normal(()), s1.(frames := updated))
  }

  /** visitFunctionStmt: a new LoxFunction closed over the current environment, bound to its name there. */
  function ExecFunction(s: State, decl: FunctionDecl): (r: (Outcome<()>, State))
    ensures Restores(s, r.1) && r.0.Normal?
    ensures r.1.objects == s.objects + [LoxFunction(decl, s.environment)]
    ensures s.environment < |s.frames| ==> Env.Get(r.1.frames, s.environment, decl.name.lexeme) == Some(Ref(|s.objects|))
  {
    Env.GetAfterDefine(s.frames, s.environment, decl.name.lexeme, Ref(|s.objects|));
    (Normal(()), s.(frames := Env.Define(s.frames, s.environment, decl.name.lexeme, Ref(|s.objects|)),
                    objects := s.objects + [LoxFunction(decl, s.environment)]))
  }

  /** visitIfStmt: the condition, then the then-branch if it is truthy, else the else-branch if any. */
  function ExecIf(ctx: Context, s: State, stmt: Stmt, fuel: nat): (r: (Outcome<()>, State))
    requires stmt.If?
    ensures Restores(s, r.1)
    decreases fuel, 4, 0
  {
    var (c, s1) := Eval(ctx, s, stmt.condition, fuel);
    if c.Abrupt? then (Discard(c), s1)
    else if IsTruthy(c.value) then Exec(ctx, s1, stmt.thenBranch, fuel)
    else match stmt.elseBranch
      case None => (Normal(()), s1)
      case Some(elseBranch) => Exec(ctx, s1, elseBranch, fuel)
  }

  /** visitPrintStmt (and interpret of an expression): the value's stringify, as one more line of output. */
  function ExecPrint(ctx: Context, s: State, expression: Expr, fuel: nat): (r: (Outcome<()>, State))
    ensures Restores(s, r.1)
    ensures r.0.Normal? <==> Eval(ctx, s, expression, fuel).0.Normal?
    ensures r.0.Normal? ==>
              |r.1.output| > |s.output| && r.1.output[|r.1.output| - 1] == Stringify(ctx.numberText, r.1.objects, Eval(ctx, s, expression, fuel).0.value)
    decreases fuel, 4, 0
  {
    var (v, s1) := Eval(ctx, s, expression, fuel);
    if v.Abrupt? then (Discard(v), s1)
    else (Normal(()), s1.(output := s1.output + [Stringify(ctx.numberText, s1.objects, v.value)]))
  }

  /** visitReturnStmt: the value (nil without one), thrown as a Return. */
  function ExecReturn(ctx: Context, s: State, stmt: Stmt, fuel: nat): (r: (Outcome<()>, State))
    requires stmt.Return?
    ensures Restores(s, r.1) && r.0.Abrupt?
    ensures stmt.value.None? ==> r == (Abrupt(ReturnSignal(Nil)), s)
    decreases fuel, 4, 0
  {
    match stmt.value
    case None => (Abrupt(ReturnSignal(Nil)), s)
    case Some(value) =>
      var (v, s1) := Eval(ctx, s, value, fuel);
      if v.Abrupt? then (Abrupt(v.signal), s1) else (Abrupt(ReturnSignal(v.value)), s1)
  }

  /** visitVarStmt: the initializer's value (nil without one), defined in the current environment. */
  function ExecVar(ctx: Context, s: State, stmt: Stmt, fuel: nat): (r: (Outcome<()>, State))
    requires stmt.Var?
    ensures Restores(s, r.1)
    ensures stmt.initializer.None? && s.environment < |s.frames| ==>
              r.0.Normal? && Env.Get(r.1.frames, s.environment, stmt.name.lexeme) == Some(Nil)
    decreases fuel, 4, 0
  {
    match stmt.initializer
    case None =>
      Env.GetAfterDefine(s.frames, s.environment, stmt.name.lexeme, Nil);
      (Normal(()), s.(frames := Env.Define(s.frames, s.environment, stmt.name.lexeme, Nil)))
    case Some(initializer) =>
      var (v, s1) := Eval(ctx, s, initializer, fuel);
      if v.Abrupt? then (Discard(v), s1)
      else (Normal(()), s1.(frames := Env.Define(s1.frames, s1.environment, stmt.name.lexeme, v.value)))
  }

  /**
   * visitWhileStmt: the condition, then the body, until the condition is falsey;
   * a break thrown by either ends the loop normally, so none escapes it.
   */
  function ExecWhile(ctx: Context, s: State, stmt: Stmt, fuel: nat): (r: (Outcome<()>, State))
    requires stmt.While?
    ensures Restores(s, r.1)
    ensures r.0 != Abrupt(BreakSignal)
    decreases fuel, 4, 0
  {
    var (c, s1) := Eval(ctx, s, stmt.condition, fuel);
    if c.Abrupt? then (EndLoop(c.signal), s1)
    else if !IsTruthy(c.value) then (Normal(()), s1)
    else
      var (b, s2) := Exec(ctx, s1, stmt.body, fuel);
      if b.Abrupt? then (EndLoop(b.signal), s2)
      else if fuel == 0 then (Abrupt(OutOfFuel), s2)
      else ExecWhile(ctx, s2, stmt, fuel - 1)
  }

  // ---------------------------------------------------------------------------
  // Properties of the evaluation

  /**
   * An assignment is seen by the next read of the same variable expression:
   * after `x = v` evaluates to v, looking `x` up (with the same resolution) gives v.
   */
  lemma AssignThenLookUp(ctx: Context, s: State, e: Expr, fuel: nat)
    requires e.Assign?
    requires EvalAssign(ctx, s, e, fuel).0.Normal?
    ensures LookUpVariable(ctx, EvalAssign(ctx, s, e, fuel).1, e.name, e.id) == EvalAssign(ctx, s, e, fuel).0
  {
    var (v, s1) := Eval(ctx, s, e.value, fuel);
    if e.id in ctx.locals {
      Env.GetAtAfterAssignAt(s1.frames, s1.environment, ctx.locals[e.id], e.name.lexeme, v.value);
    } else {
      Env.GetAfterAssign(s1.frames, Globals, e.name.lexeme, v.value, e.name.lexeme);
    }
  }

  /**
   * Short circuit: when the left operand decides, the right one is not
   * evaluated and the left value is the result; otherwise the result is the
   * right operand's, evaluated after the left.
   */
  lemma LogicalShortCircuit(ctx: Context, s: State, e: Expr, fuel: nat)
    requires e.Logical?
    requires Eval(ctx, s, e.left, fuel).0.Normal?
    ensures var (left, s1) := Eval(ctx, s, e.left, fuel);
            if (e.operator.tokenType == OR) == IsTruthy(left.value)
            then EvalLogical(ctx, s, e, fuel) == (left, s1)
            else EvalLogical(ctx, s, e, fuel) == Eval(ctx, s1, e.right, fuel)
  {
  }

  /**
   * Binary operands are evaluated left first: a left operand that throws is the
   * result and the right one is never evaluated; otherwise the right operand
   * starts from the state the left one left, and what the left printed comes first.
   */
  lemma BinaryOperandsInOrder(ctx: Context, s: State, e: Expr, fuel: nat)
    requires e.Binary?
    ensures var (left, s1) := Eval(ctx, s, e.left, fuel);
            && s1.output <= EvalBinary(ctx, s, e, fuel).1.output
            && (left.Abrupt? ==> EvalBinary(ctx, s, e, fuel) == (left, s1))
            && (left.Normal? ==>
                  var (right, s2) := Eval(ctx, s1, e.right, fuel);
                  && EvalBinary(ctx, s, e, fuel).1 == s2
                  && (right.Abrupt? ==> EvalBinary(ctx, s, e, fuel).0 == right))
  {
  }

  /**
   * A call evaluates its callee, then its arguments left to right, and only then
   * checks that the callee is callable: a throwing callee stops before any
   * argument, a throwing argument stops before the checks, and a value that is
   * not callable is reported after every argument has run.
   */
  lemma CallEvaluatesBeforeChecks(ctx: Context, s: State, e: Expr, fuel: nat)
    requires e.Call?
    ensures var (callee, s1) := Eval(ctx, s, e.callee, fuel);
            && (callee.Abrupt? ==> EvalCall(ctx, s, e, fuel) == (callee, s1))
            && (callee.Normal? ==>
                  var (arguments, s2) := EvalArguments(ctx, s1, e.arguments, 0, [], fuel);
                  && s1.output <= s2.output
                  && (arguments.Abrupt? ==> EvalCall(ctx, s, e, fuel) == (Abrupt(arguments.signal), s2))
                  && (arguments.Normal? && !Callable(s2.objects, callee.value) ==>
                        EvalCall(ctx, s, e, fuel) == (Abrupt(RuntimeError(e.paren, NotCallable)), s2)))
  {
  }

  /**
   * Calling a LoxFunction with as many arguments as parameters: the body runs as
   * a block in a new environment that encloses the closure and binds each
   * parameter not repeated later to its argument. A Return the body throws is the
   * call's value, falling off the end yields nil, and any other signal (a runtime
   * error, a break) passes on unchanged.
   */
  lemma InvokeFunction(ctx: Context, s: State, callee: Value, paren: Token, arguments: seq<Value>, fuel: nat)
    requires callee.Ref? && callee.index < |s.objects| && s.objects[callee.index].LoxFunction?
    requires |arguments| == |s.objects[callee.index].declaration.params|
    ensures var f := s.objects[callee.index];
            var params := f.declaration.params;
            var frame := Env.Frame(Bind(params, arguments), Some(f.closure));
            var (c, s2) := ExecBlockIn(ctx, s.(frames := s.frames + [frame]), f.declaration.body, |s.frames|, fuel);
            var (v, s3) := Invoke(ctx, s, callee, paren, arguments, fuel);
            && s3 == s2
            && (c.Normal? ==> v == Normal(Nil))
            && (c.Abrupt? && c.signal.ReturnSignal? ==> v == Normal(c.signal.value))
            && (c.Abrupt? && !c.signal.ReturnSignal? ==> v == Abrupt(c.signal))
            && (forall k :: 0 <= k < |params| && (forall j :: k < j < |params| ==> params[j].lexeme != params[k].lexeme) ==>
                  frame.values[params[k].lexeme] == arguments[k])
  {
    var params := s.objects[callee.index].declaration.params;
    forall k | 0 <= k < |params| && (forall j :: k < j < |params| ==> params[j].lexeme != params[k].lexeme)
      ensures Bind(params, arguments)[params[k].lexeme] == arguments[k]
    {
      BindParameters(params, arguments, k);
    }
  }

  /**
   * Statements run in order and the first abrupt one ends the list: running a
   * list is running its first j statements and, only if they all complete
   * normally, the rest from the state they leave.
   */
  lemma {:induction false} StatementsInOrder(ctx: Context, s: State, statements: seq<Option<Stmt>>, i: nat, j: nat, fuel: nat)
    requires i <= j <= |statements|
    ensures var (c, s1) := ExecStatements(ctx, s, statements[..j], i, fuel);
            ExecStatements(ctx, s, statements, i, fuel) ==
              if c.Abrupt? then (c, s1) else ExecStatements(ctx, s1, statements, j, fuel)
    decreases j - i
  {
    if i < j {
      assert statements[..j][i] == statements[i];
      match statements[i]
      case None =>
      case Some(stmt) =>
        var (c, s1) := Exec(ctx, s, stmt, fuel);
        if c.Normal? {
          StatementsInOrder(ctx, s1, statements, i + 1, j, fuel);
        }
    }
  }

  /**
   * An if statement runs exactly one branch, chosen by the truthiness of its
   * condition, from the state the condition left; with no else branch a falsey
   * condition completes normally.
   */
  lemma IfChoosesByTruthiness(ctx: Context, s: State, stmt: Stmt, fuel: nat)
    requires stmt.If?
    requires Eval(ctx, s, stmt.condition, fuel).0.Normal?
    ensures var (c, s1) := Eval(ctx, s, stmt.condition, fuel);
            ExecIf(ctx, s, stmt, fuel) ==
              if IsTruthy(c.value) then Exec(ctx, s1, stmt.thenBranch, fuel)
              else if stmt.elseBranch.Some? then Exec(ctx, s1, stmt.elseBranch.value, fuel)
              else (Normal(()), s1)
  {
  }

  /** A block leaves the environment as it found it, on every path, and so does every statement. */
  lemma BlockRestoresEnvironment(ctx: Context, s: State, stmt: Stmt, fuel: nat)
    ensures Exec(ctx, s, stmt, fuel).1.environment == s.environment
  {
  }

  /** A while loop never lets a break escape. */
  lemma WhileCatchesBreak(ctx: Context, s: State, stmt: Stmt, fuel: nat)
    requires stmt.While?
    ensures Exec(ctx, s, stmt, fuel).0 != Abrupt(BreakSignal)
  {
  }

  // ---------------------------------------------------------------------------
  // The interpreter object

  class Interpreter {
    var frames: seq<Env.Frame>
    var environment: nat
    var objects: seq<LoxObject>
    var output: seq<string>
    var locals: map<int, int>
    const numberText: real -> string
    const clockSeconds: real

    /** The fields as a State value. */
    function Snapshot(): State
      reads this
    {
      State(frames, environment, objects, output)
    }

    /** The fields evaluation only reads. */
    function Ctx(): Context
      reads this`locals
    {
      Context(locals, numberText, clockSeconds)
    }

    /** The constructor: the globals environment holds only the clock native, and it is current. */
    constructor (numberText: real -> string, clockSeconds: real)
      ensures frames == [Env.Frame(map["clock" := Clock], None)] && environment == Globals
      ensures objects == [] && output == [] && locals == map[]
      ensures this.numberText == numberText && this.clockSeconds == clockSeconds
    {
      frames := [Env.Frame(map["clock" := Clock], None)];
      environment := Globals;
      objects := [];
      output := [];
      locals := map[];
      this.numberText := numberText;
      this.clockSeconds := clockSeconds;
    }

    /** resolve: record the scope distance of a variable or assignment expression. */
    method Resolve(e: Expr, depth: int)
      modifies this`locals
      ensures (e.Variable? || e.Assign?) ==> locals == old(locals)[e.id := depth]
      ensures !(e.Variable? || e.Assign?) ==> locals == old(locals)
    {
      if e.Variable? || e.Assign? {
        locals := locals[e.id := depth];
      }
    }

    /**
     * interpret(List<Stmt>): the statements in order; a RuntimeError outcome is
     * the error Lox.runtimeError reports, any other unwinding escapes.
     */
    method Interpret(statements: seq<Option<Stmt>>, fuel: nat) returns (o: Outcome<()>)
      modifies this
      ensures locals == old(locals)
      ensures (o, Snapshot()) == ExecStatements(Ctx(), old(Snapshot()), statements, 0, fuel)
    {
      var i := 0;
      o := Normal(());
      while i < |statements|
        invariant 0 <= i <= |statements| && o == Normal(())
        invariant locals == old(locals)
        invariant ExecStatements(Ctx(), old(Snapshot()), statements, 0, fuel) == ExecStatements(Ctx(), Snapshot(), statements, i, fuel)
      {
        if statements[i].None? {
          o := Abrupt(NullPointer);
          return;
        }
        var c := Execute(statements[i].value, fuel);
        if c.Abrupt? {
          return c;
        }
        i := i + 1;
      }
    }

    /** interpret(Expr): evaluate and print the value, as a print statement does. */
    method InterpretExpression(expression: Expr, fuel: nat) returns (o: Outcome<()>)
      modifies this
      ensures locals == old(locals)
      ensures (o, Snapshot()) == ExecPrint(Ctx(), old(Snapshot()), expression, fuel)
    {
      o := VisitPrintStmt(expression, fuel);
    }

    /** executeBlock: switch to `env`, run the statements until one unwinds, switch back. */
    method ExecuteBlock(statements: seq<Option<Stmt>>, env: nat, fuel: nat) returns (o: Outcome<()>)
      modifies this
      ensures locals == old(locals)
      ensures (o, Snapshot()) == ExecBlockIn(Ctx(), old(Snapshot()), statements, env, fuel)
      decreases fuel, 2, 0
    {
      var previous := environment;
      environment := env;
      ghost var start := Snapshot();
      var i := 0;
      o := Normal(());
      while i < |statements|
        invariant 0 <= i <= |statements| && o == Normal(())
        invariant locals == old(locals) && environment == env
        invariant ExecStatements(Ctx(), start, statements, 0, fuel) == ExecStatements(Ctx(), Snapshot(), statements, i, fuel)
      {
        if statements[i].None? {
          o := Abrupt(NullPointer);
          break;
        }
        var c := Execute(statements[i].value, fuel);
        if c.Abrupt? {
          o := c;
          break;
        }
        i := i + 1;
      }
      environment := previous;
    }

    /** execute: the visit method of the statement's kind (a break statement just throws). */
    method Execute(stmt: Stmt, fuel: nat) returns (o: Outcome<()>)
      modifies this
      ensures locals == old(locals)
      ensures (o, Snapshot()) == Exec(Ctx(), old(Snapshot()), stmt, fuel)
      decreases fuel, 0, 0
    {
      if fuel == 0 {
        return Abrupt(OutOfFuel);
      }
      match stmt {
        case Block(_) => o := VisitBlockStmt(stmt, fuel - 1);
        case Break => o := Abrupt(BreakSignal);
        case Class(_, _) => o := VisitClassStmt(stmt);
        case Expression(expression) =>
          var v := Evaluate(expression, fuel - 1);
          o := Discard(v);
        case Function(decl) => o := VisitFunctionStmt(decl);
        case If(_, _, _) => o := VisitIfStmt(stmt, fuel - 1);
        case Print(expression) => o := VisitPrintStmt(expression, fuel - 1);
        case Return(_, _) => o := VisitReturnStmt(stmt, fuel - 1);
        case Var(_, _) => o := VisitVarStmt(stmt, fuel - 1);
        case While(_, _) => o := VisitWhileStmt(stmt, fuel - 1);
      }
    }

    method VisitBlockStmt(stmt: Stmt, fuel: nat) returns (o: Outcome<()>)
      requires stmt.Block?
      modifies this
      ensures locals == old(locals)
      ensures (o, Snapshot()) == ExecBlock(Ctx(), old(Snapshot()), stmt, fuel)
      decreases fuel, 4, 0
    {
      var env := |frames|;
      frames := frames + [Env.Frame(map[], Some(environment))];
      o := ExecuteBlock(stmt.statements, env, fuel);
    }

    method VisitClassStmt(stmt: Stmt) returns (o: Outcome<()>)
      requires stmt.Class?
      modifies this
      ensures locals == old(locals)
      ensures (o, Snapshot()) == ExecClass(old(Snapshot()), stmt)
    {
      frames := Env.Define(frames, environment, stmt.name.lexeme, Nil);
      ghost var defined := Snapshot();
      var methods: map<string, nat> := map[];
      for i := 0 to |stmt.methods|
        invariant (methods, objects) == MethodTable(stmt.methods[..i], environment, old(objects))
        invariant frames == defined.frames && environment == defined.environment && output == defined.output
        invariant locals == old(locals)
      {
        var decl := stmt.methods[i];
        assert stmt.methods[..i + 1][..i] == stmt.methods[..i];
        methods := methods[decl.name.lexeme := |objects|];
        objects := objects + [LoxFunction(decl, environment)];
      }
      assert stmt.methods[..|stmt.methods|] == stmt.methods;
      var klass := |objects|;
      objects := objects + [LoxClass(stmt.name.lexeme, methods)];
      var updated := Env.Assign(frames, environment, stmt.name.lexeme, Ref(klass));
      if updated.None? {
        return Abrupt(RuntimeError(stmt.name, UndefinedVariable(stmt.name.lexeme)));
      }
      frames := updated.value;
      o := Normal(());
    }

    method VisitFunctionStmt(decl: FunctionDecl) returns (o: Outcome<()>)
      modifies this
      ensures locals == old(locals)
      ensures (o, Snapshot()) == ExecFunction(old(Snapshot()), decl)
    {
      var index := |objects|;
      objects := objects + [LoxFunction(decl, environment)];
      frames := Env.Define(frames, environment, decl.name.lexeme, Ref(index));
      o := Normal(());
    }

    method VisitIfStmt(stmt: Stmt, fuel: nat) returns (o: Outcome<()>)
      requires stmt.If?
      modifies this
      ensures locals == old(locals)
      ensures (o, Snapshot()) == ExecIf(Ctx(), old(Snapshot()), stmt, fuel)
      decreases fuel, 4, 0
    {
      var c := Evaluate(stmt.condition, fuel);
      if c.Abrupt? {
        return Discard(c);
      }
      if IsTruthy(c.value) {
        o := Execute(stmt.thenBranch, fuel);
      } else if stmt.elseBranch.Some? {
        o := Execute(stmt.elseBranch.value, fuel);
      } else {
        o := Normal(());
      }
    }

    method VisitPrintStmt(expression: Expr, fuel: nat) returns (o: Outcome<()>)
      modifies this
      ensures locals == old(locals)
      ensures (o, Snapshot()) == ExecPrint(Ctx(), old(Snapshot()), expression, fuel)
      decreases fuel, 4, 0
    {
      var v := Evaluate(expression, fuel);
      if v.Abrupt? {
        return Discard(v);
      }
      output := output + [Stringify(numberText, objects, v.value)];
      o := Normal(());
    }

    method VisitReturnStmt(stmt: Stmt, fuel: nat) returns (o: Outcome<()>)
      requires stmt.Return?
      modifies this
      ensures locals == old(locals)
      ensures (o, Snapshot()) == ExecReturn(Ctx(), old(Snapshot()), stmt, fuel)
      decreases fuel, 4, 0
    {
      var value := Nil;
      if stmt.value.Some? {
        var v := Evaluate(stmt.value.value, fuel);
        if v.Abrupt? {
          return Abrupt(v.signal);
        }
        value := v.value;
      }
      o := Abrupt(ReturnSignal(value));
    }

    method VisitVarStmt(stmt: Stmt, fuel: nat) returns (o: Outcome<()>)
      requires stmt.Var?
      modifies this
      ensures locals == old(locals)
      ensures (o, Snapshot()) == ExecVar(Ctx(), old(Snapshot()), stmt, fuel)
      decreases fuel, 4, 0
    {
      var value := Nil;
      if stmt.initializer.Some? {
        var v := Evaluate(stmt.initializer.value, fuel);
        if v.Abrupt? {
          return Discard(v);
        }
        value := v.value;
      }
      frames := Env.Define(frames, environment, stmt.name.lexeme, value);
      o := Normal(());
    }

    method VisitWhileStmt(stmt: Stmt, fuel: nat) returns (o: Outcome<()>)
      requires stmt.While?
      modifies this
      ensures locals == old(locals)
      ensures (o, Snapshot()) == ExecWhile(Ctx(), old(Snapshot()), stmt, fuel)
      decreases fuel, 4, 0
    {
      var f: nat := fuel;
      while true
        invariant f <= fuel
        invariant locals == old(locals)
        invariant ExecWhile(Ctx(), old(Snapshot()), stmt, fuel) == ExecWhile(Ctx(), Snapshot(), stmt, f)
        decreases f
      {
        var c := Evaluate(stmt.condition, f);
        if c.Abrupt? {
          return EndLoop(c.signal);
        }
        if !IsTruthy(c.value) {
          return Normal(());
        }
        var b := Execute(stmt.body, f);
        if b.Abrupt? {
          return EndLoop(b.signal);
        }
        if f == 0 {
          return Abrupt(OutOfFuel);
        }
        f := f - 1;
      }
    }

    /** evaluate: the visit method of the expression's kind (grouping, literal and this inline). */
    method Evaluate(e: Expr, fuel: nat) returns (o: Outcome<Value>)
      modifies this
      ensures locals == old(locals)
      ensures (o, Snapshot()) == Eval(Ctx(), old(Snapshot()), e, fuel)
      decreases fuel, 0, 0
    {
      if fuel == 0 {
        return Abrupt(OutOfFuel);
      }
      match e {
        case Assign(_, _, _) => o := VisitAssignExpr(e, fuel - 1);
        case Binary(_, _, _) => o := VisitBinaryExpr(e, fuel - 1);
        case Call(_, _, _) => o := VisitCallExpr(e, fuel - 1);
        case Get(_, _) => o := VisitGetExpr(e, fuel - 1);
        case Grouping(inner) => o := Evaluate(inner, fuel - 1);
        case Literal(literal) => o := Normal(FromLiteral(literal));
        case Logical(_, _, _) => o := VisitLogicalExpr(e, fuel - 1);
        case Set(_, _, _) => o := VisitSetExpr(e, fuel - 1);
        case This(_) => o := Abrupt(NotImplemented);
        case Unary(_, _) => o := VisitUnaryExpr(e, fuel - 1);
        case Variable(id, name) => o := LookUpVariable(Ctx(), Snapshot(), name, id);
      }
    }

    method VisitAssignExpr(e: Expr, fuel: nat) returns (o: Outcome<Value>)
      requires e.Assign?
      modifies this
      ensures locals == old(locals)
      ensures (o, Snapshot()) == EvalAssign(Ctx(), old(Snapshot()), e, fuel)
      decreases fuel, 4, 0
    {
      o := Evaluate(e.value, fuel);
      if o.Abrupt? {
        return;
      }
      if e.id in locals {
        var updated := Env.AssignAt(frames, environment, locals[e.id], e.name.lexeme, o.value);
        if updated.None? {
          return Abrupt(NullPointer);
        }
        frames := updated.value;
      } else {
        var updated := Env.Assign(frames, Globals, e.name.lexeme, o.value);
        if updated.None? {
          return Abrupt(RuntimeError(e.name, UndefinedVariable(e.name.lexeme)));
        }
        frames := updated.value;
      }
    }

    method VisitBinaryExpr(e: Expr, fuel: nat) returns (o: Outcome<Value>)
      requires e.Binary?
      modifies this
      ensures locals == old(locals)
      ensures (o, Snapshot()) == EvalBinary(Ctx(), old(Snapshot()), e, fuel)
      decreases fuel, 4, 0
    {
      var left := Evaluate(e.left, fuel);
      if left.Abrupt? {
        return left;
      }
      var right := Evaluate(e.right, fuel);
      if right.Abrupt? {
        return right;
      }
      o := BinaryOp(e.operator, left.value, right.value, Stringify(numberText, objects, right.value));
    }

    method VisitCallExpr(e: Expr, fuel: nat) returns (o: Outcome<Value>)
      requires e.Call?
      modifies this
      ensures locals == old(locals)
      ensures (o, Snapshot()) == EvalCall(Ctx(), old(Snapshot()), e, fuel)
      decreases fuel, 4, 0
    {
      var callee := Evaluate(e.callee, fuel);
      if callee.Abrupt? {
        return callee;
      }
      ghost var evaluated := Snapshot();
      var arguments: seq<Value> := [];
      var i := 0;
      while i < |e.arguments|
        invariant 0 <= i <= |e.arguments|
        invariant locals == old(locals)
        invariant EvalArguments(Ctx(), evaluated, e.arguments, 0, [], fuel)
               == EvalArguments(Ctx(), Snapshot(), e.arguments, i, arguments, fuel)
      {
        var v := Evaluate(e.arguments[i], fuel);
        if v.Abrupt? {
          return Abrupt(v.signal);
        }
        arguments := arguments + [v.value];
        i := i + 1;
      }
      o := CallValue(callee.value, e.paren, arguments, fuel);
    }

    /** The callable and arity checks of visitCallExpr, then LoxCallable.call. */
    method CallValue(callee: Value, paren: Token, arguments: seq<Value>, fuel: nat) returns (o: Outcome<Value>)
      modifies this
      ensures locals == old(locals)
      ensures (o, Snapshot()) == Invoke(Ctx(), old(Snapshot()), callee, paren, arguments, fuel)
      decreases fuel, 3, 0
    {
      if !Callable(objects, callee) {
        return Abrupt(RuntimeError(paren, NotCallable));
      }
      var arity := Arity(objects, callee);
      if |arguments| != arity {
        return Abrupt(RuntimeError(paren, ArityMessage(arity, |arguments|)));
      }
      if callee.Clock? {
        return Normal(Num(clockSeconds));
      }
      var target := objects[callee.index];
      if target.LoxFunction? {
        var env := |frames|;
        frames := frames + [Env.Frame(Bind(target.declaration.params, arguments), Some(target.closure))];
        var c := ExecuteBlock(target.declaration.body, env, fuel);
        if c.Normal? {
          o := Normal(Nil);
        } else if c.signal.ReturnSignal? {
          o := Normal(c.signal.value);
        } else {
          o := Abrupt(c.signal);
        }
      } else {
        o := Normal(Ref(|objects|));
        objects := objects + [LoxInstance(callee.index, map[])];
      }
    }

    method VisitGetExpr(e: Expr, fuel: nat) returns (o: Outcome<Value>)
      requires e.Get?
      modifies this
      ensures locals == old(locals)
      ensures (o, Snapshot()) == EvalGet(Ctx(), old(Snapshot()), e, fuel)
      decreases fuel, 4, 0
    {
      var target := Evaluate(e.receiver, fuel);
      if target.Abrupt? {
        return target;
      }
      if IsInstance(objects, target.value) {
        return InstanceGet(objects, target.value.index, e.name);
      }
      o := Abrupt(RuntimeError(e.name, OnlyInstancesHaveProperties));
    }

    method VisitLogicalExpr(e: Expr, fuel: nat) returns (o: Outcome<Value>)
      requires e.Logical?
      modifies this
      ensures locals == old(locals)
      ensures (o, Snapshot()) == EvalLogical(Ctx(), old(Snapshot()), e, fuel)
      decreases fuel, 4, 0
    {
      var left := Evaluate(e.left, fuel);
      if left.Abrupt? {
        return left;
      }
      if e.operator.tokenType == OR {
        if IsTruthy(left.value) {
          return left;
        }
      } else {
        if !IsTruthy(left.value) {
          return left;
        }
      }
      o := Evaluate(e.right, fuel);
    }

    method VisitSetExpr(e: Expr, fuel: nat) returns (o: Outcome<Value>)
      requires e.Set?
      modifies this
      ensures locals == old(locals)
      ensures (o, Snapshot()) == EvalSet(Ctx(), old(Snapshot()), e, fuel)
      decreases fuel, 4, 0
    {
      var target := Evaluate(e.receiver, fuel);
      if target.Abrupt? {
        return target;
      }
      if !IsInstance(objects, target.value) {
        return Abrupt(RuntimeError(e.name, OnlyInstancesHaveFields));
      }
      o := Evaluate(e.value, fuel);
      if o.Abrupt? {
        return;
      }
      objects := SetField(objects, target.value.index, e.name.lexeme, o.value);
    }

    method VisitUnaryExpr(e: Expr, fuel: nat) returns (o: Outcome<Value>)
      requires e.Unary?
      modifies this
      ensures locals == old(locals)
      ensures (o, Snapshot()) == EvalUnary(Ctx(), old(Snapshot()), e, fuel)
      decreases fuel, 4, 0
    {
      var right := Evaluate(e.right, fuel);
      if right.Abrupt? {
        return right;
      }
      o := UnaryOp(e.operator, right.value);
    }
  }
}

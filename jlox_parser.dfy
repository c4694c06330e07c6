/**
 * The recursive-descent parser of jlox (Parser.java): a cursor `current` into a
 * token list that ends with EOF, a `canBreak` flag saying whether a `break` is
 * allowed here, and panic-mode recovery. Java's ParseError exception is the
 * `Err` result; every Err has first been reported through `Lox.error`, which
 * here appends to `diagnostics`.
 */
module Parsing {
  import opened Tokens
  import Ast
  import Wrappers

  datatype Result<T> = Ok(value: T) | Err

  /** One report made through Lox.error: the token it is about and the message. */
  datatype Diagnostic = Diagnostic(token: Token, message: Message)

  /** The three clauses of a `for` loop, each of which may be left out. */
  datatype ForClauses = ForClauses(initializer: Wrappers.Option<Ast.Stmt>, condition: Wrappers.Option<Ast.Expr>, increment: Wrappers.Option<Ast.Expr>)

  /**
   * The messages the parser reports, by name; Text gives the wording of each. The
   * kind of a function declaration ("function") is part of three of them.
   */
  datatype Message =
    | ExpectVariableName | ExpectSemicolonAfterVariable
    | ExpectKindName(kind: string) | ExpectParenAfterKindName(kind: string) | TooManyParameters
    | ExpectParameterName | ExpectParenAfterParameters | ExpectBraceBeforeKindBody(kind: string)
    | BreakOutsideLoop | ExpectParenAfterWhile | ExpectParenAfterCondition
    | ExpectParenAfterIf | ExpectParenAfterIfCondition | ExpectParenAfterFor
    | ExpectSemicolonAfterLoopCondition | ExpectParenAfterForClauses | ExpectBraceAfterBlock
    | ExpectSemicolonAfterValue | InvalidTarget | TooManyArguments | ExpectParenAfterArguments
    | ExpectParenAfterExpression | ExpectExpression

  /** The text Lox.error receives. Two are as the parser spells them: `íf` and a lower-case `expect`. */
  function Text(m: Message): string {
    match m
    case ExpectVariableName => "Expect variable name."
    case ExpectSemicolonAfterVariable => "Expect ';' after variable declaration."
    case ExpectKindName(kind) => "Expect " + kind + " name."
    case ExpectParenAfterKindName(kind) => "Expect '(' after " + kind + " name."
    case TooManyParameters => "Can't have more than 255 parameters."
    case ExpectParameterName => "Expect parameter name."
    case ExpectParenAfterParameters => "Expect ')' after parameters."
    case ExpectBraceBeforeKindBody(kind) => "Expect '{' before " + kind + " body."
    case BreakOutsideLoop => "Break must be inside a 'for' or 'while' loop body."
    case ExpectParenAfterWhile => "Expect '(' after 'while'."
    case ExpectParenAfterCondition => "Expect ')' after condition."
    case ExpectParenAfterIf => "Expect '(' after 'íf'."
    case ExpectParenAfterIfCondition => "Expect ')' after if condition."
    case ExpectParenAfterFor => "expect '(' after 'for'."
    case ExpectSemicolonAfterLoopCondition => "Expect ';' after loop condition."
    case ExpectParenAfterForClauses => "Expect ')' after for clauses."
    case ExpectBraceAfterBlock => "Expect '}' after block."
    case ExpectSemicolonAfterValue => "Expect ';' after value."
    case InvalidTarget => "Invalid assignment target."
    case TooManyArguments => "Can't have more than 255 arguments."
    case ExpectParenAfterArguments => "Expect ')' after arguments."
    case ExpectParenAfterExpression => "Expect ')' after expression."
    case ExpectExpression => "Expect expression."
  }

  /** The token kinds at which synchronize stops, because they start a statement. */
  const StatementStarters: set<TokenType> := {CLASS, FUN, VAR, FOR, IF, WHILE, PRINT, RETURN}

  // ---------------------------------------------------------------------------
  // The expression grammar, as a predicate on trees.

  /** The levels of the expression grammar, loosest first. */
  datatype Level =
    | AssignmentLevel | OrLevel | AndLevel | EqualityLevel | ComparisonLevel
    | TermLevel | FactorLevel | UnaryLevel | CallLevel | PrimaryLevel

  function Rank(l: Level): nat {
    match l
    case AssignmentLevel => 9
    case OrLevel => 8
    case AndLevel => 7
    case EqualityLevel => 6
    case ComparisonLevel => 5
    case TermLevel => 4
    case FactorLevel => 3
    case UnaryLevel => 2
    case CallLevel => 1
    case PrimaryLevel => 0
  }

  /** The operators a binary level joins. */
  function BinaryOperators(l: Level): set<TokenType> {
    match l
    case EqualityLevel => {BANG_EQUAL, EQUAL_EQUAL}
    case ComparisonLevel => {GREATER, GREATER_EQUAL, LESS, LESS_EQUAL}
    case TermLevel => {MINUS, PLUS}
    case FactorLevel => {SLASH, STAR}
    case _ => {}
  }

  /** The next tighter level; primary is the tightest. */
  function Tighter(l: Level): (t: Level)
    ensures l != PrimaryLevel ==> Rank(t) + 1 == Rank(l)
  {
    match l
    case AssignmentLevel => OrLevel
    case OrLevel => AndLevel
    case AndLevel => EqualityLevel
    case EqualityLevel => ComparisonLevel
    case ComparisonLevel => TermLevel
    case TermLevel => FactorLevel
    case FactorLevel => UnaryLevel
    case UnaryLevel => CallLevel
    case CallLevel => PrimaryLevel
    case PrimaryLevel => PrimaryLevel
  }

  /** The binary operators of `l` and of every tighter level. */
  function BinaryOperatorsUpTo(l: Level): set<TokenType>
    decreases Rank(l)
  {
    BinaryOperators(l) + if l == PrimaryLevel then {} else BinaryOperatorsUpTo(Tighter(l))
  }

  /** The binary level an operator belongs to; primary for a token that is not a binary operator. */
  function BinaryLevel(t: TokenType): (l: Level)
    ensures l == PrimaryLevel || t in BinaryOperators(l)
  {
    if t in {BANG_EQUAL, EQUAL_EQUAL} then EqualityLevel
    else if t in {GREATER, GREATER_EQUAL, LESS, LESS_EQUAL} then ComparisonLevel
    else if t in {MINUS, PLUS} then TermLevel
    else if t in {SLASH, STAR} then FactorLevel
    else PrimaryLevel
  }

  /**
   * `e` is a tree the parser can answer from the method of level `l`: every node
   * is of level `l` or tighter. A binary or logical node's left operand is of
   * its own level and its right operand of the next tighter one (the chains
   * grow to the left); assignment and unary recurse on the right; call
   * arguments and parenthesised expressions start again from the loosest level.
   */
  predicate Parsed(e: Ast.Expr, l: Level)
    decreases e
  {
    match e
    case Assign(_, name, value) =>
      l == AssignmentLevel && name.tokenType == IDENTIFIER && Parsed(value, AssignmentLevel)
    case Logical(left, operator, right) =>
      || (operator.tokenType == OR && Rank(OrLevel) <= Rank(l)
          && Parsed(left, OrLevel) && Parsed(right, AndLevel))
      || (operator.tokenType == AND && Rank(AndLevel) <= Rank(l)
          && Parsed(left, AndLevel) && Parsed(right, EqualityLevel))
    case Binary(left, operator, right) =>
      var own := BinaryLevel(operator.tokenType);
      && own != PrimaryLevel && Rank(own) <= Rank(l)
      && Parsed(left, own) && Parsed(right, Tighter(own))
    case Unary(operator, right) =>
      operator.tokenType in {BANG, MINUS} && Rank(UnaryLevel) <= Rank(l) && Parsed(right, UnaryLevel)
    case Call(callee, _, arguments) =>
      Rank(CallLevel) <= Rank(l) && Parsed(callee, CallLevel)
      && forall a :: a in arguments ==> Parsed(a, AssignmentLevel)
    case Literal(_) => true
    case Variable(_, name) => name.tokenType == IDENTIFIER
    case Grouping(inner) => Parsed(inner, AssignmentLevel)
    case Get(_, _) => false
    case Set(_, _, _) => false
    case This(_) => false
  }

  /** A tree of a tighter level is a tree of every looser level. */
  lemma ParsedLoosens(e: Ast.Expr, l: Level, l': Level)
    requires Parsed(e, l) && Rank(l) <= Rank(l')
    ensures Parsed(e, l')
  {
  }

  /** A binary node of a tree at level `l` joins an operator of `l` or of a tighter level. */
  lemma {:induction false} BinaryOperatorWithin(e: Ast.Expr, l: Level)
    requires Parsed(e, l) && e.Binary?
    ensures e.operator.tokenType in BinaryOperatorsUpTo(l)
    decreases Rank(l)
  {
    var own := BinaryLevel(e.operator.tokenType);
    if own != l {
      BinaryOperatorWithin(e, Tighter(l));
    }
  }

  /**
   * Left associativity and precedence: the right operand of a binary node is,
   * unless parenthesised, never a binary node of the same or of a looser level.
   * So `a - b - c` can only be `(a - b) - c`, and `a * b + c` only `(a * b) + c`.
   */
  lemma RightOperandBindsTighter(e: Ast.Expr)
    requires Parsed(e, AssignmentLevel) && e.Binary?
    ensures var own := BinaryLevel(e.operator.tokenType);
      && own != PrimaryLevel
      && Parsed(e.left, own)
      && (e.right.Binary? ==>
            e.right.operator.tokenType in BinaryOperatorsUpTo(Tighter(own))
            && e.right.operator.tokenType !in BinaryOperators(own))
  {
    var own := BinaryLevel(e.operator.tokenType);
    if e.right.Binary? {
      BinaryOperatorWithin(e.right, Tighter(own));
      BinaryOperatorsUpToExcludes(own);
    }
  }

  /** The operators of the levels tighter than `l` are not operators of `l`. */
  lemma BinaryOperatorsUpToExcludes(l: Level)
    ensures BinaryOperators(l) !! BinaryOperatorsUpTo(Tighter(l))
  {
  }

  /** The tokens the method of level `l` looks for after an operand to go on. */
  function OwnContinuations(l: Level): set<TokenType> {
    match l
    case AssignmentLevel => {EQUAL}
    case OrLevel => {OR}
    case AndLevel => {AND}
    case CallLevel => {LEFT_PAREN}
    case _ => BinaryOperators(l)
  }

  /**
   * An expression of level `l` that ends before `ts[i]` cannot be continued by
   * it: the token is none that the methods of `l` and of the tighter levels
   * look for (their operators, the `(` of a call, the `=` of an assignment).
   */
  predicate EndsBefore(ts: seq<Token>, i: int, l: Level)
    decreases Rank(l)
  {
    && 0 <= i < |ts| && ts[i].tokenType !in OwnContinuations(l)
    && (l == PrimaryLevel || EndsBefore(ts, i, Tighter(l)))
  }

  /** A token the tighter level cannot use and level `l` does not look for ends level `l` too. */
  lemma EndsBeforeLoosens(ts: seq<Token>, i: int, l: Level)
    requires l != PrimaryLevel && EndsBefore(ts, i, Tighter(l)) && ts[i].tokenType !in OwnContinuations(l)
    ensures EndsBefore(ts, i, l)
  {
  }

  // ---------------------------------------------------------------------------
  // Statements: where `break` may appear, and the shape of what the parser builds.

  /**
   * Every `break` in `s` is inside a loop body, given whether `s` itself is.
   * Function bodies inherit the flag, as in the parser (it does not reset
   * canBreak when it enters one).
   */
  predicate BreaksInLoops(s: Ast.Stmt, inLoop: bool)
    decreases s
  {
    match s
    case Break => inLoop
    case Block(ss) => forall i :: 0 <= i < |ss| ==> ss[i].Some? ==> BreaksInLoops(ss[i].value, inLoop)
    case Function(decl) =>
      forall i :: 0 <= i < |decl.body| ==> decl.body[i].Some? ==> BreaksInLoops(decl.body[i].value, inLoop)
    case Class(_, methods) =>
      forall k, i :: 0 <= k < |methods| && 0 <= i < |methods[k].body| ==>
        methods[k].body[i].Some? ==> BreaksInLoops(methods[k].body[i].value, inLoop)
    case If(_, thenBranch, elseBranch) =>
      BreaksInLoops(thenBranch, inLoop) && (elseBranch.Some? ==> BreaksInLoops(elseBranch.value, inLoop))
    case While(_, body) => BreaksInLoops(body, true)
    case _ => true
  }

  /** Inside a loop body every `break` is allowed. */
  lemma {:induction false} BreaksAllowedInLoop(s: Ast.Stmt)
    ensures BreaksInLoops(s, true)
    decreases s
  {
    match s
    case Block(ss) =>
      forall i | 0 <= i < |ss| && ss[i].Some? ensures BreaksInLoops(ss[i].value, true) {
        BreaksAllowedInLoop(ss[i].value);
      }
    case Function(decl) =>
      forall i | 0 <= i < |decl.body| && decl.body[i].Some? ensures BreaksInLoops(decl.body[i].value, true) {
        BreaksAllowedInLoop(decl.body[i].value);
      }
    case Class(_, methods) =>
      forall k, i | 0 <= k < |methods| && 0 <= i < |methods[k].body| && methods[k].body[i].Some?
        ensures BreaksInLoops(methods[k].body[i].value, true)
      {
        assert methods[k] in methods;
        BreaksAllowedInLoop(methods[k].body[i].value);
      }
    case If(_, thenBranch, elseBranch) =>
      BreaksAllowedInLoop(thenBranch);
      if elseBranch.Some? {
        BreaksAllowedInLoop(elseBranch.value);
      }
    case While(_, body) =>
      BreaksAllowedInLoop(body);
    case _ =>
  }

  /**
   * `s` is a statement the parser can produce: every expression in it is a tree
   * of the grammar, every name an identifier. Null entries of statement lists
   * (declarations that failed) are allowed.
   */
  predicate WellFormed(s: Ast.Stmt)
    decreases s
  {
    match s
    case Block(ss) => forall i :: 0 <= i < |ss| ==> ss[i].Some? ==> WellFormed(ss[i].value)
    case Break => true
    case Class(_, _) => false
    case Expression(e) => Parsed(e, AssignmentLevel)
    case Function(decl) =>
      && decl.name.tokenType == IDENTIFIER
      && (forall p :: p in decl.params ==> p.tokenType == IDENTIFIER)
      && (forall i :: 0 <= i < |decl.body| ==> decl.body[i].Some? ==> WellFormed(decl.body[i].value))
    case If(c, thenBranch, elseBranch) =>
      Parsed(c, AssignmentLevel) && WellFormed(thenBranch) && (elseBranch.Some? ==> WellFormed(elseBranch.value))
    case Print(e) => Parsed(e, AssignmentLevel)
    case Return(_, _) => false
    case Var(name, initializer) =>
      name.tokenType == IDENTIFIER && (initializer.Some? ==> Parsed(initializer.value, AssignmentLevel))
    case While(c, body) => Parsed(c, AssignmentLevel) && WellFormed(body)
  }

  /** Every entry of a statement list is present, well formed, and breaks only where allowed. */
  predicate AllParsed(ss: seq<Wrappers.Option<Ast.Stmt>>, inLoop: bool) {
    forall i :: 0 <= i < |ss| ==> ss[i].Some? && WellFormed(ss[i].value) && BreaksInLoops(ss[i].value, inLoop)
  }

  /** The present entries of a statement list are well formed. */
  predicate ListWellFormed(ss: seq<Wrappers.Option<Ast.Stmt>>) {
    forall i :: 0 <= i < |ss| ==> ss[i].Some? ==> WellFormed(ss[i].value)
  }

  /**
   * The desugaring of `for (initializer; condition; increment) body`: a while
   * loop whose condition defaults to `true` and whose body runs the increment
   * after the original body, in a block with the initializer before it.
   */
  function DesugarFor(initializer: Wrappers.Option<Ast.Stmt>, condition: Wrappers.Option<Ast.Expr>,
                      increment: Wrappers.Option<Ast.Expr>, body: Ast.Stmt): (s: Ast.Stmt)
    ensures initializer.None? ==> s.While?
    ensures initializer.Some? ==>
      s.Block? && |s.statements| == 2 && s.statements[0] == initializer
      && s.statements[1].Some? && s.statements[1].value.While?
    ensures var loop := if initializer.Some? then s.statements[1].value else s;
      && loop.While?
      && (condition.Some? ==> loop.condition == condition.value)
      && (condition.None? ==> loop.condition == Ast.Literal(BoolValue(true)))
      && (increment.None? ==> loop.body == body)
      && (increment.Some? ==> loop.body == Ast.Block([Wrappers.Some(body), Wrappers.Some(Ast.Expression(increment.value))]))
  {
    var body1 := if increment.Some? then Ast.Block([Wrappers.Some(body), Wrappers.Some(Ast.Expression(increment.value))]) else body;
    var condition1 := if condition.Some? then condition.value else Ast.Literal(BoolValue(true));
    var loop := Ast.While(condition1, body1);
    if initializer.Some? then Ast.Block([initializer, Wrappers.Some(loop)]) else loop
  }

  /**
   * What the desugaring keeps: a well-formed for loop gives a well-formed
   * statement, and the body's breaks end up inside the while loop.
   */
  lemma DesugarForWellFormed(initializer: Wrappers.Option<Ast.Stmt>, condition: Wrappers.Option<Ast.Expr>,
                             increment: Wrappers.Option<Ast.Expr>, body: Ast.Stmt, inLoop: bool)
    requires initializer.Some? ==> WellFormed(initializer.value) && BreaksInLoops(initializer.value, inLoop)
    requires condition.Some? ==> Parsed(condition.value, AssignmentLevel)
    requires increment.Some? ==> Parsed(increment.value, AssignmentLevel)
    requires WellFormed(body)
    ensures WellFormed(DesugarFor(initializer, condition, increment, body))
    ensures BreaksInLoops(DesugarFor(initializer, condition, increment, body), inLoop)
  {
    var always := Ast.Literal(BoolValue(true));
    ParsedLoosens(always, PrimaryLevel, AssignmentLevel);
    var body1 := if increment.Some? then Ast.Block([Wrappers.Some(body), Wrappers.Some(Ast.Expression(increment.value))]) else body;
    assert WellFormed(body1);
    BreaksAllowedInLoop(body1);
    var loop := Ast.While(if condition.Some? then condition.value else always, body1);
    assert WellFormed(loop) && BreaksInLoops(loop, inLoop);
    if initializer.Some? {
      var statements := [initializer, Wrappers.Some(loop)];
      assert DesugarFor(initializer, condition, increment, body) == Ast.Block(statements);
      assert forall i :: 0 <= i < 2 ==> statements[i].Some? && WellFormed(statements[i].value);
      assert forall i :: 0 <= i < 2 ==> BreaksInLoops(statements[i].value, inLoop);
    } else {
      assert DesugarFor(initializer, condition, increment, body) == loop;
    }
  }

  /** Synchronize does not stop with the cursor at `p`: not EOF, not just after `;`, not before a statement keyword. */
  predicate NotABoundary(ts: seq<Token>, p: int)
    requires 0 < p < |ts|
  {
    ts[p].tokenType != EOF && ts[p - 1].tokenType != SEMICOLON && ts[p].tokenType !in StatementStarters
  }

  // ---------------------------------------------------------------------------
  // Which tokens a tree was parsed from.

  /** A literal node holds the value its token stands for. */
  predicate LiteralOf(t: Token, v: LiteralValue) {
    || (t.tokenType == FALSE && v == BoolValue(false))
    || (t.tokenType == TRUE && v == BoolValue(true))
    || (t.tokenType == NIL && v == NilValue)
    || (t.tokenType in {NUMBER, STRING} && v == t.literal)
  }

  /** The level of a logical operator: `or` is looser than `and`. */
  function LogicalLevel(t: TokenType): Level {
    if t == OR then OrLevel else AndLevel
  }

  /**
   * `e` is what the method of level `l` builds from exactly `ts[lo..hi]`: the
   * tree is a derivation of those tokens in the grammar. Reading its leaves,
   * operators and brackets from left to right gives the tokens; operator and
   * name tokens are the tree's own, a literal holds its token's value, a
   * variable's id is the position of its name and an assignment's id the
   * position of its `=`. Levels follow Parsed: chains of binary operators grow
   * to the left, and brackets and arguments start again from assignment.
   */
  ghost predicate Derives(e: Ast.Expr, l: Level, ts: seq<Token>, lo: int, hi: int)
    decreases e, 1
  {
    0 <= lo < hi <= |ts| && NodeDerives(e, l, ts, lo, hi)
  }

  /** The root of `e` and its operands' places in `ts[lo..hi]`, as Derives describes them. */
  ghost predicate NodeDerives(e: Ast.Expr, l: Level, ts: seq<Token>, lo: int, hi: int)
    requires 0 <= lo < hi <= |ts|
    decreases e, 0
  {
    match e
    case Assign(id, name, value) =>
      && l == AssignmentLevel && name.tokenType == IDENTIFIER && ts[lo] == name
      && id == lo + 1 && lo + 1 < hi && ts[lo + 1].tokenType == EQUAL
      && Derives(value, AssignmentLevel, ts, lo + 2, hi)
    case Logical(left, operator, right) =>
      var own := LogicalLevel(operator.tokenType);
      && operator.tokenType in {OR, AND} && Rank(own) <= Rank(l)
      && exists m :: Derives(left, own, ts, lo, m) && m < hi && ts[m] == operator && Derives(right, Tighter(own), ts, m + 1, hi)
    case Binary(left, operator, right) =>
      var own := BinaryLevel(operator.tokenType);
      && own != PrimaryLevel && Rank(own) <= Rank(l)
      && exists m :: Derives(left, own, ts, lo, m) && m < hi && ts[m] == operator && Derives(right, Tighter(own), ts, m + 1, hi)
    case Unary(operator, right) =>
      && operator.tokenType in {BANG, MINUS} && Rank(UnaryLevel) <= Rank(l)
      && ts[lo] == operator && Derives(right, UnaryLevel, ts, lo + 1, hi)
    case Call(callee, paren, arguments) =>
      && Rank(CallLevel) <= Rank(l)
      && exists m ::
           && Derives(callee, CallLevel, ts, lo, m) && m < hi && ts[m].tokenType == LEFT_PAREN
           && ArgumentsDerive(arguments, ts, m + 1, hi - 1) && ts[hi - 1] == paren
    case Literal(v) => hi == lo + 1 && LiteralOf(ts[lo], v)
    case Variable(id, name) => hi == lo + 1 && id == lo && ts[lo] == name && name.tokenType == IDENTIFIER
    case Grouping(inner) =>
      ts[lo].tokenType == LEFT_PAREN && Derives(inner, AssignmentLevel, ts, lo + 1, hi - 1) && ts[hi - 1].tokenType == RIGHT_PAREN
    case Get(_, _) => false
    case Set(_, _, _) => false
    case This(_) => false
  }

  /** The arguments are written by `ts[lo..hi]`, one after another with a `,` between each two. */
  ghost predicate ArgumentsDerive(arguments: seq<Ast.Expr>, ts: seq<Token>, lo: int, hi: int)
    decreases arguments, 1
  {
    0 <= lo <= hi <= |ts| && NodeArgumentsDerive(arguments, ts, lo, hi)
  }

  /** The last argument and the list before it, as ArgumentsDerive describes them. */
  ghost predicate NodeArgumentsDerive(arguments: seq<Ast.Expr>, ts: seq<Token>, lo: int, hi: int)
    requires 0 <= lo <= hi <= |ts|
    decreases arguments, 0
  {
    && (|arguments| == 0 ==> lo == hi)
    && (|arguments| == 1 ==> Derives(arguments[0], AssignmentLevel, ts, lo, hi))
    && (|arguments| > 1 ==>
          exists m ::
            && ArgumentsDerive(arguments[..|arguments| - 1], ts, lo, m) && lo < m < hi
            && ts[m].tokenType == COMMA && Derives(arguments[|arguments| - 1], AssignmentLevel, ts, m + 1, hi))
  }

  /** A derivation is a tree of the grammar at its level. */
  lemma {:induction false} DerivesParsed(e: Ast.Expr, l: Level, ts: seq<Token>, lo: int, hi: int)
    requires Derives(e, l, ts, lo, hi)
    ensures Parsed(e, l)
    decreases e, 1
  {
    assert NodeDerives(e, l, ts, lo, hi);
    match e
    case Assign(_, _, value) =>
      DerivesParsed(value, AssignmentLevel, ts, lo + 2, hi);
    case Logical(left, operator, right) =>
      OperandsParsed(e, LogicalLevel(operator.tokenType), ts, lo, hi);
    case Binary(left, operator, right) =>
      OperandsParsed(e, BinaryLevel(operator.tokenType), ts, lo, hi);
    case Unary(_, right) =>
      DerivesParsed(right, UnaryLevel, ts, lo + 1, hi);
    case Call(callee, paren, arguments) =>
      var m :| && Derives(callee, CallLevel, ts, lo, m) && m < hi && ts[m].tokenType == LEFT_PAREN
               && ArgumentsDerive(arguments, ts, m + 1, hi - 1) && ts[hi - 1] == paren;
      DerivesParsed(callee, CallLevel, ts, lo, m);
      ArgumentsParsed(arguments, ts, m + 1, hi - 1);
    case Grouping(inner) =>
      DerivesParsed(inner, AssignmentLevel, ts, lo + 1, hi - 1);
    case Literal(_) =>
    case Variable(_, _) =>
  }

  /** The operands of a derived binary or logical node are trees of their levels. */
  lemma {:induction false} OperandsParsed(e: Ast.Expr, own: Level, ts: seq<Token>, lo: int, hi: int)
    requires e.Binary? || e.Logical?
    requires 0 <= lo < hi <= |ts|
    requires exists m :: Derives(e.left, own, ts, lo, m) && m < hi && ts[m] == e.operator && Derives(e.right, Tighter(own), ts, m + 1, hi)
    ensures Parsed(e.left, own) && Parsed(e.right, Tighter(own))
    decreases e, 0
  {
    var m :| Derives(e.left, own, ts, lo, m) && m < hi && ts[m] == e.operator && Derives(e.right, Tighter(own), ts, m + 1, hi);
    DerivesParsed(e.left, own, ts, lo, m);
    DerivesParsed(e.right, Tighter(own), ts, m + 1, hi);
  }

  /** Every argument of a written argument list is a tree of the grammar. */
  lemma {:induction false} ArgumentsParsed(arguments: seq<Ast.Expr>, ts: seq<Token>, lo: int, hi: int)
    requires ArgumentsDerive(arguments, ts, lo, hi)
    ensures forall a :: a in arguments ==> Parsed(a, AssignmentLevel)
    decreases arguments
  {
    if |arguments| == 1 {
      DerivesParsed(arguments[0], AssignmentLevel, ts, lo, hi);
    } else if |arguments| > 1 {
      var n := |arguments| - 1;
      var m :| && ArgumentsDerive(arguments[..n], ts, lo, m) && lo < m < hi
               && ts[m].tokenType == COMMA && Derives(arguments[n], AssignmentLevel, ts, m + 1, hi);
      ArgumentsParsed(arguments[..n], ts, lo, m);
      DerivesParsed(arguments[n], AssignmentLevel, ts, m + 1, hi);
      assert arguments == arguments[..n] + [arguments[n]];
    }
  }

  /** A derivation at one level is one at every looser level (only assignment is confined to its own). */
  lemma DerivesLoosens(e: Ast.Expr, l: Level, l': Level, ts: seq<Token>, lo: int, hi: int)
    requires Derives(e, l, ts, lo, hi) && Rank(l) <= Rank(l')
    ensures Derives(e, l', ts, lo, hi)
  {
  }

  /** Two operands with a binary operator between them derive the binary node at the operator's level. */
  lemma JoinBinary(left: Ast.Expr, operator: Token, right: Ast.Expr, ts: seq<Token>, lo: int, m: int, hi: int)
    requires BinaryLevel(operator.tokenType) != PrimaryLevel
    requires Derives(left, BinaryLevel(operator.tokenType), ts, lo, m) && 0 <= m < |ts| && ts[m] == operator
    requires Derives(right, Tighter(BinaryLevel(operator.tokenType)), ts, m + 1, hi)
    ensures Derives(Ast.Binary(left, operator, right), BinaryLevel(operator.tokenType), ts, lo, hi)
  {
  }

  /** Two operands with `or` or `and` between them derive the logical node at the operator's level. */
  lemma JoinLogical(left: Ast.Expr, operator: Token, right: Ast.Expr, ts: seq<Token>, lo: int, m: int, hi: int)
    requires operator.tokenType in {OR, AND}
    requires Derives(left, LogicalLevel(operator.tokenType), ts, lo, m) && 0 <= m < |ts| && ts[m] == operator
    requires Derives(right, Tighter(LogicalLevel(operator.tokenType)), ts, m + 1, hi)
    ensures Derives(Ast.Logical(left, operator, right), LogicalLevel(operator.tokenType), ts, lo, hi)
  {
  }

  /** A callee, `(`, the arguments and the closing paren derive the call node. */
  lemma JoinCall(callee: Ast.Expr, paren: Token, arguments: seq<Ast.Expr>, ts: seq<Token>, lo: int, m: int, hi: int)
    requires Derives(callee, CallLevel, ts, lo, m) && 0 <= m < |ts| && ts[m].tokenType == LEFT_PAREN
    requires ArgumentsDerive(arguments, ts, m + 1, hi - 1) && hi - 1 < |ts| && ts[hi - 1] == paren
    ensures Derives(Ast.Call(callee, paren, arguments), CallLevel, ts, lo, hi)
  {
  }

  /** A literal or a name is derived from its one token. */
  lemma LeafDerives(e: Ast.Expr, ts: seq<Token>, lo: int)
    requires 0 <= lo < |ts|
    requires || (e.Literal? && LiteralOf(ts[lo], e.literal))
             || (e.Variable? && e.id == lo && ts[lo] == e.name && e.name.tokenType == IDENTIFIER)
    ensures Derives(e, PrimaryLevel, ts, lo, lo + 1)
  {
  }

  /** One more argument after a `,` extends the written argument list. */
  lemma ExtendArguments(arguments: seq<Ast.Expr>, argument: Ast.Expr, ts: seq<Token>, lo: int, end: int, hi: int)
    requires ArgumentsDerive(arguments, ts, lo, end)
    requires |arguments| > 0 ==> end < |ts| && ts[end].tokenType == COMMA
    requires Derives(argument, AssignmentLevel, ts, if |arguments| == 0 then end else end + 1, hi)
    ensures ArgumentsDerive(arguments + [argument], ts, lo, hi)
  {
    assert (arguments + [argument])[..|arguments|] == arguments;
    assert NodeArgumentsDerive(arguments, ts, lo, end);
  }
  /** `e` and then `;` are exactly `ts[lo..hi]`: an expression statement, or what follows `print`. */
  ghost predicate SemicolonTerminated(e: Ast.Expr, ts: seq<Token>, lo: int, hi: int) {
    0 <= lo && lo + 1 < hi <= |ts| && Derives(e, AssignmentLevel, ts, lo, hi - 1) && ts[hi - 1].tokenType == SEMICOLON
  }

  /** The tokens after `var`: the name, then `;`, or `=`, the initializer and `;`. */
  ghost predicate VarTail(name: Token, initializer: Wrappers.Option<Ast.Expr>, ts: seq<Token>, lo: int, hi: int) {
    && 0 <= lo && lo + 1 < hi <= |ts| && ts[lo] == name && name.tokenType == IDENTIFIER
    && (initializer.None? ==> hi == lo + 2 && ts[lo + 1].tokenType == SEMICOLON)
    && (initializer.Some? ==> ts[lo + 1].tokenType == EQUAL && SemicolonTerminated(initializer.value, ts, lo + 2, hi))
  }

  /** The parameter names are `ts[lo..hi]`, with a `,` between each two. */
  ghost predicate ParamsDerive(params: seq<Token>, ts: seq<Token>, lo: int, hi: int) {
    && 0 <= lo <= hi <= |ts|
    && hi == (if |params| == 0 then lo else lo + 2 * |params| - 1)
    && forall i :: 0 <= i < |params| ==>
         ts[lo + 2 * i] == params[i] && params[i].tokenType == IDENTIFIER && (i > 0 ==> ts[lo + 2 * i - 1].tokenType == COMMA)
  }

  /** The initializer clause of a for loop: `;` alone, or a variable declaration or an expression statement. */
  ghost predicate InitializerDerives(initializer: Wrappers.Option<Ast.Stmt>, ts: seq<Token>, lo: int, hi: int) {
    && 0 <= lo < hi <= |ts|
    && (initializer.None? ==> hi == lo + 1 && ts[lo].tokenType == SEMICOLON)
    && (initializer.Some? ==>
          || (initializer.value.Var? && ts[lo].tokenType == VAR
              && VarTail(initializer.value.name, initializer.value.initializer, ts, lo + 1, hi))
          || (initializer.value.Expression? && SemicolonTerminated(initializer.value.expression, ts, lo, hi)))
  }

  /** The condition or increment clause of a for loop: an expression if there is one, then the closing token. */
  ghost predicate ClauseDerives(clause: Wrappers.Option<Ast.Expr>, closing: TokenType, ts: seq<Token>, lo: int, hi: int) {
    && 0 <= lo < hi <= |ts| && ts[hi - 1].tokenType == closing
    && (clause.None? ==> hi == lo + 1)
    && (clause.Some? ==> Derives(clause.value, AssignmentLevel, ts, lo, hi - 1))
  }

  /**
   * `s` is what a declaration or statement method builds from exactly `ts[lo..hi]`,
   * keyword included. A `for` loop is derived as its desugaring (ForTail); every
   * other statement node follows its own tokens (NodeStmtDerives).
   */
  ghost predicate StmtDerives(s: Ast.Stmt, ts: seq<Token>, lo: int, hi: int)
    decreases hi - lo, 1
  {
    && 0 <= lo < hi <= |ts|
    && (NodeStmtDerives(s, ts, lo, hi) || (ts[lo].tokenType == FOR && ForTail(s, ts, lo + 1, hi)))
  }

  /** The keyword of `s` at `ts[lo]` and the tokens after it, as StmtDerives describes them. */
  ghost predicate NodeStmtDerives(s: Ast.Stmt, ts: seq<Token>, lo: int, hi: int)
    requires 0 <= lo < hi <= |ts|
    decreases hi - lo, 0
  {
    match s
    case Block(statements) => ts[lo].tokenType == LEFT_BRACE && BlockTail(statements, ts, lo + 1, hi)
    case Break => ts[lo].tokenType == BREAK && hi == lo + 2 && ts[lo + 1].tokenType == SEMICOLON
    case Class(_, _) => false
    case Expression(e) => SemicolonTerminated(e, ts, lo, hi)
    case Function(decl) => ts[lo].tokenType == FUN && FunctionTail(decl, ts, lo + 1, hi)
    case If(c, thenBranch, elseBranch) => ts[lo].tokenType == IF && IfTail(c, thenBranch, elseBranch, ts, lo + 1, hi)
    case Print(e) => ts[lo].tokenType == PRINT && SemicolonTerminated(e, ts, lo + 1, hi)
    case Return(_, _) => false
    case Var(name, initializer) => ts[lo].tokenType == VAR && VarTail(name, initializer, ts, lo + 1, hi)
    case While(c, body) => ts[lo].tokenType == WHILE && WhileTail(c, body, ts, lo + 1, hi)
  }

  /** The tokens after `{`: the declarations of the block and then `}`. */
  ghost predicate BlockTail(statements: seq<Wrappers.Option<Ast.Stmt>>, ts: seq<Token>, lo: int, hi: int)
    decreases hi - lo, 4
  {
    0 <= lo < hi <= |ts| && ListDerives(statements, ts, lo, hi - 1) && ts[hi - 1].tokenType == RIGHT_BRACE
  }

  /**
   * The declarations of a list fill `ts[lo..hi]`, one after another. A null entry
   * (a declaration that failed and was skipped by synchronize) covers a nonempty
   * stretch of tokens, whatever they are.
   */
  ghost predicate ListDerives(statements: seq<Wrappers.Option<Ast.Stmt>>, ts: seq<Token>, lo: int, hi: int)
    decreases hi - lo, 3
  {
    0 <= lo <= hi <= |ts| && NodeListDerives(statements, ts, lo, hi)
  }

  /** The last entry of a list and the entries before it, as ListDerives describes them. */
  ghost predicate NodeListDerives(statements: seq<Wrappers.Option<Ast.Stmt>>, ts: seq<Token>, lo: int, hi: int)
    requires 0 <= lo <= hi <= |ts|
    decreases hi - lo, 2
  {
    if |statements| == 0 then lo == hi
    else
      var last := |statements| - 1;
      exists m ::
        && lo <= m < hi && ListDerives(statements[..last], ts, lo, m)
        && (statements[last].Some? ==> StmtDerives(statements[last].value, ts, m, hi))
  }

  /** The tokens after `fun`: the name, `(`, the parameters, `)`, `{` and the body's block tail. */
  ghost predicate FunctionTail(decl: Ast.FunctionDecl, ts: seq<Token>, lo: int, hi: int)
    decreases hi - lo, 4
  {
    && 0 <= lo && lo + 1 < hi <= |ts|
    && ts[lo] == decl.name && decl.name.tokenType == IDENTIFIER && ts[lo + 1].tokenType == LEFT_PAREN
    && exists m ::
         && ParamsDerive(decl.params, ts, lo + 2, m) && m + 1 < hi
         && ts[m].tokenType == RIGHT_PAREN && ts[m + 1].tokenType == LEFT_BRACE
         && BlockTail(decl.body, ts, m + 2, hi)
  }

  /**
   * `s` is an `if` statement without an `else` of its own, directly or at the
   * end of its `else` branch: an `else` that came next would belong to it.
   */
  predicate OpenIf(s: Ast.Stmt) {
    s.If? && (s.elseBranch.None? || OpenIf(s.elseBranch.value))
  }

  /** The tokens after `if`: `(`, the condition, `)`, the then-branch, and `else` and the else-branch if there is one. */
  ghost predicate IfTail(c: Ast.Expr, thenBranch: Ast.Stmt, elseBranch: Wrappers.Option<Ast.Stmt>, ts: seq<Token>, lo: int, hi: int)
    decreases hi - lo, 4
  {
    && 0 <= lo < hi <= |ts| && ts[lo].tokenType == LEFT_PAREN
    && exists m ::
         && Derives(c, AssignmentLevel, ts, lo + 1, m) && m < hi && ts[m].tokenType == RIGHT_PAREN
         && (elseBranch.None? ==> StmtDerives(thenBranch, ts, m + 1, hi))
         && (elseBranch.Some? ==>
               exists n ::
                 && n < hi && StmtDerives(thenBranch, ts, m + 1, n) && ts[n].tokenType == ELSE
                 && StmtDerives(elseBranch.value, ts, n + 1, hi))
  }

  /** The tokens after `while`: `(`, the condition, `)` and the body. */
  ghost predicate WhileTail(c: Ast.Expr, body: Ast.Stmt, ts: seq<Token>, lo: int, hi: int)
    decreases hi - lo, 4
  {
    && 0 <= lo < hi <= |ts| && ts[lo].tokenType == LEFT_PAREN
    && exists m ::
         && Derives(c, AssignmentLevel, ts, lo + 1, m) && m < hi && ts[m].tokenType == RIGHT_PAREN
         && StmtDerives(body, ts, m + 1, hi)
  }

  /** The tokens after `for`: `(`, the three clauses and the body, of which `s` is the desugaring. */
  ghost predicate ForTail(s: Ast.Stmt, ts: seq<Token>, lo: int, hi: int)
    decreases hi - lo, 4
  {
    && 0 <= lo < hi <= |ts| && ts[lo].tokenType == LEFT_PAREN
    && exists initializer, condition, increment, body, a, b, c ::
         && s == DesugarFor(initializer, condition, increment, body)
         && InitializerDerives(initializer, ts, lo + 1, a)
         && ClauseDerives(condition, SEMICOLON, ts, a, b)
         && ClauseDerives(increment, RIGHT_PAREN, ts, b, c)
         && c < hi && StmtDerives(body, ts, c, hi)
  }

  /** A declaration after the list's entries extends the list; a null one covers whatever tokens it skipped. */
  lemma ExtendList(statements: seq<Wrappers.Option<Ast.Stmt>>, s: Wrappers.Option<Ast.Stmt>, ts: seq<Token>, lo: int, m: int, hi: int)
    requires ListDerives(statements, ts, lo, m) && m < hi <= |ts|
    requires s.Some? ==> StmtDerives(s.value, ts, m, hi)
    ensures ListDerives(statements + [s], ts, lo, hi)
  {
    assert (statements + [s])[..|statements|] == statements;
  }

  /** A for loop's clauses and body derive its desugaring. */
  lemma JoinFor(initializer: Wrappers.Option<Ast.Stmt>, condition: Wrappers.Option<Ast.Expr>, increment: Wrappers.Option<Ast.Expr>,
                body: Ast.Stmt, ts: seq<Token>, lo: int, a: int, b: int, c: int, hi: int)
    requires 0 <= lo < |ts| && ts[lo].tokenType == LEFT_PAREN
    requires InitializerDerives(initializer, ts, lo + 1, a)
    requires ClauseDerives(condition, SEMICOLON, ts, a, b)
    requires ClauseDerives(increment, RIGHT_PAREN, ts, b, c)
    requires StmtDerives(body, ts, c, hi)
    ensures ForTail(DesugarFor(initializer, condition, increment, body), ts, lo, hi)
  {
  }

  /** A function's name, its parameter list and its block derive the declaration. */
  lemma JoinFunction(decl: Ast.FunctionDecl, ts: seq<Token>, lo: int, m: int, hi: int)
    requires 0 <= lo && lo + 1 < |ts| && ts[lo] == decl.name && decl.name.tokenType == IDENTIFIER
    requires ts[lo + 1].tokenType == LEFT_PAREN
    requires ParamsDerive(decl.params, ts, lo + 2, m) && m + 1 < |ts|
    requires ts[m].tokenType == RIGHT_PAREN && ts[m + 1].tokenType == LEFT_BRACE
    requires BlockTail(decl.body, ts, m + 2, hi)
    ensures FunctionTail(decl, ts, lo, hi)
  {
  }



  /** A lone number token derives its literal and nothing else, at every level. */
  lemma NumberDerives(e: Ast.Expr, l: Level, ts: seq<Token>, i: int)
    requires 0 <= i < |ts| && ts[i].tokenType == NUMBER
    ensures Derives(e, l, ts, i, i + 1) <==> e == Ast.Literal(ts[i].literal)
  {
    if Derives(e, l, ts, i, i + 1) {
      assert NodeDerives(e, l, ts, i, i + 1);
    }
  }

  /** `n - n` is not a factor: a `-` can only join terms. */
  lemma NoFactorAcrossMinus(e: Ast.Expr, ts: seq<Token>, i: int)
    requires 0 <= i && i + 3 <= |ts|
    requires ts[i].tokenType == NUMBER && ts[i + 1].tokenType == MINUS && ts[i + 2].tokenType == NUMBER
    ensures !Derives(e, FactorLevel, ts, i, i + 3)
  {
    if Derives(e, FactorLevel, ts, i, i + 3) {
      assert NodeDerives(e, FactorLevel, ts, i, i + 3);
    }
  }

  /**
   * Subtraction groups to the left: the only term `n1 - n2 - n3` derives is
   * `(n1 - n2) - n3` (TermParsesMinusChain applies this to the term method).
   */
  lemma {:induction false} MinusGroupsLeft(e: Ast.Expr, ts: seq<Token>)
    requires |ts| >= 5
    requires ts[0].tokenType == NUMBER && ts[2].tokenType == NUMBER && ts[4].tokenType == NUMBER
    requires ts[1].tokenType == MINUS && ts[3].tokenType == MINUS
    ensures Derives(e, TermLevel, ts, 0, 5) <==>
      e == Ast.Binary(Ast.Binary(Ast.Literal(ts[0].literal), ts[1], Ast.Literal(ts[2].literal)), ts[3], Ast.Literal(ts[4].literal))
  {
    if Derives(e, TermLevel, ts, 0, 5) {
      assert NodeDerives(e, TermLevel, ts, 0, 5);
      match e
      case Binary(left, operator, right) =>
        var m :| Derives(left, TermLevel, ts, 0, m) && m < 5 && ts[m] == operator && Derives(right, FactorLevel, ts, m + 1, 5);
        if m == 1 {
          NoFactorAcrossMinus(right, ts, 2);
        } else {
          assert m == 3;
          NumberDerives(right, FactorLevel, ts, 4);
          TermOverMinus(left, ts);
        }
      case Call(callee, _, _) =>
        var m :| Derives(callee, CallLevel, ts, 0, m) && m < 5 && ts[m].tokenType == LEFT_PAREN;
        assert false;
      case _ =>
    }
    LeftGroupedMinusDerives(ts);
  }

  /** `(n1 - n2) - n3` derives `n1 - n2 - n3` at the term level. */
  lemma LeftGroupedMinusDerives(ts: seq<Token>)
    requires |ts| >= 5
    requires ts[0].tokenType == NUMBER && ts[2].tokenType == NUMBER && ts[4].tokenType == NUMBER
    requires ts[1].tokenType == MINUS && ts[3].tokenType == MINUS
    ensures Derives(Ast.Binary(Ast.Binary(Ast.Literal(ts[0].literal), ts[1], Ast.Literal(ts[2].literal)), ts[3], Ast.Literal(ts[4].literal)),
                    TermLevel, ts, 0, 5)
  {
    var inner := Ast.Binary(Ast.Literal(ts[0].literal), ts[1], Ast.Literal(ts[2].literal));
    NumberDerives(Ast.Literal(ts[0].literal), TermLevel, ts, 0);
    NumberDerives(Ast.Literal(ts[2].literal), FactorLevel, ts, 2);
    NumberDerives(Ast.Literal(ts[4].literal), FactorLevel, ts, 4);
    assert Derives(inner, TermLevel, ts, 0, 3);
  }

  /** The term `n1 - n2` over the first three tokens is the one subtraction. */
  lemma TermOverMinus(e: Ast.Expr, ts: seq<Token>)
    requires |ts| >= 3 && ts[0].tokenType == NUMBER && ts[1].tokenType == MINUS && ts[2].tokenType == NUMBER
    requires Derives(e, TermLevel, ts, 0, 3)
    ensures e == Ast.Binary(Ast.Literal(ts[0].literal), ts[1], Ast.Literal(ts[2].literal))
  {
    assert NodeDerives(e, TermLevel, ts, 0, 3);
    match e
    case Binary(left, operator, right) =>
      var m :| Derives(left, TermLevel, ts, 0, m) && m < 3 && ts[m] == operator && Derives(right, FactorLevel, ts, m + 1, 3);
      NumberDerives(left, TermLevel, ts, 0);
      NumberDerives(right, FactorLevel, ts, 2);
    case _ =>
  }

  /** A factor cannot end with the `-` that follows a number. */
  lemma NoFactorEndsAtMinus(e: Ast.Expr, ts: seq<Token>, i: int)
    requires 0 <= i && i + 2 <= |ts| && ts[i].tokenType == NUMBER && ts[i + 1].tokenType == MINUS
    ensures !Derives(e, FactorLevel, ts, i, i + 2)
  {
    if Derives(e, FactorLevel, ts, i, i + 2) {
      assert NodeDerives(e, FactorLevel, ts, i, i + 2);
    }
  }

  /** Neither `n1 -` nor `n1 - n2 -` is a term: a term never stops on a `-`. */
  lemma NoTermEndsAtMinus(e: Ast.Expr, ts: seq<Token>, hi: int)
    requires |ts| >= 5
    requires ts[0].tokenType == NUMBER && ts[2].tokenType == NUMBER && ts[4].tokenType == NUMBER
    requires ts[1].tokenType == MINUS && ts[3].tokenType == MINUS
    requires hi == 2 || hi == 4
    ensures !Derives(e, TermLevel, ts, 0, hi)
  {
    if Derives(e, TermLevel, ts, 0, hi) {
      assert NodeDerives(e, TermLevel, ts, 0, hi);
      if hi == 4 && e.Binary? {
        NoFactorEndsAtMinus(e.right, ts, 2);
      }
    }
  }

  /**
   * What the term method answers for the tokens `n1 - n2 - n3` and EOF: its
   * contract gives a term derived from the front of the tokens that ends where
   * no term can go on, and the only such term takes all three numbers and is
   * `(n1 - n2) - n3`, as Parser.term's loop builds it.
   */
  lemma TermParsesMinusChain(e: Ast.Expr, ts: seq<Token>, hi: int)
    requires |ts| == 6 && ts[5].tokenType == EOF
    requires ts[0].tokenType == NUMBER && ts[2].tokenType == NUMBER && ts[4].tokenType == NUMBER
    requires ts[1].tokenType == MINUS && ts[3].tokenType == MINUS
    requires Derives(e, TermLevel, ts, 0, hi) && EndsBefore(ts, hi, TermLevel)
    ensures hi == 5
    ensures e == Ast.Binary(Ast.Binary(Ast.Literal(ts[0].literal), ts[1], Ast.Literal(ts[2].literal)), ts[3], Ast.Literal(ts[4].literal))
  {
    if hi == 2 || hi == 4 {
      NoTermEndsAtMinus(e, ts, hi);
    } else if hi == 5 {
      MinusGroupsLeft(e, ts);
    }
  }

  // ---------------------------------------------------------------------------

  class Parser {
    const tokens: seq<Token>
    /** Index of the next token to consume. */
    var current: int
    /** Whether a `break` statement is allowed where the parser stands. */
    var canBreak: bool
    /** What was reported through Lox.error, oldest first. */
    var diagnostics: seq<Diagnostic>

    /** The token list ends with EOF, and the cursor is on a token. */
    ghost predicate Valid()
      reads this
    {
      |tokens| > 0 && tokens[|tokens| - 1].tokenType == EOF && 0 <= current < |tokens|
    }

    constructor (tokens: seq<Token>)
      requires |tokens| > 0 && tokens[|tokens| - 1].tokenType == EOF
      ensures Valid() && this.tokens == tokens
      ensures current == 0 && !canBreak && diagnostics == []
    {
      this.tokens := tokens;
      current := 0;
      canBreak := false;
      diagnostics := [];
    }

    /** peek: the token at the cursor; on the last token it is the EOF that ends the list. */
    function Peek(): (t: Token)
      reads this
      requires Valid()
      ensures current == |tokens| - 1 ==> t.tokenType == EOF
      ensures t in tokens
    {
      tokens[current]
    }

    /** previous: the token just before the cursor, which is never the terminating EOF. */
    function Previous(): (t: Token)
      reads this
      requires Valid() && current > 0
      ensures t in tokens[..|tokens| - 1]
    {
      tokens[current - 1]
    }

    /** isAtEnd: the cursor is on an EOF token, as it always is on the last one. */
    predicate IsAtEnd(): (b: bool)
      reads this
      requires Valid()
      ensures current == |tokens| - 1 ==> b
    {
      Peek().tokenType == EOF
    }

    /** check: the next token has this type; never true at EOF. */
    predicate Check(t: TokenType): (b: bool)
      reads this
      requires Valid()
      ensures b ==> t != EOF && current < |tokens| - 1
      ensures t != EOF ==> (b <==> tokens[current].tokenType == t)
    {
      if IsAtEnd() then false else Peek().tokenType == t
    }

    /**
     * advance: step past the next token unless it is EOF, and answer the token
     * just passed. At EOF the cursor stays, so it never leaves the list.
     */
    method Advance() returns (t: Token)
      requires Valid() && (!IsAtEnd() || current > 0)
      modifies this
      ensures Valid() && canBreak == old(canBreak) && diagnostics == old(diagnostics)
      ensures current == if old(IsAtEnd()) then old(current) else old(current) + 1
      ensures current > 0 && t == Previous()
    {
      if !IsAtEnd() {
        current := current + 1;
      }
      t := Previous();
    }

    /** match: if the next token has one of the types, step past it. */
    method Match(types: seq<TokenType>) returns (matched: bool)
      requires Valid()
      modifies this
      ensures Valid() && canBreak == old(canBreak) && diagnostics == old(diagnostics)
      ensures matched <==> tokens[old(current)].tokenType != EOF && tokens[old(current)].tokenType in types
      ensures current == if matched then old(current) + 1 else old(current)
    {
      var i := 0;
      while i < |types|
        invariant 0 <= i <= |types| && current == old(current)
        invariant forall k :: 0 <= k < i ==> !Check(types[k])
      {
        if Check(types[i]) {
          var t := Advance();
          return true;
        }
        i := i + 1;
      }
      return false;
    }

    /** error: report through Lox.error; the caller decides whether to throw. */
    method Error(token: Token, message: Message)
      modifies this
      ensures diagnostics == old(diagnostics) + [Diagnostic(token, message)]
      ensures current == old(current) && canBreak == old(canBreak)
    {
      diagnostics := diagnostics + [Diagnostic(token, message)];
    }

    /** consume: step past a token of the expected type, or report `message` at the next token and fail. */
    method Consume(t: TokenType, message: Message) returns (r: Result<Token>)
      requires Valid()
      modifies this
      ensures Valid() && canBreak == old(canBreak)
      ensures t != EOF && tokens[old(current)].tokenType == t ==>
        r == Ok(tokens[old(current)]) && current == old(current) + 1 && diagnostics == old(diagnostics)
      ensures !(t != EOF && tokens[old(current)].tokenType == t) ==>
        r == Err && current == old(current) && diagnostics == old(diagnostics) + [Diagnostic(tokens[old(current)], message)]
    {
      if Check(t) {
        var token := Advance();
        return Ok(token);
      }
      Error(Peek(), message);
      return Err;
    }

    /** Where synchronize may stop: at EOF, just after a `;`, or before a statement keyword. */
    predicate AtBoundary()
      reads this
      requires Valid() && current > 0
    {
      IsAtEnd() || Previous().tokenType == SEMICOLON || Peek().tokenType in StatementStarters
    }

    /**
     * synchronize: skip at least one token (unless at EOF), then stop at the first
     * boundary: just after a `;`, before a statement keyword, or at EOF.
     */
    method Synchronize()
      requires Valid() && (!IsAtEnd() || current > 0)
      modifies this
      ensures Valid() && canBreak == old(canBreak) && diagnostics == old(diagnostics)
      ensures old(IsAtEnd()) ==> current == old(current)
      ensures !old(IsAtEnd()) ==> current > old(current)
      ensures current > 0 && AtBoundary()
      ensures forall p :: old(current) < p < current ==> NotABoundary(tokens, p)
    {
      var t := Advance();
      while !IsAtEnd()
        invariant Valid() && current > 0 && canBreak == old(canBreak) && diagnostics == old(diagnostics)
        invariant old(IsAtEnd()) ==> current == old(current)
        invariant !old(IsAtEnd()) ==> current > old(current)
        invariant forall p :: old(current) < p < current ==> NotABoundary(tokens, p)
        decreases |tokens| - current
      {
        if Previous().tokenType == SEMICOLON {
          return;
        }
        if Peek().tokenType in StatementStarters {
          return;
        }
        t := Advance();
      }
    }

    /**
     * parse: declarations until EOF, one list entry per declaration, null (None)
     * for one that failed. When nothing was reported every entry is present and
     * well formed, and `break` appears only inside loops.
     */
    method Parse() returns (statements: seq<Wrappers.Option<Ast.Stmt>>)
      requires Valid()
      modifies this
      ensures Valid() && IsAtEnd() && old(current) <= current && |old(diagnostics)| <= |diagnostics|
      ensures |statements| <= current - old(current)
      ensures ListWellFormed(statements)
      ensures |diagnostics| == |old(diagnostics)| ==> canBreak == old(canBreak) && AllParsed(statements, old(canBreak))
      ensures ListDerives(statements, tokens, old(current), current)
    {
      statements := [];
      while !IsAtEnd()
        invariant Valid() && old(current) <= current && |old(diagnostics)| <= |diagnostics|
        invariant |statements| <= current - old(current)
        invariant ListWellFormed(statements)
        invariant |diagnostics| == |old(diagnostics)| ==> canBreak == old(canBreak) && AllParsed(statements, old(canBreak))
        invariant ListDerives(statements, tokens, old(current), current)
        decreases |tokens| - current
      {
        ghost var start := current;
        var d := Declaration();
        ExtendList(statements, d, tokens, old(current), start, current);
        statements := statements + [d];
      }
    }

    /**
     * declaration: a function or variable declaration or a statement. On a parse
     * error it synchronizes and answers null. It always consumes a token.
     */
    method Declaration() returns (r: Wrappers.Option<Ast.Stmt>)
      requires Valid() && !IsAtEnd()
      modifies this
      ensures Valid() && old(current) < current && |old(diagnostics)| <= |diagnostics|
      ensures r.None? ==> |old(diagnostics)| < |diagnostics| && AtBoundary()
      ensures r.Some? ==> WellFormed(r.value) && StmtDerives(r.value, tokens, old(current), current)
      ensures old(canBreak) ==> canBreak
      ensures |diagnostics| == |old(diagnostics)| ==>
        canBreak == old(canBreak) && r.Some? && BreaksInLoops(r.value, old(canBreak))
      decreases |tokens| - current, 21
    {
      var s: Result<Ast.Stmt>;
      var m := Match([FUN]);
      if m {
        s := FunctionDeclaration("function");
      } else {
        m := Match([VAR]);
        if m {
          s := VarDeclaration();
        } else {
          s := Statement();
        }
      }
      if s.Ok? {
        return Wrappers.Some(s.value);
      }
      assert IsAtEnd() ==> current != old(current);
      Synchronize();
      return Wrappers.None;
    }

    /** varDeclaration: `var` IDENTIFIER ( `=` expression )? `;` */
    method VarDeclaration() returns (r: Result<Ast.Stmt>)
      requires Valid()
      modifies this
      ensures Valid() && old(current) <= current && |old(diagnostics)| <= |diagnostics| && canBreak == old(canBreak)
      ensures r.Ok? ==> old(current) < current && r.value.Var? && WellFormed(r.value)
      ensures r.Ok? ==> VarTail(r.value.name, r.value.initializer, tokens, old(current), current)
      ensures r.Err? ==> |old(diagnostics)| < |diagnostics|
      decreases |tokens| - current, 20
    {
      var name := Consume(IDENTIFIER, ExpectVariableName);
      if name.Err? {
        return Err;
      }
      var initializer := Wrappers.None;
      var m := Match([EQUAL]);
      if m {
        var e := Expression();
        if e.Err? {
          return Err;
        }
        DerivesParsed(e.value, AssignmentLevel, tokens, old(current) + 2, current);
        initializer := Wrappers.Some(e.value);
      }
      var semicolon := Consume(SEMICOLON, ExpectSemicolonAfterVariable);
      if semicolon.Err? {
        return Err;
      }
      return Ok(Ast.Var(name.value, initializer));
    }

    /**
     * function: name, parenthesised parameter names, and a block body. More than
     * 256 parameters is reported without failing (the check runs before each
     * parameter is added, and only once 256 are there).
     */
    method FunctionDeclaration(kind: string) returns (r: Result<Ast.Stmt>)
      requires Valid()
      modifies this
      ensures Valid() && old(current) <= current && |old(diagnostics)| <= |diagnostics|
      ensures r.Ok? ==> old(current) < current && r.value.Function? && WellFormed(r.value)
      ensures r.Ok? ==> FunctionTail(r.value.decl, tokens, old(current), current)
      ensures r.Ok? ==> |diagnostics| - |old(diagnostics)| >= |r.value.decl.params| - 256
      ensures r.Err? ==> |old(diagnostics)| < |diagnostics|
      ensures old(canBreak) ==> canBreak
      ensures |diagnostics| == |old(diagnostics)| ==>
        canBreak == old(canBreak) && (r.Ok? ==> BreaksInLoops(r.value, old(canBreak)))
      decreases |tokens| - current, 20
    {
      var name := Consume(IDENTIFIER, ExpectKindName(kind));
      if name.Err? {
        return Err;
      }
      var leftParen := Consume(LEFT_PAREN, ExpectParenAfterKindName(kind));
      if leftParen.Err? {
        return Err;
      }
      ghost var start := current;
      var parameters := Parameters();
      if parameters.Err? {
        return Err;
      }
      ghost var closing := current;
      var rightParen := Consume(RIGHT_PAREN, ExpectParenAfterParameters);
      if rightParen.Err? {
        return Err;
      }
      var leftBrace := Consume(LEFT_BRACE, ExpectBraceBeforeKindBody(kind));
      if leftBrace.Err? {
        return Err;
      }
      var body := Block();
      if body.Err? {
        return Err;
      }
      var decl := Ast.FunctionDecl(name.value, parameters.value, body.value);
      JoinFunction(decl, tokens, old(current), closing, current);
      return Ok(Ast.Function(decl));
    }

    /**
     * The parameter list of a function declaration, up to but not including its ')':
     * identifiers separated by commas, each past the 255th reported without stopping.
     */
    method Parameters() returns (r: Result<seq<Token>>)
      requires Valid()
      modifies this
      ensures Valid() && old(current) <= current && |old(diagnostics)| <= |diagnostics| && canBreak == old(canBreak)
      ensures r.Ok? ==> ParamsDerive(r.value, tokens, old(current), current)
      ensures r.Ok? ==> |diagnostics| - |old(diagnostics)| >= |r.value| - 256
      ensures r.Err? ==> |old(diagnostics)| < |diagnostics|
    {
      var parameters: seq<Token> := [];
      ghost var start := current;
      if !Check(RIGHT_PAREN) {
        while true
          invariant Valid() && start <= current && |old(diagnostics)| <= |diagnostics| && canBreak == old(canBreak)
          invariant current == if |parameters| == 0 then start else start + 2 * |parameters|
          invariant forall i :: 0 <= i < |parameters| ==>
            tokens[start + 2 * i] == parameters[i] && parameters[i].tokenType == IDENTIFIER
            && (i > 0 ==> tokens[start + 2 * i - 1].tokenType == COMMA)
          invariant |parameters| > 0 ==> tokens[current - 1].tokenType == COMMA
          invariant |diagnostics| - |old(diagnostics)| >= |parameters| - 256
          decreases |tokens| - current
        {
          if |parameters| > 255 {
            Error(Peek(), TooManyParameters);
          }
          var parameter := Consume(IDENTIFIER, ExpectParameterName);
          if parameter.Err? {
            return Err;
          }
          parameters := parameters + [parameter.value];
          var more := Match([COMMA]);
          if !more {
            break;
          }
        }
      }
      return Ok(parameters);
    }

    /**
     * statement: if, break, for, while, print, a block, or an expression
     * statement. Each keyword the source matches is checked and then advanced
     * over, which is what Match does.
     */
    method Statement() returns (r: Result<Ast.Stmt>)
      requires Valid()
      modifies this
      ensures Valid() && old(current) <= current && |old(diagnostics)| <= |diagnostics|
      ensures r.Ok? ==> old(current) < current && WellFormed(r.value) && StmtDerives(r.value, tokens, old(current), current)
      ensures r.Ok? && OpenIf(r.value) ==> tokens[current].tokenType != ELSE
      ensures r.Err? ==> |old(diagnostics)| < |diagnostics|
      ensures old(canBreak) ==> canBreak
      ensures |diagnostics| == |old(diagnostics)| ==>
        canBreak == old(canBreak) && (r.Ok? ==> BreaksInLoops(r.value, old(canBreak)))
      decreases |tokens| - current, 19
    {
      if Check(IF) {
        var keyword := Advance();
        r := IfStatement();
      } else if Check(BREAK) {
        var keyword := Advance();
        r := BreakStatement();
      } else if Check(FOR) {
        var keyword := Advance();
        r := ForStatement();
      } else if Check(WHILE) {
        var keyword := Advance();
        r := WhileStatement();
      } else if Check(PRINT) {
        var keyword := Advance();
        r := PrintStatement();
      } else if Check(LEFT_BRACE) {
        var brace := Advance();
        var statements := Block();
        if statements.Err? {
          return Err;
        }
        r := Ok(Ast.Block(statements.value));
      } else {
        r := ExpressionStatement();
      }
    }

    /** breakStatement: an error unless a loop body encloses it; then `;`. */
    method BreakStatement() returns (r: Result<Ast.Stmt>)
      requires Valid() && current > 0
      modifies this
      ensures Valid() && old(current) <= current && |old(diagnostics)| <= |diagnostics| && canBreak == old(canBreak)
      ensures r.Ok? ==> old(canBreak) && r.value == Ast.Break
      ensures r.Ok? ==> current == old(current) + 1 && tokens[old(current)].tokenType == SEMICOLON
      ensures !old(canBreak) ==>
        r.Err? && diagnostics == old(diagnostics) + [Diagnostic(old(Previous()), BreakOutsideLoop)]
      ensures r.Err? ==> |old(diagnostics)| < |diagnostics|
      decreases |tokens| - current, 18
    {
      if !canBreak {
        Error(Previous(), BreakOutsideLoop);
        return Err;
      }
      var semicolon := Consume(SEMICOLON, ExpectSemicolonAfterVariable);
      if semicolon.Err? {
        return Err;
      }
      return Ok(Ast.Break);
    }

    /**
     * The parenthesised condition after `while` or `if`: `(`, an expression and
     * `)`, a missing parenthesis reported with the statement's own message.
     */
    method Condition(open: Message, close: Message) returns (r: Result<Ast.Expr>)
      requires Valid()
      modifies this
      ensures Valid() && old(current) <= current && |old(diagnostics)| <= |diagnostics| && canBreak == old(canBreak)
      ensures r.Ok? ==> old(current) + 2 < current && tokens[old(current)].tokenType == LEFT_PAREN
      ensures r.Ok? ==> Derives(r.value, AssignmentLevel, tokens, old(current) + 1, current - 1)
      ensures r.Ok? ==> tokens[current - 1].tokenType == RIGHT_PAREN && Parsed(r.value, AssignmentLevel)
      ensures r.Err? ==> |old(diagnostics)| < |diagnostics|
      decreases |tokens| - current, 17
    {
      var leftParen := Consume(LEFT_PAREN, open);
      if leftParen.Err? {
        return Err;
      }
      r := Expression();
      if r.Err? {
        return Err;
      }
      DerivesParsed(r.value, AssignmentLevel, tokens, old(current) + 1, current);
      var rightParen := Consume(RIGHT_PAREN, close);
      if rightParen.Err? {
        return Err;
      }
    }

    /**
     * whileStatement: `(` condition `)` body, the body parsed with `break`
     * allowed. canBreak is put back only when the body parses: an error in the
     * body leaves it set.
     */
    method WhileStatement() returns (r: Result<Ast.Stmt>)
      requires Valid()
      modifies this
      ensures Valid() && old(current) <= current && |old(diagnostics)| <= |diagnostics|
      ensures r.Ok? ==> old(current) < current && r.value.While? && WellFormed(r.value)
      ensures r.Ok? ==> WhileTail(r.value.condition, r.value.body, tokens, old(current), current)
      ensures r.Ok? ==> canBreak == old(canBreak) && BreaksInLoops(r.value, old(canBreak))
      ensures r.Err? ==> |old(diagnostics)| < |diagnostics| && (old(canBreak) ==> canBreak)
      decreases |tokens| - current, 18
    {
      var condition := Condition(ExpectParenAfterWhile, ExpectParenAfterCondition);
      if condition.Err? {
        return Err;
      }
      var body := LoopBody();
      if body.Err? {
        return Err;
      }
      BreaksAllowedInLoop(body.value);
      return Ok(Ast.While(condition.value, body.value));
    }

    /**
     * The body of a while or for loop: a statement parsed with `break` allowed.
     * canBreak is put back when the body parses; an error leaves it set, since
     * the parser restores it only on the normal path.
     */
    method LoopBody() returns (r: Result<Ast.Stmt>)
      requires Valid()
      modifies this
      ensures Valid() && old(current) <= current && |old(diagnostics)| <= |diagnostics|
      ensures r.Ok? ==> old(current) < current && WellFormed(r.value) && canBreak == old(canBreak)
      ensures r.Ok? ==> StmtDerives(r.value, tokens, old(current), current)
      ensures r.Err? ==> |old(diagnostics)| < |diagnostics| && canBreak
      decreases |tokens| - current, 20
    {
      var couldBreak := canBreak;
      canBreak := true;
      r := Statement();
      if r.Ok? {
        canBreak := couldBreak;
      }
    }

    /** ifStatement: `(` condition `)` then-branch, and an else-branch after `else`. */
    method IfStatement() returns (r: Result<Ast.Stmt>)
      requires Valid()
      modifies this
      ensures Valid() && old(current) <= current && |old(diagnostics)| <= |diagnostics|
      ensures r.Ok? ==> old(current) < current && r.value.If? && WellFormed(r.value)
      ensures r.Ok? ==> IfTail(r.value.condition, r.value.thenBranch, r.value.elseBranch, tokens, old(current), current)
      ensures r.Ok? && OpenIf(r.value) ==> tokens[current].tokenType != ELSE
      ensures r.Ok? && r.value.elseBranch.Some? ==> !OpenIf(r.value.thenBranch)
      ensures r.Err? ==> |old(diagnostics)| < |diagnostics|
      ensures old(canBreak) ==> canBreak
      ensures |diagnostics| == |old(diagnostics)| ==>
        canBreak == old(canBreak) && (r.Ok? ==> BreaksInLoops(r.value, old(canBreak)))
      decreases |tokens| - current, 18
    {
      var condition := Condition(ExpectParenAfterIf, ExpectParenAfterIfCondition);
      if condition.Err? {
        return Err;
      }
      var thenBranch := Statement();
      if thenBranch.Err? {
        return Err;
      }
      var elseBranch := ElseBranch();
      if elseBranch.Err? {
        return Err;
      }
      return Ok(Ast.If(condition.value, thenBranch.value, elseBranch.value));
    }

    /** The end of ifStatement: a statement after `else`, or nothing when no `else` follows. */
    method ElseBranch() returns (r: Result<Wrappers.Option<Ast.Stmt>>)
      requires Valid()
      modifies this
      ensures Valid() && old(current) <= current && |old(diagnostics)| <= |diagnostics|
      ensures r.Ok? && r.value.None? ==> current == old(current) && tokens[current].tokenType != ELSE
      ensures r.Ok? && r.value.Some? ==>
        && tokens[old(current)].tokenType == ELSE && WellFormed(r.value.value)
        && StmtDerives(r.value.value, tokens, old(current) + 1, current)
      ensures r.Ok? && r.value.Some? && OpenIf(r.value.value) ==> tokens[current].tokenType != ELSE
      ensures r.Err? ==> |old(diagnostics)| < |diagnostics|
      ensures old(canBreak) ==> canBreak
      ensures |diagnostics| == |old(diagnostics)| ==>
        canBreak == old(canBreak) && (r.Ok? && r.value.Some? ==> BreaksInLoops(r.value.value, old(canBreak)))
      decreases |tokens| - current, 18
    {
      var m := Match([ELSE]);
      if !m {
        return Ok(Wrappers.None);
      }
      var e := Statement();
      if e.Err? {
        return Err;
      }
      return Ok(Wrappers.Some(e.value));
    }

    /**
     * forStatement: parse the three clauses and the body (with `break` allowed)
     * and answer their desugaring into a while loop. As in whileStatement,
     * canBreak is put back only when the body parses.
     */
    method ForStatement() returns (r: Result<Ast.Stmt>)
      requires Valid()
      modifies this
      ensures Valid() && old(current) <= current && |old(diagnostics)| <= |diagnostics|
      ensures r.Ok? ==> old(current) < current && WellFormed(r.value) && (r.value.While? || r.value.Block?)
      ensures r.Ok? ==> exists initializer, condition, increment, body ::
        r.value == DesugarFor(initializer, condition, increment, body)
      ensures r.Ok? ==> ForTail(r.value, tokens, old(current), current)
      ensures r.Ok? ==> canBreak == old(canBreak) && BreaksInLoops(r.value, old(canBreak))
      ensures r.Err? ==> |old(diagnostics)| < |diagnostics| && (old(canBreak) ==> canBreak)
      decreases |tokens| - current, 18
    {
      var header, conditionAt, incrementAt := ForHeader();
      if header.Err? {
        return Err;
      }
      var ForClauses(initializer, condition, increment) := header.value;
      ghost var bodyAt := current;
      var body := LoopBody();
      if body.Err? {
        return Err;
      }
      DesugarForWellFormed(initializer, condition, increment, body.value, canBreak);
      JoinFor(initializer, condition, increment, body.value, tokens, old(current), conditionAt, incrementAt, bodyAt, current);
      return Ok(DesugarFor(initializer, condition, increment, body.value));
    }

    /** The `(`, the three clauses and the `)` of a `for` loop, up to its body. */
    method ForHeader() returns (r: Result<ForClauses>, ghost conditionAt: int, ghost incrementAt: int)
      requires Valid()
      modifies this
      ensures Valid() && old(current) <= current && |old(diagnostics)| <= |diagnostics| && canBreak == old(canBreak)
      ensures r.Ok? ==> old(current) < current && tokens[old(current)].tokenType == LEFT_PAREN
      ensures r.Ok? ==> InitializerDerives(r.value.initializer, tokens, old(current) + 1, conditionAt)
      ensures r.Ok? ==> ClauseDerives(r.value.condition, SEMICOLON, tokens, conditionAt, incrementAt)
      ensures r.Ok? ==> ClauseDerives(r.value.increment, RIGHT_PAREN, tokens, incrementAt, current)
      ensures r.Ok? && r.value.initializer.Some? ==>
        (r.value.initializer.value.Var? || r.value.initializer.value.Expression?) && WellFormed(r.value.initializer.value)
      ensures r.Ok? && r.value.condition.Some? ==> Parsed(r.value.condition.value, AssignmentLevel)
      ensures r.Ok? && r.value.increment.Some? ==> Parsed(r.value.increment.value, AssignmentLevel)
      ensures r.Err? ==> |old(diagnostics)| < |diagnostics|
      decreases |tokens| - current, 17
    {
      conditionAt, incrementAt := current, current;
      var leftParen := Consume(LEFT_PAREN, ExpectParenAfterFor);
      if leftParen.Err? {
        return Err, conditionAt, incrementAt;
      }
      var initializer := ForInitializer();
      if initializer.Err? {
        return Err, conditionAt, incrementAt;
      }
      conditionAt := current;
      var condition := ForClause(SEMICOLON, ExpectSemicolonAfterLoopCondition);
      if condition.Err? {
        return Err, conditionAt, incrementAt;
      }
      incrementAt := current;
      var increment := ForClause(RIGHT_PAREN, ExpectParenAfterForClauses);
      if increment.Err? {
        return Err, conditionAt, incrementAt;
      }
      r := Ok(ForClauses(initializer.value, condition.value, increment.value));
    }

    /**
     * The initializer clause of forStatement: nothing before a `;`, a variable
     * declaration after `var`, or else an expression statement.
     */
    method ForInitializer() returns (r: Result<Wrappers.Option<Ast.Stmt>>)
      requires Valid()
      modifies this
      ensures Valid() && old(current) <= current && |old(diagnostics)| <= |diagnostics| && canBreak == old(canBreak)
      ensures r.Ok? ==> old(current) < current
      ensures r.Ok? && r.value.Some? ==>
        (r.value.value.Var? || r.value.value.Expression?) && WellFormed(r.value.value)
      ensures r.Ok? ==> InitializerDerives(r.value, tokens, old(current), current)
      ensures r.Err? ==> |old(diagnostics)| < |diagnostics|
    {
      var m := Match([SEMICOLON]);
      if m {
        return Ok(Wrappers.None);
      }
      m := Match([VAR]);
      var s;
      if m {
        s := VarDeclaration();
      } else {
        s := ExpressionStatement();
      }
      if s.Err? {
        return Err;
      }
      return Ok(Wrappers.Some(s.value));
    }

    /**
     * The condition or increment clause of forStatement: an expression unless the
     * closing token comes first, then that token.
     */
    method ForClause(closing: TokenType, message: Message) returns (r: Result<Wrappers.Option<Ast.Expr>>)
      requires Valid()
      modifies this
      ensures Valid() && old(current) <= current && |old(diagnostics)| <= |diagnostics| && canBreak == old(canBreak)
      ensures r.Ok? ==> old(current) < current && Previous().tokenType == closing
      ensures r.Ok? && r.value.Some? ==> Parsed(r.value.value, AssignmentLevel)
      ensures r.Ok? && old(Check(closing)) ==> r.value.None?
      ensures r.Ok? ==> ClauseDerives(r.value, closing, tokens, old(current), current)
      ensures r.Err? ==> |old(diagnostics)| < |diagnostics|
    {
      var clause := Wrappers.None;
      if !Check(closing) {
        var e := Expression();
        if e.Err? {
          return Err;
        }
        DerivesParsed(e.value, AssignmentLevel, tokens, old(current), current);
        clause := Wrappers.Some(e.value);
      }
      var close := Consume(closing, message);
      if close.Err? {
        return Err;
      }
      return Ok(clause);
    }

    /**
     * block: declarations up to `}` (or EOF), then the `}`. A declaration that
     * fails leaves a null entry and the block goes on.
     */
    method Block() returns (r: Result<seq<Wrappers.Option<Ast.Stmt>>>)
      requires Valid()
      modifies this
      ensures Valid() && old(current) <= current && |old(diagnostics)| <= |diagnostics|
      ensures r.Ok? ==> old(current) < current && ListWellFormed(r.value)
      ensures r.Ok? ==> BlockTail(r.value, tokens, old(current), current)
      ensures r.Err? ==> |old(diagnostics)| < |diagnostics|
      ensures old(canBreak) ==> canBreak
      ensures |diagnostics| == |old(diagnostics)| ==>
        canBreak == old(canBreak) && (r.Ok? ==> AllParsed(r.value, old(canBreak)))
      decreases |tokens| - current, 22
    {
      var statements := [];
      while !Check(RIGHT_BRACE) && !IsAtEnd()
        invariant Valid() && old(current) <= current && |old(diagnostics)| <= |diagnostics|
        invariant ListWellFormed(statements)
        invariant old(canBreak) ==> canBreak
        invariant |diagnostics| == |old(diagnostics)| ==> canBreak == old(canBreak) && AllParsed(statements, old(canBreak))
        invariant ListDerives(statements, tokens, old(current), current)
        decreases |tokens| - current
      {
        ghost var start := current;
        var d := Declaration();
        ExtendList(statements, d, tokens, old(current), start, current);
        statements := statements + [d];
      }
      var rightBrace := Consume(RIGHT_BRACE, ExpectBraceAfterBlock);
      if rightBrace.Err? {
        return Err;
      }
      return Ok(statements);
    }

    /** expressionStatement: expression `;` */
    method ExpressionStatement() returns (r: Result<Ast.Stmt>)
      requires Valid()
      modifies this
      ensures Valid() && old(current) <= current && |old(diagnostics)| <= |diagnostics| && canBreak == old(canBreak)
      ensures r.Ok? ==> old(current) < current && r.value.Expression? && WellFormed(r.value)
      ensures r.Ok? ==> SemicolonTerminated(r.value.expression, tokens, old(current), current)
      ensures r.Err? ==> |old(diagnostics)| < |diagnostics|
      decreases |tokens| - current, 18
    {
      var e := Expression();
      if e.Err? {
        return Err;
      }
      DerivesParsed(e.value, AssignmentLevel, tokens, old(current), current);
      var semicolon := Consume(SEMICOLON, ExpectSemicolonAfterValue);
      if semicolon.Err? {
        return Err;
      }
      return Ok(Ast.Expression(e.value));
    }

    /** printStatement: expression `;` after `print`. */
    method PrintStatement() returns (r: Result<Ast.Stmt>)
      requires Valid()
      modifies this
      ensures Valid() && old(current) <= current && |old(diagnostics)| <= |diagnostics| && canBreak == old(canBreak)
      ensures r.Ok? ==> old(current) < current && r.value.Print? && WellFormed(r.value)
      ensures r.Ok? ==> SemicolonTerminated(r.value.expression, tokens, old(current), current)
      ensures r.Err? ==> |old(diagnostics)| < |diagnostics|
      decreases |tokens| - current, 18
    {
      var e := Expression();
      if e.Err? {
        return Err;
      }
      DerivesParsed(e.value, AssignmentLevel, tokens, old(current), current);
      var semicolon := Consume(SEMICOLON, ExpectSemicolonAfterValue);
      if semicolon.Err? {
        return Err;
      }
      return Ok(Ast.Print(e.value));
    }

    /**
     * expression: an assignment. What it answers is a tree of the grammar
     * derived from exactly the tokens it consumed.
     */
    method Expression() returns (r: Result<Ast.Expr>)
      requires Valid()
      modifies this
      ensures Valid() && old(current) <= current && |old(diagnostics)| <= |diagnostics| && canBreak == old(canBreak)
      ensures r.Ok? ==> old(current) < current && Derives(r.value, AssignmentLevel, tokens, old(current), current)
      ensures r.Ok? ==> EndsBefore(tokens, current, AssignmentLevel)
      ensures r.Err? ==> |old(diagnostics)| < |diagnostics|
      decreases |tokens| - current, 16
    {
      r := Assignment();
    }

    /**
     * assignment: a logical-or expression, and if `=` follows, the value (itself
     * an assignment, so `a = b = c` is `a = (b = c)`). Only a variable may be
     * assigned; any other target is reported at the `=` as an error, so an
     * answer is never followed by an unconsumed `=`.
     */
    method Assignment() returns (r: Result<Ast.Expr>)
      requires Valid()
      modifies this
      ensures Valid() && old(current) <= current && |old(diagnostics)| <= |diagnostics| && canBreak == old(canBreak)
      ensures r.Ok? ==> old(current) < current && Derives(r.value, AssignmentLevel, tokens, old(current), current)
      ensures r.Ok? ==> EndsBefore(tokens, current, AssignmentLevel)
      ensures r.Ok? ==> r.value.Assign? || !Check(EQUAL)
      ensures r.Err? ==> |old(diagnostics)| < |diagnostics|
      decreases |tokens| - current, 15
    {
      var e := Or();
      if e.Err? {
        return Err;
      }
      DerivesLoosens(e.value, OrLevel, AssignmentLevel, tokens, old(current), current);
      var m := Match([EQUAL]);
      if m {
        var equalsAt := current - 1;
        var equals := Previous();
        var value := Assignment();
        if value.Err? {
          return Err;
        }
        if e.value.Variable? {
          return Ok(Ast.Assign(equalsAt, e.value.name, value.value));
        }
        Error(equals, InvalidTarget);
        return Err;
      }
      EndsBeforeLoosens(tokens, current, AssignmentLevel);
      return Ok(e.value);
    }

    /** or: and-expressions joined by `or`, grouped to the left. */
    method Or() returns (r: Result<Ast.Expr>)
      requires Valid()
      modifies this
      ensures Valid() && old(current) <= current && |old(diagnostics)| <= |diagnostics| && canBreak == old(canBreak)
      ensures r.Ok? ==> old(current) < current && Derives(r.value, OrLevel, tokens, old(current), current)
      ensures r.Ok? ==> EndsBefore(tokens, current, OrLevel)
      ensures r.Err? ==> |old(diagnostics)| < |diagnostics|
      decreases |tokens| - current, 14
    {
      var left := And();
      if left.Err? {
        return Err;
      }
      var e := left.value;
      DerivesLoosens(e, AndLevel, OrLevel, tokens, old(current), current);
      while true
        invariant Valid() && old(current) < current && |old(diagnostics)| <= |diagnostics| && canBreak == old(canBreak)
        invariant Derives(e, OrLevel, tokens, old(current), current)
        invariant EndsBefore(tokens, current, AndLevel)
        decreases |tokens| - current
      {
        ghost var operatorAt := current;
        var m := Match([OR]);
        if !m {
          EndsBeforeLoosens(tokens, current, OrLevel);
          return Ok(e);
        }
        var operator := Previous();
        var right := And();
        if right.Err? {
          return Err;
        }
        JoinLogical(e, operator, right.value, tokens, old(current), operatorAt, current);
        e := Ast.Logical(e, operator, right.value);
      }
    }

    /** and: equality expressions joined by `and`, grouped to the left. */
    method And() returns (r: Result<Ast.Expr>)
      requires Valid()
      modifies this
      ensures Valid() && old(current) <= current && |old(diagnostics)| <= |diagnostics| && canBreak == old(canBreak)
      ensures r.Ok? ==> old(current) < current && Derives(r.value, AndLevel, tokens, old(current), current)
      ensures r.Ok? ==> EndsBefore(tokens, current, AndLevel)
      ensures r.Err? ==> |old(diagnostics)| < |diagnostics|
      decreases |tokens| - current, 13
    {
      var left := Equality();
      if left.Err? {
        return Err;
      }
      var e := left.value;
      DerivesLoosens(e, EqualityLevel, AndLevel, tokens, old(current), current);
      while true
        invariant Valid() && old(current) < current && |old(diagnostics)| <= |diagnostics| && canBreak == old(canBreak)
        invariant Derives(e, AndLevel, tokens, old(current), current)
        invariant EndsBefore(tokens, current, EqualityLevel)
        decreases |tokens| - current
      {
        ghost var operatorAt := current;
        var m := Match([AND]);
        if !m {
          EndsBeforeLoosens(tokens, current, AndLevel);
          return Ok(e);
        }
        var operator := Previous();
        var right := Equality();
        if right.Err? {
          return Err;
        }
        JoinLogical(e, operator, right.value, tokens, old(current), operatorAt, current);
        e := Ast.Logical(e, operator, right.value);
      }
    }

    /** equality: comparisons joined by `!=` or `==`, grouped to the left. */
    method Equality() returns (r: Result<Ast.Expr>)
      requires Valid()
      modifies this
      ensures Valid() && old(current) <= current && |old(diagnostics)| <= |diagnostics| && canBreak == old(canBreak)
      ensures r.Ok? ==> old(current) < current && Derives(r.value, EqualityLevel, tokens, old(current), current)
      ensures r.Ok? ==> EndsBefore(tokens, current, EqualityLevel)
      ensures r.Err? ==> |old(diagnostics)| < |diagnostics|
      decreases |tokens| - current, 12
    {
      var left := Comparison();
      if left.Err? {
        return Err;
      }
      var e := left.value;
      DerivesLoosens(e, ComparisonLevel, EqualityLevel, tokens, old(current), current);
      while true
        invariant Valid() && old(current) < current && |old(diagnostics)| <= |diagnostics| && canBreak == old(canBreak)
        invariant Derives(e, EqualityLevel, tokens, old(current), current)
        invariant EndsBefore(tokens, current, ComparisonLevel)
        decreases |tokens| - current
      {
        ghost var operatorAt := current;
        var m := Match([BANG_EQUAL, EQUAL_EQUAL]);
        if !m {
          EndsBeforeLoosens(tokens, current, EqualityLevel);
          return Ok(e);
        }
        var operator := Previous();
        assert BinaryLevel(operator.tokenType) == EqualityLevel;
        var right := Comparison();
        if right.Err? {
          return Err;
        }
        JoinBinary(e, operator, right.value, tokens, old(current), operatorAt, current);
        e := Ast.Binary(e, operator, right.value);
      }
    }

    /** comparison: terms joined by `>`, `>=`, `<` or `<=`, grouped to the left. */
    method Comparison() returns (r: Result<Ast.Expr>)
      requires Valid()
      modifies this
      ensures Valid() && old(current) <= current && |old(diagnostics)| <= |diagnostics| && canBreak == old(canBreak)
      ensures r.Ok? ==> old(current) < current && Derives(r.value, ComparisonLevel, tokens, old(current), current)
      ensures r.Ok? ==> EndsBefore(tokens, current, ComparisonLevel)
      ensures r.Err? ==> |old(diagnostics)| < |diagnostics|
      decreases |tokens| - current, 11
    {
      var left := Term();
      if left.Err? {
        return Err;
      }
      var e := left.value;
      DerivesLoosens(e, TermLevel, ComparisonLevel, tokens, old(current), current);
      while true
        invariant Valid() && old(current) < current && |old(diagnostics)| <= |diagnostics| && canBreak == old(canBreak)
        invariant Derives(e, ComparisonLevel, tokens, old(current), current)
        invariant EndsBefore(tokens, current, TermLevel)
        decreases |tokens| - current
      {
        ghost var operatorAt := current;
        var m := Match([GREATER, GREATER_EQUAL, LESS, LESS_EQUAL]);
        if !m {
          EndsBeforeLoosens(tokens, current, ComparisonLevel);
          return Ok(e);
        }
        var operator := Previous();
        assert BinaryLevel(operator.tokenType) == ComparisonLevel;
        var right := Term();
        if right.Err? {
          return Err;
        }
        JoinBinary(e, operator, right.value, tokens, old(current), operatorAt, current);
        e := Ast.Binary(e, operator, right.value);
      }
    }

    /** term: factors joined by `-` or `+`, grouped to the left. */
    method Term() returns (r: Result<Ast.Expr>)
      requires Valid()
      modifies this
      ensures Valid() && old(current) <= current && |old(diagnostics)| <= |diagnostics| && canBreak == old(canBreak)
      ensures r.Ok? ==> old(current) < current && Derives(r.value, TermLevel, tokens, old(current), current)
      ensures r.Ok? ==> EndsBefore(tokens, current, TermLevel)
      ensures r.Err? ==> |old(diagnostics)| < |diagnostics|
      decreases |tokens| - current, 10
    {
      var left := Factor();
      if left.Err? {
        return Err;
      }
      var e := left.value;
      DerivesLoosens(e, FactorLevel, TermLevel, tokens, old(current), current);
      while true
        invariant Valid() && old(current) < current && |old(diagnostics)| <= |diagnostics| && canBreak == old(canBreak)
        invariant Derives(e, TermLevel, tokens, old(current), current)
        invariant EndsBefore(tokens, current, FactorLevel)
        decreases |tokens| - current
      {
        ghost var operatorAt := current;
        var m := Match([MINUS, PLUS]);
        if !m {
          EndsBeforeLoosens(tokens, current, TermLevel);
          return Ok(e);
        }
        var operator := Previous();
        assert BinaryLevel(operator.tokenType) == TermLevel;
        var right := Factor();
        if right.Err? {
          return Err;
        }
        JoinBinary(e, operator, right.value, tokens, old(current), operatorAt, current);
        e := Ast.Binary(e, operator, right.value);
      }
    }

    /** factor: unary expressions joined by `/` or `*`, grouped to the left. */
    method Factor() returns (r: Result<Ast.Expr>)
      requires Valid()
      modifies this
      ensures Valid() && old(current) <= current && |old(diagnostics)| <= |diagnostics| && canBreak == old(canBreak)
      ensures r.Ok? ==> old(current) < current && Derives(r.value, FactorLevel, tokens, old(current), current)
      ensures r.Ok? ==> EndsBefore(tokens, current, FactorLevel)
      ensures r.Err? ==> |old(diagnostics)| < |diagnostics|
      decreases |tokens| - current, 9
    {
      var left := Unary();
      if left.Err? {
        return Err;
      }
      var e := left.value;
      DerivesLoosens(e, UnaryLevel, FactorLevel, tokens, old(current), current);
      while true
        invariant Valid() && old(current) < current && |old(diagnostics)| <= |diagnostics| && canBreak == old(canBreak)
        invariant Derives(e, FactorLevel, tokens, old(current), current)
        invariant EndsBefore(tokens, current, UnaryLevel)
        decreases |tokens| - current
      {
        ghost var operatorAt := current;
        var m := Match([SLASH, STAR]);
        if !m {
          EndsBeforeLoosens(tokens, current, FactorLevel);
          return Ok(e);
        }
        var operator := Previous();
        assert BinaryLevel(operator.tokenType) == FactorLevel;
        var right := Unary();
        if right.Err? {
          return Err;
        }
        JoinBinary(e, operator, right.value, tokens, old(current), operatorAt, current);
        e := Ast.Binary(e, operator, right.value);
      }
    }

    /** unary: `!` or `-` applied to a unary expression, or a call. */
    method Unary() returns (r: Result<Ast.Expr>)
      requires Valid()
      modifies this
      ensures Valid() && old(current) <= current && |old(diagnostics)| <= |diagnostics| && canBreak == old(canBreak)
      ensures r.Ok? ==> old(current) < current && Derives(r.value, UnaryLevel, tokens, old(current), current)
      ensures r.Ok? ==> EndsBefore(tokens, current, UnaryLevel)
      ensures r.Err? ==> |old(diagnostics)| < |diagnostics|
      decreases |tokens| - current, 8
    {
      var m := Match([BANG, MINUS]);
      if m {
        var operator := Previous();
        var right := Unary();
        if right.Err? {
          return Err;
        }
        return Ok(Ast.Unary(operator, right.value));
      }
      r := Call();
      if r.Ok? {
        DerivesLoosens(r.value, CallLevel, UnaryLevel, tokens, old(current), current);
        EndsBeforeLoosens(tokens, current, UnaryLevel);
      }
    }

    /** call: a primary followed by any number of argument lists, so `f()()` calls the result of `f()`. */
    method Call() returns (r: Result<Ast.Expr>)
      requires Valid()
      modifies this
      ensures Valid() && old(current) <= current && |old(diagnostics)| <= |diagnostics| && canBreak == old(canBreak)
      ensures r.Ok? ==> old(current) < current && Derives(r.value, CallLevel, tokens, old(current), current)
      ensures r.Ok? ==> EndsBefore(tokens, current, CallLevel)
      ensures r.Err? ==> |old(diagnostics)| < |diagnostics|
      decreases |tokens| - current, 7
    {
      var callee := Primary();
      if callee.Err? {
        return Err;
      }
      var e := callee.value;
      DerivesLoosens(e, PrimaryLevel, CallLevel, tokens, old(current), current);
      while true
        invariant Valid() && old(current) < current && |old(diagnostics)| <= |diagnostics| && canBreak == old(canBreak)
        invariant Derives(e, CallLevel, tokens, old(current), current)
        decreases |tokens| - current
      {
        ghost var parenAt := current;
        var m := Match([LEFT_PAREN]);
        if !m {
          EndsBeforeLoosens(tokens, current, CallLevel);
          break;
        }
        var c := FinishCall(e);
        if c.Err? {
          return Err;
        }
        JoinCall(e, c.value.paren, c.value.arguments, tokens, old(current), parenAt, current);
        e := c.value;
      }
      return Ok(e);
    }

    /**
     * finishCall: the arguments after `(`, separated by `,`, then `)`. Having 255
     * arguments already when another one starts is reported but does not fail.
     */
    method FinishCall(callee: Ast.Expr) returns (r: Result<Ast.Expr>)
      requires Valid()
      modifies this
      ensures Valid() && old(current) <= current && |old(diagnostics)| <= |diagnostics| && canBreak == old(canBreak)
      ensures r.Ok? ==> old(current) < current && r.value.Call? && r.value.callee == callee
      ensures r.Ok? ==> ArgumentsDerive(r.value.arguments, tokens, old(current), current - 1)
      ensures r.Ok? ==> r.value.paren.tokenType == RIGHT_PAREN && tokens[current - 1] == r.value.paren
      ensures r.Ok? ==> |diagnostics| - |old(diagnostics)| >= |r.value.arguments| - 255
      ensures r.Err? ==> |old(diagnostics)| < |diagnostics|
      decreases |tokens| - current, 18
    {
      var arguments: seq<Ast.Expr> := [];
      if !Check(RIGHT_PAREN) {
        var list := Arguments();
        if list.Err? {
          return Err;
        }
        arguments := list.value;
      }
      var paren := Consume(RIGHT_PAREN, ExpectParenAfterArguments);
      if paren.Err? {
        return Err;
      }
      return Ok(Ast.Call(callee, paren.value, arguments));
    }

    /** The loop of finishCall: one or more arguments separated by `,`. */
    method Arguments() returns (r: Result<seq<Ast.Expr>>)
      requires Valid()
      modifies this
      ensures Valid() && old(current) <= current && |old(diagnostics)| <= |diagnostics| && canBreak == old(canBreak)
      ensures r.Ok? ==> |r.value| > 0 && ArgumentsDerive(r.value, tokens, old(current), current)
      ensures r.Ok? ==> |diagnostics| - |old(diagnostics)| >= |r.value| - 255
      ensures r.Err? ==> |old(diagnostics)| < |diagnostics|
      decreases |tokens| - current, 17
    {
      var arguments: seq<Ast.Expr> := [];
      ghost var end := current;
      while true
        invariant Valid() && old(current) <= current && |old(diagnostics)| <= |diagnostics| && canBreak == old(canBreak)
        invariant ArgumentsDerive(arguments, tokens, old(current), end)
        invariant current == if |arguments| == 0 then end else end + 1
        invariant |arguments| > 0 ==> tokens[end].tokenType == COMMA
        invariant |diagnostics| - |old(diagnostics)| >= |arguments| - 255
        decreases |tokens| - current
      {
        if |arguments| >= 255 {
          Error(Peek(), TooManyArguments);
        }
        var argument := Expression();
        if argument.Err? {
          return Err;
        }
        ExtendArguments(arguments, argument.value, tokens, old(current), end, current);
        arguments := arguments + [argument.value];
        end := current;
        var more := Match([COMMA]);
        if !more {
          return Ok(arguments);
        }
      }
    }

    /**
     * primary: `false`, `true`, `nil`, a name, a number or string literal, or a
     * parenthesised expression; anything else is reported as "Expect expression.".
     */
    method Primary() returns (r: Result<Ast.Expr>)
      requires Valid()
      modifies this
      ensures Valid() && old(current) <= current && |old(diagnostics)| <= |diagnostics| && canBreak == old(canBreak)
      ensures r.Ok? ==> old(current) < current && Derives(r.value, PrimaryLevel, tokens, old(current), current)
      ensures r.Err? ==> |old(diagnostics)| < |diagnostics|
      decreases |tokens| - current, 6
    {
      var m := Match([FALSE]);
      if m {
        var e := Ast.Literal(BoolValue(false));
        LeafDerives(e, tokens, old(current));
        return Ok(e);
      }
      m := Match([TRUE]);
      if m {
        var e := Ast.Literal(BoolValue(true));
        LeafDerives(e, tokens, old(current));
        return Ok(e);
      }
      m := Match([NIL]);
      if m {
        var e := Ast.Literal(NilValue);
        LeafDerives(e, tokens, old(current));
        return Ok(e);
      }
      m := Match([IDENTIFIER]);
      if m {
        var e := Ast.Variable(current - 1, Previous());
        LeafDerives(e, tokens, old(current));
        return Ok(e);
      }
      m := Match([NUMBER, STRING]);
      if m {
        var e := Ast.Literal(Previous().literal);
        LeafDerives(e, tokens, old(current));
        return Ok(e);
      }
      m := Match([LEFT_PAREN]);
      if m {
        var e := Expression();
        if e.Err? {
          return Err;
        }
        var rightParen := Consume(RIGHT_PAREN, ExpectParenAfterExpression);
        if rightParen.Err? {
          return Err;
        }
        return Ok(Ast.Grouping(e.value));
      }
      Error(Peek(), ExpectExpression);
      return Err;
    }
  }
}

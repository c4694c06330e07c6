/**
 * AstPrinter.java and AstRpnPrinter.java: serialise an expression of the early
 * grammar (binary, grouping, literal, unary) to text. The two classes share the
 * visit methods and differ only in `format`, which AstRpnPrinter overrides;
 * `Style` stands for that dynamic dispatch. AstPrinter writes Lisp-like prefix
 * form, `(+ 1 2)`; AstRpnPrinter writes reverse Polish notation, `1 2 +`.
 */
module AstPrinting {
  import opened Tokens
  import opened Ast
  import LoxValues
  import Interpreting

  /** Which class's `format` is in force: AstPrinter's or AstRpnPrinter's. */
  datatype Style = Prefix | Postfix

  /**
   * The text of a literal: null prints as "nil", otherwise the value's
   * toString. Double.toString is not part of this model and is a parameter.
   */
  function LiteralText(numberText: real -> string, literal: LiteralValue): string {
    match literal
    case NilValue => "nil"
    case BoolValue(b) => if b then "true" else "false"
    case NumberValue(n) => numberText(n)
    case StringValue(s) => s
  }

  /**
   * The printers show a literal as the interpreter's stringify shows its value,
   * except that a number keeps a trailing ".0" which stringify drops.
   */
  lemma LiteralTextIsStringify(numberText: real -> string, objects: seq<Interpreting.LoxObject>, literal: LiteralValue)
    ensures !literal.NumberValue? ==>
      LiteralText(numberText, literal) == Interpreting.Stringify(numberText, objects, LoxValues.FromLiteral(literal))
    ensures literal.NumberValue? ==>
      var shown := Interpreting.Stringify(numberText, objects, LoxValues.FromLiteral(literal));
      shown == LiteralText(numberText, literal) || shown + ".0" == LiteralText(numberText, literal)
  {
  }

  /** Each child text preceded by one space, in order: the prefix loop's output. */
  function Spaced(texts: seq<string>): string {
    if |texts| == 0 then "" else Spaced(texts[..|texts| - 1]) + " " + texts[|texts| - 1]
  }

  /** Each child text followed by one space, in order: the postfix loop's output. */
  function Trailing(texts: seq<string>): string {
    if |texts| == 0 then "" else Trailing(texts[..|texts| - 1]) + texts[|texts| - 1] + " "
  }

  /**
   * format(name, exprs...) given the texts of the children: AstPrinter's
   * parenthesised prefix form or AstRpnPrinter's postfix form.
   */
  function FormatText(style: Style, name: string, texts: seq<string>): string {
    match style
    case Prefix => "(" + name + Spaced(texts) + ")"
    case Postfix => Trailing(texts) + name
  }

  /** The printed text of an expression (print, the visit methods and format together). */
  function Text(style: Style, numberText: real -> string, e: Expr): string
    requires SimpleExpr(e)
    decreases e
  {
    match e
    case Binary(left, operator, right) =>
      FormatText(style, operator.lexeme, [Text(style, numberText, left), Text(style, numberText, right)])
    case Grouping(inner) => FormatText(style, "group", [Text(style, numberText, inner)])
    case Literal(literal) => LiteralText(numberText, literal)
    case Unary(operator, right) => FormatText(style, operator.lexeme, [Text(style, numberText, right)])
  }

  /** The texts of a list of children, in order. */
  function Texts(style: Style, numberText: real -> string, children: seq<Expr>): (ts: seq<string>)
    requires forall i :: 0 <= i < |children| ==> SimpleExpr(children[i])
    ensures |ts| == |children|
    ensures forall i :: 0 <= i < |children| ==> ts[i] == Text(style, numberText, children[i])
  {
    if |children| == 0 then []
    else Texts(style, numberText, children[..|children| - 1]) + [Text(style, numberText, children[|children| - 1])]
  }

  /** print: the text of the whole expression. */
  method Print(style: Style, numberText: real -> string, e: Expr) returns (s: string)
    requires SimpleExpr(e)
    ensures s == Text(style, numberText, e)
    decreases e, 3
  {
    s := Accept(style, numberText, e);
  }

  /** expr.accept(this): dispatch to the visit method of the node's kind. */
  method Accept(style: Style, numberText: real -> string, e: Expr) returns (s: string)
    requires SimpleExpr(e)
    ensures s == Text(style, numberText, e)
    decreases e, 2
  {
    match e
    case Binary(left, operator, right) =>
      s := Format(style, numberText, e, operator.lexeme, [left, right]);
      assert Texts(style, numberText, [left, right]) == [Text(style, numberText, left), Text(style, numberText, right)];
    case Grouping(inner) =>
      s := Format(style, numberText, e, "group", [inner]);
      assert Texts(style, numberText, [inner]) == [Text(style, numberText, inner)];
    case Literal(literal) =>
      s := if literal.NilValue? then "nil" else LiteralText(numberText, literal);
    case Unary(operator, right) =>
      s := Format(style, numberText, e, operator.lexeme, [right]);
      assert Texts(style, numberText, [right]) == [Text(style, numberText, right)];
  }

  /**
   * format(name, exprs...), dispatched on the printer's class: AstRpnPrinter
   * overrides AstPrinter's. `parent` is the node whose children these are; it
   * only bounds the recursion.
   */
  method Format(style: Style, numberText: real -> string, ghost parent: Expr, name: string, children: seq<Expr>)
    returns (s: string)
    requires forall i :: 0 <= i < |children| ==> children[i] < parent && SimpleExpr(children[i])
    ensures s == FormatText(style, name, Texts(style, numberText, children))
    decreases parent, 1
  {
    match style
    case Prefix => s := FormatPrefix(numberText, parent, name, children);
    case Postfix => s := FormatPostfix(numberText, parent, name, children);
  }

  /** AstPrinter's format: "(" and the name, then a space before each child's text, then ")". */
  method FormatPrefix(numberText: real -> string, ghost parent: Expr, name: string, children: seq<Expr>)
    returns (s: string)
    requires forall i :: 0 <= i < |children| ==> children[i] < parent && SimpleExpr(children[i])
    ensures s == FormatText(Prefix, name, Texts(Prefix, numberText, children))
    decreases parent, 0
  {
    ghost var texts := Texts(Prefix, numberText, children);
    s := "(" + name;
    ghost var start := s;
    for i := 0 to |children|
      invariant s == start + Spaced(texts[..i])
    {
      var child := Accept(Prefix, numberText, children[i]);
      assert child == texts[i];
      ghost var done := texts[..i];
      Extend(texts, i);
      SpacedStep(start, done, child);
      s := s + " " + child;
    }
    assert texts[..|children|] == texts;
    s := s + ")";
  }

  /** A prefix one element longer. */
  lemma Extend(texts: seq<string>, i: nat)
    requires i < |texts|
    ensures texts[..i + 1] == texts[..i] + [texts[i]]
    ensures (texts[..i] + [texts[i]])[..i] == texts[..i]
  {
  }

  /** One more child in the prefix builder. */
  lemma SpacedStep(start: string, texts: seq<string>, t: string)
    ensures start + Spaced(texts + [t]) == start + Spaced(texts) + " " + t
  {
    assert (texts + [t])[..|texts|] == texts;
    Associative(start, Spaced(texts) + " ", t);
    Associative(start, Spaced(texts), " ");
  }

  /** AstRpnPrinter's format: each child's text followed by a space, then the name. */
  method FormatPostfix(numberText: real -> string, ghost parent: Expr, name: string, children: seq<Expr>)
    returns (s: string)
    requires forall i :: 0 <= i < |children| ==> children[i] < parent && SimpleExpr(children[i])
    ensures s == FormatText(Postfix, name, Texts(Postfix, numberText, children))
    decreases parent, 0
  {
    ghost var texts := Texts(Postfix, numberText, children);
    s := "";
    for i := 0 to |children|
      invariant s == Trailing(texts[..i])
    {
      var child := Accept(Postfix, numberText, children[i]);
      assert child == texts[i];
      Extend(texts, i);
      s := s + child + " ";
    }
    assert texts[..|children|] == texts;
    s := s + name;
  }

  /** format with one and with two children, written out. */
  lemma FormatShapes(name: string, a: string, b: string)
    ensures FormatText(Prefix, name, [a]) == "(" + name + " " + a + ")"
    ensures FormatText(Prefix, name, [a, b]) == "(" + name + " " + a + " " + b + ")"
    ensures FormatText(Postfix, name, [a]) == a + " " + name
    ensures FormatText(Postfix, name, [a, b]) == a + " " + b + " " + name
  {
    assert [a, b][..1] == [a];
    SpacedShapes(name, a, b);
    assert Trailing([a]) == a + " ";
  }

  /** The prefix builder after one and after two children. */
  lemma SpacedShapes(name: string, a: string, b: string)
    ensures "(" + name + Spaced([a]) == "(" + name + " " + a
    ensures "(" + name + Spaced([a, b]) == "(" + name + " " + a + " " + b
  {
    assert [a, b][..1] == [a];
    assert Spaced([a]) == " " + a;
    Associative("(" + name, " " + a, " ");
  }

  lemma Associative(x: string, y: string, z: string)
    ensures x + (y + z) == x + y + z
  {
  }

  /** AstPrinter: an operator node prints as "(", its name and its operands, space-separated, in order, then ")". */
  lemma PrefixShapes(numberText: real -> string, left: Expr, operator: Token, right: Expr)
    requires SimpleExpr(left) && SimpleExpr(right)
    ensures Text(Prefix, numberText, Binary(left, operator, right))
         == "(" + operator.lexeme + " " + Text(Prefix, numberText, left) + " " + Text(Prefix, numberText, right) + ")"
    ensures Text(Prefix, numberText, Grouping(left)) == "(" + "group" + " " + Text(Prefix, numberText, left) + ")"
    ensures Text(Prefix, numberText, Unary(operator, right)) == "(" + operator.lexeme + " " + Text(Prefix, numberText, right) + ")"
  {
    var l, r := Text(Prefix, numberText, left), Text(Prefix, numberText, right);
    assert Text(Prefix, numberText, Binary(left, operator, right)) == FormatText(Prefix, operator.lexeme, [l, r]);
    assert Text(Prefix, numberText, Grouping(left)) == FormatText(Prefix, "group", [l]);
    assert Text(Prefix, numberText, Unary(operator, right)) == FormatText(Prefix, operator.lexeme, [r]);
    FormatShapes(operator.lexeme, l, r);
    FormatShapes("group", l, "");
    FormatShapes(operator.lexeme, r, "");
  }

  /** AstRpnPrinter: operands first, in order, each followed by a space, then the operator's name; no parentheses. */
  lemma PostfixShapes(numberText: real -> string, left: Expr, operator: Token, right: Expr)
    requires SimpleExpr(left) && SimpleExpr(right)
    ensures Text(Postfix, numberText, Binary(left, operator, right))
         == Text(Postfix, numberText, left) + " " + Text(Postfix, numberText, right) + " " + operator.lexeme
    ensures Text(Postfix, numberText, Grouping(left)) == Text(Postfix, numberText, left) + " " + "group"
    ensures Text(Postfix, numberText, Unary(operator, right)) == Text(Postfix, numberText, right) + " " + operator.lexeme
  {
    var l, r := Text(Postfix, numberText, left), Text(Postfix, numberText, right);
    assert Text(Postfix, numberText, Binary(left, operator, right)) == FormatText(Postfix, operator.lexeme, [l, r]);
    assert Text(Postfix, numberText, Grouping(left)) == FormatText(Postfix, "group", [l]);
    assert Text(Postfix, numberText, Unary(operator, right)) == FormatText(Postfix, operator.lexeme, [r]);
    FormatShapes(operator.lexeme, l, r);
    FormatShapes("group", l, "");
    FormatShapes(operator.lexeme, r, "");
  }

  /** The number of operator and grouping nodes: the nodes that go through format. */
  function Operators(e: Expr): nat
    requires SimpleExpr(e)
    decreases e
  {
    match e
    case Binary(left, _, right) => 1 + Operators(left) + Operators(right)
    case Grouping(inner) => 1 + Operators(inner)
    case Literal(_) => 0
    case Unary(_, right) => 1 + Operators(right)
  }

  /** No literal text and no operator lexeme in the tree holds `c`. */
  predicate Avoids(numberText: real -> string, e: Expr, c: char)
    requires SimpleExpr(e)
    decreases e
  {
    match e
    case Binary(left, operator, right) =>
      c !in operator.lexeme && Avoids(numberText, left, c) && Avoids(numberText, right, c)
    case Grouping(inner) => c !in "group" && Avoids(numberText, inner, c)
    case Literal(literal) => c !in LiteralText(numberText, literal)
    case Unary(operator, right) => c !in operator.lexeme && Avoids(numberText, right, c)
  }

  /**
   * The prefix form is fully parenthesised: unless a leaf's own text holds a
   * parenthesis, it has exactly one "(", and one ")", per operator node.
   */
  lemma {:induction false} PrefixParenthesised(numberText: real -> string, e: Expr, c: char)
    requires c == '(' || c == ')'
    requires SimpleExpr(e) && Avoids(numberText, e, c)
    ensures multiset(Text(Prefix, numberText, e))[c] == Operators(e)
    decreases e
  {
    match e
    case Binary(left, operator, right) =>
      PrefixParenthesised(numberText, left, c);
      PrefixParenthesised(numberText, right, c);
      PrefixFormatCounts(operator.lexeme, Text(Prefix, numberText, left), Text(Prefix, numberText, right), c);
    case Grouping(inner) =>
      PrefixParenthesised(numberText, inner, c);
      PrefixFormatCounts("group", Text(Prefix, numberText, inner), "", c);
    case Literal(literal) =>
    case Unary(operator, right) =>
      PrefixParenthesised(numberText, right, c);
      PrefixFormatCounts(operator.lexeme, Text(Prefix, numberText, right), "", c);
  }

  /** The parentheses of one prefix format of one or two children: its own pair plus those of the children. */
  lemma PrefixFormatCounts(name: string, a: string, b: string, c: char)
    requires (c == '(' || c == ')') && c !in name
    ensures multiset(FormatText(Prefix, name, [a]))[c] == 1 + multiset(a)[c]
    ensures multiset(FormatText(Prefix, name, [a, b]))[c] == 1 + multiset(a)[c] + multiset(b)[c]
  {
    FormatShapes(name, a, b);
    assert multiset("(" + name + " " + a + ")") == multiset("(" + name + " ") + multiset(a) + multiset(")");
  }

  /** The postfix form needs no parentheses: it holds none unless a leaf's own text does. */
  lemma {:induction false} PostfixUnparenthesised(numberText: real -> string, e: Expr, c: char)
    requires SimpleExpr(e) && Avoids(numberText, e, c) && c != ' '
    ensures c !in Text(Postfix, numberText, e)
    decreases e
  {
    match e
    case Binary(left, operator, right) =>
      PostfixUnparenthesised(numberText, left, c);
      PostfixUnparenthesised(numberText, right, c);
      FormatShapes(operator.lexeme, Text(Postfix, numberText, left), Text(Postfix, numberText, right));
    case Grouping(inner) =>
      PostfixUnparenthesised(numberText, inner, c);
      FormatShapes("group", Text(Postfix, numberText, inner), "");
    case Literal(literal) =>
    case Unary(operator, right) =>
      PostfixUnparenthesised(numberText, right, c);
      FormatShapes(operator.lexeme, Text(Postfix, numberText, right), "");
  }

  /**
   * Both printers write the same leaves, lexemes and separating spaces; the
   * prefix form adds exactly the two parentheses of each operator node.
   */
  lemma {:induction false} PrefixLongerByParentheses(numberText: real -> string, e: Expr)
    requires SimpleExpr(e)
    ensures |Text(Prefix, numberText, e)| == |Text(Postfix, numberText, e)| + 2 * Operators(e)
    decreases e
  {
    match e
    case Binary(left, operator, right) =>
      PrefixLongerByParentheses(numberText, left);
      PrefixLongerByParentheses(numberText, right);
      FormatShapes(operator.lexeme, Text(Prefix, numberText, left), Text(Prefix, numberText, right));
      FormatShapes(operator.lexeme, Text(Postfix, numberText, left), Text(Postfix, numberText, right));
    case Grouping(inner) =>
      PrefixLongerByParentheses(numberText, inner);
      FormatShapes("group", Text(Prefix, numberText, inner), "");
      FormatShapes("group", Text(Postfix, numberText, inner), "");
    case Literal(literal) =>
    case Unary(operator, right) =>
      PrefixLongerByParentheses(numberText, right);
      FormatShapes(operator.lexeme, Text(Prefix, numberText, right), "");
      FormatShapes(operator.lexeme, Text(Postfix, numberText, right), "");
  }

  /** The statement lines of AstRpnPrinter's block format: each text followed by a newline. */
  function Lines(texts: seq<string>): string {
    if |texts| == 0 then "" else Lines(texts[..|texts| - 1]) + texts[|texts| - 1] + "\n"
  }

  /** The text of format(name, stmts...), given how one statement prints. */
  function BlockText(name: string, texts: seq<string>): (t: string)
    ensures |t| >= 4 + |name| && t[..2] == "{\n" && t[|t| - |name| - 2..] == "} " + name
  {
    "{\n" + Lines(texts) + "} " + name
  }

  /** One line per statement: unless a statement's text holds a newline, the lines hold exactly one newline per statement. */
  lemma {:induction false} LinesPerStatement(texts: seq<string>)
    requires forall i :: 0 <= i < |texts| ==> '\n' !in texts[i]
    ensures multiset(Lines(texts))['\n'] == |texts|
  {
    if |texts| > 0 {
      LinesPerStatement(texts[..|texts| - 1]);
    }
  }

  /**
   * AstRpnPrinter's format(name, stmts...): "{", a newline, each statement's
   * text followed by a newline, then "} " and the name. The Stmt visitor it
   * relies on is not part of this model, so `stmtText` stands for it.
   */
  method FormatBlock(stmtText: Stmt -> string, name: string, stmts: seq<Stmt>) returns (s: string)
    ensures s == BlockText(name, seq(|stmts|, i requires 0 <= i < |stmts| => stmtText(stmts[i])))
  {
    ghost var texts := seq(|stmts|, i requires 0 <= i < |stmts| => stmtText(stmts[i]));
    s := "{\n";
    for i := 0 to |stmts|
      invariant s == "{\n" + Lines(texts[..i])
    {
      Extend(texts, i);
      s := s + stmtText(stmts[i]) + "\n";
    }
    assert texts[..|stmts|] == texts;
    s := s + "} " + name;
  }
}

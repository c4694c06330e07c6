/**
 * The syntax tree the jlox parser builds and the interpreter walks (the Java
 * Expr and Stmt classes are not part of this model; their shapes are those the
 * parser constructs and the visitors take apart).
 *
 * Java tells syntax nodes apart by object identity: the interpreter's `locals`
 * table is keyed by the node. Here the two node kinds it is keyed by, Variable and
 * Assign, carry an `id`: the parser sets it to the position of the node's name
 * token (Variable) or of its `=` token (Assign) in the token list.
 *
 * The parser answers `null` for a declaration it could not parse; statement lists
 * therefore hold `Option<Stmt>`, None standing for that null.
 */
module Ast {
  import opened Tokens
  import opened Wrappers

  datatype Expr =
    | Assign(id: int, name: Token, value: Expr)
    | Binary(left: Expr, operator: Token, right: Expr)
    | Call(callee: Expr, paren: Token, arguments: seq<Expr>)
    | Get(receiver: Expr, name: Token)
    | Grouping(expression: Expr)
    | Literal(literal: LiteralValue)
    | Logical(left: Expr, operator: Token, right: Expr)
    | Set(receiver: Expr, name: Token, value: Expr)
    | This(keyword: Token)
    | Unary(operator: Token, right: Expr)
    | Variable(id: int, name: Token)

  datatype FunctionDecl = FunctionDecl(name: Token, params: seq<Token>, body: seq<Option<Stmt>>)

  datatype Stmt =
    | Block(statements: seq<Option<Stmt>>)
    | Break
    | Class(name: Token, methods: seq<FunctionDecl>)
    | Expression(expression: Expr)
    | Function(decl: FunctionDecl)
    | If(condition: Expr, thenBranch: Stmt, elseBranch: Option<Stmt>)
    | Print(expression: Expr)
    | Return(keyword: Token, value: Option<Expr>)
    | Var(name: Token, initializer: Option<Expr>)
    | While(condition: Expr, body: Stmt)

  /**
   * An expression built only from the four node kinds of the early expression
   * grammar (binary, grouping, literal, unary): the ones the AST printers and
   * the expression-only evaluator have visit methods for.
   */
  predicate SimpleExpr(e: Expr) {
    match e
    case Binary(left, _, right) => SimpleExpr(left) && SimpleExpr(right)
    case Grouping(inner) => SimpleExpr(inner)
    case Literal(_) => true
    case Unary(_, right) => SimpleExpr(right)
    case _ => false
  }
}

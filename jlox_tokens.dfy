/**
 * The tokens jlox's parser consumes. The Java TokenType and Token classes are not
 * part of this model; the token kinds are those the parser and the interpreter
 * name, and a token's `literal` is the value a NUMBER or STRING token carries.
 */
module Tokens {

  datatype TokenType =
    // Single-character tokens.
    | LEFT_PAREN | RIGHT_PAREN | LEFT_BRACE | RIGHT_BRACE
    | COMMA | DOT | MINUS | PLUS | SEMICOLON | SLASH | STAR
    // One or two character tokens.
    | BANG | BANG_EQUAL | EQUAL | EQUAL_EQUAL
    | GREATER | GREATER_EQUAL | LESS | LESS_EQUAL
    // Literals.
    | IDENTIFIER | STRING | NUMBER
    // Keywords.
    | AND | BREAK | CLASS | ELSE | FALSE | FUN | FOR | IF | NIL | OR
    | PRINT | RETURN | SUPER | THIS | TRUE | VAR | WHILE
    | EOF

  /**
   * The Java objects a literal can hold: null, a Boolean, a Double or a String.
   * Lox numbers are modelled as reals, not IEEE doubles.
   */
  datatype LiteralValue =
    | NilValue
    | BoolValue(b: bool)
    | NumberValue(n: real)
    | StringValue(s: string)

  datatype Token = Token(tokenType: TokenType, lexeme: string, literal: LiteralValue, line: int)
}

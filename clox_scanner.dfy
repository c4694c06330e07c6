/**
 * The stub scanner of scanner.c: it only recognises the end of the source (a NUL
 * character) and answers every other position with an error token. Pointers into
 * the source are modelled as indices.
 */
module Scanner {
  import Keyword

  type TokenType = Keyword.TokenType

  /** Where a token's lexeme lives: in the source, or in a fixed message string. */
  datatype Lexeme = InSource(start: int) | Message(text: string)

  datatype Token = Token(tokenType: TokenType, lexeme: Lexeme, length: int, line: int)

  const UnexpectedCharacter: string := "Unexpected character."

  /**
   * The pointer and length of a token denote real characters: a span inside the
   * source, or the whole of a message (its length being the message's strlen).
   */
  predicate Denotes(source: seq<char>, t: Token) {
    match t.lexeme
    case InSource(s) => 0 <= s && 0 <= t.length && s + t.length <= |source|
    case Message(text) => t.length == |text|
  }

  /** The characters a token's lexeme pointer and length stand for. */
  function LexemeText(source: seq<char>, t: Token): seq<char>
    requires Denotes(source, t)
  {
    match t.lexeme
    case InSource(s) => source[s..s + t.length]
    case Message(text) => text
  }

  /** A C string: the source ends with (at least) one NUL character. */
  predicate IsCString(source: seq<char>) {
    |source| > 0 && source[|source| - 1] == '\0'
  }

  /**
   * The token scanToken answers at `current`, the lexeme having just been started
   * there: EOF with an empty lexeme on the NUL, otherwise the error message.
   */
  function TokenAt(source: seq<char>, current: int, line: int): (t: Token)
    requires 0 <= current < |source|
    ensures t.tokenType == Keyword.TOKEN_EOF <==> source[current] == '\0'
    ensures t.tokenType == Keyword.TOKEN_EOF ==> t == Token(Keyword.TOKEN_EOF, InSource(current), 0, line)
    ensures t.tokenType != Keyword.TOKEN_EOF ==>
      t.tokenType == Keyword.TOKEN_ERROR && t.lexeme == Message(UnexpectedCharacter) && t.length == 21 && t.line == line
  {
    if source[current] == '\0' then Token(Keyword.TOKEN_EOF, InSource(current), 0, line)
    else Token(Keyword.TOKEN_ERROR, Message(UnexpectedCharacter), |UnexpectedCharacter|, line)
  }

  class ScannerState {
    var source: seq<char>
    /** Start of the current lexeme. */
    var start: int
    /** Next character to scan. */
    var current: int
    /** Line number at `current`. */
    var line: int

    ghost predicate Valid()
      reads this
    {
      IsCString(source) && 0 <= start <= current < |source|
    }

    /** initScanner: both cursors at the start of the source, on line 1. */
    constructor (src: seq<char>)
      requires IsCString(src)
      ensures Valid() && source == src && start == 0 && current == 0 && line == 1
    {
      source, start, current, line := src, 0, 0, 1;
    }

    /** initScanner on an existing scanner. */
    method InitScanner(src: seq<char>)
      requires IsCString(src)
      modifies this
      ensures Valid() && source == src && start == 0 && current == 0 && line == 1
    {
      source, start, current, line := src, 0, 0, 1;
    }

    /** isAtEnd: the next character is the terminating NUL. */
    function IsAtEnd(): (b: bool)
      reads this
      requires Valid()
      ensures b <==> source[current] == '\0'
      ensures current == |source| - 1 ==> b
    {
      source[current] == '\0'
    }

    /** makeToken: a token spanning start .. current on the current line. */
    function MakeToken(tokenType: TokenType): (t: Token)
      reads this
      requires Valid()
      ensures t.tokenType == tokenType && t.line == line && t.lexeme.InSource?
      ensures Denotes(source, t) && LexemeText(source, t) == source[start..current]
    {
      Token(tokenType, InSource(start), current - start, line)
    }

    /** errorToken: a token whose lexeme is the message, with the message's length. */
    function ErrorToken(message: string): (t: Token)
      reads this
      ensures t.tokenType == Keyword.TOKEN_ERROR && t.line == line && t.lexeme.Message?
      ensures forall source :: Denotes(source, t) && LexemeText(source, t) == message
    {
      Token(Keyword.TOKEN_ERROR, Message(message), |message|, line)
    }

    /**
     * scanToken: start a lexeme at `current`; answer EOF at the end, an error
     * token anywhere else. Neither `current` nor `line` moves, so calling it
     * again gives the same token.
     */
    method ScanToken() returns (token: Token)
      requires Valid()
      modifies this
      ensures Valid() && start == current
      ensures source == old(source) && current == old(current) && line == old(line)
      ensures token == TokenAt(source, current, line)
    {
      start := current;
      if IsAtEnd() {
        return MakeToken(Keyword.TOKEN_EOF);
      }
      return ErrorToken(UnexpectedCharacter);
    }
  }
}

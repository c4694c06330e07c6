/**
 * clox's keyword recogniser (keyword.c): a nest of switches on the first one or
 * two characters of a lexeme, then an exact comparison of the rest.
 */
module Keyword {

  /** The token types of token_type.h, the header keyword.c is built against. */
  datatype TokenType =
    | TOKEN_ERROR | TOKEN_EOF
    | TOKEN_LEFT_PAREN | TOKEN_RIGHT_PAREN | TOKEN_LEFT_BRACE | TOKEN_RIGHT_BRACE
    | TOKEN_COMMA | TOKEN_DOT | TOKEN_MINUS | TOKEN_PLUS
    | TOKEN_SEMICOLON | TOKEN_SLASH | TOKEN_STAR
    | TOKEN_BANG | TOKEN_BANG_EQUAL | TOKEN_EQUAL | TOKEN_EQUAL_EQUAL
    | TOKEN_GREATER | TOKEN_GREATER_EQUAL | TOKEN_LESS | TOKEN_LESS_EQUAL
    | TOKEN_IDENTIFIER | TOKEN_STRING | TOKEN_NUMBER
    | TOKEN_AND | TOKEN_CLASS | TOKEN_ELSE | TOKEN_FALSE | TOKEN_FUN | TOKEN_FOR
    | TOKEN_IF | TOKEN_NIL | TOKEN_OR
    | TOKEN_PRINT | TOKEN_RETURN | TOKEN_SUPER | TOKEN_THIS | TOKEN_TRUE | TOKEN_VAR
    | TOKEN_WHILE
    | TOKEN_BREAK

  /** The reserved words of Lox, with the token type each one scans to. */
  const Keywords: map<string, TokenType> := map[
    "and" := TOKEN_AND, "break" := TOKEN_BREAK, "class" := TOKEN_CLASS,
    "else" := TOKEN_ELSE, "false" := TOKEN_FALSE, "for" := TOKEN_FOR,
    "fun" := TOKEN_FUN, "if" := TOKEN_IF, "nil" := TOKEN_NIL, "or" := TOKEN_OR,
    "print" := TOKEN_PRINT, "return" := TOKEN_RETURN, "super" := TOKEN_SUPER,
    "this" := TOKEN_THIS, "true" := TOKEN_TRUE, "var" := TOKEN_VAR,
    "while" := TOKEN_WHILE]

  predicate IsKeywordType(tt: TokenType) {
    tt in {TOKEN_AND, TOKEN_BREAK, TOKEN_CLASS, TOKEN_ELSE, TOKEN_FALSE, TOKEN_FOR,
           TOKEN_FUN, TOKEN_IF, TOKEN_NIL, TOKEN_OR, TOKEN_PRINT, TOKEN_RETURN,
           TOKEN_SUPER, TOKEN_THIS, TOKEN_TRUE, TOKEN_VAR, TOKEN_WHILE}
  }

  /** One arm of CASE_RETURN_MAYBE: the rest of the lexeme from `o` must be exactly `rest`. */
  function CaseReturnMaybe(t: seq<char>, n: int, o: nat, rest: string, tok: TokenType): (r: TokenType)
    requires o <= n <= |t|
    ensures r == tok || r == TOKEN_IDENTIFIER
    ensures r == tok <== t[o..n] == rest
    ensures tok != TOKEN_IDENTIFIER && r == tok ==> t[o..n] == rest
  {
    if n - o == |rest| && t[o..n] == rest then tok else TOKEN_IDENTIFIER
  }

  /**
   * keyword_token_type(t, n): the keyword type of the lexeme t[0..n), or
   * TOKEN_IDENTIFIER. Lengths below two are never keywords.
   */
  function KeywordTokenType(t: seq<char>, n: int): (r: TokenType)
    requires n <= |t|
    ensures n <= 1 ==> r == TOKEN_IDENTIFIER
    ensures r == TOKEN_IDENTIFIER || IsKeywordType(r)
  {
    if n > 1 then
      match t[0]
      case 'a' => CaseReturnMaybe(t, n, 1, "nd", TOKEN_AND)
      case 'b' => CaseReturnMaybe(t, n, 1, "reak", TOKEN_BREAK)
      case 'c' => CaseReturnMaybe(t, n, 1, "lass", TOKEN_CLASS)
      case 'e' => CaseReturnMaybe(t, n, 1, "lse", TOKEN_ELSE)
      case 'i' => CaseReturnMaybe(t, n, 1, "f", TOKEN_IF)
      case 'n' => CaseReturnMaybe(t, n, 1, "il", TOKEN_NIL)
      case 'o' => CaseReturnMaybe(t, n, 1, "r", TOKEN_OR)
      case 'p' => CaseReturnMaybe(t, n, 1, "rint", TOKEN_PRINT)
      case 'r' => CaseReturnMaybe(t, n, 1, "eturn", TOKEN_RETURN)
      case 's' => CaseReturnMaybe(t, n, 1, "uper", TOKEN_SUPER)
      case 'v' => CaseReturnMaybe(t, n, 1, "ar", TOKEN_VAR)
      case 'w' => CaseReturnMaybe(t, n, 1, "hile", TOKEN_WHILE)
      case 'f' =>
        (match t[1]
         case 'a' => CaseReturnMaybe(t, n, 2, "lse", TOKEN_FALSE)
         case 'o' => CaseReturnMaybe(t, n, 2, "r", TOKEN_FOR)
         case 'u' => CaseReturnMaybe(t, n, 2, "n", TOKEN_FUN)
         case _ => TOKEN_IDENTIFIER)
      case 't' =>
        (match t[1]
         case 'h' => CaseReturnMaybe(t, n, 2, "is", TOKEN_THIS)
         case 'r' => CaseReturnMaybe(t, n, 2, "ue", TOKEN_TRUE)
         case _ => TOKEN_IDENTIFIER)
      case _ => TOKEN_IDENTIFIER
    else TOKEN_IDENTIFIER
  }

  /** The reference definition: look the whole lexeme up in the keyword table. */
  function LookUp(w: string): TokenType {
    if w in Keywords then Keywords[w] else TOKEN_IDENTIFIER
  }

  /** The nested switches agree with a lookup of t[0..n) in the keyword table. */
  lemma {:induction false} KeywordTokenTypeIsLookUp(t: seq<char>, n: int)
    requires 0 <= n <= |t|
    ensures KeywordTokenType(t, n) == LookUp(t[..n])
  {
    var w := t[..n];
    if n > 1 {
      assert w[0] == t[0] && w[1] == t[1];
      assert t[1..n] == w[1..] && t[2..n] == w[2..];
      forall k | k in Keywords
        ensures k == w ==> KeywordTokenType(t, n) == Keywords[k]
      {
        if k == w {
          assert k[0] == t[0];
          assert k[1..] == t[1..n];
          assert k[2..] == t[2..n];
        }
      }
      if w !in Keywords {
        KeywordTokenTypeNotKeyword(t, n);
      }
    }
  }

  lemma {:induction false} KeywordTokenTypeNotKeyword(t: seq<char>, n: int)
    requires 1 < n <= |t|
    requires t[..n] !in Keywords
    ensures KeywordTokenType(t, n) == TOKEN_IDENTIFIER
  {
    var w := t[..n];
    assert w == t[..1] + t[1..n];
    assert t[..1] == [t[0]];
    if t[0] in "ft" {
      assert t[1..n] == t[1..2] + t[2..n] && t[1..2] == [t[1]];
    }
    match t[0]
    case 'a' => assert t[1..n] == "nd" ==> w == "and";
    case 'b' => assert t[1..n] == "reak" ==> w == "break";
    case 'c' => assert t[1..n] == "lass" ==> w == "class";
    case 'e' => assert t[1..n] == "lse" ==> w == "else";
    case 'i' => assert t[1..n] == "f" ==> w == "if";
    case 'n' => assert t[1..n] == "il" ==> w == "nil";
    case 'o' => assert t[1..n] == "r" ==> w == "or";
    case 'p' => assert t[1..n] == "rint" ==> w == "print";
    case 'r' => assert t[1..n] == "eturn" ==> w == "return";
    case 's' => assert t[1..n] == "uper" ==> w == "super";
    case 'v' => assert t[1..n] == "ar" ==> w == "var";
    case 'w' => assert t[1..n] == "hile" ==> w == "while";
    case 'f' =>
      assert t[1] == 'a' && t[2..n] == "lse" ==> w == "false";
      assert t[1] == 'o' && t[2..n] == "r" ==> w == "for";
      assert t[1] == 'u' && t[2..n] == "n" ==> w == "fun";
    case 't' =>
      assert t[1] == 'h' && t[2..n] == "is" ==> w == "this";
      assert t[1] == 'r' && t[2..n] == "ue" ==> w == "true";
    case _ =>
  }

  /** A keyword is determined by its first two characters. */
  lemma FirstTwoCharsDetermineKeyword(w: string)
    requires w in Keywords
    ensures |w| >= 2
    ensures w[0] == 'a' ==> w == "and"
    ensures w[0] == 'b' ==> w == "break"
    ensures w[0] == 'c' ==> w == "class"
    ensures w[0] == 'e' ==> w == "else"
    ensures w[0] == 'f' && w[1] == 'a' ==> w == "false"
    ensures w[0] == 'f' && w[1] == 'o' ==> w == "for"
    ensures w[0] == 'f' && w[1] == 'u' ==> w == "fun"
    ensures w[0] == 'i' ==> w == "if"
    ensures w[0] == 'n' ==> w == "nil"
    ensures w[0] == 'o' ==> w == "or"
    ensures w[0] == 'p' ==> w == "print"
    ensures w[0] == 'r' ==> w == "return"
    ensures w[0] == 's' ==> w == "super"
    ensures w[0] == 't' && w[1] == 'h' ==> w == "this"
    ensures w[0] == 't' && w[1] == 'r' ==> w == "true"
    ensures w[0] == 'v' ==> w == "var"
    ensures w[0] == 'w' ==> w == "while"
  {
    assert w == "and" || w == "break" || w == "class" || w == "else" || w == "false" || w == "for" || w == "fun" || w == "if" || w == "nil" || w == "or" || w == "print" || w == "return" || w == "super" || w == "this" || w == "true" || w == "var" || w == "while";
  }

  /** No keyword is a proper prefix of another keyword. */
  lemma {:induction false} NoKeywordIsAPrefix(w1: string, w2: string)
    requires w1 in Keywords && w2 in Keywords
    requires |w1| < |w2|
    ensures w2[..|w1|] != w1
  {
    FirstTwoCharsDetermineKeyword(w1);
    FirstTwoCharsDetermineKeyword(w2);
    var a0, a1, b0, b1 := w1[0], w1[1], w2[0], w2[1];
    assert w2[..|w1|] == w1 ==> a0 == b0 && a1 == b1;
  }

  /**
   * The self-test's claim: a proper prefix of a keyword, or the keyword followed by
   * further characters, is an identifier.
   */
  lemma {:induction false} PrefixesAndExtensionsAreIdentifiers(t: seq<char>, w: string, n: int)
    requires w in Keywords
    requires |w| <= |t| && t[..|w|] == w
    requires 0 <= n <= |t| && n != |w|
    ensures KeywordTokenType(t, n) == TOKEN_IDENTIFIER
  {
    KeywordTokenTypeIsLookUp(t, n);
    var v := t[..n];
    if v in Keywords {
      if n < |w| {
        assert w[..n] == v;
        NoKeywordIsAPrefix(v, w);
      } else {
        assert v[..|w|] == w;
        NoKeywordIsAPrefix(w, v);
      }
    }
  }

  /** The answer depends only on the first n characters. */
  lemma {:induction false} OnlyPrefixMatters(t1: seq<char>, t2: seq<char>, n: int)
    requires 0 <= n <= |t1| && n <= |t2|
    requires t1[..n] == t2[..n]
    ensures KeywordTokenType(t1, n) == KeywordTokenType(t2, n)
  {
    KeywordTokenTypeIsLookUp(t1, n);
    KeywordTokenTypeIsLookUp(t2, n);
  }

  /** Every keyword of the table is recognised when it is the whole lexeme. */
  lemma {:induction false} KeywordsAreRecognised(t: seq<char>, w: string)
    requires w in Keywords && |w| <= |t| && t[..|w|] == w
    ensures KeywordTokenType(t, |w|) == Keywords[w]
  {
    KeywordTokenTypeIsLookUp(t, |w|);
  }
}

/** SQL quoting against the lexer that reads it back. */
module Quoting {
  import opened Text

  /** strings.ReplaceAll for a one-character pattern. */
  function ReplaceChar(s: string, c: char, with: string): string {
    if s == [] then [] else (if s[0] == c then with else [s[0]]) + ReplaceChar(s[1..], c, with)
  }

  /** A delimited identifier: the delimiter is doubled inside. */
  function EscapeIdentifier(q: char, s: string): string {
    [q] + ReplaceChar(s, q, [q, q]) + [q]
  }

  /** A string literal: quotes are doubled first, then backslashes. */
  function EscapeLiteral(s: string): string {
    "'" + ReplaceChar(ReplaceChar(s, '\'', "''"), '\\', "\\\\") + "'"
  }

  // ----- The lexer ----------------------------------------------------------------------------------------

  datatype Token = Token(text: string, rest: string)

  function Prepend(c: char, t: Option<Token>): Option<Token> {
    match t
    case None => None
    case Some(tok) => Some(Token([c] + tok.text, tok.rest))
  }

  /** What a character means after a backslash. */
  function Unescape(c: char): char {
    if c == 'n' then '\n' else if c == 't' then '\t' else if c == 'r' then '\r' else if c == '0' then '\0' else c
  }

  /** Reads up to the closing delimiter; a doubled delimiter stands for one. */
  function LexBody(q: char, backslash: bool, t: string): Option<Token> {
    if t == [] then None
    else if backslash && t[0] == '\\' then
      if |t| < 2 then None else Prepend(Unescape(t[1]), LexBody(q, backslash, t[2..]))
    else if t[0] == q then
      if |t| >= 2 && t[1] == q then Prepend(q, LexBody(q, backslash, t[2..]))
      else Some(Token("", t[1..]))
    else Prepend(t[0], LexBody(q, backslash, t[1..]))
  }

  function LexQuoted(q: char, backslash: bool, t: string): Option<Token> {
    if t == [] || t[0] != q then None else LexBody(q, backslash, t[1..])
  }

  lemma LexDoubled(q: char, backslash: bool, tail: string)
    requires backslash ==> q != '\\'
    ensures LexBody(q, backslash, [q, q] + tail) == Prepend(q, LexBody(q, backslash, tail))
  {
    assert ([q, q] + tail)[2..] == tail;
  }

  lemma LexBackslash(q: char, tail: string)
    ensures LexBody(q, true, ['\\', '\\'] + tail) == Prepend('\\', LexBody(q, true, tail))
  {
    assert (['\\', '\\'] + tail)[2..] == tail;
  }

  lemma LexPlain(q: char, backslash: bool, c: char, tail: string)
    requires c != q && (backslash ==> c != '\\')
    ensures LexBody(q, backslash, [c] + tail) == Prepend(c, LexBody(q, backslash, tail))
  {
    assert ([c] + tail)[1..] == tail;
  }

  // ----- Identifiers -----------------------------------------------------------------------------------------

  lemma EscapedTail(q: char, s: string, rest: string)
    requires s != []
    ensures ReplaceChar(s, q, [q, q]) + [q] + rest
         == (if s[0] == q then [q, q] else [s[0]]) + (ReplaceChar(s[1..], q, [q, q]) + [q] + rest)
  {}

  lemma {:induction false} LexEscapedIdentifierBody(q: char, s: string, rest: string)
    requires rest == [] || rest[0] != q
    ensures LexBody(q, false, ReplaceChar(s, q, [q, q]) + [q] + rest) == Some(Token(s, rest))
  {
    if s == [] {
      var t := [q] + rest;
      assert ReplaceChar(s, q, [q, q]) + [q] + rest == t && t[1..] == rest;
    } else {
      assert s == [s[0]] + s[1..];
      var tail := ReplaceChar(s[1..], q, [q, q]) + [q] + rest;
      LexEscapedIdentifierBody(q, s[1..], rest);
      EscapedTail(q, s, rest);
      if s[0] == q {
        LexDoubled(q, false, tail);
      } else {
        LexPlain(q, false, s[0], tail);
      }
    }
  }

  /** The lexer consumes exactly the quoted identifier and yields the name, for every string. */
  lemma IdentifierRoundTrip(q: char, s: string, rest: string)
    requires rest == [] || rest[0] != q
    ensures LexQuoted(q, false, EscapeIdentifier(q, s) + rest) == Some(Token(s, rest))
  {
    var t := EscapeIdentifier(q, s) + rest;
    assert t[1..] == ReplaceChar(s, q, [q, q]) + [q] + rest;
    LexEscapedIdentifierBody(q, s, rest);
  }

  // ----- Literals --------------------------------------------------------------------------------------------

  /** Both replacements at once, character by character. */
  function EscapedBody(s: string): string {
    if s == [] then []
    else (if s[0] == '\'' then "''" else if s[0] == '\\' then "\\\\" else [s[0]]) + EscapedBody(s[1..])
  }

  lemma {:induction false} ReplaceConcat(x: string, y: string, c: char, t: string)
    ensures ReplaceChar(x + y, c, t) == ReplaceChar(x, c, t) + ReplaceChar(y, c, t)
  {
    if x == [] {
      assert x + y == y;
    } else {
      assert (x + y)[1..] == x[1..] + y;
      ReplaceConcat(x[1..], y, c, t);
    }
  }

  lemma ReplaceTwo(c: char, t: string, x: char)
    requires x != c
    ensures ReplaceChar([x], c, t) == [x] && ReplaceChar([x, x], c, t) == [x, x]
  {
    assert [x][1..] == [] && [x, x][1..] == [x];
    assert ReplaceChar([x], c, t) == [x] + ReplaceChar([], c, t);
    assert ReplaceChar([x, x], c, t) == [x] + ReplaceChar([x], c, t);
  }

  lemma ReplaceHit(c: char, t: string)
    ensures ReplaceChar([c], c, t) == t
  {
    assert ReplaceChar([c], c, t) == t + ReplaceChar([], c, t);
  }

  /** The two passes do not interfere. */
  lemma {:induction false} TwoPassesAreOne(s: string)
    ensures ReplaceChar(ReplaceChar(s, '\'', "''"), '\\', "\\\\") == EscapedBody(s)
  {
    if s == [] {
    } else {
      var head := if s[0] == '\'' then "''" else [s[0]];
      TwoPassesAreOne(s[1..]);
      ReplaceConcat(head, ReplaceChar(s[1..], '\'', "''"), '\\', "\\\\");
      if s[0] == '\\' {
        ReplaceHit('\\', "\\\\");
      } else {
        ReplaceTwo('\\', "\\\\", s[0]);
      }
    }
  }

  lemma EscapedBodyTail(s: string, rest: string)
    requires s != []
    ensures EscapedBody(s) + "'" + rest
         == (if s[0] == '\'' then ['\'', '\''] else if s[0] == '\\' then ['\\', '\\'] else [s[0]])
            + (EscapedBody(s[1..]) + "'" + rest)
  {}

  lemma {:induction false} LexEscapedLiteralBody(s: string, rest: string)
    requires rest == [] || rest[0] != '\''
    ensures LexBody('\'', true, EscapedBody(s) + "'" + rest) == Some(Token(s, rest))
  {
    if s == [] {
      var t := "'" + rest;
      assert EscapedBody(s) + "'" + rest == t && t[1..] == rest;
    } else {
      assert s == [s[0]] + s[1..];
      var tail := EscapedBody(s[1..]) + "'" + rest;
      LexEscapedLiteralBody(s[1..], rest);
      EscapedBodyTail(s, rest);
      if s[0] == '\'' {
        LexDoubled('\'', true, tail);
      } else if s[0] == '\\' {
        LexBackslash('\'', tail);
      } else {
        LexPlain('\'', true, s[0], tail);
      }
    }
  }

  /** The lexer consumes exactly the quoted literal and yields the string, for every string. */
  lemma LiteralRoundTrip(s: string, rest: string)
    requires rest == [] || rest[0] != '\''
    ensures LexQuoted('\'', true, EscapeLiteral(s) + rest) == Some(Token(s, rest))
  {
    TwoPassesAreOne(s);
    var t := EscapeLiteral(s) + rest;
    assert t[1..] == EscapedBody(s) + "'" + rest;
    LexEscapedLiteralBody(s, rest);
  }
}

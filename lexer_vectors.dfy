/**
 * The pieces `lex` reads: one gap of whitespace and one lexeme at a time. `TokenStep` says
 * what one such piece contributes to the token list, and the `*Piece` lemmas say which
 * token the pattern table finds for each kind of lexeme.
 */
module LexerVectors {
  import opened Wrappers
  import opened Numerals
  import opened Lexer
  import opened LexerProperties

  // ---------------------------------------------------------------------------------------
  // One gap and one lexeme

  lemma {:induction false} SpaceRunEndAt(s: string, i: nat, m: nat)
    requires i <= m <= |s|
    requires forall k :: i <= k < m ==> IsSpace(s[k])
    requires m == |s| || !IsSpace(s[m])
    ensures SpaceRunEnd(s, i) == m
    decreases m - i
  {
    if i < m {
      SpaceRunEndAt(s, i + 1, m);
    }
  }

  /** `lstrip` removes a gap of whitespace and stops at the first character after it. */
  lemma StripGap(gap: string, rest: string)
    requires AllSpace(gap) && (rest == [] || !IsSpace(rest[0]))
    ensures LStrip(gap + rest) == rest
  {
    var s := gap + rest;
    assert forall k :: 0 <= k < |gap| ==> s[k] == gap[k];
    assert |gap| < |s| ==> s[|gap|] == rest[0];
    SpaceRunEndAt(s, 0, |gap|);
    assert s[|gap|..] == rest;
  }

  /**
   * A gap of whitespace and then a token that is not WHITESPACE: `lex` emits the token and
   * goes on with what follows it.
   */
  lemma TokenStep(gap: string, t: Token, rest: string)
    requires AllSpace(gap) && t.lexeme != [] && !IsSpace(t.lexeme[0]) && t.kind != Whitespace
    requires Scan(t.lexeme + rest) == Some(t)
    ensures LexSpec(gap + t.lexeme + rest) == Prepend([t], LexSpec(rest))
  {
    var s := t.lexeme + rest;
    assert gap + t.lexeme + rest == gap + s;
    assert s[0] == t.lexeme[0];
    StripGap(gap, s);
    LexSpecStrip(gap + s);
    StripGap("", s);
    assert "" + s == s;
    LexSpecStep(s);
    assert s[|t.lexeme|..] == rest;
  }

  // ---------------------------------------------------------------------------------------
  // The token each kind of lexeme yields

  /** The characters a two-character operator can end with. */
  predicate IsPairSecond(c: char) {
    c == '&' || c == '-' || c == '+' || c == '=' || c == '|'
  }

  lemma PairSecond(kind: TokenKind)
    requires |Spelling(kind)| == 2
    ensures IsPairSecond(Spelling(kind)[1])
  {
  }

  /** A two-character operator, whatever follows it. */
  lemma PairPiece(kind: TokenKind, rest: string)
    requires |Spelling(kind)| == 2
    ensures Scan(Spelling(kind) + rest) == Some(Token(kind, Spelling(kind)))
  {
    assert (Spelling(kind) + rest)[..2] == Spelling(kind);
    TwoCharOperatorWins(Spelling(kind) + rest, kind);
  }

  /** A one-character operator or punctuator, followed by nothing a pair could end with. */
  lemma SinglePiece(kind: TokenKind, rest: string)
    requires |Spelling(kind)| == 1 && (rest == [] || !IsPairSecond(rest[0]))
    ensures Scan(Spelling(kind) + rest) == Some(Token(kind, Spelling(kind)))
  {
    var s := Spelling(kind) + rest;
    assert s[..1] == Spelling(kind);
    if rest != [] {
      assert s[1] == rest[0];
    }
    forall k: TokenKind | |Spelling(k)| == 2 ensures !HasPrefix(s, Spelling(k)) {
      PairSecond(k);
    }
    OneCharOperator(s, kind);
  }

  /** A keyword, followed by nothing that would continue the word. */
  lemma KeywordPiece(w: string, rest: string)
    requires IsKeywordText(w) && (rest == [] || !IsWordChar(rest[0]))
    ensures Scan(w + rest) == Some(Token(Keyword, w))
  {
    var s := w + rest;
    assert forall k :: 0 <= k < |w| ==> s[k] == w[k] && IsWordChar(w[k]);
    assert |w| < |s| ==> s[|w|] == rest[0];
    WordRunEndAt(s, 1, |w|);
    assert s[..|w|] == w;
    WordToken(s);
  }

  lemma {:induction false} LineEndAt(s: string, i: nat, m: nat)
    requires i <= m <= |s|
    requires forall k :: i <= k < m ==> s[k] != '\n'
    requires m == |s| || s[m] == '\n'
    ensures LineEnd(s, i) == m
    decreases m - i
  {
    if i < m {
      LineEndAt(s, i + 1, m);
    }
  }

  /** A line comment, followed by the end of its line. */
  lemma LineCommentPiece(text: string, rest: string)
    requires |text| >= 2 && text[0] == '/' && text[1] == '/' && '\n' !in text
    requires rest == [] || rest[0] == '\n'
    ensures Scan(text + rest) == Some(Token(Comment, text))
  {
    var s := text + rest;
    assert forall k :: 0 <= k < |text| ==> s[k] == text[k] && text[k] in text;
    assert |text| < |s| ==> s[|text|] == rest[0];
    LineEndAt(s, 2, |text|);
    assert s[..|text|] == text;
    LineCommentToken(s);
  }

  lemma {:induction false} CloserFromAt(s: string, i: nat, m: nat)
    requires i <= m && CloserAt(s, m)
    requires forall k :: i <= k < m ==> s[k] != '*'
    ensures CloserFrom(s, i) == Some(m)
    decreases m - i
  {
    if i < m {
      CloserFromAt(s, i + 1, m);
    }
  }

  /** A block comment with no star before its closing star-slash, whatever follows it. */
  lemma BlockCommentPiece(text: string, rest: string)
    requires |text| >= 4 && text[0] == '/' && text[1] == '*'
    requires text[|text| - 2] == '*' && text[|text| - 1] == '/' && '*' !in text[2..|text| - 2]
    ensures Scan(text + rest) == Some(Token(Comment, text))
  {
    var s := text + rest;
    var inner := text[2..|text| - 2];
    assert forall k :: 2 <= k < |text| - 2 ==> s[k] == inner[k - 2] && inner[k - 2] in inner;
    assert s[|text| - 2] == '*' && s[|text| - 1] == '/';
    CloserFromAt(s, 2, |text| - 2);
    assert s[..|text|] == text;
    BlockCommentToken(s);
  }

  lemma {:induction false} DigitRunEndAt(s: string, i: nat, m: nat)
    requires i <= m <= |s|
    requires forall k :: i <= k < m ==> IsDigit(s[k])
    requires m == |s| || !IsDigit(s[m])
    ensures DigitRunEnd(s, i) == m
    decreases m - i
  {
    if i < m {
      DigitRunEndAt(s, i + 1, m);
    }
  }

  /** A numeral, followed by nothing that would continue the word. */
  lemma NumeralPiece(text: string, rest: string)
    requires IsDigits(text) && (rest == [] || !IsWordChar(rest[0]))
    ensures Scan(text + rest) == Some(Token(IntegerConst, text))
  {
    var s := text + rest;
    assert forall k :: 0 <= k < |text| ==> s[k] == text[k];
    assert |text| < |s| ==> s[|text|] == rest[0];
    DigitRunEndAt(s, 0, |text|);
    assert s[..|text|] == text;
    NumeralToken(s);
  }
}

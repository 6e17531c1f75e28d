/**
 * What the lexer promises: the priority rules of its pattern table, how comments end,
 * when it fails, and that the tokens it returns, with runs of whitespace between them,
 * spell out the source again.
 */
module LexerProperties {
  import opened Wrappers
  import opened Numerals
  import opened Lexer

  // ---------------------------------------------------------------------------------------
  // Empty and blank input

  lemma {:induction false} AllSpaceRunEnd(s: string, i: nat)
    requires i <= |s| && AllSpace(s[i..])
    ensures SpaceRunEnd(s, i) == |s|
    decreases |s| - i
  {
    if i < |s| {
      assert s[i] == s[i..][0];
      assert s[i + 1..] == s[i..][1..];
      AllSpaceRunEnd(s, i + 1);
    }
  }

  /** Input made only of whitespace, the empty input included, lexes to no tokens. */
  lemma BlankLexesToNothing(s: string)
    requires AllSpace(s)
    ensures LexSpec(s) == Ok([])
  {
    assert s[0..] == s;
    AllSpaceRunEnd(s, 0);
  }

  // ---------------------------------------------------------------------------------------
  // The source is the lexemes in order, with whitespace between them

  /** `gaps[0] + lexeme_0 + gaps[1] + lexeme_1 + ... + gaps[n]`. */
  function Interleave(gaps: seq<string>, ts: seq<Token>): string
    requires |gaps| == |ts| + 1
  {
    if ts == [] then gaps[0] else gaps[0] + ts[0].lexeme + Interleave(gaps[1..], ts[1..])
  }

  predicate AllBlank(gaps: seq<string>) {
    forall i :: 0 <= i < |gaps| ==> AllSpace(gaps[i])
  }

  lemma SplitAt(s: string, n: nat)
    requires n <= |s|
    ensures s == s[..n] + s[n..]
  {
  }

  lemma InterleaveCons(g: string, t: Token, gaps: seq<string>, ts: seq<Token>)
    requires |gaps| == |ts| + 1
    ensures Interleave([g] + gaps, [t] + ts) == g + (t.lexeme + Interleave(gaps, ts))
  {
    assert ([g] + gaps)[1..] == gaps && ([t] + ts)[1..] == ts;
  }

  lemma AllBlankCons(g: string, gaps: seq<string>)
    requires AllSpace(g) && AllBlank(gaps)
    ensures AllBlank([g] + gaps)
  {
    forall i | 0 <= i < |[g] + gaps| ensures AllSpace(([g] + gaps)[i]) {
      if i > 0 {
        assert ([g] + gaps)[i] == gaps[i - 1];
      }
    }
  }

  /**
   * Nothing is lost and nothing is invented: the source is the lexemes of the result in
   * order, with nothing but whitespace around and between them.
   */
  lemma {:induction false} LexLayout(source: string)
    requires LexSpec(source).Ok?
    ensures exists gaps :: |gaps| == |LexSpec(source).value| + 1 && AllBlank(gaps)
                           && Interleave(gaps, LexSpec(source).value) == source
    decreases |source|
  {
    var k := SpaceRunEnd(source, 0);
    var lead := source[..k];
    var s := source[k..];
    SpaceRunAllSpace(source, 0);
    assert AllSpace(lead);
    assert source == lead + s;
    if s == [] {
      var gaps := [source];
      assert LexSpec(source).value == [];
      assert Interleave(gaps, LexSpec(source).value) == source;
      assert AllBlank(gaps) by {
        assert source == lead;
      }
    } else {
      var t := Scan(s).value;
      var rest := s[|t.lexeme|..];
      ScanAfterStripIsNotWhitespace(s);
      LexSpecStep(s);
      assert LexSpec(source) == Prepend([t], LexSpec(rest));
      LexLayout(rest);
      var ts := LexSpec(rest).value;
      var gaps :| |gaps| == |ts| + 1 && AllBlank(gaps) && Interleave(gaps, ts) == rest;
      assert LexSpec(source).value == [t] + ts;
      InterleaveCons(lead, t, gaps, ts);
      AllBlankCons(lead, gaps);
      assert t.lexeme == s[..|t.lexeme|];
      SplitAt(s, |t.lexeme|);
      assert Interleave([lead] + gaps, [t] + ts) == source;
    }
  }

  // ---------------------------------------------------------------------------------------
  // The pattern table's priorities

  /**
   * No two operator texts of the same length begin with the same character, so the
   * first character and the length name the operator.
   */
  lemma SameHeadSameOperator(k1: TokenKind, k2: TokenKind)
    requires Spelling(k1) != [] && |Spelling(k1)| == |Spelling(k2)| && Spelling(k1)[0] == Spelling(k2)[0]
    ensures k1 == k2
  {
  }

  /**
   * Among the operator and punctuation texts, the first one in table order that begins
   * `s` is the token found: the keyword, identifier and numeral patterns before them
   * never match a text that begins with an operator character.
   */
  lemma FirstOperatorWins(s: string, kind: TokenKind)
    requires Spelling(kind) != [] && HasPrefix(s, Spelling(kind))
    requires forall j :: 3 <= j < IndexOf(kind) ==> !HasPrefix(s, Spelling(TokenPatterns[j]))
    ensures Scan(s) == Some(Token(kind, Spelling(kind)))
  {
    var idx := IndexOf(kind);
    FixedIndex(kind);
    SpellingHead(kind);
    MatchFixed(kind, s);
    forall j | 0 <= j < idx ensures Match(TokenPatterns[j], s).None? {
      if j < 3 {
        if Match(TokenPatterns[j], s).Some? {
          MatchHead(TokenPatterns[j], s);
        }
      } else {
        FixedEntry(j);
        MatchFixed(TokenPatterns[j], s);
      }
    }
    FirstMatchAt(s, 0, idx);
  }

  /**
   * A two-character operator is one token, never its one-character prefix followed by
   * another token: `==` is EQUAL_EQUAL, not two EQUALs.
   */
  lemma TwoCharOperatorWins(s: string, kind: TokenKind)
    requires |Spelling(kind)| == 2 && HasPrefix(s, Spelling(kind))
    ensures Scan(s) == Some(Token(kind, Spelling(kind)))
  {
    var idx := IndexOf(kind);
    FixedIndex(kind);
    FixedEntry(idx);
    forall j | 3 <= j < idx ensures !HasPrefix(s, Spelling(TokenPatterns[j])) {
      FixedEntry(j);
      IndexOfEntry(j);
      if HasPrefix(s, Spelling(TokenPatterns[j])) {
        SameHeadSameOperator(TokenPatterns[j], kind);
      }
    }
    FirstOperatorWins(s, kind);
  }

  /**
   * A one-character operator or punctuator is found exactly where no two-character
   * operator begins.
   */
  lemma OneCharOperator(s: string, kind: TokenKind)
    requires |Spelling(kind)| == 1 && HasPrefix(s, Spelling(kind))
    requires forall k: TokenKind :: |Spelling(k)| == 2 ==> !HasPrefix(s, Spelling(k))
    ensures Scan(s) == Some(Token(kind, Spelling(kind)))
  {
    var idx := IndexOf(kind);
    FixedIndex(kind);
    FixedEntry(idx);
    forall j | 3 <= j < idx ensures !HasPrefix(s, Spelling(TokenPatterns[j])) {
      FixedEntry(j);
      IndexOfEntry(j);
      if j > 10 && HasPrefix(s, Spelling(TokenPatterns[j])) {
        SameHeadSameOperator(TokenPatterns[j], kind);
      }
    }
    FirstOperatorWins(s, kind);
  }

  /** Where two texts begin the same way, the longer one comes first in the table. */
  lemma LongerTextFirst(long: TokenKind, short: TokenKind)
    requires |Spelling(long)| == 2 && |Spelling(short)| == 1 && Spelling(long)[0] == Spelling(short)[0]
    ensures IndexOf(long) < IndexOf(short)
  {
    FixedIndex(long);
    FixedIndex(short);
    FixedEntry(IndexOf(long));
    FixedEntry(IndexOf(short));
  }

  // ---------------------------------------------------------------------------------------
  // Words: keywords before identifiers

  /** `int`, `void` and `return`, the keywords of the table's KEYWORD pattern. */
  predicate IsKeywordText(w: string) {
    w == "int" || w == "void" || w == "return"
  }

  /** A run of word characters that ends where a non-word character or the text's end is. */
  lemma {:induction false} WordRunEndAt(s: string, i: nat, m: nat)
    requires i <= m <= |s|
    requires forall k :: i <= k < m ==> IsWordChar(s[k])
    requires m == |s| || !IsWordChar(s[m])
    ensures WordRunEnd(s, i) == m
    decreases m - i
  {
    if i < m {
      WordRunEndAt(s, i + 1, m);
    }
  }

  /**
   * The KEYWORD pattern matches a word exactly when the whole word is a keyword: `int`
   * inside `integer` or `int_x` does not match, since no word boundary follows it.
   */
  lemma KeywordMatch(s: string)
    requires s != [] && IsIdentStart(s[0])
    ensures MatchKeyword(s) == if IsKeywordText(s[..WordRunEnd(s, 1)]) then Some(WordRunEnd(s, 1)) else None
  {
    var n := WordRunEnd(s, 1);
    WordRunAllWord(s, 1);
    assert BoundaryAt(s, 0);
    var w := s[..n];
    forall kw: string | kw == "int" || kw == "void" || kw == "return"
      ensures HasPrefix(s, kw) && BoundaryAt(s, |kw|) <==> w == kw
    {
      if HasPrefix(s, kw) && BoundaryAt(s, |kw|) {
        assert forall k :: 1 <= k < |kw| ==> IsWordChar(s[k]) by {
          forall k | 1 <= k < |kw| ensures IsWordChar(s[k]) {
            assert s[k] == kw[k];
          }
        }
        WordRunEndAt(s, 1, |kw|);
      }
      if w == kw {
        assert |kw| == n && s[..|kw|] == kw;
      }
    }
  }

  /** A word is one token: KEYWORD when it is a keyword, IDENTIFIER otherwise. */
  lemma WordToken(s: string)
    requires s != [] && IsIdentStart(s[0])
    ensures Scan(s) == Some(Token(if IsKeywordText(s[..WordRunEnd(s, 1)]) then Keyword else Identifier,
                                  s[..WordRunEnd(s, 1)]))
  {
    KeywordMatch(s);
    if MatchKeyword(s).None? {
      FirstMatchAt(s, 0, 1);
    }
  }

  // ---------------------------------------------------------------------------------------
  // Numerals

  /** Of all the patterns, only INTEGER_CONST can begin with a digit. */
  lemma OnlyNumeralsBeginWithDigit(kind: TokenKind, c: char)
    requires IsDigit(c) && kind != IntegerConst
    ensures !CanStart(kind, c)
  {
    if Spelling(kind) != [] {
      SpellingHead(kind);
    }
  }

  /** A run of digits followed by a non-word character or the end is one INTEGER_CONST token. */
  lemma NumeralToken(s: string)
    requires s != [] && IsDigit(s[0])
    requires DigitRunEnd(s, 0) == |s| || !IsWordChar(s[DigitRunEnd(s, 0)])
    ensures Scan(s) == Some(Token(IntegerConst, s[..DigitRunEnd(s, 0)]))
  {
    var n := DigitRunEnd(s, 0);
    assert n == DigitRunEnd(s, 1) >= 1;
    DigitRunAllDigits(s, 0);
    assert IsDigit(s[n - 1]);
    assert TokenPatterns[2] == IntegerConst;
    assert Match(IntegerConst, s) == Some(n);
    ScanByHead(s, 2);
  }

  /** A run of digits followed by a letter or `_`, as in `42abc`, matches no pattern at all. */
  lemma NumeralRunIntoWord(s: string)
    requires s != [] && IsDigit(s[0])
    requires DigitRunEnd(s, 0) < |s| && IsWordChar(s[DigitRunEnd(s, 0)])
    ensures Scan(s).None?
  {
    var n := DigitRunEnd(s, 0);
    assert n == DigitRunEnd(s, 1) >= 1;
    DigitRunAllDigits(s, 0);
    assert IsDigit(s[n - 1]);
    assert Match(TokenPatterns[2], s).None? by {
      assert TokenPatterns[2] == IntegerConst;
      assert MatchIntegerConst(s).None?;
    }
    forall j | 0 <= j < |TokenPatterns| ensures Match(TokenPatterns[j], s).None? {
      if j != 2 {
        IndexOfEntry(j);
        OnlyNumeralsBeginWithDigit(TokenPatterns[j], s[0]);
        NoMatchWithoutHead(s, j);
      }
    }
    FirstMatchNone(s, 0);
  }

  // ---------------------------------------------------------------------------------------
  // Comments

  /** Of all the patterns, only COMMENT can begin with a slash. */
  lemma OnlyCommentsBeginWithSlash(kind: TokenKind)
    requires kind != Comment
    ensures !CanStart(kind, '/')
  {
    if Spelling(kind) != [] {
      SpellingHead(kind);
    }
  }

  /** The COMMENT entry wins wherever it matches. */
  lemma CommentWins(s: string)
    requires Match(Comment, s).Some?
    ensures Scan(s) == Some(Token(Comment, s[..Match(Comment, s).value]))
  {
    MatchHead(Comment, s);
    forall j | 0 <= j < 25 ensures !CanStart(TokenPatterns[j], s[0]) {
      IndexOfEntry(j);
      OnlyCommentsBeginWithSlash(TokenPatterns[j]);
    }
    assert TokenPatterns[25] == Comment;
    ScanByHead(s, 25);
  }

  /**
   * A line comment runs up to, and not including, the first newline, or to the end of
   * the text.
   */
  lemma LineCommentToken(s: string)
    requires |s| >= 2 && s[0] == '/' && s[1] == '/'
    ensures Scan(s) == Some(Token(Comment, s[..LineEnd(s, 2)]))
    ensures forall k :: 0 <= k < LineEnd(s, 2) ==> s[k] != '\n'
    ensures LineEnd(s, 2) == |s| || s[LineEnd(s, 2)] == '\n'
  {
    LineCommentMatch(s);
    CommentWins(s);
  }

  lemma LineCommentMatch(s: string)
    requires |s| >= 2 && s[0] == '/' && s[1] == '/'
    ensures Match(Comment, s) == Some(LineEnd(s, 2))
    ensures forall k :: 0 <= k < LineEnd(s, 2) ==> s[k] != '\n'
  {
    LineEndNoNewline(s, 2);
  }

  /**
   * A block comment runs up to and including the first star-slash after its opening,
   * across lines: comments do not nest.
   */
  lemma BlockCommentToken(s: string)
    requires |s| >= 2 && s[0] == '/' && s[1] == '*' && CloserFrom(s, 2).Some?
    ensures var end := CloserFrom(s, 2).value + 2;
            Scan(s) == Some(Token(Comment, s[..end]))
            && s[end - 2] == '*' && s[end - 1] == '/'
            && forall k :: 2 <= k < end - 2 ==> !CloserAt(s, k)
  {
    assert Match(Comment, s) == Some(CloserFrom(s, 2).value + 2);
    CommentWins(s);
    CloserFromIsFirst(s, 2);
  }

  /** Slashes the COMMENT pattern does not take match nothing: a lone slash, or an unclosed slash-star. */
  lemma SlashWithoutComment(s: string)
    requires s != [] && s[0] == '/' && MatchComment(s).None?
    ensures Scan(s).None?
  {
    forall j | 0 <= j < |TokenPatterns| ensures Match(TokenPatterns[j], s).None? {
      IndexOfEntry(j);
      if j != 25 {
        OnlyCommentsBeginWithSlash(TokenPatterns[j]);
        NoMatchWithoutHead(s, j);
      }
    }
    FirstMatchNone(s, 0);
  }

  lemma UnclosedBlockComment(s: string)
    requires |s| >= 2 && s[0] == '/' && s[1] == '*' && CloserFrom(s, 2).None?
    ensures Scan(s).None?
  {
    SlashWithoutComment(s);
  }

  lemma LoneSlash(s: string)
    requires s != [] && s[0] == '/' && (|s| == 1 || (s[1] != '/' && s[1] != '*'))
    ensures Scan(s).None?
  {
    SlashWithoutComment(s);
  }

  // ---------------------------------------------------------------------------------------
  // Errors

  /** Where nothing matches, `lex` fails naming the character it stopped at. */
  lemma NoMatchIsError(s: string)
    requires s != [] && !IsSpace(s[0]) && Scan(s).None?
    ensures LexSpec(s) == Err(UnexpectedToken(s[0]))
  {
    assert SpaceRunEnd(s, 0) == 0;
    assert LStrip(s) == s;
    LexSpecStep(s);
  }

  /**
   * A character that begins no keyword, identifier, numeral, operator, punctuator,
   * comment or whitespace, such as `@`, `#`, `$` or `"`, stops the lexer with an error.
   */
  lemma UnknownCharacter(s: string)
    requires s != [] && !IsWordChar(s[0]) && !IsSpace(s[0]) && s[0] != '/'
    requires forall k: TokenKind :: Spelling(k) == [] || Spelling(k)[0] != s[0]
    ensures LexSpec(s) == Err(UnexpectedToken(s[0]))
  {
    forall j | 0 <= j < |TokenPatterns| ensures !CanStart(TokenPatterns[j], s[0]) {
    }
    ScanNoHead(s);
    NoMatchIsError(s);
  }

  lemma AtSignRejected(s: string)
    requires s != [] && s[0] == '@'
    ensures LexSpec(s) == Err(UnexpectedToken('@'))
  {
    forall k: TokenKind ensures Spelling(k) == [] || Spelling(k)[0] != '@' {
      if Spelling(k) != [] {
        SpellingHead(k);
      }
    }
    UnknownCharacter(s);
  }
}


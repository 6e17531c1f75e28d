/**
 * Source texts laid out as lexemes with a gap of whitespace before each. `LexFits` says what
 * `lex` makes of a layout in which every lexeme is what the pattern table finds at its place,
 * and `Then` lays out a text in parts.
 */
module LexerLayouts {
  import opened Wrappers
  import opened Numerals
  import opened Lexer
  import opened LexerProperties
  import opened LexerVectors

  /**
   * What shows, from the lexeme and the character after it alone, that the pattern table
   * finds exactly this token there: an operator not followed by what would lengthen it, a
   * keyword or numeral not followed by a word character, a line comment running to the end
   * of its line, a block comment with no star before its closing star-slash.
   */
  predicate Readable(t: Token, next: Option<char>) {
    && t.lexeme != [] && !IsSpace(t.lexeme[0])
    && match t.kind
    case Punct(_) =>
      && t.lexeme == Spelling(t.kind)
      && (|t.lexeme| == 2 || (|t.lexeme| == 1 && (next.None? || !IsPairSecond(next.value))))
    case Keyword => IsKeywordText(t.lexeme) && (next.None? || !IsWordChar(next.value))
    case IntegerConst => IsDigits(t.lexeme) && (next.None? || !IsWordChar(next.value))
    case Comment =>
      if |t.lexeme| >= 2 && t.lexeme[1] == '/' then LineCommentBefore(t.lexeme, next)
      else BlockCommentText(t.lexeme)
    case Identifier | Whitespace => false
  }

  /** A line comment that runs to the end of its line, followed by `next`. */
  predicate LineCommentBefore(text: string, next: Option<char>) {
    && |text| >= 2 && text[0] == '/' && text[1] == '/' && '\n' !in text
    && (next.None? || next.value == '\n')
  }

  /** A block comment with no star before its closing star-slash. */
  predicate BlockCommentText(text: string) {
    && |text| >= 4 && text[0] == '/' && text[1] == '*'
    && text[|text| - 2] == '*' && text[|text| - 1] == '/'
    && forall k | 2 <= k < |text| - 2 :: text[k] != '*'
  }

  /** The first character of a text, if any. */
  function Head(s: string): (c: Option<char>)
    ensures c.None? <==> s == []
    ensures c.Some? ==> c.value == s[0]
  {
    if s == [] then None else Some(s[0])
  }

  /** Each kind of lexeme is read back as its own token (the `*Piece` lemmas). */
  lemma ReadableScan(t: Token, rest: string)
    requires Readable(t, Head(rest))
    ensures t.lexeme != [] && !IsSpace(t.lexeme[0]) && t.kind != Whitespace
    ensures Scan(t.lexeme + rest) == Some(t)
  {
    match t.kind
    case Punct(_) =>
      if |t.lexeme| == 2 {
        PairPiece(t.kind, rest);
      } else {
        SinglePiece(t.kind, rest);
      }
    case Keyword =>
      KeywordPiece(t.lexeme, rest);
    case IntegerConst =>
      NumeralPiece(t.lexeme, rest);
    case Comment =>
      if LineCommentBefore(t.lexeme, Head(rest)) {
        LineCommentPiece(t.lexeme, rest);
      } else {
        var inner := t.lexeme[2..|t.lexeme| - 2];
        assert forall j | 0 <= j < |inner| :: inner[j] == t.lexeme[j + 2];
        BlockCommentPiece(t.lexeme, rest);
      }
  }

  /**
   * A source text laid out as lexemes with a gap of whitespace before each and one more gap
   * at the end.
   */
  datatype Layout = End(gap: string) | Piece(gap: string, token: Token, rest: Layout)
  {
    /** The source text. */
    function Text(): string {
      match this
      case End(g) => g
      case Piece(g, t, r) => g + t.lexeme + r.Text()
    }

    /** The tokens, in order. */
    function Tokens(): seq<Token> {
      match this
      case End(_) => []
      case Piece(_, t, r) => [t] + r.Tokens()
    }

    /** The first character of the text followed by `next`, provided no lexeme is empty. */
    function FirstBefore(next: Option<char>): Option<char> {
      if gap != [] then Some(gap[0])
      else if End? then next
      else if token.lexeme == [] then None
      else Some(token.lexeme[0])
    }

    /**
     * The gaps are whitespace and each lexeme is what the pattern table finds at its place,
     * when the text is followed by `next` (`None`: by nothing).
     */
    predicate FitsBefore(next: Option<char>) {
      match this
      case End(g) => AllSpace(g)
      case Piece(g, t, r) => AllSpace(g) && Readable(t, r.FirstBefore(next)) && r.FitsBefore(next)
    }
  }

  /** The first character `FirstBefore` names is the text's own. */
  lemma FirstIsHead(l: Layout, next: Option<char>)
    requires l.FitsBefore(next)
    ensures l.Text() == [] ==> l.FirstBefore(next) == next
    ensures l.Text() != [] ==> l.FirstBefore(next) == Head(l.Text())
  {
    if l.Piece? && l.gap == [] {
      assert l.Text() == l.token.lexeme + l.rest.Text();
    }
  }

  /**
   * When each gap is whitespace and each lexeme is what the table finds at its place,
   * `lex` of the text returns exactly the layout's tokens.
   */
  lemma {:induction false} LexFits(l: Layout)
    requires l.FitsBefore(None)
    ensures LexSpec(l.Text()) == Ok(l.Tokens())
  {
    match l
    case End(g) =>
      BlankLexesToNothing(g);
    case Piece(g, t, r) =>
      var rest := r.Text();
      FirstIsHead(r, None);
      ReadableScan(t, rest);
      LexFits(r);
      TokenStep(g, t, rest);
  }

  /** The layout `a` and then the layout `b`: the last gap of `a` runs into the first of `b`. */
  function Then(a: Layout, b: Layout): Layout {
    match a
    case End(g) => b.(gap := g + b.gap)
    case Piece(g, t, r) => Piece(g, t, Then(r, b))
  }

  /** Laying out `a` and then `b` concatenates their texts. */
  lemma {:induction false} ThenText(a: Layout, b: Layout)
    ensures Then(a, b).Text() == a.Text() + b.Text()
  {
    match a
    case End(g) => {
      match b
      case End(h) =>
      case Piece(h, u, r) =>
        assert Then(a, b).Text() == g + h + u.lexeme + r.Text();
    }
    case Piece(g, t, r) =>
      ThenText(r, b);
      assert Then(a, b).Text() == g + t.lexeme + (r.Text() + b.Text());
  }

  /** Laying out `a` and then `b` concatenates their tokens. */
  lemma {:induction false} ThenTokens(a: Layout, b: Layout)
    ensures Then(a, b).Tokens() == a.Tokens() + b.Tokens()
  {
    match a
    case End(g) =>
    case Piece(g, t, r) =>
      ThenTokens(r, b);
      assert Then(a, b).Tokens() == [t] + (r.Tokens() + b.Tokens());
  }

  /** What follows the text of `a` inside `Then(a, b)` is the text of `b`. */
  lemma {:induction false} ThenFirst(a: Layout, b: Layout, next: Option<char>)
    ensures Then(a, b).FirstBefore(next) == a.FirstBefore(b.FirstBefore(next))
  {
    match a
    case End(g) =>
      if g != [] {
        assert (g + b.gap)[0] == g[0];
      } else {
        assert g + b.gap == b.gap;
      }
    case Piece(g, t, r) =>
  }

  /** Two layouts that fit, one before the other, fit together. */
  lemma {:induction false} ThenFits(a: Layout, b: Layout, next: Option<char>)
    requires a.FitsBefore(b.FirstBefore(next)) && b.FitsBefore(next)
    ensures Then(a, b).FitsBefore(next)
  {
    match a
    case End(g) =>
      var s := g + b.gap;
      assert forall i :: 0 <= i < |s| ==> s[i] == if i < |g| then g[i] else b.gap[i - |g|];
    case Piece(g, t, r) =>
      ThenFirst(r, b, next);
      ThenFits(r, b, next);
  }
}

/**
 * The lexer of src/cc/lexer.py: an ordered table of token patterns and a loop that strips
 * leading whitespace, takes the first pattern that matches at the head of what is left,
 * records the token and drops its lexeme from the front.
 *
 * Each regular expression of the table is written out as a small matcher on ASCII text
 * that reports the length of the regular expression's match at position 0 of the
 * remaining source (the source is re-sliced after every token, so `\b` at position 0
 * sees no previous character).
 */
module Lexer {
  import opened Wrappers
  import opened Numerals

  /**
   * The operator and punctuation kinds of the pattern table, the ones whose pattern is a
   * fixed text, named as in the source by `Name()`.
   */
  datatype Punctuator =
    | AmpAmp | MinusMinus | PlusPlus | EqualEqual | LessEqual | GreaterEqual | PipePipe | BangEqual
    | LParen | RParen | LBrace | RBrace | Semicolon
    | Minus | Plus | Equal | Less | Greater | Amp | Pipe | Tilde | Bang
  {
    function Name(): string {
      match this
      case AmpAmp => "AMP_AMP"
      case MinusMinus => "MINUS_MINUS"
      case PlusPlus => "PLUS_PLUS"
      case EqualEqual => "EQUAL_EQUAL"
      case LessEqual => "LESS_EQUAL"
      case GreaterEqual => "GREATER_EQUAL"
      case PipePipe => "PIPE_PIPE"
      case BangEqual => "BANG_EQUAL"
      case LParen => "LPAREN"
      case RParen => "RPAREN"
      case LBrace => "LBRACE"
      case RBrace => "RBRACE"
      case Semicolon => "SEMICOLON"
      case Minus => "MINUS"
      case Plus => "PLUS"
      case Equal => "EQUAL"
      case Less => "LESS"
      case Greater => "GREATER"
      case Amp => "AMP"
      case Pipe => "PIPE"
      case Tilde => "TILDE"
      case Bang => "BANG"
    }
  }

  /** The token kinds of the pattern table, named as in the source by `Name()`. */
  datatype TokenKind =
    | Keyword | Identifier | IntegerConst | Punct(punctuator: Punctuator) | Comment | Whitespace
  {
    function Name(): string {
      match this
      case Keyword => "KEYWORD"
      case Identifier => "IDENTIFIER"
      case IntegerConst => "INTEGER_CONST"
      case Punct(p) => p.Name()
      case Comment => "COMMENT"
      case Whitespace => "WHITESPACE"
    }
  }

  /** A `(kind, lexeme)` pair; the lexeme is the exact text the pattern matched. */
  datatype Token = Token(kind: TokenKind, lexeme: string)

  /** The `ValueError("Unexpected token at: <c>")` raised when no pattern matches. */
  datatype LexError = UnexpectedToken(ch: char) {
    /** The message begins with the text the error is recognised by and ends with the character. */
    function Message(): (msg: string)
      ensures |msg| > 20 && msg[..20] == "Unexpected token at:" && msg[|msg| - 1] == ch
    {
      "Unexpected token at: " + [ch]
    }
  }

  /** The pattern table in priority order: the first pattern that matches wins. */
  const TokenPatterns: seq<TokenKind> := [
    Keyword, Identifier, IntegerConst,
    Punct(AmpAmp), Punct(MinusMinus), Punct(PlusPlus), Punct(EqualEqual),
    Punct(LessEqual), Punct(GreaterEqual), Punct(PipePipe), Punct(BangEqual),
    Punct(LParen), Punct(RParen), Punct(LBrace), Punct(RBrace), Punct(Semicolon),
    Punct(Minus), Punct(Plus), Punct(Equal), Punct(Less), Punct(Greater),
    Punct(Amp), Punct(Pipe), Punct(Tilde), Punct(Bang),
    Comment, Whitespace
  ]

  // ---------------------------------------------------------------------------------------
  // Character classes (ASCII)

  /** `\w`: letters, digits and the underscore. */
  predicate IsWordChar(c: char) {
    'a' <= c <= 'z' || 'A' <= c <= 'Z' || IsDigit(c) || c == '_'
  }

  /** `[a-zA-Z_]`: the first character of an identifier. */
  predicate IsIdentStart(c: char) {
    'a' <= c <= 'z' || 'A' <= c <= 'Z' || c == '_'
  }

  /** `\s` and what `str.lstrip()` removes, restricted to ASCII. */
  predicate IsSpace(c: char) {
    c == ' ' || c == '\t' || c == '\n' || c == '\r' || c == '\U{000B}' || c == '\U{000C}'
    || ('\U{001C}' <= c <= '\U{001F}')
  }

  predicate AllSpace(s: string) {
    forall i :: 0 <= i < |s| ==> IsSpace(s[i])
  }

  /** `\b` at position `n` of `s`: a word character on exactly one side of `n`. */
  predicate BoundaryAt(s: string, n: nat)
    requires n <= |s|
  {
    (n > 0 && IsWordChar(s[n - 1])) != (n < |s| && IsWordChar(s[n]))
  }

  /** The end of the longest run of word characters starting at `i`. */
  function WordRunEnd(s: string, i: nat): (j: nat)
    requires i <= |s|
    ensures i <= j <= |s|
    ensures j == |s| || !IsWordChar(s[j])
    decreases |s| - i
  {
    if i < |s| && IsWordChar(s[i]) then WordRunEnd(s, i + 1) else i
  }

  /** The end of the longest run of digits starting at `i`. */
  function DigitRunEnd(s: string, i: nat): (j: nat)
    requires i <= |s|
    ensures i <= j <= |s|
    ensures j == |s| || !IsDigit(s[j])
    decreases |s| - i
  {
    if i < |s| && IsDigit(s[i]) then DigitRunEnd(s, i + 1) else i
  }

  /** The end of the longest run of whitespace starting at `i`. */
  function SpaceRunEnd(s: string, i: nat): (j: nat)
    requires i <= |s|
    ensures i <= j <= |s|
    ensures j == |s| || !IsSpace(s[j])
    decreases |s| - i
  {
    if i < |s| && IsSpace(s[i]) then SpaceRunEnd(s, i + 1) else i
  }

  /** `str.lstrip()`: drop the leading whitespace. */
  function LStrip(s: string): (r: string)
    ensures r != [] ==> !IsSpace(r[0])
  {
    s[SpaceRunEnd(s, 0)..]
  }

  /** The first position at or after `i` that holds a newline, or the end of `s`. */
  function LineEnd(s: string, i: nat): (j: nat)
    requires i <= |s|
    ensures i <= j <= |s|
    ensures j == |s| || s[j] == '\n'
    decreases |s| - i
  {
    if i < |s| && s[i] != '\n' then LineEnd(s, i + 1) else i
  }

  predicate CloserAt(s: string, j: nat) {
    j + 2 <= |s| && s[j] == '*' && s[j + 1] == '/'
  }

  /** The first position at or after `i` where a closing star-slash starts, if any. */
  function CloserFrom(s: string, i: nat): (r: Option<nat>)
    ensures r.Some? ==> i <= r.value && CloserAt(s, r.value)
    decreases |s| - i
  {
    if i + 2 > |s| then None
    else if CloserAt(s, i) then Some(i)
    else CloserFrom(s, i + 1)
  }

  // The facts about the runs, kept out of the functions' own contracts so that they are
  // brought in only where a proof needs them.

  lemma WordRunAllWord(s: string, i: nat)
    requires i <= |s|
    ensures forall k :: i <= k < WordRunEnd(s, i) ==> IsWordChar(s[k])
    decreases |s| - i
  {
    if i < |s| && IsWordChar(s[i]) {
      WordRunAllWord(s, i + 1);
    }
  }

  lemma DigitRunAllDigits(s: string, i: nat)
    requires i <= |s|
    ensures forall k :: i <= k < DigitRunEnd(s, i) ==> IsDigit(s[k])
    decreases |s| - i
  {
    if i < |s| && IsDigit(s[i]) {
      DigitRunAllDigits(s, i + 1);
    }
  }

  lemma SpaceRunAllSpace(s: string, i: nat)
    requires i <= |s|
    ensures forall k :: i <= k < SpaceRunEnd(s, i) ==> IsSpace(s[k])
    decreases |s| - i
  {
    if i < |s| && IsSpace(s[i]) {
      SpaceRunAllSpace(s, i + 1);
    }
  }

  lemma LineEndNoNewline(s: string, i: nat)
    requires i <= |s|
    ensures forall k :: i <= k < LineEnd(s, i) ==> s[k] != '\n'
    decreases |s| - i
  {
    if i < |s| && s[i] != '\n' {
      LineEndNoNewline(s, i + 1);
    }
  }

  lemma CloserFromIsFirst(s: string, i: nat)
    ensures forall k :: i <= k && (CloserFrom(s, i).None? || k < CloserFrom(s, i).value) ==> !CloserAt(s, k)
    decreases |s| - i
  {
    if i + 2 <= |s| && !CloserAt(s, i) {
      CloserFromIsFirst(s, i + 1);
    }
  }

  // ---------------------------------------------------------------------------------------
  // One matcher per pattern. Each returns the length of the match at position 0, if any.

  /** A two-character pattern such as `==` or `&&`. */
  function MatchPair(s: string, c: char, d: char): Option<nat> {
    if |s| >= 2 && s[0] == c && s[1] == d then Some(2) else None
  }

  predicate HasPrefix(s: string, w: string) {
    |w| <= |s| && s[..|w|] == w
  }

  /** `\b(?:int|void|return)\b`, alternatives tried in this order. */
  function MatchKeyword(s: string): (m: Option<nat>)
    ensures m.Some? ==> m.value <= |s| && BoundaryAt(s, 0) && BoundaryAt(s, m.value)
    ensures m.Some? ==> s[..m.value] == "int" || s[..m.value] == "void" || s[..m.value] == "return"
  {
    if !BoundaryAt(s, 0) then None
    else if HasPrefix(s, "int") && BoundaryAt(s, 3) then Some(3)
    else if HasPrefix(s, "void") && BoundaryAt(s, 4) then Some(4)
    else if HasPrefix(s, "return") && BoundaryAt(s, 6) then Some(6)
    else None
  }

  /**
   * `[a-zA-Z_]\w*\b`: the greedy `\w*` takes the whole word, after which `\b` always
   * holds, so no backtracking is ever needed.
   */
  function MatchIdentifier(s: string): (m: Option<nat>)
    ensures m.Some? <==> s != [] && IsIdentStart(s[0])
    ensures m.Some? ==> 0 < m.value <= |s| && (forall k :: 0 <= k < m.value ==> IsWordChar(s[k]))
    ensures m.Some? ==> m.value == |s| || !IsWordChar(s[m.value])
  {
    if s != [] && IsIdentStart(s[0]) then
      WordRunAllWord(s, 1);
      Some(WordRunEnd(s, 1))
    else None
  }

  /**
   * `[0-9]+\b`: giving back digits never helps (a boundary cannot fall between two
   * digits), so the pattern matches exactly when the whole digit run ends at a boundary.
   */
  function MatchIntegerConst(s: string): (m: Option<nat>)
    ensures m.Some? ==> 0 < m.value <= |s| && (forall k :: 0 <= k < m.value ==> IsDigit(s[k]))
    ensures m.Some? ==> m.value == |s| || !IsWordChar(s[m.value])
    ensures m.None? && s != [] && IsDigit(s[0]) ==> exists k :: 0 < k < |s| && IsWordChar(s[k]) && !IsDigit(s[k])
  {
    var n := DigitRunEnd(s, 0);
    DigitRunAllDigits(s, 0);
    if n > 0 && BoundaryAt(s, n) then Some(n) else None
  }

  /**
   * The COMMENT pattern, two alternatives under MULTILINE and DOTALL: a line comment
   * (slash slash, then the lazy `.*?` up to `$`) stops before the first newline or at the
   * end of the text; a block comment (slash star, lazy `.*?`, star slash) stops after the
   * first closing star-slash that begins after the opening slash-star.
   */
  function MatchComment(s: string): (m: Option<nat>)
    ensures m.Some? ==> 2 <= m.value <= |s| && s[0] == '/' && (s[1] == '/' || s[1] == '*')
    ensures m.Some? && s[1] == '/' ==>
              (forall k :: 0 <= k < m.value ==> s[k] != '\n') && (m.value == |s| || s[m.value] == '\n')
    ensures m.Some? && s[1] == '*' ==>
              4 <= m.value && CloserAt(s, m.value - 2) && forall k :: 2 <= k < m.value - 2 ==> !CloserAt(s, k)
    ensures m.None? && |s| >= 2 && s[0] == '/' ==> s[1] != '/'
    ensures m.None? && |s| >= 2 && s[0] == '/' && s[1] == '*' ==> forall k :: 2 <= k ==> !CloserAt(s, k)
  {
    CloserFromIsFirst(s, 2);
    if MatchPair(s, '/', '/').Some? then
      LineEndNoNewline(s, 2);
      Some(LineEnd(s, 2))
    else if MatchPair(s, '/', '*').Some? then
      match CloserFrom(s, 2)
      case Some(j) => Some(j + 2)
      case None => None
    else None
  }

  /** `\s+`. */
  function MatchWhitespace(s: string): (m: Option<nat>)
    ensures m.Some? <==> s != [] && IsSpace(s[0])
    ensures m.Some? ==> 0 < m.value <= |s| && (forall k :: 0 <= k < m.value ==> IsSpace(s[k]))
    ensures m.Some? ==> m.value == |s| || !IsSpace(s[m.value])
  {
    var n := SpaceRunEnd(s, 0);
    SpaceRunAllSpace(s, 0);
    if n > 0 then Some(n) else None
  }

  /**
   * The text of each operator and punctuation pattern (the table escapes `+`, `|`, `(`
   * and `)`, which stand for themselves); empty for the five kinds whose pattern is not
   * a fixed text.
   */
  function Spelling(kind: TokenKind): string {
    match kind
    case Punct(AmpAmp) => "&&"
    case Punct(MinusMinus) => "--"
    case Punct(PlusPlus) => "++"
    case Punct(EqualEqual) => "=="
    case Punct(LessEqual) => "<="
    case Punct(GreaterEqual) => ">="
    case Punct(PipePipe) => "||"
    case Punct(BangEqual) => "!="
    case Punct(LParen) => "("
    case Punct(RParen) => ")"
    case Punct(LBrace) => "{"
    case Punct(RBrace) => "}"
    case Punct(Semicolon) => ";"
    case Punct(Minus) => "-"
    case Punct(Plus) => "+"
    case Punct(Equal) => "="
    case Punct(Less) => "<"
    case Punct(Greater) => ">"
    case Punct(Amp) => "&"
    case Punct(Pipe) => "|"
    case Punct(Tilde) => "~"
    case Punct(Bang) => "!"
    case Keyword | Identifier | IntegerConst | Comment | Whitespace => ""
  }

  /** The pattern of each kind, applied at position 0 of `s`. */
  function Match(kind: TokenKind, s: string): (m: Option<nat>)
    ensures m.Some? ==> 0 < m.value <= |s|
  {
    if kind == Keyword then MatchKeyword(s)
    else if kind == Identifier then MatchIdentifier(s)
    else if kind == IntegerConst then MatchIntegerConst(s)
    else if kind == Comment then MatchComment(s)
    else if kind == Whitespace then MatchWhitespace(s)
    else if Spelling(kind) != [] && HasPrefix(s, Spelling(kind)) then Some(|Spelling(kind)|)
    else None
  }

  /**
   * The alternation of the compiled pattern: the `(lastgroup, group())` pair of the first
   * entry of the table, from `i` on, whose pattern matches at the head of `s`.
   */
  function FirstMatchFrom(s: string, i: nat): (r: Option<Token>)
    requires i <= |TokenPatterns|
    ensures r.Some? ==> 0 < |r.value.lexeme| <= |s| && r.value.lexeme == s[..|r.value.lexeme|]
    decreases |TokenPatterns| - i
  {
    if i == |TokenPatterns| then None
    else match Match(TokenPatterns[i], s)
      case Some(n) => Some(Token(TokenPatterns[i], s[..n]))
      case None => FirstMatchFrom(s, i + 1)
  }

  /** `COMPILED_REGEX.match(s)`: the whole table, in priority order. */
  function Scan(s: string): (r: Option<Token>)
    ensures r.Some? ==> 0 < |r.value.lexeme| <= |s| && r.value.lexeme == s[..|r.value.lexeme|]
  {
    FirstMatchFrom(s, 0)
  }

  /** The entry at `idx` wins when it matches and no entry before it does. */
  lemma {:induction false} FirstMatchAt(s: string, i: nat, idx: nat)
    requires i <= idx < |TokenPatterns|
    requires Match(TokenPatterns[idx], s).Some?
    requires forall j :: i <= j < idx ==> Match(TokenPatterns[j], s).None?
    ensures FirstMatchFrom(s, i) == Some(Token(TokenPatterns[idx], s[..Match(TokenPatterns[idx], s).value]))
    decreases idx - i
  {
    if i < idx {
      FirstMatchAt(s, i + 1, idx);
    }
  }

  /** An operator or punctuation text never begins with a word character, a space or `/`. */
  lemma SpellingHead(kind: TokenKind)
    requires Spelling(kind) != []
    ensures !IsWordChar(Spelling(kind)[0]) && !IsSpace(Spelling(kind)[0]) && Spelling(kind)[0] != '/'
  {
  }

  /** Entries 3 to 24 of the table are the fixed texts: two characters long up to 10, then one. */
  lemma FixedEntry(j: nat)
    requires 3 <= j <= 24
    ensures |Spelling(TokenPatterns[j])| == if j <= 10 then 2 else 1
  {
  }

  /** The position of each kind's group in the table. */
  function IndexOf(kind: TokenKind): (i: nat)
    ensures i < |TokenPatterns| && TokenPatterns[i] == kind
  {
    match kind
    case Keyword => 0
    case Identifier => 1
    case IntegerConst => 2
    case Punct(AmpAmp) => 3
    case Punct(MinusMinus) => 4
    case Punct(PlusPlus) => 5
    case Punct(EqualEqual) => 6
    case Punct(LessEqual) => 7
    case Punct(GreaterEqual) => 8
    case Punct(PipePipe) => 9
    case Punct(BangEqual) => 10
    case Punct(LParen) => 11
    case Punct(RParen) => 12
    case Punct(LBrace) => 13
    case Punct(RBrace) => 14
    case Punct(Semicolon) => 15
    case Punct(Minus) => 16
    case Punct(Plus) => 17
    case Punct(Equal) => 18
    case Punct(Less) => 19
    case Punct(Greater) => 20
    case Punct(Amp) => 21
    case Punct(Pipe) => 22
    case Punct(Tilde) => 23
    case Punct(Bang) => 24
    case Comment => 25
    case Whitespace => 26
  }

  /** The table lists each kind once: `IndexOf` undoes indexing. */
  lemma IndexOfEntry(j: nat)
    requires j < |TokenPatterns|
    ensures IndexOf(TokenPatterns[j]) == j
  {
    if j < 14 {
      IndexOfLowEntry(j);
    } else {
      IndexOfHighEntry(j);
    }
  }

  lemma IndexOfLowEntry(j: nat)
    requires j < 14
    ensures IndexOf(TokenPatterns[j]) == j
  {
  }

  lemma IndexOfHighEntry(j: nat)
    requires 14 <= j < |TokenPatterns|
    ensures IndexOf(TokenPatterns[j]) == j
  {
  }

  lemma FixedIndex(kind: TokenKind)
    requires Spelling(kind) != []
    ensures 3 <= IndexOf(kind) <= 24
  {
  }

  lemma MatchFixed(kind: TokenKind, s: string)
    requires Spelling(kind) != []
    ensures Match(kind, s) == if HasPrefix(s, Spelling(kind)) then Some(|Spelling(kind)|) else None
  {
  }

  /** The characters a match of `kind` can begin with. */
  predicate CanStart(kind: TokenKind, c: char) {
    if kind == Keyword then c == 'i' || c == 'v' || c == 'r'
    else if kind == Identifier then IsIdentStart(c)
    else if kind == IntegerConst then IsDigit(c)
    else if kind == Comment then c == '/'
    else if kind == Whitespace then IsSpace(c)
    else Spelling(kind) != [] && Spelling(kind)[0] == c
  }

  lemma MatchHead(kind: TokenKind, s: string)
    requires Match(kind, s).Some?
    ensures s != [] && CanStart(kind, s[0])
  {
  }

  lemma NoMatchWithoutHead(s: string, j: nat)
    requires s != [] && j < |TokenPatterns| && !CanStart(TokenPatterns[j], s[0])
    ensures Match(TokenPatterns[j], s).None?
  {
    if Match(TokenPatterns[j], s).Some? {
      MatchHead(TokenPatterns[j], s);
    }
  }

  /**
   * The entry at `idx` wins when it matches and no entry before it can even begin with
   * the first character of `s`.
   */
  lemma ScanByHead(s: string, idx: nat)
    requires s != [] && idx < |TokenPatterns| && Match(TokenPatterns[idx], s).Some?
    requires forall j :: 0 <= j < idx ==> !CanStart(TokenPatterns[j], s[0])
    ensures Scan(s) == Some(Token(TokenPatterns[idx], s[..Match(TokenPatterns[idx], s).value]))
  {
    forall j | 0 <= j < idx ensures Match(TokenPatterns[j], s).None? {
      if Match(TokenPatterns[j], s).Some? {
        MatchHead(TokenPatterns[j], s);
      }
    }
    FirstMatchAt(s, 0, idx);
  }

  /** Nothing is found when no entry of the table can begin with the first character. */
  lemma ScanNoHead(s: string)
    requires s != [] && forall j :: 0 <= j < |TokenPatterns| ==> !CanStart(TokenPatterns[j], s[0])
    ensures Scan(s).None?
  {
    forall j | 0 <= j < |TokenPatterns| ensures Match(TokenPatterns[j], s).None? {
      if Match(TokenPatterns[j], s).Some? {
        MatchHead(TokenPatterns[j], s);
      }
    }
    FirstMatchNone(s, 0);
  }

  /** Nothing is found exactly when no entry of the table matches. */
  lemma FirstMatchNone(s: string, i: nat)
    requires i <= |TokenPatterns|
    ensures FirstMatchFrom(s, i).None? <==> forall j :: i <= j < |TokenPatterns| ==> Match(TokenPatterns[j], s).None?
  {
    if FirstMatchFrom(s, i).None? {
      FirstMatchNoneOnlyIf(s, i);
    } else {
      FirstMatchIsMatch(s, i);
    }
  }

  lemma {:induction false} FirstMatchNoneOnlyIf(s: string, i: nat)
    requires i <= |TokenPatterns| && FirstMatchFrom(s, i).None?
    ensures forall j :: i <= j < |TokenPatterns| ==> Match(TokenPatterns[j], s).None?
    decreases |TokenPatterns| - i
  {
    if i < |TokenPatterns| {
      var m := Match(TokenPatterns[i], s);
      assert m.None? && FirstMatchFrom(s, i + 1).None?;
      FirstMatchNoneOnlyIf(s, i + 1);
      forall j | i <= j < |TokenPatterns| ensures Match(TokenPatterns[j], s).None? {
        if j == i {
          assert Match(TokenPatterns[j], s) == m;
        } else {
          assert i + 1 <= j;
        }
      }
    }
  }

  /** What is found is a match of an entry of the table, of exactly the lexeme's length. */
  lemma {:induction false} FirstMatchIsMatch(s: string, i: nat)
    requires i <= |TokenPatterns| && FirstMatchFrom(s, i).Some?
    ensures exists j :: i <= j < |TokenPatterns| && TokenPatterns[j] == FirstMatchFrom(s, i).value.kind
    ensures Match(FirstMatchFrom(s, i).value.kind, s) == Some(|FirstMatchFrom(s, i).value.lexeme|)
    decreases |TokenPatterns| - i
  {
    if Match(TokenPatterns[i], s).None? {
      FirstMatchIsMatch(s, i + 1);
    }
  }

  /** The tokens for `rest`, behind `prefix`; an error passes through unchanged. */
  function Prepend(prefix: seq<Token>, rest: Result<seq<Token>, LexError>): Result<seq<Token>, LexError> {
    match rest
    case Ok(ts) => Ok(prefix + ts)
    case Err(e) => Err(e)
  }

  /**
   * What `lex(source)` returns or raises: strip, scan one token, keep it unless it is
   * WHITESPACE, and continue on what follows the lexeme.
   */
  function LexSpec(source: string): (r: Result<seq<Token>, LexError>)
    ensures r.Ok? ==> |r.value| <= |source|
    decreases |source|
  {
    var s := LStrip(source);
    if s == [] then Ok([])
    else match Scan(s)
      case None => Err(UnexpectedToken(s[0]))
      case Some(t) =>
        Prepend(if t.kind == Whitespace then [] else [t], LexSpec(s[|t.lexeme|..]))
  }

  lemma LStripIdempotent(s: string)
    ensures LStrip(LStrip(s)) == LStrip(s)
  {
  }

  /** The tokens `lex` can emit: never WHITESPACE, never empty, numerals made of digits. */
  predicate WellFormed(ts: seq<Token>) {
    forall i :: 0 <= i < |ts| ==>
      ts[i].kind != Whitespace && ts[i].lexeme != []
      && (ts[i].kind == IntegerConst ==> IsDigits(ts[i].lexeme))
  }

  /** After `lstrip` the head is not whitespace, so the WHITESPACE pattern never wins. */
  lemma ScanAfterStripIsNotWhitespace(s: string)
    requires s != [] && !IsSpace(s[0])
    ensures Scan(s).Some? ==> Scan(s).value.kind != Whitespace
    ensures Scan(s).Some? && Scan(s).value.kind == IntegerConst ==> IsDigits(Scan(s).value.lexeme)
  {
    if Scan(s).Some? {
      FirstMatchIsMatch(s, 0);
      var t := Scan(s).value;
      if t.kind == IntegerConst {
        DigitRunAllDigits(s, 0);
        assert t.lexeme == s[..DigitRunEnd(s, 0)];
      }
    }
  }

  /** Every result of the reference definition is well formed. */
  lemma {:induction false} LexSpecWellFormed(source: string)
    requires LexSpec(source).Ok?
    ensures WellFormed(LexSpec(source).value)
    decreases |source|
  {
    var s := LStrip(source);
    if s != [] {
      var t := Scan(s).value;
      var rest := s[|t.lexeme|..];
      ScanAfterStripIsNotWhitespace(s);
      assert LexSpec(source) == Prepend([t], LexSpec(rest));
      LexSpecWellFormed(rest);
      WellFormedCons(t, LexSpec(rest).value);
    }
  }

  lemma WellFormedCons(t: Token, ts: seq<Token>)
    requires WellFormed([t]) && WellFormed(ts)
    ensures WellFormed([t] + ts)
  {
    forall i | 0 <= i < |[t] + ts| ensures ([t] + ts)[i] == if i == 0 then t else ts[i - 1] {
    }
  }

  /** Stripping first does not change what the reference definition yields. */
  lemma LexSpecStrip(s: string)
    ensures LexSpec(LStrip(s)) == LexSpec(s)
  {
    var t := LStrip(s);
    LStripIdempotent(s);
    assert LStrip(t) == t;
    if t != [] {
      assert LexSpec(t) == match Scan(t)
        case None => Err(UnexpectedToken(t[0]))
        case Some(x) => Prepend(if x.kind == Whitespace then [] else [x], LexSpec(t[|x.lexeme|..]));
    }
  }

  /** One step of the reference definition on already-stripped text. */
  lemma LexSpecStep(s: string)
    requires s != [] && LStrip(s) == s
    ensures Scan(s).None? ==> LexSpec(s) == Err(UnexpectedToken(s[0]))
    ensures Scan(s).Some? ==>
              LexSpec(s) == Prepend(if Scan(s).value.kind == Whitespace then [] else [Scan(s).value],
                                    LexSpec(s[|Scan(s).value.lexeme|..]))
  {
  }

  /** An error names a character of the source that is not whitespace. */
  lemma {:induction false} LexSpecErrorInSource(source: string)
    requires LexSpec(source).Err?
    ensures LexSpec(source).error.ch in source && !IsSpace(LexSpec(source).error.ch)
    decreases |source|
  {
    var s := LStrip(source);
    LexSpecStep(s);
    LexSpecStrip(source);
    if Scan(s).Some? {
      var rest := s[|Scan(s).value.lexeme|..];
      LexSpecErrorInSource(rest);
      InSuffix(s, |Scan(s).value.lexeme|, LexSpec(rest).error.ch);
    }
    InSuffix(source, SpaceRunEnd(source, 0), LexSpec(source).error.ch);
  }

  lemma InSuffix(s: string, k: nat, c: char)
    requires k <= |s| && c in s[k..]
    ensures c in s
  {
    var i :| 0 <= i < |s[k..]| && s[k..][i] == c;
    assert s[k + i] == c;
  }

  lemma PrependNil(rest: Result<seq<Token>, LexError>)
    ensures Prepend([], rest) == rest
  {
    if rest.Ok? {
      assert [] + rest.value == rest.value;
    }
  }

  lemma PrependPrepend(a: seq<Token>, b: seq<Token>, rest: Result<seq<Token>, LexError>)
    ensures Prepend(a, Prepend(b, rest)) == Prepend(a + b, rest)
  {
    if rest.Ok? {
      assert a + (b + rest.value) == (a + b) + rest.value;
    }
  }

  /**
   * `lex(source)`: the loop of the source, over a shrinking remaining text `rest` and a
   * growing token list.
   */
  method Lex(source: string) returns (r: Result<seq<Token>, LexError>)
    ensures r == LexSpec(source)
    ensures r.Ok? ==> WellFormed(r.value)
    ensures r.Err? ==> r.error.ch in source && !IsSpace(r.error.ch)
  {
    var rest := source;
    var tokens: seq<Token> := [];
    PrependNil(LexSpec(source));
    while rest != []
      invariant LexSpec(source) == Prepend(tokens, LexSpec(rest))
      decreases |rest|
    {
      ghost var before := rest;
      rest := LStrip(rest);
      assert LexSpec(rest) == LexSpec(before) by {
        LexSpecStrip(before);
      }
      if rest == [] {
        break;
      }
      var m := Scan(rest);
      if m.None? {
        r := Err(UnexpectedToken(rest[0]));
        assert LexSpec(rest) == r by {
          LStripIdempotent(before);
          LexSpecStep(rest);
        }
        LexSpecErrorInSource(source);
        return;
      }
      var t := m.value;
      var kept := if t.kind == Whitespace then [] else [t];
      var next := rest[|t.lexeme|..];
      assert LexSpec(source) == Prepend(tokens + kept, LexSpec(next)) by {
        LStripIdempotent(before);
        LexSpecStep(rest);
        PrependPrepend(tokens, kept, LexSpec(next));
      }
      tokens := tokens + kept;
      rest := next;
    }
    r := Ok(tokens);
    assert tokens + [] == tokens;
    LexSpecWellFormed(source);
  }
}

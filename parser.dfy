/**
 * The recursive-descent parser of src/cc/parser.py: a cursor `curr` over the token list
 * with comments removed, `expect` to check and consume one token, and one method per
 * grammar rule:
 *
 *   <program>   ::= <function> { <function> }
 *   <function>  ::= "int" <identifier> "(" "void" ")" "{" <statement> "}"
 *   <statement> ::= "return" <exp> ";"
 *   <exp>       ::= <int>
 *
 * Each method is proved against a specification function that reads the same tokens
 * flatly, as a fixed sequence of token kinds (a "shape"): a rule succeeds exactly when
 * the tokens at the cursor have its shape, and otherwise fails at the first token that
 * does not fit.
 */
module Parser {
  import opened Wrappers
  import opened Numerals
  import opened Lexer
  import opened Ast

  /** What `expect` reports having found: a token kind, or `"EOF"` past the last token. */
  datatype Found = FoundKind(kind: TokenKind) | Eof {
    function Name(): string {
      match this
      case FoundKind(k) => k.Name()
      case Eof => "EOF"
    }
  }

  /**
   * `ParserError("Expected X but found Y")`, `ParserError("No valid top-level program
   * found")`, and the `ValueError` that `int()` raises on a lexeme that is not a numeral.
   */
  datatype ParseError =
    | Expected(expected: TokenKind, found: Found)
    | NotAnInteger(lexeme: string)
    | NoProgram
  {
    /**
     * The message names the kind expected and, at its end, what was found; the other two
     * messages are fixed texts, the second one `int()`'s own.
     */
    function Message(): (msg: string)
      ensures this.Expected? ==> HasPrefix(msg, "Expected " + expected.Name())
      ensures this.Expected? ==> |found.Name()| <= |msg| && msg[|msg| - |found.Name()|..] == found.Name()
      ensures this.NotAnInteger? ==> HasPrefix(msg, "invalid literal for int() with base 10: ")
      ensures this.NoProgram? ==> msg == "No valid top-level program found"
    {
      match this
      case Expected(k, f) => "Expected " + k.Name() + " but found " + f.Name()
      case NotAnInteger(s) => "invalid literal for int() with base 10: '" + s + "'"
      case NoProgram => "No valid top-level program found"
    }
  }

  // ---------------------------------------------------------------------------------------
  // Comment filtering

  predicate NoComments(ts: seq<Token>) {
    forall i :: 0 <= i < |ts| ==> ts[i].kind != Comment
  }

  /** `[token for token in tokens if token[0] != "COMMENT"]`. */
  function FilterComments(ts: seq<Token>): (r: seq<Token>)
    ensures NoComments(r)
    ensures forall t :: t in r <==> t in ts && t.kind != Comment
  {
    if ts == [] then []
    else (if ts[0].kind == Comment then [] else [ts[0]]) + FilterComments(ts[1..])
  }

  /** Filtering distributes over concatenation: the kept tokens stay in their order. */
  lemma {:induction false} FilterCommentsAppend(a: seq<Token>, b: seq<Token>)
    ensures FilterComments(a + b) == FilterComments(a) + FilterComments(b)
  {
    if a == [] {
      assert a + b == b;
    } else {
      assert (a + b)[0] == a[0];
      assert (a + b)[1..] == a[1..] + b;
      FilterCommentsAppend(a[1..], b);
    }
  }

  /** A list without comments is left as it is. */
  lemma {:induction false} FilterCommentsKeeps(ts: seq<Token>)
    requires NoComments(ts)
    ensures FilterComments(ts) == ts
  {
    if ts != [] {
      FilterCommentsKeeps(ts[1..]);
    }
  }

  /** Exactly the comments are removed: the length drops by their number. */
  lemma {:induction false} FilterCommentsLength(ts: seq<Token>)
    ensures |FilterComments(ts)| == |ts| - CommentCount(ts)
  {
    if ts != [] {
      FilterCommentsLength(ts[1..]);
    }
  }

  function CommentCount(ts: seq<Token>): nat {
    if ts == [] then 0 else (if ts[0].kind == Comment then 1 else 0) + CommentCount(ts[1..])
  }

  // ---------------------------------------------------------------------------------------
  // Shapes: the token kinds a rule consumes, in order

  /** The token at `i` exists and has kind `kind`: what `expect(kind)` checks. */
  predicate SlotOk(ts: seq<Token>, i: nat, kind: TokenKind) {
    i < |ts| && ts[i].kind == kind
  }

  /** The `found` part of `expect`'s error: the kind at `i`, or `"EOF"`. */
  function FoundAt(ts: seq<Token>, i: nat): Found {
    if i < |ts| then FoundKind(ts[i].kind) else Eof
  }

  /** The tokens from `i` on have the kinds `shape` lists, one by one. */
  predicate Fits(ts: seq<Token>, i: nat, shape: seq<TokenKind>) {
    forall k :: 0 <= k < |shape| ==> SlotOk(ts, i + k, shape[k])
  }

  /** `"return" <int> ";"`. */
  const StatementShape: seq<TokenKind> := [Keyword, IntegerConst, Punct(Semicolon)]

  /** `"int" <identifier> "(" "void" ")" "{" "return" <int> ";" "}"`. */
  const FunctionShape: seq<TokenKind> :=
    [Keyword, Identifier, Punct(LParen), Keyword, Punct(RParen), Punct(LBrace), Keyword, IntegerConst, Punct(Semicolon), Punct(RBrace)]

  /** The first slot of a statement at `i` whose `expect` fails; 3 when none does. */
  function StatementMisfit(ts: seq<Token>, i: nat): nat {
    if !SlotOk(ts, i, Keyword) then 0
    else if !SlotOk(ts, i + 1, IntegerConst) then 1
    else if !SlotOk(ts, i + 2, Punct(Semicolon)) then 2
    else 3
  }

  /** The kind slot `k` of a function header expects: `"int" <identifier> "(" "void" ")" "{"`. */
  function HeaderKind(k: nat): TokenKind {
    if k == 1 then Identifier
    else if k == 2 then Punct(LParen)
    else if k == 4 then Punct(RParen)
    else if k == 5 then Punct(LBrace)
    else Keyword
  }

  /** The first slot of a function header at `i` whose `expect` fails; 6 when none does. */
  function HeaderMisfit(ts: seq<Token>, i: nat): nat {
    if !SlotOk(ts, i, Keyword) then 0
    else if !SlotOk(ts, i + 1, Identifier) then 1
    else if !SlotOk(ts, i + 2, Punct(LParen)) then 2
    else if !SlotOk(ts, i + 3, Keyword) then 3
    else if !SlotOk(ts, i + 4, Punct(RParen)) then 4
    else if !SlotOk(ts, i + 5, Punct(LBrace)) then 5
    else 6
  }

  // ---------------------------------------------------------------------------------------
  // What each rule yields, read off the tokens

  /** The lexeme at `i`, or nothing past the end. */
  function LexemeAt(ts: seq<Token>, i: nat): string {
    if i < |ts| then ts[i].lexeme else ""
  }

  /** `parse_int` at `i`: an INTEGER_CONST token, then `int()` of its lexeme. */
  function IntAt(ts: seq<Token>, i: nat): (r: Result<Exp, ParseError>)
    ensures r.Ok? <==> SlotOk(ts, i, IntegerConst) && IsDigits(ts[i].lexeme)
    ensures r.Err? && SlotOk(ts, i, IntegerConst) ==> r.error == NotAnInteger(ts[i].lexeme)
  {
    if !SlotOk(ts, i, IntegerConst) then Err(Expected(IntegerConst, FoundAt(ts, i)))
    else if IsDigits(ts[i].lexeme) then Ok(IntegerLiteral(DecimalValue(ts[i].lexeme)))
    else Err(NotAnInteger(ts[i].lexeme))
  }

  /** Where the cursor is after `parse_int` at `i`, whether it succeeds or fails. */
  function IntEnd(ts: seq<Token>, i: nat): nat {
    if SlotOk(ts, i, IntegerConst) then i + 1 else i
  }

  /**
   * `parse_statement` at `i`: the first slot that does not fit is reported; `int()` runs
   * as soon as the numeral is consumed, so a bad numeral is reported before a missing
   * semicolon.
   */
  function StatementAt(ts: seq<Token>, i: nat): (r: Result<Statement, ParseError>)
    ensures r.Ok? <==> Fits(ts, i, StatementShape) && IsDigits(LexemeAt(ts, i + 1))
  {
    assert Fits(ts, i, StatementShape) ==>
      SlotOk(ts, i + 0, StatementShape[0]) && SlotOk(ts, i + 1, StatementShape[1]) && SlotOk(ts, i + 2, StatementShape[2]);
    var m := StatementMisfit(ts, i);
    if m < 2 then Err(Expected(if m == 0 then Keyword else IntegerConst, FoundAt(ts, i + m)))
    else if !IsDigits(LexemeAt(ts, i + 1)) then Err(NotAnInteger(LexemeAt(ts, i + 1)))
    else if m < 3 then Err(Expected(Punct(Semicolon), FoundAt(ts, i + 2)))
    else Ok(ReturnStatement(IntegerLiteral(DecimalValue(LexemeAt(ts, i + 1)))))
  }

  function StatementEnd(ts: seq<Token>, i: nat): nat {
    var m := StatementMisfit(ts, i);
    if m < 2 then i + m
    else if !IsDigits(LexemeAt(ts, i + 1)) then i + 2
    else i + m
  }

  /**
   * `parse_function` at `i`: the header, then the statement at `i + 6`, then the closing
   * brace; the name is the lexeme of slot 1.
   */
  function FunctionAt(ts: seq<Token>, i: nat): Result<Function, ParseError> {
    var h := HeaderMisfit(ts, i);
    if h < 6 then Err(Expected(HeaderKind(h), FoundAt(ts, i + h)))
    else match StatementAt(ts, i + 6)
      case Err(e) => Err(e)
      case Ok(body) =>
        if !SlotOk(ts, i + 9, Punct(RBrace)) then Err(Expected(Punct(RBrace), FoundAt(ts, i + 9)))
        else Ok(Function(LexemeAt(ts, i + 1), body))
  }

  function FunctionEnd(ts: seq<Token>, i: nat): nat {
    var h := HeaderMisfit(ts, i);
    if h < 6 then i + h
    else if StatementAt(ts, i + 6).Err? then StatementEnd(ts, i + 6)
    else if !SlotOk(ts, i + 9, Punct(RBrace)) then i + 9
    else i + 10
  }

  /** The functions parsed from `i` to the end, one after another. */
  function FunctionsFrom(ts: seq<Token>, i: nat): Result<seq<Function>, ParseError>
    decreases |ts| - i
  {
    if i >= |ts| then Ok([])
    else match FunctionAt(ts, i)
      case Err(e) => Err(e)
      case Ok(f) => PrependFunction(f, FunctionsFrom(ts, i + 10))
  }

  /** `parse_program` from `i`: at least one function, and every token used. */
  function ProgramAt(ts: seq<Token>, i: nat): (r: Result<seq<Function>, ParseError>)
    ensures r == Err(NoProgram) <==> i >= |ts|
    ensures r.Ok? ==> |r.value| >= 1
  {
    if i >= |ts| then Err(NoProgram)
    else
      FunctionsFromNeverEmptyError(ts, i);
      FunctionsFrom(ts, i)
  }

  /** An error inside the loop of `parse_program` is a function's error, never "no program". */
  lemma {:induction false} FunctionsFromNeverEmptyError(ts: seq<Token>, i: nat)
    ensures FunctionsFrom(ts, i) != Err(NoProgram)
    decreases |ts| - i
  {
    if i < |ts| && FunctionAt(ts, i).Ok? {
      FunctionsFromNeverEmptyError(ts, i + 10);
    }
  }

  function PrependFunction(f: Function, rest: Result<seq<Function>, ParseError>): Result<seq<Function>, ParseError> {
    match rest
    case Ok(fs) => Ok([f] + fs)
    case Err(e) => Err(e)
  }

  /** A parsed function used exactly ten tokens. */
  lemma FunctionAtExtent(ts: seq<Token>, i: nat)
    requires FunctionAt(ts, i).Ok?
    ensures FunctionEnd(ts, i) == i + 10
  {
  }

  // ---------------------------------------------------------------------------------------
  // The parser object

  class Parser {
    /** The tokens with the comments filtered out; never changed after construction. */
    const tokens: seq<Token>
    /** The cursor: the index of the current token. */
    var curr: nat

    predicate Valid()
      reads this
    {
      curr <= |tokens| && NoComments(tokens)
    }

    constructor(input: seq<Token>)
      ensures tokens == FilterComments(input) && curr == 0
      ensures Valid()
    {
      tokens := FilterComments(input);
      curr := 0;
    }

    /** `current_token`: the token under the cursor, `None` past the end. */
    function CurrentToken(): (r: Option<Token>)
      reads this
      ensures r.None? <==> curr >= |tokens|
      ensures r.Some? ==> r.value == tokens[curr]
    {
      if curr < |tokens| then Some(tokens[curr]) else None
    }

    method Advance()
      modifies this`curr
      ensures curr == old(curr) + 1
    {
      curr := curr + 1;
    }

    /**
     * `expect(kind)`: consume and return the current token when it has kind `kind`;
     * otherwise fail naming `kind` and what was found, leaving the cursor where it is.
     */
    method Expect(kind: TokenKind) returns (r: Result<Token, ParseError>)
      requires Valid()
      modifies this`curr
      ensures Valid()
      ensures r.Ok? <==> SlotOk(tokens, old(curr), kind)
      ensures r.Ok? ==> r.value == tokens[old(curr)] && curr == old(curr) + 1
      ensures r.Err? ==> r.error == Expected(kind, FoundAt(tokens, old(curr))) && curr == old(curr)
    {
      var token := CurrentToken();
      if token.None? || token.value.kind != kind {
        var found := if token.Some? then FoundKind(token.value.kind) else Eof;
        return Err(Expected(kind, found));
      }
      Advance();
      return Ok(token.value);
    }

    /** `parse_int`. */
    method ParseInt() returns (r: Result<Exp, ParseError>)
      requires Valid()
      modifies this`curr
      ensures Valid()
      ensures r == IntAt(tokens, old(curr)) && curr == IntEnd(tokens, old(curr))
    {
      var intToken := Expect(IntegerConst);
      if intToken.Err? {
        return Err(intToken.error);
      }
      var lexeme := intToken.value.lexeme;
      if !IsDigits(lexeme) {
        return Err(NotAnInteger(lexeme));
      }
      return Ok(IntegerLiteral(DecimalValue(lexeme)));
    }

    /** `parse_exp`: an expression is an integer literal. */
    method ParseExp() returns (r: Result<Exp, ParseError>)
      requires Valid()
      modifies this`curr
      ensures Valid()
      ensures r == IntAt(tokens, old(curr)) && curr == IntEnd(tokens, old(curr))
    {
      r := ParseInt();
    }

    /** `parse_statement`. */
    method ParseStatement() returns (r: Result<Statement, ParseError>)
      requires Valid()
      modifies this`curr
      ensures Valid()
      ensures r == StatementAt(tokens, old(curr)) && curr == StatementEnd(tokens, old(curr))
    {
      ghost var i := curr;
      var keyword := Expect(Keyword);
      if keyword.Err? {
        return Err(keyword.error);
      }
      var expression := ParseExp();
      if expression.Err? {
        return Err(expression.error);
      }
      var semicolon := Expect(Punct(Semicolon));
      if semicolon.Err? {
        return Err(semicolon.error);
      }
      return Ok(ReturnStatement(expression.value));
    }

    /** `parse_function`. */
    method ParseFunction() returns (r: Result<Function, ParseError>)
      requires Valid()
      modifies this`curr
      ensures Valid()
      ensures r == FunctionAt(tokens, old(curr)) && curr == FunctionEnd(tokens, old(curr))
    {
      ghost var i := curr;
      var returnType := Expect(Keyword);
      if returnType.Err? {
        return Err(returnType.error);
      }
      var identifier := Expect(Identifier);
      if identifier.Err? {
        return Err(identifier.error);
      }
      var lparen := Expect(Punct(LParen));
      if lparen.Err? {
        return Err(lparen.error);
      }
      var parameters := Expect(Keyword);
      if parameters.Err? {
        return Err(parameters.error);
      }
      var rparen := Expect(Punct(RParen));
      if rparen.Err? {
        return Err(rparen.error);
      }
      var lbrace := Expect(Punct(LBrace));
      if lbrace.Err? {
        return Err(lbrace.error);
      }
      var statement := ParseStatement();
      if statement.Err? {
        return Err(statement.error);
      }
      var rbrace := Expect(Punct(RBrace));
      if rbrace.Err? {
        return Err(rbrace.error);
      }
      return Ok(Function(identifier.value.lexeme, statement.value));
    }

    /** `parse_program`: functions until the tokens run out; none at all is an error. */
    method ParseProgram() returns (r: Result<seq<Function>, ParseError>)
      requires Valid()
      modifies this`curr
      ensures Valid()
      ensures r == ProgramAt(tokens, old(curr))
      ensures r.Ok? ==> curr == |tokens|
    {
      ghost var start := curr;
      var programs: seq<Function> := [];
      PrependAllNil(FunctionsFrom(tokens, curr));
      while CurrentToken().Some?
        invariant Valid() && start <= curr
        invariant programs == [] <==> curr == start
        invariant FunctionsFrom(tokens, start) == PrependAll(programs, FunctionsFrom(tokens, curr))
        decreases |tokens| - curr
      {
        ghost var before := curr;
        var f := ParseFunction();
        if f.Err? {
          assert FunctionsFrom(tokens, before) == Err(f.error);
          PrependAllErr(programs, f.error);
          return Err(f.error);
        }
        FunctionAtExtent(tokens, before);
        PrependAllCons(programs, f.value, FunctionsFrom(tokens, curr));
        programs := programs + [f.value];
      }
      if programs == [] {
        return Err(NoProgram);
      }
      assert FunctionsFrom(tokens, curr) == Ok([]);
      assert programs + [] == programs;
      return Ok(programs);
    }
  }

  /** The functions `fs` parsed so far, in front of whatever the rest yields. */
  function PrependAll(fs: seq<Function>, rest: Result<seq<Function>, ParseError>): Result<seq<Function>, ParseError> {
    match rest
    case Ok(gs) => Ok(fs + gs)
    case Err(e) => Err(e)
  }

  lemma PrependAllNil(rest: Result<seq<Function>, ParseError>)
    ensures PrependAll([], rest) == rest
  {
    if rest.Ok? {
      assert [] + rest.value == rest.value;
    }
  }

  lemma PrependAllErr(fs: seq<Function>, e: ParseError)
    ensures PrependAll(fs, Err(e)) == Err(e)
  {
  }

  lemma PrependAllCons(fs: seq<Function>, f: Function, rest: Result<seq<Function>, ParseError>)
    ensures PrependAll(fs, PrependFunction(f, rest)) == PrependAll(fs + [f], rest)
  {
    if rest.Ok? {
      assert fs + ([f] + rest.value) == (fs + [f]) + rest.value;
    }
  }
}

/**
 * Properties of the recursive-descent parser of src/cc/parser.py, stated on the functions
 * that specify its methods: which token lists `parse_function` accepts and what it builds,
 * which error it reports on the others, how `parse_program` cuts the list into functions,
 * and when it finds no program at all.
 */
module ParserProperties {
  import opened Wrappers
  import opened Numerals
  import opened Lexer
  import opened Ast
  import opened Parser

  // ---------------------------------------------------------------------------------------
  // The slot checks against the grammar's shape

  /** The header checks are the first six slots of the function shape. */
  lemma HeaderMisfitIsFirst(ts: seq<Token>, i: nat)
    ensures HeaderMisfit(ts, i) <= 6
    ensures forall k :: 0 <= k < HeaderMisfit(ts, i) ==> SlotOk(ts, i + k, FunctionShape[k])
    ensures HeaderMisfit(ts, i) < 6 ==>
      !SlotOk(ts, i + HeaderMisfit(ts, i), FunctionShape[HeaderMisfit(ts, i)])
      && HeaderKind(HeaderMisfit(ts, i)) == FunctionShape[HeaderMisfit(ts, i)]
  {
  }

  /** The statement checks are the three slots of the statement shape. */
  lemma StatementMisfitIsFirst(ts: seq<Token>, i: nat)
    ensures StatementMisfit(ts, i) <= 3
    ensures forall k :: 0 <= k < StatementMisfit(ts, i) ==> SlotOk(ts, i + k, StatementShape[k])
    ensures StatementMisfit(ts, i) < 3 ==>
      !SlotOk(ts, i + StatementMisfit(ts, i), StatementShape[StatementMisfit(ts, i)])
  {
  }

  /** All ten slots fit exactly when the header, the statement and the brace all do. */
  lemma FitsFunctionShape(ts: seq<Token>, i: nat)
    ensures Fits(ts, i, FunctionShape) <==>
      HeaderMisfit(ts, i) == 6 && StatementMisfit(ts, i + 6) == 3 && SlotOk(ts, i + 9, Punct(RBrace))
  {
    if HeaderMisfit(ts, i) == 6 && StatementMisfit(ts, i + 6) == 3 && SlotOk(ts, i + 9, Punct(RBrace)) {
      forall k | 0 <= k < |FunctionShape|
        ensures SlotOk(ts, i + k, FunctionShape[k])
      {
        if k >= 6 {
          assert i + k == (i + 6) + (k - 6);
        }
      }
    }
    if Fits(ts, i, FunctionShape) {
      assert SlotOk(ts, i + 0, FunctionShape[0]);
      assert SlotOk(ts, i + 1, FunctionShape[1]);
      assert SlotOk(ts, i + 2, FunctionShape[2]);
      assert SlotOk(ts, i + 3, FunctionShape[3]);
      assert SlotOk(ts, i + 4, FunctionShape[4]);
      assert SlotOk(ts, i + 5, FunctionShape[5]);
      assert SlotOk(ts, i + 6, FunctionShape[6]);
      assert SlotOk(ts, i + 7, FunctionShape[7]);
      assert SlotOk(ts, i + 8, FunctionShape[8]);
      assert SlotOk(ts, i + 9, FunctionShape[9]);
    }
  }

  // ---------------------------------------------------------------------------------------
  // What `parse_function` accepts and builds

  /**
   * A function parses exactly when its ten tokens have the grammar's kinds and the numeral
   * converts; the result is named by the identifier's lexeme and returns the numeral's value.
   */
  lemma FunctionAccepts(ts: seq<Token>, i: nat)
    ensures FunctionAt(ts, i).Ok? <==> Fits(ts, i, FunctionShape) && IsDigits(LexemeAt(ts, i + 7))
    ensures FunctionAt(ts, i).Ok? ==>
      FunctionAt(ts, i).value
        == Function(LexemeAt(ts, i + 1), ReturnStatement(IntegerLiteral(DecimalValue(LexemeAt(ts, i + 7)))))
      && FunctionEnd(ts, i) == i + 10
  {
    FitsFunctionShape(ts, i);
  }

  /**
   * On any other list the error names the first slot whose kind is wrong, with the kind
   * found there (or EOF), and the cursor stops on that slot; a numeral that does not
   * convert is reported as soon as it is consumed, before the slots after it are looked at.
   */
  lemma FunctionReportsFirstMisfit(ts: seq<Token>, i: nat, m: nat)
    requires m < |FunctionShape|
    requires forall k :: 0 <= k < m ==> SlotOk(ts, i + k, FunctionShape[k])
    requires !SlotOk(ts, i + m, FunctionShape[m])
    requires m > 7 ==> IsDigits(LexemeAt(ts, i + 7))
    ensures FunctionAt(ts, i) == Err(Expected(FunctionShape[m], FoundAt(ts, i + m)))
    ensures FunctionEnd(ts, i) == i + m
  {
    HeaderMisfitIsFirst(ts, i);
    if m >= 6 {
      assert HeaderMisfit(ts, i) == 6 by {
        if HeaderMisfit(ts, i) < 6 {
          assert false;
        }
      }
      StatementMisfitIsFirst(ts, i + 6);
      assert forall k :: 0 <= k < m - 6 && k < 3 ==> SlotOk(ts, (i + 6) + k, StatementShape[k]) by {
        forall k | 0 <= k < m - 6 && k < 3
          ensures SlotOk(ts, (i + 6) + k, StatementShape[k])
        {
          assert SlotOk(ts, i + (6 + k), FunctionShape[6 + k]);
        }
      }
      if m < 9 {
        assert !SlotOk(ts, (i + 6) + (m - 6), StatementShape[m - 6]);
        assert StatementMisfit(ts, i + 6) == m - 6;
      } else {
        assert StatementMisfit(ts, i + 6) == 3;
      }
    } else {
      assert HeaderMisfit(ts, i) == m;
    }
  }

  /** A numeral `int()` rejects is reported once the eight slots before it fit. */
  lemma FunctionReportsBadNumeral(ts: seq<Token>, i: nat)
    requires forall k :: 0 <= k < 8 ==> SlotOk(ts, i + k, FunctionShape[k])
    requires !IsDigits(LexemeAt(ts, i + 7))
    ensures FunctionAt(ts, i) == Err(NotAnInteger(LexemeAt(ts, i + 7)))
    ensures FunctionEnd(ts, i) == i + 8
  {
    assert SlotOk(ts, i + 0, FunctionShape[0]) && SlotOk(ts, i + 1, FunctionShape[1]);
    assert SlotOk(ts, i + 2, FunctionShape[2]) && SlotOk(ts, i + 3, FunctionShape[3]);
    assert SlotOk(ts, i + 4, FunctionShape[4]) && SlotOk(ts, i + 5, FunctionShape[5]);
    assert SlotOk(ts, i + 6, FunctionShape[6]) && SlotOk(ts, i + 7, FunctionShape[7]);
    assert HeaderMisfit(ts, i) == 6;
    assert StatementMisfit(ts, i + 6) >= 2;
  }

  /**
   * Only the kinds of the keyword slots are checked, not their text: the ten tokens of
   * `return main(int) { void 1; }` parse as the function `main` returning 1.
   */
  lemma KeywordSlotsCheckKindOnly()
    ensures
      var ts := [
        Token(Keyword, "return"), Token(Identifier, "main"), Token(Punct(LParen), "("),
        Token(Keyword, "int"), Token(Punct(RParen), ")"), Token(Punct(LBrace), "{"),
        Token(Keyword, "void"), Token(IntegerConst, "1"), Token(Punct(Semicolon), ";"),
        Token(Punct(RBrace), "}")];
      FunctionAt(ts, 0) == Ok(Function("main", ReturnStatement(IntegerLiteral(1))))
  {
    var ts := [
      Token(Keyword, "return"), Token(Identifier, "main"), Token(Punct(LParen), "("),
      Token(Keyword, "int"), Token(Punct(RParen), ")"), Token(Punct(LBrace), "{"),
      Token(Keyword, "void"), Token(IntegerConst, "1"), Token(Punct(Semicolon), ";"),
      Token(Punct(RBrace), "}")];
    assert HeaderMisfit(ts, 0) == 6;
    assert StatementMisfit(ts, 6) == 3;
    assert IsDigits("1") && DecimalValue("1") == 1 by {
      assert "1"[..0] == [];
    }
  }

  // ---------------------------------------------------------------------------------------
  // `parse_int`

  /** The value of a parsed integer is never negative. */
  lemma IntIsNatural(ts: seq<Token>, i: nat)
    requires IntAt(ts, i).Ok?
    ensures IntAt(ts, i).value.value >= 0
    ensures IntEnd(ts, i) == i + 1
  {
  }

  /** The decimal text of `n` reads back as `n`. */
  lemma IntReadsBack(ts: seq<Token>, i: nat, n: nat)
    requires i < |ts| && ts[i] == Token(IntegerConst, NatToString(n))
    ensures IntAt(ts, i) == Ok(IntegerLiteral(n))
  {
    DecimalValueOfNatToString(n);
  }

  /** The lexer only emits numerals made of digits, so `int()` never fails on lexed input. */
  lemma LexedNumeralsConvert(ts: seq<Token>, i: nat)
    requires WellFormed(ts) && SlotOk(ts, i, IntegerConst)
    ensures IntAt(ts, i).Ok?
  {
    assert ts[i].kind == IntegerConst;
  }

  // ---------------------------------------------------------------------------------------
  // `parse_program`

  /**
   * A parsed program cuts the rest of the list into blocks of ten tokens, one function per
   * block, in order.
   */
  lemma FunctionsFromBlocks(ts: seq<Token>, i: nat)
    requires FunctionsFrom(ts, i).Ok?
    ensures i < |ts| ==> |ts| - i == 10 * |FunctionsFrom(ts, i).value|
    ensures forall k :: 0 <= k < |FunctionsFrom(ts, i).value| ==>
      FunctionAt(ts, i + 10 * k) == Ok(FunctionsFrom(ts, i).value[k])
  {
    FunctionsFromLength(ts, i);
    forall k | 0 <= k < |FunctionsFrom(ts, i).value|
      ensures FunctionAt(ts, i + 10 * k) == Ok(FunctionsFrom(ts, i).value[k])
    {
      FunctionsFromBlock(ts, i, k);
    }
  }

  /** Ten tokens per parsed function, and none left over. */
  lemma {:induction false} FunctionsFromLength(ts: seq<Token>, i: nat)
    requires FunctionsFrom(ts, i).Ok?
    ensures i < |ts| ==> |ts| - i == 10 * |FunctionsFrom(ts, i).value|
    decreases |ts| - i
  {
    if i < |ts| {
      FunctionsFromStep(ts, i);
      FunctionsFromLength(ts, i + 10);
      if i + 10 >= |ts| {
        assert FunctionsFrom(ts, i + 10).value == [];
      }
    }
  }

  /** Function `k` of a parse from `i` is the one parsed at `i + 10k`. */
  lemma FunctionsFromBlock(ts: seq<Token>, i: nat, k: nat)
    requires FunctionsFrom(ts, i).Ok? && k < |FunctionsFrom(ts, i).value|
    ensures FunctionAt(ts, i + 10 * k) == Ok(FunctionsFrom(ts, i).value[k])
  {
    FunctionsFromDrop(ts, i, k);
    FunctionsFromStep(ts, i + 10 * k);
  }

  /** The parse from `i + 10k` is the parse from `i` without its first `k` functions. */
  lemma {:induction false} FunctionsFromDrop(ts: seq<Token>, i: nat, k: nat)
    requires FunctionsFrom(ts, i).Ok? && k < |FunctionsFrom(ts, i).value|
    ensures i + 10 * k < |ts| && FunctionsFrom(ts, i + 10 * k).Ok?
    ensures FunctionsFrom(ts, i + 10 * k).value == FunctionsFrom(ts, i).value[k..]
    decreases k
  {
    var fs := FunctionsFrom(ts, i).value;
    if k == 0 {
      assert i + 10 * k == i;
      assert fs[k..] == fs;
      FunctionsFromTail(ts, i);
    } else {
      FunctionsFromTail(ts, i);
      FunctionsFromDrop(ts, i + 10, k - 1);
      assert i + 10 * k == (i + 10) + 10 * (k - 1);
      assert fs[k..] == fs[1..][k - 1..];
    }
  }

  /** Ten tokens on, the parse goes on with the remaining functions. */
  lemma FunctionsFromTail(ts: seq<Token>, i: nat)
    requires FunctionsFrom(ts, i).Ok? && |FunctionsFrom(ts, i).value| > 0
    ensures i < |ts| && FunctionsFrom(ts, i + 10).Ok?
    ensures FunctionsFrom(ts, i + 10).value == FunctionsFrom(ts, i).value[1..]
  {
    FunctionsFromStep(ts, i);
  }

  /** A successful parse from `i` is the function at `i` in front of the parse ten tokens on. */
  lemma FunctionsFromStep(ts: seq<Token>, i: nat)
    requires i < |ts| && FunctionsFrom(ts, i).Ok?
    ensures FunctionAt(ts, i).Ok? && FunctionsFrom(ts, i + 10).Ok?
    ensures FunctionsFrom(ts, i).value == [FunctionAt(ts, i).value] + FunctionsFrom(ts, i + 10).value
  {
    FunctionAtExtent(ts, i);
  }

  /** Filtering leaves nothing exactly when every token is a comment. */
  lemma {:induction false} FilterCommentsEmpty(ts: seq<Token>)
    ensures FilterComments(ts) == [] <==> forall k :: 0 <= k < |ts| ==> ts[k].kind == Comment
  {
    if ts != [] {
      FilterCommentsEmpty(ts[1..]);
      if ts[0].kind == Comment {
        assert forall k :: 1 <= k < |ts| ==> ts[k] == ts[1..][k - 1];
      }
    }
  }

  /** A token list of comments only (or none) holds no program. */
  lemma CommentsOnlyIsNoProgram(input: seq<Token>)
    ensures ProgramAt(FilterComments(input), 0) == Err(NoProgram)
      <==> forall k :: 0 <= k < |input| ==> input[k].kind == Comment
  {
    FilterCommentsEmpty(input);
  }
}

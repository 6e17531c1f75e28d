/**
 * What `lex` returns on whole inputs: the inputs of tests/test_lexer.py, lexed to their
 * exact token lists. Each input is written as a `Layout`, or as a few layouts one after the
 * other, and `LexFits` turns the layout's fitting into the token list.
 */
module LexerInputs {
  import opened Wrappers
  import opened Lexer
  import opened LexerProperties
  import opened LexerLayouts

  /** `lex("") == []`. */
  lemma EmptySource()
    ensures LexSpec("") == Ok([])
  {
    BlankLexesToNothing("");
  }

  /** `lex("@")` raises a ValueError whose message begins "Unexpected token at:". */
  lemma InvalidCharacter()
    ensures LexSpec("@").Err?
    ensures HasPrefix(LexSpec("@").error.Message(), "Unexpected token at:")
  {
    AtSignRejected("@");
  }

  // ---------------------------------------------------------------------------------------
  // "(){};~", laid out in two halves

  const SingleCharsFront: Layout :=
    Piece("", Token(Punct(LParen), "("),
    Piece("", Token(Punct(RParen), ")"),
    Piece("", Token(Punct(LBrace), "{"),
    End(""))))

  const SingleCharsBack: Layout :=
    Piece("", Token(Punct(RBrace), "}"),
    Piece("", Token(Punct(Semicolon), ";"),
    Piece("", Token(Punct(Tilde), "~"),
    End(""))))

  lemma SingleCharsFrontFits()
    ensures SingleCharsFront.FitsBefore(Some('}'))
  {
  }

  lemma SingleCharsBackFits()
    ensures SingleCharsBack.FitsBefore(None)
  {
  }

  lemma SingleCharsText()
    ensures SingleCharsFront.Text() == "(){"
    ensures SingleCharsFront.Tokens()
      == [Token(Punct(LParen), "("), Token(Punct(RParen), ")"), Token(Punct(LBrace), "{")]
    ensures SingleCharsBack.Text() == "};~"
    ensures SingleCharsBack.Tokens()
      == [Token(Punct(RBrace), "}"), Token(Punct(Semicolon), ";"), Token(Punct(Tilde), "~")]
  {
  }

  /** The two halves, one after the other, fit and spell out the whole input. */
  lemma SingleCharsLayout()
    ensures Then(SingleCharsFront, SingleCharsBack).FitsBefore(None)
    ensures Then(SingleCharsFront, SingleCharsBack).Text() == "(){};~"
    ensures Then(SingleCharsFront, SingleCharsBack).Tokens() == [Token(Punct(LParen), "("),
      Token(Punct(RParen), ")"), Token(Punct(LBrace), "{"), Token(Punct(RBrace), "}"),
      Token(Punct(Semicolon), ";"), Token(Punct(Tilde), "~")]
  {
    SingleCharsFrontFits();
    SingleCharsBackFits();
    SingleCharsText();
    ThenFits(SingleCharsFront, SingleCharsBack, None);
    ThenText(SingleCharsFront, SingleCharsBack);
    ThenTokens(SingleCharsFront, SingleCharsBack);
  }

  /** `lex("(){};~")`: each punctuator is a token of its own. */
  lemma SingleChars()
    ensures LexSpec("(){};~") == Ok([Token(Punct(LParen), "("), Token(Punct(RParen), ")"),
      Token(Punct(LBrace), "{"), Token(Punct(RBrace), "}"), Token(Punct(Semicolon), ";"),
      Token(Punct(Tilde), "~")])
  {
    SingleCharsLayout();
    LexFits(Then(SingleCharsFront, SingleCharsBack));
  }

  // ---------------------------------------------------------------------------------------
  // "! != = == < <= > >= & && | || + ++ - --", laid out in four quarters

  const OneOrTwoCharsEquality: Layout :=
    Piece("", Token(Punct(Bang), "!"),
    Piece(" ", Token(Punct(BangEqual), "!="),
    Piece(" ", Token(Punct(Equal), "="),
    Piece(" ", Token(Punct(EqualEqual), "=="),
    End("")))))

  const OneOrTwoCharsOrdering: Layout :=
    Piece(" ", Token(Punct(Less), "<"),
    Piece(" ", Token(Punct(LessEqual), "<="),
    Piece(" ", Token(Punct(Greater), ">"),
    Piece(" ", Token(Punct(GreaterEqual), ">="),
    End("")))))

  const OneOrTwoCharsBitwise: Layout :=
    Piece(" ", Token(Punct(Amp), "&"),
    Piece(" ", Token(Punct(AmpAmp), "&&"),
    Piece(" ", Token(Punct(Pipe), "|"),
    Piece(" ", Token(Punct(PipePipe), "||"),
    End("")))))

  const OneOrTwoCharsStepping: Layout :=
    Piece(" ", Token(Punct(Plus), "+"),
    Piece(" ", Token(Punct(PlusPlus), "++"),
    Piece(" ", Token(Punct(Minus), "-"),
    Piece(" ", Token(Punct(MinusMinus), "--"),
    End("")))))

  lemma OneOrTwoCharsEqualityFits()
    ensures OneOrTwoCharsEquality.FitsBefore(Some(' '))
  {
  }

  lemma OneOrTwoCharsOrderingFits()
    ensures OneOrTwoCharsOrdering.FitsBefore(Some(' '))
  {
  }

  lemma OneOrTwoCharsBitwiseFits()
    ensures OneOrTwoCharsBitwise.FitsBefore(Some(' '))
  {
  }

  lemma OneOrTwoCharsSteppingFits()
    ensures OneOrTwoCharsStepping.FitsBefore(None)
  {
  }

  lemma OneOrTwoCharsText()
    ensures OneOrTwoCharsEquality.Text() == "! != = =="
    ensures OneOrTwoCharsOrdering.Text() == " < <= > >="
    ensures OneOrTwoCharsBitwise.Text() == " & && | ||"
    ensures OneOrTwoCharsStepping.Text() == " + ++ - --"
  {
  }

  lemma OneOrTwoCharsTokens()
    ensures OneOrTwoCharsEquality.Tokens() == [Token(Punct(Bang), "!"),
      Token(Punct(BangEqual), "!="), Token(Punct(Equal), "="), Token(Punct(EqualEqual), "==")]
    ensures OneOrTwoCharsOrdering.Tokens() == [Token(Punct(Less), "<"),
      Token(Punct(LessEqual), "<="), Token(Punct(Greater), ">"),
      Token(Punct(GreaterEqual), ">=")]
    ensures OneOrTwoCharsBitwise.Tokens() == [Token(Punct(Amp), "&"),
      Token(Punct(AmpAmp), "&&"), Token(Punct(Pipe), "|"), Token(Punct(PipePipe), "||")]
    ensures OneOrTwoCharsStepping.Tokens() == [Token(Punct(Plus), "+"),
      Token(Punct(PlusPlus), "++"), Token(Punct(Minus), "-"), Token(Punct(MinusMinus), "--")]
  {
  }

  /** The first two quarters, one after the other. */
  lemma OneOrTwoCharsFrontFits()
    ensures Then(OneOrTwoCharsEquality, OneOrTwoCharsOrdering).FitsBefore(Some(' '))
  {
    OneOrTwoCharsEqualityFits();
    OneOrTwoCharsOrderingFits();
    ThenFits(OneOrTwoCharsEquality, OneOrTwoCharsOrdering, Some(' '));
  }

  lemma OneOrTwoCharsFrontText()
    ensures Then(OneOrTwoCharsEquality, OneOrTwoCharsOrdering).Text() == "! != = == < <= > >="
  {
    OneOrTwoCharsText();
    ThenText(OneOrTwoCharsEquality, OneOrTwoCharsOrdering);
  }

  lemma OneOrTwoCharsFrontTokens()
    ensures Then(OneOrTwoCharsEquality, OneOrTwoCharsOrdering).Tokens()
      == [Token(Punct(Bang), "!"), Token(Punct(BangEqual), "!="), Token(Punct(Equal), "="),
        Token(Punct(EqualEqual), "=="), Token(Punct(Less), "<"), Token(Punct(LessEqual), "<="),
        Token(Punct(Greater), ">"), Token(Punct(GreaterEqual), ">=")]
  {
    OneOrTwoCharsTokens();
    ThenTokens(OneOrTwoCharsEquality, OneOrTwoCharsOrdering);
  }

  /** The last two quarters, one after the other. */
  lemma OneOrTwoCharsBackFits()
    ensures Then(OneOrTwoCharsBitwise, OneOrTwoCharsStepping).FitsBefore(None)
  {
    OneOrTwoCharsBitwiseFits();
    OneOrTwoCharsSteppingFits();
    ThenFits(OneOrTwoCharsBitwise, OneOrTwoCharsStepping, None);
  }

  lemma OneOrTwoCharsBackText()
    ensures Then(OneOrTwoCharsBitwise, OneOrTwoCharsStepping).Text() == " & && | || + ++ - --"
  {
    OneOrTwoCharsText();
    ThenText(OneOrTwoCharsBitwise, OneOrTwoCharsStepping);
  }

  lemma OneOrTwoCharsBackTokens()
    ensures Then(OneOrTwoCharsBitwise, OneOrTwoCharsStepping).Tokens()
      == [Token(Punct(Amp), "&"), Token(Punct(AmpAmp), "&&"), Token(Punct(Pipe), "|"),
        Token(Punct(PipePipe), "||"), Token(Punct(Plus), "+"), Token(Punct(PlusPlus), "++"),
        Token(Punct(Minus), "-"), Token(Punct(MinusMinus), "--")]
  {
    OneOrTwoCharsTokens();
    ThenTokens(OneOrTwoCharsBitwise, OneOrTwoCharsStepping);
  }

  function OneOrTwoCharsWhole(): Layout {
    Then(Then(OneOrTwoCharsEquality, OneOrTwoCharsOrdering),
      Then(OneOrTwoCharsBitwise, OneOrTwoCharsStepping))
  }

  /** The two halves, one after the other, fit. */
  lemma OneOrTwoCharsFit()
    ensures OneOrTwoCharsWhole().FitsBefore(None)
  {
    OneOrTwoCharsFrontFits();
    OneOrTwoCharsBackFits();
    ThenFits(Then(OneOrTwoCharsEquality, OneOrTwoCharsOrdering),
      Then(OneOrTwoCharsBitwise, OneOrTwoCharsStepping), None);
  }

  /** The two halves, one after the other, spell out the input. */
  lemma OneOrTwoCharsSpelled()
    ensures OneOrTwoCharsWhole().Text() == "! != = == < <= > >=" + " & && | || + ++ - --"
  {
    OneOrTwoCharsFrontText();
    OneOrTwoCharsBackText();
    ThenText(Then(OneOrTwoCharsEquality, OneOrTwoCharsOrdering),
      Then(OneOrTwoCharsBitwise, OneOrTwoCharsStepping));
  }

  /** The two halves, one after the other, hold the input's tokens. */
  lemma OneOrTwoCharsListed()
    ensures OneOrTwoCharsWhole().Tokens() == [Token(Punct(Bang), "!"),
      Token(Punct(BangEqual), "!="), Token(Punct(Equal), "="),
      Token(Punct(EqualEqual), "=="), Token(Punct(Less), "<"), Token(Punct(LessEqual), "<="),
      Token(Punct(Greater), ">"), Token(Punct(GreaterEqual), ">="), Token(Punct(Amp), "&"),
      Token(Punct(AmpAmp), "&&"), Token(Punct(Pipe), "|"), Token(Punct(PipePipe), "||"),
      Token(Punct(Plus), "+"), Token(Punct(PlusPlus), "++"), Token(Punct(Minus), "-"),
      Token(Punct(MinusMinus), "--")]
  {
    OneOrTwoCharsFrontTokens();
    OneOrTwoCharsBackTokens();
    ThenTokens(Then(OneOrTwoCharsEquality, OneOrTwoCharsOrdering),
      Then(OneOrTwoCharsBitwise, OneOrTwoCharsStepping));
  }

  /**
   * `lex("! != = == < <= > >= & && | || + ++ - --")`, the input written here in its two
   * halves: a one-character operator and its two-character extension are told apart.
   */
  lemma OneOrTwoChars()
    ensures LexSpec("! != = == < <= > >=" + " & && | || + ++ - --")
      == Ok([Token(Punct(Bang), "!"), Token(Punct(BangEqual), "!="), Token(Punct(Equal), "="),
      Token(Punct(EqualEqual), "=="), Token(Punct(Less), "<"), Token(Punct(LessEqual), "<="),
      Token(Punct(Greater), ">"), Token(Punct(GreaterEqual), ">="), Token(Punct(Amp), "&"),
      Token(Punct(AmpAmp), "&&"), Token(Punct(Pipe), "|"), Token(Punct(PipePipe), "||"),
      Token(Punct(Plus), "+"), Token(Punct(PlusPlus), "++"), Token(Punct(Minus), "-"),
      Token(Punct(MinusMinus), "--")])
  {
    OneOrTwoCharsFit();
    OneOrTwoCharsSpelled();
    OneOrTwoCharsListed();
    LexFits(OneOrTwoCharsWhole());
  }

  // ---------------------------------------------------------------------------------------
  // "int void return"

  const KeywordsLayout: Layout :=
    Piece("", Token(Keyword, "int"),
    Piece(" ", Token(Keyword, "void"),
    Piece(" ", Token(Keyword, "return"),
    End(""))))

  lemma KeywordsFit()
    ensures KeywordsLayout.FitsBefore(None)
  {
  }

  lemma KeywordsText()
    ensures KeywordsLayout.Text() == "int void return"
    ensures KeywordsLayout.Tokens()
      == [Token(Keyword, "int"), Token(Keyword, "void"), Token(Keyword, "return")]
  {
  }

  /** `lex("int void return")`: the three keywords. */
  lemma Keywords()
    ensures LexSpec("int void return")
      == Ok([Token(Keyword, "int"), Token(Keyword, "void"), Token(Keyword, "return")])
  {
    KeywordsFit();
    KeywordsText();
    LexFits(KeywordsLayout);
  }

  // ---------------------------------------------------------------------------------------
  // The comments input, laid out in five parts: an empty line, a line comment and its
  // newline, a keyword and the space after it, a line comment and its newline, and a block
  // comment spanning two lines and the newline after it.

  const CommentsBlank: Layout := End("\n")

  const CommentsFirst: Layout := Piece("", Token(Comment, "// this is a comment"), End("\n"))

  const CommentsVoid: Layout := Piece("", Token(Keyword, "void"), End(" "))

  const CommentsAfterVoid: Layout :=
    Piece("", Token(Comment, "// commend after keyword"), End("\n"))

  const CommentsBlock: Layout := Piece("",
    Token(Comment, "/* multiline\ncomment */"), End("\n"))

  /** Each comment is what the pattern table finds at its place. */
  lemma CommentsReadable()
    ensures Readable(Token(Comment, "// this is a comment"), Some('\n'))
    ensures Readable(Token(Comment, "// commend after keyword"), Some('\n'))
    ensures Readable(Token(Comment, "/* multiline\ncomment */"), Some('\n'))
  {
    assert LineCommentBefore("// this is a comment", Some('\n'));
    assert LineCommentBefore("// commend after keyword", Some('\n'));
    assert BlockCommentText("/* multiline\ncomment */");
  }

  lemma CommentsFirstFits()
    ensures CommentsFirst.FitsBefore(Some('v'))
  {
    CommentsReadable();
  }

  lemma CommentsVoidFits()
    ensures CommentsVoid.FitsBefore(Some('/'))
  {
  }

  lemma CommentsAfterVoidFits()
    ensures CommentsAfterVoid.FitsBefore(Some('/'))
  {
    CommentsReadable();
  }

  lemma CommentsBlockFits()
    ensures CommentsBlock.FitsBefore(None)
  {
    CommentsReadable();
  }

  lemma CommentsText()
    ensures CommentsBlank.Text() == "\n" && CommentsBlank.Tokens() == []
    ensures CommentsFirst.Text() == "// this is a comment\n"
    ensures CommentsFirst.Tokens() == [Token(Comment, "// this is a comment")]
    ensures CommentsVoid.Text() == "void " && CommentsVoid.Tokens() == [Token(Keyword, "void")]
  {
  }

  lemma CommentsMoreText()
    ensures CommentsAfterVoid.Text() == "// commend after keyword\n"
    ensures CommentsAfterVoid.Tokens() == [Token(Comment, "// commend after keyword")]
    ensures CommentsBlock.Text() == "/* multiline\ncomment */\n"
    ensures CommentsBlock.Tokens() == [Token(Comment, "/* multiline\ncomment */")]
  {
  }

  function CommentsWhole(): Layout {
    Then(Then(Then(Then(CommentsBlank, CommentsFirst), CommentsVoid), CommentsAfterVoid),
      CommentsBlock)
  }

  /** The five parts, one after the other, fit. */
  lemma CommentsFit()
    ensures CommentsWhole().FitsBefore(None)
  {
    CommentsFirstFits();
    CommentsVoidFits();
    CommentsAfterVoidFits();
    CommentsBlockFits();
    var one := Then(CommentsBlank, CommentsFirst);
    var two := Then(one, CommentsVoid);
    var three := Then(two, CommentsAfterVoid);
    ThenFits(CommentsBlank, CommentsFirst, Some('v'));
    ThenFits(one, CommentsVoid, Some('/'));
    ThenFits(two, CommentsAfterVoid, Some('/'));
    ThenFits(three, CommentsBlock, None);
  }

  /** The five parts, one after the other, spell out the input and hold its tokens. */
  lemma CommentsSpelled()
    ensures CommentsWhole().Text() == "\n" + "// this is a comment\n" + "void "
      + "// commend after keyword\n" + "/* multiline\ncomment */\n"
    ensures CommentsWhole().Tokens() == [Token(Comment, "// this is a comment"),
      Token(Keyword, "void"), Token(Comment, "// commend after keyword"),
      Token(Comment, "/* multiline\ncomment */")]
  {
    CommentsText();
    CommentsMoreText();
    var one := Then(CommentsBlank, CommentsFirst);
    var two := Then(one, CommentsVoid);
    var three := Then(two, CommentsAfterVoid);
    ThenText(CommentsBlank, CommentsFirst);
    ThenText(one, CommentsVoid);
    ThenText(two, CommentsAfterVoid);
    ThenText(three, CommentsBlock);
    ThenTokens(CommentsBlank, CommentsFirst);
    ThenTokens(one, CommentsVoid);
    ThenTokens(two, CommentsAfterVoid);
    ThenTokens(three, CommentsBlock);
  }

  /**
   * `lex` of the comments input, written here in the parts it is laid out in: a line
   * comment stops before its newline, a block comment spans lines, and the newlines and
   * spaces around them are dropped.
   */
  lemma Comments()
    ensures LexSpec("\n" + "// this is a comment\n" + "void " + "// commend after keyword\n"
      + "/* multiline\ncomment */\n")
      == Ok([Token(Comment, "// this is a comment"), Token(Keyword, "void"),
      Token(Comment, "// commend after keyword"), Token(Comment, "/* multiline\ncomment */")])
  {
    CommentsFit();
    CommentsSpelled();
    LexFits(CommentsWhole());
  }

  // ---------------------------------------------------------------------------------------
  // "42"

  const NumeralLayout: Layout := Piece("", Token(IntegerConst, "42"), End(""))

  lemma NumeralFits()
    ensures NumeralLayout.FitsBefore(None)
    ensures NumeralLayout.Text() == "42"
    ensures NumeralLayout.Tokens() == [Token(IntegerConst, "42")]
  {
  }

  /** `lex("42")`: one INTEGER_CONST token. */
  lemma Numeral()
    ensures LexSpec("42") == Ok([Token(IntegerConst, "42")])
  {
    NumeralFits();
    LexFits(NumeralLayout);
  }
}

/** `parse_int` on a lexed numeral, as tests/test_parser.py checks it. */
module ParserInputs {
  import opened Wrappers
  import opened Numerals
  import opened Lexer
  import opened Ast
  import opened Parser
  import opened LexerInputs

  /** `Parser(lex("42")).parse_int()` is the integer literal 42. */
  lemma ParseLexedInt()
    ensures LexSpec("42").Ok?
    ensures IntAt(FilterComments(LexSpec("42").value), 0) == Ok(IntegerLiteral(42))
  {
    Numeral();
    var ts := [Token(IntegerConst, "42")];
    FilterCommentsKeeps(ts);
    assert DecimalValue("42") == 42 by {
      assert "42"[..1] == "4" && "4"[..0] == [];
    }
  }
}

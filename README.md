# cc: a verified model of a three-stage compiler for a tiny C subset

The `cc` package compiles programs of the form `int main(void) { return 2; }` to GNU
assembler text in three stages.

- **Lexer.** `lex` cuts the source into `(kind, lexeme)` tokens by trying an ordered pattern
  table at the head of the remaining text.
- **Parser.** The recursive-descent `Parser` class walks a cursor over the tokens, once the
  comments are filtered out.
  - Its grammar is `<program> ::= <function> {<function>}`,
    `<function> ::= "int" <identifier> "(" "void" ")" "{" <statement> "}"`,
    `<statement> ::= "return" <exp> ";"` and `<exp> ::= <int>`.
- **Code generator.** `codegen` lowers the syntax tree to a one-instruction IR and writes
  it out as text.
  - A function becomes a `.globl`/`.type` header, a label, a tab-indented body and a
    GNU-stack footer.
  - `return n` becomes `movl $n, %eax` followed by `ret`.

Each stage is a Dafny module, and a second module beside it holds the properties:

| file | module | contents |
|---|---|---|
| `wrappers.dfy` | `Wrappers` | `Option` and `Result` |
| `numerals.dfy` | `Numerals` | Python's `int()` on digit runs and `str()` on integers, and their round trips |
| `lexer.dfy` | `Lexer` | The token kinds and the pattern table, one ASCII matcher per pattern. Also the reference definition `LexSpec` and the imperative `Lex` loop proved equal to it. |
| `lexer_props.dfy` | `LexerProperties` | Layout, operator priority, keywords, numerals, comments and errors |
| `lexer_vectors.dfy` | `LexerVectors` | One gap of whitespace and one lexeme at a time: what one loop iteration of `lex` does with it, and which token each kind of lexeme yields |
| `lexer_layouts.dfy` | `LexerLayouts` | A source text laid out as lexemes with whitespace between them, and `lex` of a layout whose every lexeme is read back as itself |
| `lexer_inputs.dfy` | `LexerInputs`, `ParserInputs` | The inputs of tests/test_lexer.py and tests/test_parser.py, lexed and parsed to their exact results |
| `ast.dfy` | `Ast` | The syntax tree shared by the parser and the code generator |
| `parser.dfy` | `Parser` | The `Parser` class (`tokens`, `curr`) with one method per grammar rule. Each method is proved against a function that reads the rule off the token list. |
| `parser_props.dfy` | `ParserProperties` | Which lists parse, what they build, which error the others get, and how a program is cut into functions |
| `codegen.dfy` | `Codegen` | The IR, the two lowering passes, the `_gen_function` loop and `codegen` |
| `codegen_props.dfy` | `CodegenProperties` | The line layout of a function, the exact output text, and splitting the text back into lines |

### How the parser is specified

Every parser method is specified by a function of the token list and the cursor it starts
at.
- `IntAt`, `StatementAt` and `FunctionAt` give the value the rule returns or the error it
  raises.
- `IntEnd`, `StatementEnd` and `FunctionEnd` give where the cursor stops.

A rule reads a fixed sequence of token kinds, its *shape* (`FunctionShape`, ten slots). It
succeeds exactly when the tokens fit the shape and the numeral converts. Otherwise it fails
at the first slot that does not fit, or at the numeral: `int()` runs as soon as the
INTEGER_CONST token is consumed, before the slots after it are checked.

### Encodings

- A `ParserError` and the `ValueError` raised by `int()` or by `lex` are `Err` values of a
  `Result`.
- The 22 operator and punctuation kinds are grouped under `Punct(...)` of the
  `TokenKind` datatype. `TokenKind.Name()` gives the source's kind names (`"LPAREN"`, …).

## Model

| member | source | states |
|---|---|---|
| Lexer.LexError.Message | src/cc/lexer.py:62 | The message begins with "Unexpected token at:" and ends with the character that matched nothing. |
| Lexer.MatchKeyword | src/cc/lexer.py:10 | A match lies between two word boundaries, and the text it takes is `int`, `void` or `return`. |
| Lexer.MatchIdentifier | src/cc/lexer.py:11 | A match happens exactly when the text begins with a letter or underscore, and takes the whole run of word characters. |
| Lexer.MatchIntegerConst | src/cc/lexer.py:12 | A match takes a whole digit run that ends at a word boundary. When a digit run is not matched, a letter or underscore follows it. |
| Lexer.MatchComment | src/cc/lexer.py:38 | A line comment runs up to the first newline or the end. A block comment runs through its first star-slash. An unclosed block comment, or a slash followed by neither a slash nor a star, matches nothing. |
| Lexer.MatchWhitespace | src/cc/lexer.py:39 | A match happens exactly when the text begins with whitespace, and takes the whole whitespace run. |
| Lexer.Match | src/cc/lexer.py:8-40 | Each pattern of the table, applied at the head of the remaining text, matches a non-empty prefix or nothing. |
| Lexer.IndexOfEntry | src/cc/lexer.py:8-40 | Every kind occurs in the table exactly once, so the position of a kind in the priority order is well defined. |
| Lexer.MatchFixed | src/cc/lexer.py:13-36 | An operator or punctuation pattern matches exactly when the text begins with its spelling, and then takes just that spelling. |
| Lexer.FirstMatchFrom | src/cc/lexer.py:42-45 | Trying the alternatives in table order yields a token whose lexeme is a non-empty prefix of the text. |
| Lexer.FirstMatchAt | src/cc/lexer.py:42-45 | The first entry in table order that matches decides the token: its kind, with the text it matched. |
| Lexer.FirstMatchNone | src/cc/lexer.py:54-55 | The combined pattern finds nothing exactly when no entry of the table matches. |
| Lexer.FirstMatchIsMatch | src/cc/lexer.py:56-57 | The token found has a kind of the table, and that kind's pattern matches exactly the lexeme. |
| Lexer.Scan | src/cc/lexer.py:54-57 | A match at the head yields a token whose lexeme is a non-empty prefix of the text. |
| Lexer.LStrip | src/cc/lexer.py:51 | After `lstrip` the text is empty or begins with a character that is not whitespace. |
| Lexer.LStripIdempotent | src/cc/lexer.py:51 | Stripping twice is stripping once. |
| Lexer.ScanAfterStripIsNotWhitespace | src/cc/lexer.py:51-58 | After `lstrip` the WHITESPACE pattern never wins, and an INTEGER_CONST lexeme is a digit run. |
| Lexer.LexSpec | src/cc/lexer.py:48-64 | The loop's meaning: strip, scan one token, keep it unless it is WHITESPACE, continue after its lexeme. A result never holds more tokens than the source has characters. |
| Lexer.LexSpecWellFormed | src/cc/lexer.py:58-59 | No result of `lex` holds a WHITESPACE token or an empty lexeme, and every INTEGER_CONST lexeme is digits. |
| Lexer.LexSpecStrip | src/cc/lexer.py:50-51 | Leading whitespace does not change what `lex` returns. |
| Lexer.LexSpecStep | src/cc/lexer.py:54-62 | One loop iteration on stripped text either raises on the head character, or appends the token (unless it is WHITESPACE) and continues after its lexeme. |
| Lexer.LexSpecErrorInSource | src/cc/lexer.py:61-62 | The character named by "Unexpected token at" is a non-whitespace character of the source. |
| Lexer.CloserFromIsFirst | src/cc/lexer.py:38 | The lazy block-comment pattern closes at the first star-slash after the opening, and at no earlier one. |
| Lexer.LineEndNoNewline | src/cc/lexer.py:38 | The lazy line-comment pattern stops at the first newline or at the end of the text. |
| Lexer.Lex | src/cc/lexer.py:48-64 | The `while source` loop returns what `LexSpec` defines. Its tokens are well formed, and its error names a non-whitespace source character. |
| LexerProperties.BlankLexesToNothing | src/cc/lexer.py:50-52 | Empty or all-whitespace input lexes to the empty list. |
| LexerProperties.LexLayout | src/cc/lexer.py:48-64 | The source is the lexemes of the result in order, with only whitespace around and between them. Nothing is lost and nothing is invented. |
| LexerProperties.SameHeadSameOperator | src/cc/lexer.py:13-36 | No two operator spellings of the same length share their first character. |
| LexerProperties.LongerTextFirst | src/cc/lexer.py:13-36 | Where a two-character spelling and a one-character spelling begin alike, the two-character one comes first in the table. |
| LexerProperties.FirstOperatorWins | src/cc/lexer.py:13-36 | At an operator, the first spelling in table order that begins the text is the token. The word, numeral and comment patterns never interfere. |
| LexerProperties.TwoCharOperatorWins | src/cc/lexer.py:13-21 | A two-character operator is one token, never its one-character prefix (`==` is EQUAL_EQUAL). |
| LexerProperties.OneCharOperator | src/cc/lexer.py:22-36 | A one-character operator or punctuator is the token wherever no two-character operator begins. |
| LexerProperties.KeywordMatch | src/cc/lexer.py:10 | The KEYWORD pattern matches a word exactly when the whole word is `int`, `void` or `return`, so `integer` does not match. |
| LexerProperties.WordToken | src/cc/lexer.py:10-11 | A word is one token: KEYWORD when it is a keyword, IDENTIFIER otherwise, with the whole word as lexeme. |
| LexerProperties.OnlyNumeralsBeginWithDigit | src/cc/lexer.py:12 | Of all the patterns, only INTEGER_CONST can begin with a digit. |
| LexerProperties.NumeralToken | src/cc/lexer.py:12 | A digit run followed by a non-word character or the end is one INTEGER_CONST token. |
| LexerProperties.NumeralRunIntoWord | src/cc/lexer.py:12 | A digit run followed by a letter or underscore, as in `42abc`, matches no pattern. |
| LexerProperties.OnlyCommentsBeginWithSlash | src/cc/lexer.py:38 | Of all the patterns, only COMMENT can begin with a slash. |
| LexerProperties.CommentWins | src/cc/lexer.py:38 | Wherever the COMMENT pattern matches, the token is a COMMENT. |
| LexerProperties.LineCommentToken | src/cc/lexer.py:38 | A line comment is the token up to, and not including, the first newline or the end of the text. |
| LexerProperties.LineCommentMatch | src/cc/lexer.py:38 | The line-comment alternative ends at the first newline, and the comment holds none. |
| LexerProperties.BlockCommentToken | src/cc/lexer.py:38 | A block comment is the token up to and including the first star-slash, across lines. |
| LexerProperties.SlashWithoutComment | src/cc/lexer.py:38 | A slash that starts no comment matches no pattern at all. |
| LexerProperties.UnclosedBlockComment | src/cc/lexer.py:38 | An unclosed block comment matches no pattern. |
| LexerProperties.LoneSlash | src/cc/lexer.py:38 | A slash not followed by a slash or a star matches no pattern. |
| LexerProperties.NoMatchIsError | src/cc/lexer.py:61-62 | Where nothing matches, `lex` raises, naming the head character. |
| LexerProperties.UnknownCharacter | src/cc/lexer.py:61-62 | A character that can begin no pattern makes `lex` raise, naming that character. |
| LexerProperties.AtSignRejected | src/cc/lexer.py:61-62 | `@` at the head makes `lex` raise, naming `@`. |
| LexerVectors.StripGap | src/cc/lexer.py:51 | `lstrip` removes a whitespace gap and stops at the first character after it. |
| LexerVectors.TokenStep | src/cc/lexer.py:50-60 | A whitespace gap and then a lexeme the table reads back as a non-WHITESPACE token: `lex` emits that token and goes on with what follows. |
| LexerVectors.PairPiece | src/cc/lexer.py:13-21 | A two-character operator is scanned as itself, whatever follows it. |
| LexerVectors.SinglePiece | src/cc/lexer.py:22-36 | A one-character operator or punctuator is scanned as itself, unless a character that could end a two-character operator follows. |
| LexerVectors.KeywordPiece | src/cc/lexer.py:10 | A keyword followed by the end or by a non-word character is scanned as a KEYWORD. |
| LexerVectors.NumeralPiece | src/cc/lexer.py:12 | A digit run followed by the end or by a non-word character is scanned as an INTEGER_CONST. |
| LexerVectors.LineCommentPiece | src/cc/lexer.py:38 | A line comment followed by the end or by a newline is scanned as a COMMENT. |
| LexerVectors.BlockCommentPiece | src/cc/lexer.py:38 | A block comment with no star before its closing star-slash is scanned as a COMMENT, whatever follows it. |
| LexerLayouts.ReadableScan | src/cc/lexer.py:10-38 | A lexeme that is readable, given the character after it, is scanned as exactly its token. |
| LexerLayouts.LexFits | src/cc/lexer.py:48-64 | When each gap is whitespace and each lexeme is readable, `lex` of the text returns exactly the lexemes' tokens, in order. |
| LexerInputs.EmptySource | tests/test_lexer.py:6-7 | `lex("")` is the empty list. |
| LexerInputs.InvalidCharacter | tests/test_lexer.py:10-12 | `lex("@")` raises, with a message that begins "Unexpected token at:". |
| LexerInputs.SingleChars | tests/test_lexer.py:15-24 | `lex("(){};~")` is the six punctuator tokens, in order. |
| LexerInputs.OneOrTwoChars | tests/test_lexer.py:27-46 | `lex` of the sixteen operators, from `!` to `--` with a space between each two, is the sixteen operator tokens in order. Each one-character operator is told apart from its two-character extension. |
| LexerInputs.Keywords | tests/test_lexer.py:49-55 | `lex("int void return")` is the three KEYWORD tokens. |
| LexerInputs.Comments | tests/test_lexer.py:58-71 | The comments input lexes to its two line comments, the keyword between them and the block comment over two lines. No newline or space token appears. |
| LexerInputs.Numeral | tests/test_parser.py:6-8 | `lex("42")` is one INTEGER_CONST token. |
| ParserInputs.ParseLexedInt | tests/test_parser.py:6-8 | `parse_int` on the lexed `"42"` is the integer literal 42. |
| Numerals.NatToString | src/cc/codegen.py:54 | `str(n)` of a non-negative integer is a digit run without a redundant leading zero. |
| Numerals.IntToString | src/cc/codegen.py:54 | `str(n)` is digits, with a minus sign in front when `n` is negative. |
| Numerals.ReadIntOfIntToString | src/cc/codegen.py:54 | `int(str(n)) == n` for every integer, negative ones included, on unbounded integers without Python's limit on digits (see "Left out"). |
| Numerals.DecimalValueOfNatToString | src/cc/parser.py:60 | `int()` reads back what `str()` wrote. |
| Numerals.NatToStringOfDecimalValue | src/cc/parser.py:60 | `str()` writes back a numeral that `int()` read, when it has no redundant leading zero. |
| Numerals.PositiveWithoutLeadingZero | src/cc/parser.py:60 | A numeral without a leading zero denotes at least 1, and at least 10 when it has several digits. |
| Parser.ParseError.Message | src/cc/parser.py:67-75 | A kind error names the kind expected at the start and the kind found, or EOF, at the end. The other two messages are "No valid top-level program found" and `int()`'s own. |
| Parser.IntAt | src/cc/parser.py:56-61 | `parse_int` succeeds exactly when the token is an INTEGER_CONST whose lexeme is digits. A numeral that is not digits is the `int()` error on that lexeme. |
| Parser.StatementAt | src/cc/parser.py:42-49 | `parse_statement` succeeds exactly when its three slots fit and the numeral is digits. |
| Parser.ProgramAt | src/cc/parser.py:15-23 | "No valid top-level program found" is raised exactly when no token remains. A success holds at least one function. |
| Parser.FunctionsFromNeverEmptyError | src/cc/parser.py:17-18 | An error inside the loop is a function's error, never "no program". |
| Parser.FilterComments | src/cc/parser.py:7 | The filtered list holds no COMMENT, and holds exactly the non-comment tokens of the input. |
| Parser.FilterCommentsAppend | src/cc/parser.py:7 | Filtering distributes over concatenation, so the kept tokens keep their order. |
| Parser.FilterCommentsKeeps | src/cc/parser.py:7 | A list without comments is left as it is. |
| Parser.FilterCommentsLength | src/cc/parser.py:7 | Filtering removes exactly the comments: the length drops by their number. |
| Parser.FunctionAtExtent | src/cc/parser.py:26-34 | A function that parses uses exactly ten tokens. |
| Parser.Parser.constructor | src/cc/parser.py:6-8 | The parser starts on the comment-free token list with `curr == 0`. |
| Parser.Parser.CurrentToken | src/cc/parser.py:10-12 | `current_token` is `None` exactly when `curr >= len(tokens)`, and otherwise the token at `curr`. |
| Parser.Parser.Advance | src/cc/parser.py:64-65 | The cursor moves by exactly one. |
| Parser.Parser.Expect | src/cc/parser.py:67-75 | Either the token at `curr` has the kind, is returned, and `curr` grows by one; or the error names the kind and the kind found (or EOF), and `curr` stays. `curr` never passes the end. |
| Parser.Parser.ParseInt | src/cc/parser.py:56-61 | The result and the new cursor are `IntAt` and `IntEnd` of the old cursor. |
| Parser.Parser.ParseExp | src/cc/parser.py:52-53 | An expression is parsed as an integer: the same result and cursor as `parse_int`. |
| Parser.Parser.ParseStatement | src/cc/parser.py:42-49 | The result and the new cursor are `StatementAt` and `StatementEnd` of the old cursor. |
| Parser.Parser.ParseFunction | src/cc/parser.py:26-39 | The result and the new cursor are `FunctionAt` and `FunctionEnd` of the old cursor. |
| Parser.Parser.ParseProgram | src/cc/parser.py:15-23 | The loop returns `ProgramAt` of the old cursor, and on success has consumed every token. |
| ParserProperties.HeaderMisfitIsFirst | src/cc/parser.py:27-32 | The six header `expect` calls check the first six slots of the function shape, and the first one that fails is the slot reported. |
| ParserProperties.StatementMisfitIsFirst | src/cc/parser.py:43-45 | The statement's checks are the three slots of its shape, in order. |
| ParserProperties.FitsFunctionShape | src/cc/parser.py:26-34 | All ten slots fit exactly when the header, the statement and the closing brace do. |
| ParserProperties.FunctionAccepts | src/cc/parser.py:26-39 | A function parses exactly when its ten tokens have the grammar's kinds and the numeral converts. It is then named by the identifier's lexeme, returns the numeral's value, and ends ten tokens on. |
| ParserProperties.FunctionReportsFirstMisfit | src/cc/parser.py:26-34 | Otherwise the error names the first slot whose kind is wrong and the kind found there (or EOF), and the cursor stops on that slot. |
| ParserProperties.FunctionReportsBadNumeral | src/cc/parser.py:56-61 | A numeral `int()` rejects is reported as soon as it is consumed, before the semicolon and brace are looked at. |
| ParserProperties.KeywordSlotsCheckKindOnly | src/cc/parser.py:27-30 | Keyword slots check the kind only: `return main(int) { void 1; }` parses as `main` returning 1. |
| ParserProperties.IntIsNatural | src/cc/parser.py:56-61 | A parsed integer is never negative and uses one token. |
| ParserProperties.IntReadsBack | src/cc/parser.py:56-61 | The numeral `str(n)` parses to the literal `n`. |
| ParserProperties.LexedNumeralsConvert | src/cc/parser.py:60 | On tokens the lexer can produce, `int()` never fails. |
| ParserProperties.FunctionsFromBlocks | src/cc/parser.py:17-18 | A successful parse cuts the tokens into blocks of ten, one function per block, in order, with nothing left over. |
| ParserProperties.FunctionsFromLength | src/cc/parser.py:17-18 | A successful parse uses ten tokens per function and leaves nothing over. |
| ParserProperties.FunctionsFromBlock | src/cc/parser.py:17-18 | Function `k` of the result is the one parsed `10k` tokens on. |
| ParserProperties.FunctionsFromDrop | src/cc/parser.py:17-18 | Parsing from `10k` tokens on gives the result without its first `k` functions. |
| ParserProperties.FunctionsFromTail | src/cc/parser.py:17-18 | Ten tokens on, the parse goes on with the remaining functions. |
| ParserProperties.FunctionsFromStep | src/cc/parser.py:17-18 | A successful parse is the function at the cursor in front of the parse ten tokens on. |
| ParserProperties.FilterCommentsEmpty | src/cc/parser.py:7 | Filtering leaves nothing exactly when every token is a comment. |
| ParserProperties.CommentsOnlyIsNoProgram | src/cc/parser.py:6-23 | A token list of comments only, or none, holds no program. |
| Codegen.VisitStatement | src/cc/codegen.py:25-29 | `return n` becomes `RETURN` of the integer `n` into `eax`. |
| Codegen.VisitFunction | src/cc/codegen.py:32-39 | The name is kept, and the body becomes exactly one `RETURN` instruction carrying the returned value. |
| Codegen.AstToAsm | src/cc/codegen.py:42-45 | A program of exactly one function is lowered to that function's definition: same name, one `RETURN`, same value. |
| Codegen.GenInstruction | src/cc/codegen.py:48-56 | A `RETURN` becomes two lines, the second being `ret`. |
| Codegen.InstructionReadsBack | src/cc/codegen.py:53-56 | The first line has the form `movl $<text>, %eax`, and the text reads back with `int()` as the immediate. |
| Codegen.Indent | src/cc/codegen.py:76 | Each body line is put behind a tab, one output line per input line. |
| Codegen.GenFunction | src/cc/codegen.py:59-78 | The `for` loop with `extend` builds the body; the result is header, indented body and footer. |
| Codegen.GenAsmProgram | src/cc/codegen.py:81-82 | The lines of the program's one function. |
| Codegen.Generate | src/cc/codegen.py:85-88 | `codegen` returns the newline join of the lines of the lowered program. |
| CodegenProperties.BodyLinesInOrder | src/cc/codegen.py:60-62 | The body has two lines per instruction, in instruction order: the `movl` line, then `ret`. |
| CodegenProperties.BodyLinesLength | src/cc/codegen.py:60-62 | The body has two lines per instruction. |
| CodegenProperties.BodyLineAt | src/cc/codegen.py:60-62 | Body lines `2j` and `2j+1` are the lines of instruction `j`. |
| CodegenProperties.ConcatPairsLength | src/cc/codegen.py:61-62 | Extending by pairs gives twice as many lines as there are pairs. |
| CodegenProperties.ConcatPairsAt | src/cc/codegen.py:61-62 | Extending by pairs puts pair `j` at lines `2j` and `2j+1`. |
| CodegenProperties.FunctionLinesFrame | src/cc/codegen.py:64-78 | A function of `k` instructions has 3 + 2k + 1 lines. The first three are `\t.globl name`, `\t.type name, @function` and `name:`, and the last is the GNU-stack footer. |
| CodegenProperties.FunctionBodyIndented | src/cc/codegen.py:74-77 | Every body line of the output starts with a tab. |
| CodegenProperties.FunctionInstructionLines | src/cc/codegen.py:59-78 | Instruction `j` is output lines `3+2j` and `4+2j`: a tab and its `movl` line, whose immediate reads back, then `\tret`. |
| CodegenProperties.InstructionLinesAt | src/cc/codegen.py:74-77 | The two output lines of instruction `j`, as above, for one `j`. |
| CodegenProperties.FunctionLineAt | src/cc/codegen.py:74-77 | Output line `3+m` is body line `m` behind a tab. |
| CodegenProperties.ProgramTextIs | src/cc/codegen.py:85-88 | The whole output for `int name(void) { return n; }` is the newline join of six lines: the header, `\tmovl $n, %eax`, `\tret` and the footer. |
| CodegenProperties.ReturnZeroText | src/cc/codegen.py:85-88 | For `int main(void) { return 0; }`, the output is exactly the `main` header, `\tmovl $0, %eax`, `\tret` and the footer, each line followed by a newline. |
| CodegenProperties.JoinSixLines | src/cc/codegen.py:88 | Joining six lines puts a newline after each but the last. |
| CodegenProperties.ProgramTextEndsWithNewline | src/cc/codegen.py:72-88 | The output ends with a newline, the one the footer carries. |
| CodegenProperties.SplitLinesAfterLine | src/cc/codegen.py:88 | A newline-free line followed by a newline splits off as one piece. |
| CodegenProperties.SplitLinesOfLine | src/cc/codegen.py:88 | A newline-free line splits into itself. |
| CodegenProperties.JoinLinesLength | src/cc/codegen.py:88 | A join holds every character of its lines and one newline between each two, and begins with the first line. |
| CodegenProperties.JoinLinesEndsWithLast | src/cc/codegen.py:88 | A join ends with the last character of its last line. |
| CodegenProperties.SplitJoinLinesLast | src/cc/codegen.py:88 | Splitting a join at newlines gives back every line but the last, followed by the pieces of the last line. |
| CodegenProperties.SplitJoinLines | src/cc/codegen.py:88 | Newline-free lines come back from their `"\n".join` by `split("\n")`. |
| CodegenProperties.IntToStringNoNewline | src/cc/codegen.py:54 | A printed immediate holds no newline. |
| CodegenProperties.ProgramTextLines | src/cc/codegen.py:85-88 | When the function name holds no newline, splitting the output gives the six lines and then an empty piece after the final newline. |
| CodegenProperties.SplitSixLines | src/cc/codegen.py:88 | Six joined lines, the first five newline-free, split back into those five and the pieces of the sixth. |
| CodegenProperties.FooterSplits | src/cc/codegen.py:72 | The footer is one line and its newline. |

## Left out

- Python's `re` engine is not modelled. Each pattern of the table is a hand-written matcher
  at the head of the remaining text.
  - Character classes are ASCII only. `\w` is `[A-Za-z0-9_]`. `\s` and `str.lstrip()` are
    the ASCII whitespace characters, including the separators 0x1C-0x1F that `lstrip`
    removes.
  - Unicode letters, digits and spaces are not modelled.
- `int()` is modelled on runs of ASCII digits only.
  - It also accepts a sign, surrounding whitespace, underscores and Unicode digits.
  - The lexer never produces such a lexeme. Any other lexeme is the `NotAnInteger` error.
- The `platform.system() == "Linux"` check at src/cc/codegen.py:71 queries the environment. It is dropped.
- src/cc/__init__.py is not part of this model: argument parsing, file reading, printing and exit codes.
- The parser and the code generator do not agree on the syntax tree.
  - `parse_program` returns a list of dictionaries tagged with `"type"`.
  - `codegen` reads a `Program` with a `.functions` attribute.
  - `codegen` imports `Program` from the parser module, which does not define it.
  - Here both stages share one datatype, `Ast.Program`, so these mismatches are not modelled.
- Unary expressions are not modelled. tests/test_parser.py:3 and 11-32 import and test
  `parse_unary`, `UnaryExpr` and `Literal`, which src/cc/parser.py does not define. The model
  follows src/cc/parser.py: `<exp> ::= <int>`.
- `ParserError` and `ValueError` are `Err` values, not exceptions. `Message()` gives their
  text.
- Parser.IntAt: does not model Python's default limit of 4300 digits on `int()` of a
  digit string (CPython 3.11 on, and 3.10.7, 3.9.14, 3.8.14, 3.7.14). A lexed
  INTEGER_CONST of more digits raises `ValueError` at src/cc/parser.py:60, where the model
  returns the literal. The limit depends on the interpreter's version and its
  `sys.set_int_max_str_digits` setting.
- Parser.Parser.ParseInt: inherits the same gap from `IntAt`.
- Numerals.IntToString: does not model the same limit on `str()` of an integer. An
  immediate of more than 4300 digits makes the f-string at src/cc/codegen.py:54 raise
  `ValueError`, where the model writes the digits out. Codegen.GenInstruction and
  Numerals.ReadIntOfIntToString hold on unbounded integers for the same reason.
- The inputs of tests/test_lexer.py:27-46 and 58-71 are written in the lemmas as
  concatenations of their parts, two halves and five parts respectively. These denote the
  same strings as the tests' literals.
- The test of tests/test_parser.py:6-8 compares with `Literal(type="IntegerLiteral",
  value=42)`. `Literal` is not defined in src/cc/parser.py, which returns a dictionary
  tagged `"IntegerLiteral"`. `ParserInputs.ParseLexedInt` states the value.
- Codegen.GenInstruction: its own contract gives only the line count and the `ret` line.
  The content of the `movl` line is stated by `Codegen.InstructionReadsBack` and
  `CodegenProperties.ProgramTextIs`.
- The operand list `List[Any]` of an `Instruction` is a sequence of `Operand` values,
  either an integer or a register name. The code generator's `isinstance` and `dst == "eax"`
  assertions are the precondition `IsReturn`.

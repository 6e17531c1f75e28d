/**
 * Properties of the code generator of src/cc/codegen.py: the layout of the lines
 * `_gen_function` writes, the exact text `codegen` produces for a program, and the fact that
 * joining lines with newlines loses nothing (splitting the text gives the lines back).
 */
module CodegenProperties {
  import opened Wrappers
  import opened Numerals
  import opened Ast
  import opened Codegen

  // ---------------------------------------------------------------------------------------
  // The lines of a function

  /** Each instruction contributes its two lines to the body, in instruction order. */
  lemma BodyLinesInOrder(insts: seq<Instruction>)
    requires AllReturns(insts)
    ensures |BodyLines(insts)| == 2 * |insts|
    ensures forall j :: 0 <= j < |insts| ==>
      BodyLines(insts)[2 * j] == GenInstruction(insts[j])[0] && BodyLines(insts)[2 * j + 1] == "ret"
  {
    BodyLinesLength(insts);
    forall j | 0 <= j < |insts|
      ensures BodyLines(insts)[2 * j] == GenInstruction(insts[j])[0] && BodyLines(insts)[2 * j + 1] == "ret"
    {
      BodyLineAt(insts, j);
    }
  }

  /** Two body lines per instruction. */
  lemma BodyLinesLength(insts: seq<Instruction>)
    requires AllReturns(insts)
    ensures |BodyLines(insts)| == 2 * |insts|
  {
    ConcatPairsLength(InstructionChunks(insts));
  }

  /** Body lines `2j` and `2j + 1` are the lines of instruction `j`. */
  lemma BodyLineAt(insts: seq<Instruction>, j: nat)
    requires AllReturns(insts) && j < |insts|
    ensures 2 * j + 1 < |BodyLines(insts)|
    ensures BodyLines(insts)[2 * j] == GenInstruction(insts[j])[0]
    ensures BodyLines(insts)[2 * j + 1] == "ret"
  {
    ConcatPairsAt(InstructionChunks(insts), j);
  }

  predicate Pairs(chunks: seq<seq<string>>) {
    forall k :: 0 <= k < |chunks| ==> |chunks[k]| == 2
  }

  lemma {:induction false} ConcatPairsLength(chunks: seq<seq<string>>)
    requires Pairs(chunks)
    ensures |Concat(chunks)| == 2 * |chunks|
  {
    if chunks != [] {
      var n := |chunks| - 1;
      assert chunks[..n][..] == chunks[..n];
      assert Pairs(chunks[..n]) by {
        forall k | 0 <= k < n
          ensures |chunks[..n][k]| == 2
        {
          assert chunks[..n][k] == chunks[k];
        }
      }
      ConcatPairsLength(chunks[..n]);
    }
  }

  /** Lines `2j` and `2j + 1` of a concatenation of pairs are pair `j`. */
  lemma {:induction false} ConcatPairsAt(chunks: seq<seq<string>>, j: nat)
    requires Pairs(chunks) && j < |chunks|
    ensures 2 * j + 1 < |Concat(chunks)|
    ensures Concat(chunks)[2 * j] == chunks[j][0] && Concat(chunks)[2 * j + 1] == chunks[j][1]
  {
    var n := |chunks| - 1;
    var init := chunks[..n];
    assert Pairs(init) by {
      forall k | 0 <= k < n
        ensures |init[k]| == 2
      {
        assert init[k] == chunks[k];
      }
    }
    ConcatPairsLength(init);
    assert Concat(chunks) == Concat(init) + chunks[n];
    if j < n {
      ConcatPairsAt(init, j);
      assert init[j] == chunks[j];
    }
  }

  /**
   * A function with `k` instructions is written as 3 + 2k + 1 lines: the `.globl`, `.type`
   * and label lines, the body, and the GNU-stack footer.
   */
  lemma FunctionLinesFrame(f: FunctionDefinition)
    requires AllReturns(f.instructions)
    ensures |FunctionLines(f)| == 3 + 2 * |f.instructions| + 1
    ensures FunctionLines(f)[..3] == ["\t.globl " + f.name, "\t.type " + f.name + ", @function", f.name + ":"]
    ensures FunctionLines(f)[|FunctionLines(f)| - 1] == Footer
  {
    BodyLinesLength(f.instructions);
    var indented := Indent(BodyLines(f.instructions));
    assert FunctionLines(f) == Header(f.name) + indented + [Footer];
    assert (Header(f.name) + indented + [Footer])[..3] == Header(f.name);
  }

  /** Every body line is indented by a tab. */
  lemma FunctionBodyIndented(f: FunctionDefinition)
    requires AllReturns(f.instructions)
    ensures |FunctionLines(f)| == 3 + 2 * |f.instructions| + 1
    ensures forall j :: 3 <= j < 3 + 2 * |f.instructions| ==>
      |FunctionLines(f)[j]| > 0 && FunctionLines(f)[j][0] == '\t'
  {
    FunctionLinesFrame(f);
    BodyLinesLength(f.instructions);
    forall j | 3 <= j < 3 + 2 * |f.instructions|
      ensures |FunctionLines(f)[j]| > 0 && FunctionLines(f)[j][0] == '\t'
    {
      FunctionLineAt(f, j - 3);
    }
  }

  /**
   * Instruction `j` is written as lines 3 + 2j and 4 + 2j, in instruction order; its `movl`
   * line reads back as its immediate.
   */
  lemma FunctionInstructionLines(f: FunctionDefinition)
    requires AllReturns(f.instructions)
    ensures |FunctionLines(f)| == 3 + 2 * |f.instructions| + 1
    ensures forall j :: 0 <= j < |f.instructions| ==>
      FunctionLines(f)[3 + 2 * j] == "\t" + GenInstruction(f.instructions[j])[0]
      && MovlImmediate(FunctionLines(f)[3 + 2 * j][1..]) == Some(f.instructions[j].operands[0].value)
      && FunctionLines(f)[4 + 2 * j] == "\tret"
  {
    FunctionLinesFrame(f);
    forall j | 0 <= j < |f.instructions|
      ensures FunctionLines(f)[3 + 2 * j] == "\t" + GenInstruction(f.instructions[j])[0]
      ensures MovlImmediate(FunctionLines(f)[3 + 2 * j][1..]) == Some(f.instructions[j].operands[0].value)
      ensures FunctionLines(f)[4 + 2 * j] == "\tret"
    {
      InstructionLinesAt(f, j);
    }
  }

  /** The two lines of instruction `j`. */
  lemma InstructionLinesAt(f: FunctionDefinition, j: nat)
    requires AllReturns(f.instructions) && j < |f.instructions|
    ensures 4 + 2 * j < |FunctionLines(f)|
    ensures FunctionLines(f)[3 + 2 * j] == "\t" + GenInstruction(f.instructions[j])[0]
    ensures MovlImmediate(FunctionLines(f)[3 + 2 * j][1..]) == Some(f.instructions[j].operands[0].value)
    ensures FunctionLines(f)[4 + 2 * j] == "\tret"
  {
    var lines := FunctionLines(f);
    var movl := GenInstruction(f.instructions[j])[0];
    assert 4 + 2 * j < |lines| && lines[3 + 2 * j] == "\t" + movl by {
      BodyLineAt(f.instructions, j);
      FunctionLineAt(f, 2 * j);
      FunctionLineAt(f, 2 * j + 1);
    }
    assert lines[4 + 2 * j] == "\tret" by {
      BodyLineAt(f.instructions, j);
      FunctionLineAt(f, 2 * j + 1);
      assert "\t" + "ret" == "\tret";
    }
    assert lines[3 + 2 * j][1..] == movl;
    InstructionReadsBack(f.instructions[j]);
  }

  /** Line `3 + m` of a function is body line `m` behind a tab. */
  lemma FunctionLineAt(f: FunctionDefinition, m: nat)
    requires AllReturns(f.instructions) && m < |BodyLines(f.instructions)|
    ensures 3 + m < |FunctionLines(f)|
    ensures FunctionLines(f)[3 + m] == "\t" + BodyLines(f.instructions)[m]
  {
    var indented := Indent(BodyLines(f.instructions));
    assert FunctionLines(f) == Header(f.name) + indented + [Footer];
    assert (Header(f.name) + indented + [Footer])[3 + m] == indented[m];
  }

  // ---------------------------------------------------------------------------------------
  // The text of a program

  /**
   * The whole output for a one-function program `int name(void) { return n; }`: the three
   * header lines, the indented `movl` and `ret`, and the footer, joined by newlines.
   */
  lemma ProgramTextIs(p: Program)
    requires |p.functions| == 1
    ensures
      var name := p.functions[0].name;
      ProgramText(p) == JoinLines([
        "\t.globl " + name,
        "\t.type " + name + ", @function",
        name + ":",
        "\tmovl $" + IntToString(p.functions[0].body.value.value) + ", %eax",
        "\tret",
        Footer])
  {
    var name := p.functions[0].name;
    var def := AstToAsm(p).functionDef;
    var inst := def.instructions[0];
    var n := p.functions[0].body.value.value;
    var movl := "movl $" + IntToString(n) + ", %eax";
    assert inst.operands[0].value == n && inst.operands[1].name == "eax";
    assert GenInstruction(inst)[0] == "movl $" + IntToString(n) + ", %" + "eax";
    assert GenInstruction(inst)[0] == movl;
    assert GenInstruction(inst) == [movl, "ret"];
    assert def.instructions == [inst];
    var chunks := InstructionChunks(def.instructions);
    assert chunks == [GenInstruction(inst)];
    assert chunks[..0] == [];
    assert Concat(chunks) == Concat([]) + chunks[0];
    assert BodyLines(def.instructions) == [movl, "ret"];
    var movlLine := "\tmovl $" + IntToString(n) + ", %eax";
    assert "\t" + movl == movlLine;
    var indented := Indent([movl, "ret"]);
    assert indented[0] == movlLine;
    assert indented[1] == "\t" + "ret" == "\tret";
    assert indented == [movlLine, "\tret"];
    assert FunctionLines(def) == Header(name) + [movlLine, "\tret"] + [Footer];
    assert FunctionLines(def) == ["\t.globl " + name, "\t.type " + name + ", @function", name + ":", movlLine, "\tret", Footer];
  }

  /** The text of `int main(void) { return 0; }`, line by line. */
  lemma ReturnZeroText(p: Program)
    requires |p.functions| == 1
    requires p.functions[0].name == "main" && p.functions[0].body.value.value == 0
    ensures ProgramText(p)
      == "\t.globl main" + "\n" + ("\t.type main, @function" + "\n" + ("main:" + "\n"
       + ("\tmovl $0, %eax" + "\n" + ("\tret" + "\n" + ".section .note.GNU-stack, \"\", @progbits\n"))))
  {
    ProgramTextIs(p);
    assert IntToString(0) == "0";
    assert "\t.globl " + "main" == "\t.globl main";
    assert "\t.type " + "main" + ", @function" == "\t.type main, @function";
    assert "main" + ":" == "main:";
    assert "\tmovl $" + "0" + ", %eax" == "\tmovl $0, %eax";
    JoinSixLines("\t.globl main", "\t.type main, @function", "main:", "\tmovl $0, %eax", "\tret", Footer);
  }

  /** Six lines joined: each but the last is followed by a newline (grouped from the right). */
  lemma JoinSixLines(l0: string, l1: string, l2: string, l3: string, l4: string, l5: string)
    ensures JoinLines([l0, l1, l2, l3, l4, l5])
      == l0 + "\n" + (l1 + "\n" + (l2 + "\n" + (l3 + "\n" + (l4 + "\n" + l5))))
  {
    assert [l4, l5][1..] == [l5];
    assert JoinLines([l4, l5]) == l4 + "\n" + l5;
    assert [l3, l4, l5][1..] == [l4, l5];
    assert JoinLines([l3, l4, l5]) == l3 + "\n" + (l4 + "\n" + l5);
    assert [l2, l3, l4, l5][1..] == [l3, l4, l5];
    assert JoinLines([l2, l3, l4, l5]) == l2 + "\n" + JoinLines([l3, l4, l5]);
    assert [l1, l2, l3, l4, l5][1..] == [l2, l3, l4, l5];
    assert JoinLines([l1, l2, l3, l4, l5]) == l1 + "\n" + JoinLines([l2, l3, l4, l5]);
    assert [l0, l1, l2, l3, l4, l5][1..] == [l1, l2, l3, l4, l5];
  }

  /** Every program text ends with the footer's newline. */
  lemma ProgramTextEndsWithNewline(p: Program)
    requires |p.functions| == 1
    ensures |ProgramText(p)| > 0 && ProgramText(p)[|ProgramText(p)| - 1] == '\n'
  {
    var def := AstToAsm(p).functionDef;
    FunctionLinesFrame(def);
    JoinLinesEndsWithLast(FunctionLines(def));
  }

  // ---------------------------------------------------------------------------------------
  // Joining and splitting lines

  /** `s.split("\n")`: the pieces between newlines, one more than there are newlines. */
  function SplitLines(s: string): (r: seq<string>)
    ensures |r| >= 1
  {
    if s == [] then [""]
    else if s[0] == '\n' then [""] + SplitLines(s[1..])
    else
      var rest := SplitLines(s[1..]);
      [[s[0]] + rest[0]] + rest[1..]
  }

  predicate NoNewline(line: string) {
    '\n' !in line
  }

  /** A line without newlines followed by a newline splits off as one piece. */
  lemma {:induction false} SplitLinesAfterLine(line: string, tail: string)
    requires NoNewline(line)
    ensures SplitLines(line + "\n" + tail) == [line] + SplitLines(tail)
  {
    if line != [] {
      SplitLinesAfterLine(line[1..], tail);
      assert (line + "\n" + tail)[1..] == line[1..] + "\n" + tail;
      assert [line[0]] + line[1..] == line;
    } else {
      assert line + "\n" + tail == "\n" + tail;
    }
  }

  /** A line without newlines is one piece. */
  lemma {:induction false} SplitLinesOfLine(line: string)
    requires NoNewline(line)
    ensures SplitLines(line) == [line]
  {
    if line != [] {
      SplitLinesOfLine(line[1..]);
      assert [line[0]] + line[1..] == line;
    }
  }

  /** A join ends with the end of its last line. */
  lemma {:induction false} JoinLinesEndsWithLast(lines: seq<string>)
    requires |lines| >= 1 && |lines[|lines| - 1]| > 0
    ensures |JoinLines(lines)| > 0
    ensures JoinLines(lines)[|JoinLines(lines)| - 1] == lines[|lines| - 1][|lines[|lines| - 1]| - 1]
  {
    if |lines| > 1 {
      JoinLinesEndsWithLast(lines[1..]);
    }
  }

  /** The number of characters in all the lines together. */
  function TotalLength(lines: seq<string>): nat {
    if lines == [] then 0 else |lines[0]| + TotalLength(lines[1..])
  }

  /** A join holds every character of the lines, one separator between each two, and begins with the first line. */
  lemma {:induction false} JoinLinesLength(lines: seq<string>)
    requires lines != []
    ensures |JoinLines(lines)| == TotalLength(lines) + |lines| - 1
    ensures |lines[0]| <= |JoinLines(lines)| && JoinLines(lines)[..|lines[0]|] == lines[0]
  {
    if |lines| > 1 {
      JoinLinesLength(lines[1..]);
    }
  }

  /**
   * Splitting a join gives back every line but the last, which is split in its turn: only
   * the last line may hold newlines of its own.
   */
  lemma {:induction false} SplitJoinLinesLast(lines: seq<string>)
    requires |lines| >= 1
    requires forall k :: 0 <= k < |lines| - 1 ==> NoNewline(lines[k])
    ensures SplitLines(JoinLines(lines)) == lines[..|lines| - 1] + SplitLines(lines[|lines| - 1])
  {
    var n := |lines| - 1;
    if n == 0 {
      assert lines[..n] == [];
    } else {
      var rest := lines[1..];
      SplitJoinLinesLast(rest);
      assert rest[n - 1] == lines[n];
      SplitLinesAfterLine(lines[0], JoinLines(rest));
      assert [lines[0]] + rest[..n - 1] == lines[..n];
    }
  }

  /** Lines without newlines come back from their `"\n".join` by splitting. */
  lemma {:induction false} SplitJoinLines(lines: seq<string>)
    requires |lines| >= 1
    requires forall k :: 0 <= k < |lines| ==> NoNewline(lines[k])
    ensures SplitLines(JoinLines(lines)) == lines
  {
    if |lines| == 1 {
      SplitLinesOfLine(lines[0]);
    } else {
      var rest := lines[1..];
      SplitJoinLines(rest);
      SplitLinesAfterLine(lines[0], JoinLines(rest));
      assert [lines[0]] + rest == lines;
    }
  }

  /** A printed integer is a sign and digits, so it holds no newline. */
  lemma IntToStringNoNewline(n: int)
    ensures NoNewline(IntToString(n))
  {
    var s := IntToString(n);
    if n < 0 {
      forall k | 1 <= k < |s|
        ensures s[k] != '\n'
      {
        assert s[k] == s[1..][k - 1];
      }
    }
  }

  /**
   * Splitting the text of a program at newlines gives its six lines (the footer without its
   * newline) and the empty piece after the final newline, provided the function name has no
   * newline.
   */
  lemma ProgramTextLines(p: Program)
    requires |p.functions| == 1 && NoNewline(p.functions[0].name)
    ensures
      var name := p.functions[0].name;
      SplitLines(ProgramText(p)) == [
        "\t.globl " + name,
        "\t.type " + name + ", @function",
        name + ":",
        "\tmovl $" + IntToString(p.functions[0].body.value.value) + ", %eax",
        "\tret",
        ".section .note.GNU-stack, \"\", @progbits",
        ""]
  {
    var name := p.functions[0].name;
    var n := p.functions[0].body.value.value;
    ProgramTextIs(p);
    IntToStringNoNewline(n);
    var movl := "\tmovl $" + IntToString(n) + ", %eax";
    assert NoNewline("\t.globl " + name);
    assert NoNewline("\t.type " + name + ", @function");
    assert NoNewline(name + ":");
    assert NoNewline(movl);
    assert NoNewline("\tret");
    SplitSixLines("\t.globl " + name, "\t.type " + name + ", @function", name + ":", movl, "\tret", Footer);
    FooterSplits();
  }

  /** Six lines of which the first five hold no newline, joined and split again. */
  lemma SplitSixLines(l0: string, l1: string, l2: string, l3: string, l4: string, l5: string)
    requires NoNewline(l0) && NoNewline(l1) && NoNewline(l2) && NoNewline(l3) && NoNewline(l4)
    ensures SplitLines(JoinLines([l0, l1, l2, l3, l4, l5])) == [l0, l1, l2, l3, l4] + SplitLines(l5)
  {
    var lines := [l0, l1, l2, l3, l4, l5];
    assert forall k :: 0 <= k < 5 ==> NoNewline(lines[k]);
    SplitJoinLinesLast(lines);
    assert lines[..5] == [l0, l1, l2, l3, l4];
  }

  /** The footer is one line and its newline. */
  lemma FooterSplits()
    ensures SplitLines(Footer) == [".section .note.GNU-stack, \"\", @progbits", ""]
  {
    var footerLine := ".section .note.GNU-stack, \"\", @progbits";
    assert Footer == footerLine + "\n" + "";
    SplitLinesAfterLine(footerLine, "");
  }
}

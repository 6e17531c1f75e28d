/**
 * The code generator of src/cc/codegen.py, in two passes: the syntax tree is lowered to a
 * small assembly IR (one RETURN instruction per return statement), and the IR is written
 * out as lines of GNU assembler text, which `codegen` joins with newlines.
 */
module Codegen {
  import opened Wrappers
  import opened Numerals
  import opened Ast

  /** An entry of `Instruction.operands` (`List[Any]`): an integer or a register name. */
  datatype Operand = IntOperand(value: int) | RegOperand(name: string)

  datatype Instruction = Instruction(opcode: string, operands: seq<Operand>)

  datatype FunctionDefinition = FunctionDefinition(name: string, instructions: seq<Instruction>)

  datatype AsmProgram = AsmProgram(functionDef: FunctionDefinition)

  /** What `_gen_instruction` asserts of its argument: `RETURN` of an integer into `eax`. */
  predicate IsReturn(inst: Instruction) {
    && inst.opcode == "RETURN"
    && |inst.operands| == 2
    && inst.operands[0].IntOperand?
    && inst.operands[1] == RegOperand("eax")
  }

  predicate AllReturns(insts: seq<Instruction>) {
    forall k :: 0 <= k < |insts| ==> IsReturn(insts[k])
  }

  // ---------------------------------------------------------------------------------------
  // Syntax tree to IR

  /** `_visit_statement`: `return n` becomes a RETURN of `n` into `eax`. */
  function VisitStatement(stmt: Statement): (inst: Instruction)
    ensures IsReturn(inst) && inst.operands[0].value == stmt.value.value
  {
    Instruction("RETURN", [IntOperand(stmt.value.value), RegOperand("eax")])
  }

  /** `_visit_function`: the name is kept and the body becomes one instruction. */
  function VisitFunction(f: Function): (d: FunctionDefinition)
    ensures d.name == f.name && |d.instructions| == 1 && AllReturns(d.instructions)
    ensures d.instructions[0].operands[0].value == f.body.value.value
  {
    FunctionDefinition(f.name, [VisitStatement(f.body)])
  }

  /** `ast_to_asm`: every function is lowered, and there must be exactly one. */
  function AstToAsm(p: Program): (a: AsmProgram)
    requires |p.functions| == 1
    ensures a.functionDef.name == p.functions[0].name
    ensures |a.functionDef.instructions| == 1 && AllReturns(a.functionDef.instructions)
    ensures a.functionDef.instructions[0].operands[0].value == p.functions[0].body.value.value
  {
    var functions := seq(|p.functions|, k requires 0 <= k < |p.functions| => VisitFunction(p.functions[k]));
    AsmProgram(functions[0])
  }

  // ---------------------------------------------------------------------------------------
  // IR to text

  /** The immediate of a line `movl $<n>, %eax`, read back with `int()`; `None` otherwise. */
  function MovlImmediate(line: string): Option<int> {
    if |line| >= 12 && line[..6] == "movl $" && line[|line| - 6..] == ", %eax" then
      ReadInt(line[6..|line| - 6])
    else None
  }

  /** `_gen_instruction`: a move of the immediate into the register, then `ret`. */
  function GenInstruction(inst: Instruction): (lines: seq<string>)
    requires IsReturn(inst)
    ensures |lines| == 2 && lines[1] == "ret"
  {
    var src := inst.operands[0].value;
    var dst := inst.operands[1].name;
    ["movl $" + IntToString(src) + ", %" + dst, "ret"]
  }

  /** The `movl` line of an instruction reads back as the instruction's immediate. */
  lemma InstructionReadsBack(inst: Instruction)
    requires IsReturn(inst)
    ensures MovlImmediate(GenInstruction(inst)[0]) == Some(inst.operands[0].value)
  {
    var n := inst.operands[0].value;
    var text := IntToString(n);
    var line := GenInstruction(inst)[0];
    assert line == "movl $" + text + ", %eax";
    assert line[..6] == "movl $";
    assert line[|line| - 6..] == ", %eax";
    assert line[6..|line| - 6] == text;
    ReadIntOfIntToString(n);
  }

  /** The lines of each instruction, in instruction order. */
  function InstructionChunks(insts: seq<Instruction>): seq<seq<string>>
    requires AllReturns(insts)
  {
    seq(|insts|, k requires 0 <= k < |insts| && IsReturn(insts[k]) => GenInstruction(insts[k]))
  }

  /** The chunks one after another. */
  function Concat(chunks: seq<seq<string>>): seq<string> {
    if chunks == [] then [] else Concat(chunks[..|chunks| - 1]) + chunks[|chunks| - 1]
  }

  /** The body lines of `_gen_function`: each instruction's lines, in instruction order. */
  function BodyLines(insts: seq<Instruction>): seq<string>
    requires AllReturns(insts)
  {
    Concat(InstructionChunks(insts))
  }

  function Header(name: string): seq<string> {
    ["\t.globl " + name, "\t.type " + name + ", @function", name + ":"]
  }

  /** The GNU-stack note that marks the stack non-executable; it ends in a newline. */
  const Footer: string := ".section .note.GNU-stack, \"\", @progbits\n"

  /** `[f"\t{line}" for line in body]`. */
  function Indent(lines: seq<string>): (r: seq<string>)
    ensures |r| == |lines|
    ensures forall k :: 0 <= k < |r| ==> r[k] == "\t" + lines[k]
  {
    seq(|lines|, k requires 0 <= k < |lines| => "\t" + lines[k])
  }

  /** The lines `_gen_function` returns for `f`. */
  function FunctionLines(f: FunctionDefinition): seq<string>
    requires AllReturns(f.instructions)
  {
    Header(f.name) + Indent(BodyLines(f.instructions)) + [Footer]
  }

  /** `_gen_function`: the body is built by extending a list, one instruction at a time. */
  method GenFunction(definition: FunctionDefinition) returns (lines: seq<string>)
    requires AllReturns(definition.instructions)
    ensures lines == FunctionLines(definition)
  {
    ghost var chunks := InstructionChunks(definition.instructions);
    var body: seq<string> := [];
    for k := 0 to |definition.instructions|
      invariant body == Concat(chunks[..k])
    {
      assert chunks[..k + 1][..k] == chunks[..k];
      body := body + GenInstruction(definition.instructions[k]);
    }
    assert chunks[..|chunks|] == chunks;
    var header := [
      "\t.globl " + definition.name,
      "\t.type " + definition.name + ", @function",
      definition.name + ":"
    ];
    var footer := ".section .note.GNU-stack, \"\", @progbits\n";
    lines := header + seq(|body|, k requires 0 <= k < |body| => "\t" + body[k]) + [footer];
  }

  /** `_gen_asm_program`: the lines of the program's one function. */
  method GenAsmProgram(asmProgram: AsmProgram) returns (lines: seq<string>)
    requires AllReturns(asmProgram.functionDef.instructions)
    ensures lines == FunctionLines(asmProgram.functionDef)
  {
    lines := GenFunction(asmProgram.functionDef);
  }

  /** `"\n".join(lines)`. */
  function JoinLines(lines: seq<string>): string {
    if lines == [] then ""
    else if |lines| == 1 then lines[0]
    else lines[0] + "\n" + JoinLines(lines[1..])
  }

  /** The assembly text of a one-function program. */
  function ProgramText(p: Program): string
    requires |p.functions| == 1
  {
    JoinLines(FunctionLines(AstToAsm(p).functionDef))
  }

  /** `codegen`: lower, write the lines, join them. */
  method Generate(program: Program) returns (code: string)
    requires |program.functions| == 1
    ensures code == ProgramText(program)
  {
    var asm := AstToAsm(program);
    var lines := GenAsmProgram(asm);
    code := JoinLines(lines);
  }
}

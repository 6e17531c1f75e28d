/**
 * The syntax tree the parser of src/cc/parser.py builds and the code generator of
 * src/cc/codegen.py walks. The parser tags dictionaries with a `"type"` entry and the
 * code generator reads the same entries as attributes; here both sides share these
 * datatypes, one constructor per tag.
 */
module Ast {

  /** `{"type": "IntegerLiteral", "value": n}`: the only expression of the grammar. */
  datatype Exp = IntegerLiteral(value: int)

  /** `{"type": "ReturnStatement", "value": e}`: the only statement of the grammar. */
  datatype Statement = ReturnStatement(value: Exp)

  /** `{"type": "Function", "name": ..., "body": ...}`. */
  datatype Function = Function(name: string, body: Statement)

  /** What the code generator takes as `ast`: a program is its list of functions. */
  datatype Program = Program(functions: seq<Function>)
}

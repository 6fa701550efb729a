/** The parser and the code generator together (src/main.rs passes the
    parser's tree straight to `generate`). */
module Pipeline {
  import Syntax
  import Grammar
  import GrammarProperties
  import Ir
  import IrProperties

  /** Whatever the grammar builds, code generation ends in a result or a
      reported error, never in the panic of `visit_expr`. */
  lemma ParsedProgramNeverPanics(d: Grammar.Decl, verify: (string, seq<Ir.Inst>) -> bool)
    ensures Ir.Compile(Grammar.BuildDecl(d), verify).result != Ir.Err(Ir.Panic)
  {
    GrammarProperties.DeclIsProgram(d);
    IrProperties.ProgramNeverPanics(Grammar.BuildDecl(d), map[], Ir.Start, verify);
  }
}

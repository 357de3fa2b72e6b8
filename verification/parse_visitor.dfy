/** The parse-visitor interface: one constructor per operation a parser may
    invoke on a visitor, in the order the interface declares them. A visitor
    that only records or forwards calls is fully described by the sequence
    of calls it receives or makes. */
module ParseVisitor {
  import opened Wrappers
  import opened Lex
  import opened Language

  datatype VisitorCall =
    | EndOfModule
    | EnterBlockScope
    | EnterWithScope
    | EnterClassScope
    | EnterForScope
    | EnterFunctionScope
    | EnterFunctionScopeBody
    | EnterNamedFunctionScope(name: Identifier)
    | ExitBlockScope
    | ExitWithScope
    | ExitClassScope
    | ExitForScope
    | ExitFunctionScope
    | KeywordVariableUse(name: Identifier)
    | PropertyDeclaration(optionalName: Option<Identifier>)
    | VariableAssignment(name: Identifier)
    | VariableDeclaration(name: Identifier, kind: VariableKind, initKind: VariableInitKind)
    | VariableDeleteUse(name: Identifier, deleteKeyword: SourceSpan)
    | VariableExportUse(name: Identifier)
    | VariableTypeUse(name: Identifier)
    | VariableTypeofUse(name: Identifier)
    | VariableUse(name: Identifier)
}

/** The two small enumerations a variable declaration carries. */
module Language {

  /** How a variable was declared. */
  datatype VariableKind =
    | Catch
    | Class
    | Const
    | Function
    | Import
    | Let
    | Parameter
    | Var

  /** Whether the declaration had an initializer. */
  datatype VariableInitKind = Normal | InitializedWithEquals
}

/** Source locations and identifiers as the lexer hands them to a parse
    visitor. Both are non-owning views in the program; here they are plain
    values, and positions in the source text are offsets from its start. */
module Lex {

  /** A half-open range [begin, end) of offsets into the source text. */
  datatype SourceSpan = SourceSpan(begin: nat, end: nat)

  /** A name as it appears in the source, with where it appears. */
  datatype Identifier = Identifier(span: SourceSpan, normalizedName: string)
}

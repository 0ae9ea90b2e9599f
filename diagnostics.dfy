/**
 * Diagnostics and the per-run context that collects them. Rules only append
 * to the context; they never read or change what is already there.
 */
module Diagnostics {
  import opened Ast

  /** One reported violation: where, which rule, what is wrong and, optionally,
      how to fix it. */
  datatype Diagnostic = Diagnostic(span: Span, code: string, message: string, hint: Option<string>)

  /** The sink a rule reports into. */
  class Context {
    var diagnostics: seq<Diagnostic>

    constructor ()
      ensures diagnostics == []
    {
      diagnostics := [];
    }

    /** Appends one diagnostic carrying a hint; nothing already reported changes. */
    method AddDiagnosticWithHint(span: Span, code: string, message: string, hint: string)
      modifies this
      ensures diagnostics == old(diagnostics) + [Diagnostic(span, code, message, Some(hint))]
    {
      diagnostics := diagnostics + [Diagnostic(span, code, message, Some(hint))];
    }
  }
}

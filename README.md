# no-delete-var, modelled in Dafny

The `no-delete-var` rule of deno_lint reports every `delete <identifier>` that its walk
reaches. That excludes any such expression nested inside another unary expression's
operand (see below). Deleting a variable declared with `var`, `let` or `const` never
succeeds: `delete` returns false, and in strict mode it is a syntax error. The rule leaves
`delete <object>.<property>` alone, and every other unary operator too.

The rule drives a visitor over the parsed program, which is either a module or a script.
The visitor's default walk goes pre-order and left to right into every node except type
syntax. The rule overrides only the handler for unary expressions. That handler does two
things:

- It appends one diagnostic to the lint context when the operator is `delete` and the
  operand is a bare identifier.
- It does not continue into the operand.

The project has five files:

- `ast.dfy` (`Ast`): a small syntax tree, just large enough to place a unary expression
  anywhere in a program. Spans are byte offsets.
- `traversal.dfy` (`Traversal`): for every kind of node, the sequence of unary
  expressions the walk hands to the handler, in order.
- `diagnostics.dfy` (`Diagnostics`): the diagnostic record, and the `Context` class whose
  diagnostic list only ever grows.
- `no_delete_var.dfy` (`NoDeleteVar`): the rule's constants and its entry point
  `LintProgram`. The visitor is a class that holds the context. It has one method per kind
  of node. Each method is proved to append exactly that node's findings to the context.
- `no_delete_var_properties.dfy` (`NoDeleteVarProperties`): what those findings are, and
  the source's examples.
  - The findings for any node are the handler's reports for the unary expressions the walk
    hands over from it (`…FindingsAgree`).
  - Those reports are one diagnostic per `delete <identifier>` among them, in order, and
    nothing else (`ReportsForExact`, `ReportsForSoundComplete`, `ProgramFindingsExact`).

The handler does not continue into the operand. As a consequence, a `delete <identifier>`
anywhere inside another unary expression's operand is not reported. Examples: the inner
`delete` of `delete delete x`, or a `delete x` in the body of `!function () { delete x;
}()` or `void function () { delete x; }()`. By contrast, `(function () { delete x; })()`
is reported, because no unary expression encloses it. The rule's own documentation
(src/rules/no_delete_var.rs:53, "Disallows the deletion of variables") states no
exception for nested deletions. The model follows the code as written:
`NestedInUnaryNotReported` proves that such nested deletions are not reported.

## Model

| member | source | states |
|---|---|---|
| NoDeleteVar.Code | src/rules/no_delete_var.rs:13-38 | The rule's code is the constant `"no-delete-var"`. |
| NoDeleteVar.Tags | src/rules/no_delete_var.rs:32-34 | The rule has exactly one tag, `"recommended"`. |
| NoDeleteVar.MessageText | src/rules/no_delete_var.rs:15-19 | The one message kind displays as "Variables shouldn't be deleted". |
| NoDeleteVar.HintText | src/rules/no_delete_var.rs:21-25 | The one hint kind displays as "Remove the deletion statement". |
| Diagnostics.Context.AddDiagnosticWithHint | src/rules/no_delete_var.rs:99-104 | Reporting appends exactly one diagnostic to the end of the context, carrying the given span, code, message and hint. Everything already reported stays unchanged. |
| NoDeleteVar.NoDeleteVarVisitor.constructor | src/rules/no_delete_var.rs:80-88 | The visitor reports into the very context it was given. |
| NoDeleteVar.NoDeleteVarVisitor.VisitUnaryExpr | src/rules/no_delete_var.rs:93-106 | The handler appends the handler's findings for the node and nothing else. Those findings are nothing for an operator other than `delete`, nothing for `delete` of a non-identifier, and one diagnostic spanning the whole expression for `delete <identifier>` (see `UnaryFindingsSpec`). The operand is not walked. |
| NoDeleteVar.NoDeleteVarVisitor.VisitExpr | src/rules/no_delete_var.rs:90-93 | Walking an expression appends exactly its findings: its children's findings left to right, or the handler's findings at a unary node. |
| NoDeleteVar.NoDeleteVarVisitor.VisitBinExpr | src/rules/no_delete_var.rs:90-91 | Walking a binary expression appends the left operand's findings, then the right operand's. |
| NoDeleteVar.NoDeleteVarVisitor.VisitAssignExpr | src/rules/no_delete_var.rs:90-91 | Walking an assignment appends the target's findings, then the value's. |
| NoDeleteVar.NoDeleteVarVisitor.VisitMemberExpr | src/rules/no_delete_var.rs:90-91 | Walking a member access appends the object's findings, then those of a computed key. |
| NoDeleteVar.NoDeleteVarVisitor.VisitMemberProp | src/rules/no_delete_var.rs:90-91 | A named property appends nothing; a computed key appends its expression's findings. |
| NoDeleteVar.NoDeleteVarVisitor.VisitCondExpr | src/rules/no_delete_var.rs:90-91 | Walking `test ? cons : alt` appends the three parts' findings in that order. |
| NoDeleteVar.NoDeleteVarVisitor.VisitCallExpr | src/rules/no_delete_var.rs:90-91 | Walking a call appends the callee's findings, then the arguments' findings. |
| NoDeleteVar.NoDeleteVarVisitor.VisitExprs | src/rules/no_delete_var.rs:90-91 | Walking a list of expressions appends each one's findings, in order. |
| NoDeleteVar.NoDeleteVarVisitor.VisitProps | src/rules/no_delete_var.rs:90-91 | Walking an object literal's properties appends each value's findings, in order. |
| NoDeleteVar.NoDeleteVarVisitor.VisitOptExpr | src/rules/no_delete_var.rs:90-91 | An absent expression appends nothing; a present one appends its findings. |
| NoDeleteVar.NoDeleteVarVisitor.VisitDecls | src/rules/no_delete_var.rs:90-91 | Walking declarators appends each initialiser's findings, in order. Type annotations are skipped. |
| NoDeleteVar.NoDeleteVarVisitor.VisitStmt | src/rules/no_delete_var.rs:90-91 | Walking a statement appends exactly its findings. |
| NoDeleteVar.NoDeleteVarVisitor.VisitIfStmt | src/rules/no_delete_var.rs:90-91 | Walking `if` appends the findings of the test, the consequent, then the alternative. |
| NoDeleteVar.NoDeleteVarVisitor.VisitWhileStmt | src/rules/no_delete_var.rs:90-91 | Walking `while` appends the test's findings, then the body's. |
| NoDeleteVar.NoDeleteVarVisitor.VisitOptStmt | src/rules/no_delete_var.rs:90-91 | An absent `else` appends nothing; a present one appends its findings. |
| NoDeleteVar.NoDeleteVarVisitor.VisitStmts | src/rules/no_delete_var.rs:90-91 | Walking a statement list appends each statement's findings, in order. |
| NoDeleteVar.NoDeleteVarVisitor.VisitModuleItem | src/rules/no_delete_var.rs:90-91 | An import appends nothing; `export default` and statements append their findings. |
| NoDeleteVar.NoDeleteVarVisitor.VisitModule | src/rules/no_delete_var.rs:47 | Walking a module appends each item's findings, in order. |
| NoDeleteVar.NoDeleteVarVisitor.VisitScript | src/rules/no_delete_var.rs:48 | Walking a script appends each statement's findings, in order. |
| NoDeleteVar.LintProgram | src/rules/no_delete_var.rs:40-50 | Linting a program, module or script, appends exactly the program's findings to the context. Nothing already there changes. |
| NoDeleteVarProperties.UnaryFindingsSpec | src/rules/no_delete_var.rs:93-106 | The handler reports at most one diagnostic per unary expression. It reports one iff the operator is `delete` and the operand is an identifier. That diagnostic has the whole expression's span, the rule's code, its message and its hint. |
| NoDeleteVarProperties.ReportsForAppend | src/rules/no_delete_var.rs:93-106 | Handling two runs of unary expressions reports the first run's diagnostics, then the second's. |
| NoDeleteVarProperties.DeletesOfIdentMembers | src/rules/no_delete_var.rs:94-98 | An expression is among the deletions of variables iff it was handed over and is `delete <identifier>`. There are no more of these than expressions handed over. |
| NoDeleteVarProperties.ReportsForExact | src/rules/no_delete_var.rs:93-106 | The reports are exactly one diagnostic per `delete <identifier>` handed over, in the same order, each spanning its expression. |
| NoDeleteVarProperties.ReportsForSoundComplete | src/rules/no_delete_var.rs:93-106 | A diagnostic is reported iff a handed-over `delete <identifier>` has its span. There are at most as many diagnostics as unary expressions. Every diagnostic carries the rule's code, message and hint. |
| NoDeleteVarProperties.ExprFindingsAgree | src/rules/no_delete_var.rs:90-106 | An expression's findings are the handler's reports for the unary expressions the walk reaches in it. |
| NoDeleteVarProperties.MemberPropFindingsAgree | src/rules/no_delete_var.rs:90-106 | The same, for a member property. |
| NoDeleteVarProperties.ExprsFindingsAgree | src/rules/no_delete_var.rs:90-106 | The same, for a list of expressions. |
| NoDeleteVarProperties.PropsFindingsAgree | src/rules/no_delete_var.rs:90-106 | The same, for object-literal properties. |
| NoDeleteVarProperties.OptExprFindingsAgree | src/rules/no_delete_var.rs:90-106 | The same, for an optional expression. |
| NoDeleteVarProperties.DeclsFindingsAgree | src/rules/no_delete_var.rs:90-106 | The same, for declarators. |
| NoDeleteVarProperties.StmtFindingsAgree | src/rules/no_delete_var.rs:90-106 | The same, for a statement. |
| NoDeleteVarProperties.OptStmtFindingsAgree | src/rules/no_delete_var.rs:90-106 | The same, for an optional statement. |
| NoDeleteVarProperties.StmtsFindingsAgree | src/rules/no_delete_var.rs:90-106 | The same, for a statement list. |
| NoDeleteVarProperties.ItemFindingsAgree | src/rules/no_delete_var.rs:90-106 | The same, for a module item. |
| NoDeleteVarProperties.ItemsFindingsAgree | src/rules/no_delete_var.rs:90-106 | The same, for a module's items. |
| NoDeleteVarProperties.ProgramFindingsAgree | src/rules/no_delete_var.rs:40-50 | The same, for a module or a script. |
| NoDeleteVarProperties.ProgramFindingsExact | src/rules/no_delete_var.rs:40-106 | Linting any program gives one diagnostic per `delete <identifier>` the walk reaches, in walk order, each at that expression's span. There is at most one diagnostic per unary expression reached, and nothing else is reported. Every diagnostic has the rule's code, message and hint. |
| NoDeleteVarProperties.DeletePropertyNotReported | src/rules/no_delete_var.rs:69-75 | `delete <object>.<property>` is never reported, whatever the object and property are. |
| NoDeleteVarProperties.NonDeleteNotReported | src/rules/no_delete_var.rs:94-96 | A unary operator other than `delete` on a variable is never reported. |
| NoDeleteVarProperties.DeleteVariableReported | src/rules/no_delete_var.rs:98-104 | `delete <identifier>;` alone is reported exactly once, at the span of the `delete` expression. |
| NoDeleteVarProperties.NestedInUnaryNotReported | src/rules/no_delete_var.rs:93-106 | A unary expression whose operand is not an identifier gives no diagnostic, including any `delete` nested anywhere inside that operand. |
| NoDeleteVarProperties.ParenthesisedVariableNotReported | src/rules/no_delete_var.rs:98 | `delete (x)` is not reported, because its operand is a parenthesised expression. |
| NoDeleteVarProperties.LintSomeVar | src/rules/no_delete_var.rs:113-125 | `var someVar = "someVar"; delete someVar;`, as a module or a script, gives exactly one diagnostic at offset 25 (column 25) with the rule's code, message and hint. |
| NoDeleteVarProperties.LintObjProperty | src/rules/no_delete_var.rs:69-75 | `var obj = { a: 1 }; delete obj.a;` gives no diagnostic. |
| NoDeleteVarProperties.DeclaredThenDeletedFindings | src/rules/no_delete_var.rs:59-67 | `const a = 1; let b = 2; var c = 3; delete a; delete b; delete c;` has three findings, one per `delete`, in source order. |
| NoDeleteVarProperties.LintDeclaredThenDeleted | src/rules/no_delete_var.rs:59-67 | Linting that module appends exactly those three diagnostics. |

## Left out

- The parser and the full syntax tree. Only the node kinds needed to place a unary
  expression anywhere are modelled: literals, arrays, objects, functions, unary, update,
  binary, assignment, member, conditional, call, sequence, parenthesised and `as`
  expressions; and empty, expression, declaration, block, `if`, `while`, `return` and
  function statements. Other node kinds are walked by the same default rule (children
  left to right) and add nothing new.
- The children of type syntax. The rule switches off the walk into type syntax
  (`noop_visit_type!`, src/rules/no_delete_var.rs:91), so nothing inside a type is ever
  visited, whatever it contains. Type nodes are therefore kept only as opaque leaves.
- Line and column resolution. Spans are byte offsets. In the one-line test source, the
  column equals the offset.
- The parent node passed to each visit, and the placeholder parent passed at the top.
  This rule never uses either.
- The rule's documentation text, and `new()` boxing the rule. The documentation's examples
  are modelled as `LintDeclaredThenDeleted` and `LintObjProperty`.
- The lint context itself is not part of this model. Only the one operation the rule
  calls, reporting with a hint, is modelled, as an append to its diagnostic list.
- The rule runner that calls `lint_program`, the registry of rules and ignore directives
  are not part of this model.
- Traversal completeness is stated relative to the walk. The model proves that every
  `delete <identifier>` the walk hands to the handler is reported, and nothing else. It
  does not claim that every such expression at any depth is reported, because the handler
  does not walk its operand (see `NestedInUnaryNotReported`).

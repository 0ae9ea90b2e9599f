/**
 * What the `no-delete-var` rule reports, stated against the order in which the
 * walk hands unary expressions to the rule's handler: one diagnostic per
 * `delete <identifier>` handed over, in that order, and nothing else.
 */
module NoDeleteVarProperties {
  import opened Ast
  import opened Traversal
  import opened Diagnostics
  import opened NoDeleteVar

  /** The handler reports nothing for an operator other than `delete`, nothing
      for `delete` of anything but a bare identifier, and for `delete
      <identifier>` exactly one diagnostic spanning the whole expression, with
      the rule's code, message and hint. */
  lemma UnaryFindingsSpec(u: UnaryExpr)
    ensures |UnaryFindings(u)| <= 1
    ensures UnaryFindings(u) != [] <==> u.op == Delete && u.arg.Ident?
    ensures forall d :: d in UnaryFindings(u) ==>
              d.span == u.span && d.code == "no-delete-var" &&
              d.message == "Variables shouldn't be deleted" && d.hint == Some("Remove the deletion statement")
  {
  }

  /** What the rule reports when its handler is handed the unary expressions
      `us`, one after the other. */
  function ReportsFor(us: seq<UnaryExpr>): seq<Diagnostic> {
    if us == [] then [] else UnaryFindings(us[0]) + ReportsFor(us[1..])
  }

  /** The deletions of variables among `us`, in order. */
  function DeletesOfIdent(us: seq<UnaryExpr>): seq<UnaryExpr> {
    if us == [] then []
    else (if IsDeleteOfIdent(us[0]) then [us[0]] else []) + DeletesOfIdent(us[1..])
  }

  /** Reports for consecutive runs of the handler concatenate. */
  lemma {:induction false} ReportsForAppend(a: seq<UnaryExpr>, b: seq<UnaryExpr>)
    ensures ReportsFor(a + b) == ReportsFor(a) + ReportsFor(b)
  {
    if a == [] {
      assert a + b == b;
    } else {
      assert (a + b)[1..] == a[1..] + b;
      ReportsForAppend(a[1..], b);
    }
  }

  /** A unary expression is kept among the deletions of variables exactly when
      it was handed over and deletes a variable. */
  lemma {:induction false} DeletesOfIdentMembers(us: seq<UnaryExpr>)
    ensures |DeletesOfIdent(us)| <= |us|
    ensures forall u :: u in DeletesOfIdent(us) <==> u in us && IsDeleteOfIdent(u)
  {
    if us != [] {
      DeletesOfIdentMembers(us[1..]);
      assert us == [us[0]] + us[1..];
    }
  }

  /** The reports are exactly one diagnostic per deletion of a variable, in the
      order the deletions were handed over, each spanning its whole `delete`
      expression. */
  lemma {:induction false} ReportsForExact(us: seq<UnaryExpr>)
    ensures |ReportsFor(us)| == |DeletesOfIdent(us)|
    ensures forall k :: 0 <= k < |ReportsFor(us)| ==> ReportsFor(us)[k] == Report(DeletesOfIdent(us)[k].span)
  {
    if us != [] {
      ReportsForExact(us[1..]);
    }
  }

  /** A diagnostic is reported exactly when some handled unary expression is a
      deletion of a variable spanning the same range; the handler adds at most
      one diagnostic per unary expression; every diagnostic carries the rule's
      code, message and hint. */
  lemma ReportsForSoundComplete(us: seq<UnaryExpr>)
    ensures forall d :: d in ReportsFor(us) <==> exists u :: u in us && IsDeleteOfIdent(u) && d == Report(u.span)
    ensures |ReportsFor(us)| <= |us|
    ensures forall d :: d in ReportsFor(us) ==>
              d.code == Code() && d.message == MessageText(Unexpected) && d.hint == Some(HintText(Remove))
  {
    ReportsForExact(us);
    DeletesOfIdentMembers(us);
    var ds := DeletesOfIdent(us);
    forall d | d in ReportsFor(us)
      ensures exists u :: u in us && IsDeleteOfIdent(u) && d == Report(u.span)
    {
      var k :| 0 <= k < |ReportsFor(us)| && ReportsFor(us)[k] == d;
      assert ds[k] in ds;
    }
    forall u | u in us && IsDeleteOfIdent(u)
      ensures Report(u.span) in ReportsFor(us)
    {
      assert u in ds;
      var k :| 0 <= k < |ds| && ds[k] == u;
      assert ReportsFor(us)[k] == Report(u.span);
    }
  }

  /*
   * The visitor's findings for every kind of node are the handler's reports
   * for the unary expressions the walk hands over from that node.
   */

  lemma {:induction false} ExprFindingsAgree(e: Expr)
    ensures ExprFindings(e) == ReportsFor(ExprUnaries(e))
  {
    match e
    case This =>
    case Ident(_, _) =>
    case Literal(_) =>
    case Array(elems) =>
      ExprsFindingsAgree(elems);
    case Object(props) =>
      PropsFindingsAgree(props);
    case Function(_, _, body) =>
      StmtsFindingsAgree(body);
    case Unary(u) =>
      assert [u][1..] == [];
    case Update(_, _, target) =>
      ExprFindingsAgree(target);
    case Bin(b) =>
      ExprFindingsAgree(b.left);
      ExprFindingsAgree(b.right);
      ReportsForAppend(ExprUnaries(b.left), ExprUnaries(b.right));
    case Assign(a) =>
      ExprFindingsAgree(a.left);
      ExprFindingsAgree(a.right);
      ReportsForAppend(ExprUnaries(a.left), ExprUnaries(a.right));
    case Member(m) =>
      ExprFindingsAgree(m.obj);
      MemberPropFindingsAgree(m.prop);
      ReportsForAppend(ExprUnaries(m.obj), MemberPropUnaries(m.prop));
    case Cond(c) =>
      ExprFindingsAgree(c.test);
      ExprFindingsAgree(c.cons);
      ExprFindingsAgree(c.alt);
      ReportsForAppend(ExprUnaries(c.test), ExprUnaries(c.cons));
      ReportsForAppend(ExprUnaries(c.test) + ExprUnaries(c.cons), ExprUnaries(c.alt));
    case Call(c) =>
      ExprFindingsAgree(c.callee);
      ExprsFindingsAgree(c.args);
      ReportsForAppend(ExprUnaries(c.callee), ExprsUnaries(c.args));
    case Sequence(exprs) =>
      ExprsFindingsAgree(exprs);
    case Paren(inner) =>
      ExprFindingsAgree(inner);
    case TsAs(expr, _) =>
      ExprFindingsAgree(expr);
  }

  lemma {:induction false} MemberPropFindingsAgree(prop: MemberProp)
    ensures MemberPropFindings(prop) == ReportsFor(MemberPropUnaries(prop))
  {
    match prop
    case PropIdent(_) =>
    case Computed(key) =>
      ExprFindingsAgree(key);
  }

  lemma {:induction false} ExprsFindingsAgree(es: seq<Expr>)
    ensures ExprsFindings(es) == ReportsFor(ExprsUnaries(es))
  {
    if es != [] {
      ExprsFindingsAgree(es[..|es| - 1]);
      ExprFindingsAgree(es[|es| - 1]);
      ReportsForAppend(ExprsUnaries(es[..|es| - 1]), ExprUnaries(es[|es| - 1]));
    }
  }

  lemma {:induction false} PropsFindingsAgree(ps: seq<Prop>)
    ensures PropsFindings(ps) == ReportsFor(PropsUnaries(ps))
  {
    if ps != [] {
      PropsFindingsAgree(ps[..|ps| - 1]);
      ExprFindingsAgree(ps[|ps| - 1].value);
      ReportsForAppend(PropsUnaries(ps[..|ps| - 1]), ExprUnaries(ps[|ps| - 1].value));
    }
  }

  lemma {:induction false} OptExprFindingsAgree(oe: Option<Expr>)
    ensures OptExprFindings(oe) == ReportsFor(OptExprUnaries(oe))
  {
    match oe
    case None =>
    case Some(e) =>
      ExprFindingsAgree(e);
  }

  lemma {:induction false} DeclsFindingsAgree(ds: seq<VarDeclarator>)
    ensures DeclsFindings(ds) == ReportsFor(DeclsUnaries(ds))
  {
    if ds != [] {
      DeclsFindingsAgree(ds[..|ds| - 1]);
      OptExprFindingsAgree(ds[|ds| - 1].init);
      ReportsForAppend(DeclsUnaries(ds[..|ds| - 1]), OptExprUnaries(ds[|ds| - 1].init));
    }
  }

  lemma {:induction false} StmtFindingsAgree(s: Stmt)
    ensures StmtFindings(s) == ReportsFor(StmtUnaries(s))
  {
    match s
    case Empty =>
    case ExprStmt(expr) =>
      ExprFindingsAgree(expr);
    case VarDecl(_, decls) =>
      DeclsFindingsAgree(decls);
    case Block(stmts) =>
      StmtsFindingsAgree(stmts);
    case If(i) =>
      ExprFindingsAgree(i.test);
      StmtFindingsAgree(i.cons);
      OptStmtFindingsAgree(i.alt);
      ReportsForAppend(ExprUnaries(i.test), StmtUnaries(i.cons));
      ReportsForAppend(ExprUnaries(i.test) + StmtUnaries(i.cons), OptStmtUnaries(i.alt));
    case While(w) =>
      ExprFindingsAgree(w.test);
      StmtFindingsAgree(w.body);
      ReportsForAppend(ExprUnaries(w.test), StmtUnaries(w.body));
    case Return(arg) =>
      OptExprFindingsAgree(arg);
    case FnDecl(_, _, body) =>
      StmtsFindingsAgree(body);
  }

  lemma {:induction false} OptStmtFindingsAgree(os: Option<Stmt>)
    ensures OptStmtFindings(os) == ReportsFor(OptStmtUnaries(os))
  {
    match os
    case None =>
    case Some(s) =>
      StmtFindingsAgree(s);
  }

  lemma {:induction false} StmtsFindingsAgree(ss: seq<Stmt>)
    ensures StmtsFindings(ss) == ReportsFor(StmtsUnaries(ss))
  {
    if ss != [] {
      StmtsFindingsAgree(ss[..|ss| - 1]);
      StmtFindingsAgree(ss[|ss| - 1]);
      ReportsForAppend(StmtsUnaries(ss[..|ss| - 1]), StmtUnaries(ss[|ss| - 1]));
    }
  }

  lemma {:induction false} ItemFindingsAgree(item: ModuleItem)
    ensures ItemFindings(item) == ReportsFor(ItemUnaries(item))
  {
    match item
    case Import(_) =>
    case ExportDefaultExpr(expr) =>
      ExprFindingsAgree(expr);
    case ItemStmt(stmt) =>
      StmtFindingsAgree(stmt);
  }

  lemma {:induction false} ItemsFindingsAgree(items: seq<ModuleItem>)
    ensures ItemsFindings(items) == ReportsFor(ItemsUnaries(items))
  {
    if items != [] {
      ItemsFindingsAgree(items[..|items| - 1]);
      ItemFindingsAgree(items[|items| - 1]);
      ReportsForAppend(ItemsUnaries(items[..|items| - 1]), ItemUnaries(items[|items| - 1]));
    }
  }

  /** What the rule reports for a program, of either shape, is the handler's
      reports for the unary expressions the walk hands over, in order. */
  lemma ProgramFindingsAgree(p: Program)
    ensures ProgramFindings(p) == ReportsFor(ProgramUnaries(p))
  {
    match p
    case Module(items) =>
      ItemsFindingsAgree(items);
    case Script(body) =>
      StmtsFindingsAgree(body);
  }

  /** For any program: one diagnostic per `delete <identifier>` the walk hands
      to the handler, in walk order, each spanning its `delete` expression and
      carrying the rule's code, message and hint; at most one diagnostic per
      unary expression handed over; and nothing reported that is not such a
      deletion. */
  lemma ProgramFindingsExact(p: Program)
    ensures |ProgramFindings(p)| == |DeletesOfIdent(ProgramUnaries(p))| <= |ProgramUnaries(p)|
    ensures forall k :: 0 <= k < |ProgramFindings(p)| ==>
              ProgramFindings(p)[k] == Report(DeletesOfIdent(ProgramUnaries(p))[k].span)
    ensures forall d :: d in ProgramFindings(p) <==>
              exists u :: u in ProgramUnaries(p) && IsDeleteOfIdent(u) && d == Report(u.span)
    ensures forall d :: d in ProgramFindings(p) ==>
              d.code == Code() && d.message == MessageText(Unexpected) && d.hint == Some(HintText(Remove))
  {
    ProgramFindingsAgree(p);
    ReportsForExact(ProgramUnaries(p));
    DeletesOfIdentMembers(ProgramUnaries(p));
    ReportsForSoundComplete(ProgramUnaries(p));
  }

  /** A run over one statement reports what that statement reports. */
  lemma StmtsFindingsOne(s: Stmt)
    ensures StmtsFindings([s]) == StmtFindings(s)
  {
  }

  /** A run over two statements reports what the first, then the second,
      reports. */
  lemma StmtsFindingsTwo(s: Stmt, t: Stmt)
    ensures StmtsFindings([s, t]) == StmtFindings(s) + StmtFindings(t)
  {
    assert [s, t][..1] == [s];
    StmtsFindingsOne(s);
  }

  /** The program `s;` made of one expression statement. */
  function SingleStatement(e: Expr): Program {
    Script([ExprStmt(e)])
  }

  /** Deleting a property, `delete <object>.<property>`, is never reported,
      whatever the object and the property are. */
  lemma DeletePropertyNotReported(m: MemberExpr, span: Span)
    ensures ProgramFindings(SingleStatement(Unary(UnaryExpr(Delete, Member(m), span)))) == []
  {
    StmtsFindingsOne(ExprStmt(Unary(UnaryExpr(Delete, Member(m), span))));
  }

  /** A unary operator other than `delete` applied to a variable is never
      reported. */
  lemma NonDeleteNotReported(op: UnaryOp, x: string, xSpan: Span, span: Span)
    requires op != Delete
    ensures ProgramFindings(SingleStatement(Unary(UnaryExpr(op, Ident(x, xSpan), span)))) == []
  {
    StmtsFindingsOne(ExprStmt(Unary(UnaryExpr(op, Ident(x, xSpan), span))));
  }

  /** `delete <identifier>;` alone is reported once, at the span of the whole
      `delete` expression. */
  lemma DeleteVariableReported(x: string, xSpan: Span, span: Span)
    ensures ProgramFindings(SingleStatement(Unary(UnaryExpr(Delete, Ident(x, xSpan), span)))) == [Report(span)]
  {
    StmtsFindingsOne(ExprStmt(Unary(UnaryExpr(Delete, Ident(x, xSpan), span))));
  }

  /** The handler does not look into the operand of a unary expression, so a
      `delete <identifier>` that sits anywhere inside another unary
      expression's operand is not reported: `!(delete x)`, `delete delete x`,
      or a function body in `void function () { delete x; }`. */
  lemma NestedInUnaryNotReported(op: UnaryOp, arg: Expr, span: Span)
    requires !arg.Ident?
    ensures ProgramFindings(SingleStatement(Unary(UnaryExpr(op, arg, span)))) == []
  {
    StmtsFindingsOne(ExprStmt(Unary(UnaryExpr(op, arg, span))));
  }

  /** The operand of `delete (x)` is a parenthesised expression, not an
      identifier, so it is not reported. */
  lemma ParenthesisedVariableNotReported(x: string, xSpan: Span, span: Span)
    ensures ProgramFindings(SingleStatement(Unary(UnaryExpr(Delete, Paren(Ident(x, xSpan)), span)))) == []
  {
    NestedInUnaryNotReported(Delete, Paren(Ident(x, xSpan)), span);
  }

  /** A declaration list with one declarator reports what its initialiser
      reports. */
  lemma DeclsFindingsOne(d: VarDeclarator)
    ensures DeclsFindings([d]) == OptExprFindings(d.init)
  {
  }

  /** A module of two items reports what the first, then the second, reports. */
  lemma ItemsFindingsTwo(a: ModuleItem, b: ModuleItem)
    ensures ItemsFindings([a, b]) == ItemFindings(a) + ItemFindings(b)
  {
    assert [a, b][..1] == [a];
    assert [a][..0] == [];
    assert ItemsFindings([a]) == ItemsFindings([]) + ItemFindings(a);
  }

  /** `var <name> = <init>;` with a literal initialiser reports nothing. */
  lemma VarOfLiteralFindings(kind: VarDeclKind, name: string, lit: Lit)
    ensures StmtFindings(VarDecl(kind, [VarDeclarator(name, None, Some(Literal(lit)))])) == []
  {
    DeclsFindingsOne(VarDeclarator(name, None, Some(Literal(lit))));
  }

  /** `var someVar = "someVar";`, then `delete someVar;` at offsets 25 to 39
      of that one-line source. */
  const SomeVarDecl: Stmt := VarDecl(Var, [VarDeclarator("someVar", None, Some(Literal(Str("someVar"))))])
  const SomeVarDelete: Stmt := ExprStmt(Unary(UnaryExpr(Delete, Ident("someVar", Span(32, 39)), Span(25, 39))))

  /** Lints `var someVar = "someVar"; delete someVar;`, parsed as a module or
      as a script, into a fresh context: exactly one diagnostic, starting at
      offset 25 where `delete` begins (column 25 of that one-line source). */
  method LintSomeVar(asModule: bool) returns (diagnostics: seq<Diagnostic>)
    ensures diagnostics ==
            [Diagnostic(Span(25, 39), "no-delete-var", "Variables shouldn't be deleted", Some("Remove the deletion statement"))]
    ensures diagnostics[0].span.lo == 25
  {
    var program :=
      if asModule then Module([ItemStmt(SomeVarDecl), ItemStmt(SomeVarDelete)])
      else Script([SomeVarDecl, SomeVarDelete]);
    var context := new Context();
    LintProgram(context, program);
    diagnostics := context.diagnostics;
    VarOfLiteralFindings(Var, "someVar", Str("someVar"));
    assert StmtFindings(SomeVarDelete) == [Report(Span(25, 39))];
    if asModule {
      ItemsFindingsTwo(ItemStmt(SomeVarDecl), ItemStmt(SomeVarDelete));
    } else {
      StmtsFindingsTwo(SomeVarDecl, SomeVarDelete);
    }
  }

  /** `var obj = { a: 1 };`, then `delete obj.a;` at offsets 20 to 32. */
  const ObjDecl: Stmt := VarDecl(Var, [VarDeclarator("obj", None, Some(Object([KeyValue("a", Literal(Num(1)))])))])
  const ObjDelete: Stmt :=
    ExprStmt(Unary(UnaryExpr(Delete, Member(MemberExpr(Ident("obj", Span(27, 30)), PropIdent("a"))), Span(20, 32))))

  /** Lints `var obj = { a: 1 }; delete obj.a;`: deleting a property is not
      reported. */
  method LintObjProperty() returns (diagnostics: seq<Diagnostic>)
    ensures diagnostics == []
  {
    var context := new Context();
    LintProgram(context, Script([ObjDecl, ObjDelete]));
    diagnostics := context.diagnostics;
    StmtsFindingsTwo(ObjDecl, ObjDelete);
    DeclsFindingsOne(VarDeclarator("obj", None, Some(Object([KeyValue("a", Literal(Num(1)))]))));
    assert [KeyValue("a", Literal(Num(1)))][..0] == [];
  }

  /** A module's reports for two runs of items concatenate. */
  lemma {:induction false} ItemsFindingsAppend(a: seq<ModuleItem>, b: seq<ModuleItem>)
    ensures ItemsFindings(a + b) == ItemsFindings(a) + ItemsFindings(b)
  {
    if b == [] {
      assert a + b == a;
    } else {
      assert (a + b)[..|a + b| - 1] == a + b[..|b| - 1];
      ItemsFindingsAppend(a, b[..|b| - 1]);
    }
  }

  /** Three items report what the first, the second, then the third report. */
  lemma ItemsFindingsThree(a: ModuleItem, b: ModuleItem, c: ModuleItem)
    ensures ItemsFindings([a, b, c]) == ItemFindings(a) + ItemFindings(b) + ItemFindings(c)
  {
    assert [a, b, c][..2] == [a, b];
    ItemsFindingsTwo(a, b);
  }

  /** `<kind> <name> = <n>;` */
  function DeclareNum(kind: VarDeclKind, name: string, n: int): ModuleItem {
    ItemStmt(VarDecl(kind, [VarDeclarator(name, None, Some(Literal(Num(n))))]))
  }

  /** `delete <name>;` for a one-letter name, the `delete` expression at
      [lo, lo + 8). */
  function DeleteOne(name: string, lo: nat): ModuleItem {
    ItemStmt(ExprStmt(Unary(UnaryExpr(Delete, Ident(name, Span(lo + 7, lo + 8)), Span(lo, lo + 8)))))
  }

  lemma DeclareNumFindings(kind: VarDeclKind, name: string, n: int)
    ensures ItemFindings(DeclareNum(kind, name, n)) == []
  {
    VarOfLiteralFindings(kind, name, Num(n));
  }

  lemma DeleteOneFindings(name: string, lo: nat)
    ensures ItemFindings(DeleteOne(name, lo)) == [Report(Span(lo, lo + 8))]
  {
    var u := UnaryExpr(Delete, Ident(name, Span(lo + 7, lo + 8)), Span(lo, lo + 8));
    assert ItemFindings(DeleteOne(name, lo)) == ExprFindings(Unary(u)) == UnaryFindings(u);
  }

  /** `const a = 1; let b = 2; var c = 3;` */
  function DeclareAbc(): seq<ModuleItem> {
    [DeclareNum(Const, "a", 1), DeclareNum(Let, "b", 2), DeclareNum(Var, "c", 3)]
  }

  /** `delete a; delete b; delete c;`, following `DeclareAbc` on one line. */
  function DeleteAbc(): seq<ModuleItem> {
    [DeleteOne("a", 35), DeleteOne("b", 45), DeleteOne("c", 55)]
  }

  lemma DeclaredThenDeletedFindings()
    ensures ProgramFindings(Module(DeclareAbc() + DeleteAbc())) ==
            [Report(Span(35, 43)), Report(Span(45, 53)), Report(Span(55, 63))]
  {
    ItemsFindingsAppend(DeclareAbc(), DeleteAbc());
    ItemsFindingsThree(DeclareNum(Const, "a", 1), DeclareNum(Let, "b", 2), DeclareNum(Var, "c", 3));
    DeclareNumFindings(Const, "a", 1);
    DeclareNumFindings(Let, "b", 2);
    DeclareNumFindings(Var, "c", 3);
    ItemsFindingsThree(DeleteOne("a", 35), DeleteOne("b", 45), DeleteOne("c", 55));
    DeleteOneFindings("a", 35);
    DeleteOneFindings("b", 45);
    DeleteOneFindings("c", 55);
  }

  /** Lints the module `const a = 1; let b = 2; var c = 3; delete a; delete b;
      delete c;`: deleting a variable is reported whatever kind of declaration
      introduced it, one diagnostic per `delete`, in source order. */
  method LintDeclaredThenDeleted() returns (diagnostics: seq<Diagnostic>)
    ensures diagnostics == [Report(Span(35, 43)), Report(Span(45, 53)), Report(Span(55, 63))]
  {
    var context := new Context();
    LintProgram(context, Module(DeclareAbc() + DeleteAbc()));
    diagnostics := context.diagnostics;
    DeclaredThenDeletedFindings();
  }
}

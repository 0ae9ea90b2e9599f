/**
 * The `no-delete-var` lint rule: it reports `delete <identifier>`, deleting a
 * variable binding, and leaves `delete <object>.<property>` and every other
 * unary expression alone.
 */
module NoDeleteVar {
  import opened Ast
  import opened Diagnostics

  const CODE: string := "no-delete-var"

  datatype NoDeleteVarMessage = Unexpected

  datatype NoDeleteVarHint = Remove

  /** The one text each message kind displays as. */
  function MessageText(m: NoDeleteVarMessage): (s: string)
    ensures s == "Variables shouldn't be deleted"
  {
    match m
    case Unexpected => "Variables shouldn't be deleted"
  }

  /** The one text each hint kind displays as. */
  function HintText(h: NoDeleteVarHint): (s: string)
    ensures s == "Remove the deletion statement"
  {
    match h
    case Remove => "Remove the deletion statement"
  }

  /** The rule's permanent diagnostic code. */
  function Code(): (c: string)
    ensures c == "no-delete-var"
  {
    CODE
  }

  /** The rule belongs to the recommended set, and to no other. */
  function Tags(): (t: seq<string>)
    ensures |t| == 1 && t[0] == "recommended"
  {
    ["recommended"]
  }

  /** The diagnostic reported for a deletion of a variable spanning `span`. */
  function Report(span: Span): Diagnostic {
    Diagnostic(span, CODE, MessageText(Unexpected), Some(HintText(Remove)))
  }

  /** `delete <identifier>`: the one shape the rule reports. */
  predicate IsDeleteOfIdent(u: UnaryExpr) {
    u.op == Delete && u.arg.Ident?
  }

  /** What the unary-expression handler reports for `u`. */
  function UnaryFindings(u: UnaryExpr): seq<Diagnostic> {
    if u.op != Delete then []
    else
      match u.arg
      case Ident(_, _) => [Report(u.span)]
      case _ => []
  }

  /*
   * What the visitor reports for each kind of node, in visiting order: a unary
   * expression gets the handler's findings and nothing from its operand; every
   * other node gets its children's findings, left to right; type syntax gets
   * none.
   */

  function ExprFindings(e: Expr): seq<Diagnostic> {
    match e
    case This => []
    case Ident(_, _) => []
    case Literal(_) => []
    case Array(elems) => ExprsFindings(elems)
    case Object(props) => PropsFindings(props)
    case Function(_, _, body) => StmtsFindings(body)
    case Unary(u) => UnaryFindings(u)
    case Update(_, _, target) => ExprFindings(target)
    case Bin(b) => ExprFindings(b.left) + ExprFindings(b.right)
    case Assign(a) => ExprFindings(a.left) + ExprFindings(a.right)
    case Member(m) => ExprFindings(m.obj) + MemberPropFindings(m.prop)
    case Cond(c) => ExprFindings(c.test) + ExprFindings(c.cons) + ExprFindings(c.alt)
    case Call(c) => ExprFindings(c.callee) + ExprsFindings(c.args)
    case Sequence(exprs) => ExprsFindings(exprs)
    case Paren(inner) => ExprFindings(inner)
    case TsAs(expr, _) => ExprFindings(expr)
  }

  function MemberPropFindings(prop: MemberProp): seq<Diagnostic> {
    match prop
    case PropIdent(_) => []
    case Computed(key) => ExprFindings(key)
  }

  function ExprsFindings(es: seq<Expr>): seq<Diagnostic> {
    if es == [] then [] else ExprsFindings(es[..|es| - 1]) + ExprFindings(es[|es| - 1])
  }

  function PropsFindings(ps: seq<Prop>): seq<Diagnostic> {
    if ps == [] then [] else PropsFindings(ps[..|ps| - 1]) + ExprFindings(ps[|ps| - 1].value)
  }

  function OptExprFindings(oe: Option<Expr>): seq<Diagnostic> {
    match oe
    case None => []
    case Some(e) => ExprFindings(e)
  }

  function DeclsFindings(ds: seq<VarDeclarator>): seq<Diagnostic> {
    if ds == [] then [] else DeclsFindings(ds[..|ds| - 1]) + OptExprFindings(ds[|ds| - 1].init)
  }

  function StmtFindings(s: Stmt): seq<Diagnostic> {
    match s
    case Empty => []
    case ExprStmt(expr) => ExprFindings(expr)
    case VarDecl(_, decls) => DeclsFindings(decls)
    case Block(stmts) => StmtsFindings(stmts)
    case If(i) => ExprFindings(i.test) + StmtFindings(i.cons) + OptStmtFindings(i.alt)
    case While(w) => ExprFindings(w.test) + StmtFindings(w.body)
    case Return(arg) => OptExprFindings(arg)
    case FnDecl(_, _, body) => StmtsFindings(body)
  }

  function OptStmtFindings(os: Option<Stmt>): seq<Diagnostic> {
    match os
    case None => []
    case Some(s) => StmtFindings(s)
  }

  function StmtsFindings(ss: seq<Stmt>): seq<Diagnostic> {
    if ss == [] then [] else StmtsFindings(ss[..|ss| - 1]) + StmtFindings(ss[|ss| - 1])
  }

  function ItemFindings(item: ModuleItem): seq<Diagnostic> {
    match item
    case Import(_) => []
    case ExportDefaultExpr(expr) => ExprFindings(expr)
    case ItemStmt(stmt) => StmtFindings(stmt)
  }

  function ItemsFindings(items: seq<ModuleItem>): seq<Diagnostic> {
    if items == [] then [] else ItemsFindings(items[..|items| - 1]) + ItemFindings(items[|items| - 1])
  }

  /** Everything the rule reports for a program. */
  function ProgramFindings(p: Program): seq<Diagnostic> {
    match p
    case Module(items) => ItemsFindings(items)
    case Script(body) => StmtsFindings(body)
  }

  /** The visitor the rule drives over a program; it holds the context it
      reports into. Each method appends to the context what its node's
      findings say, after everything already there. */
  class NoDeleteVarVisitor {
    const context: Context

    constructor (context: Context)
      ensures this.context == context
    {
      this.context := context;
    }

    /** The rule's handler: reports `delete <identifier>` and does not continue
        into the operand. */
    method VisitUnaryExpr(u: UnaryExpr)
      modifies context
      ensures context.diagnostics == old(context.diagnostics) + UnaryFindings(u)
    {
      if u.op != Delete {
        return;
      }
      if u.arg.Ident? {
        context.AddDiagnosticWithHint(u.span, CODE, MessageText(Unexpected), HintText(Remove));
      }
    }

    method VisitExpr(e: Expr)
      modifies context
      ensures context.diagnostics == old(context.diagnostics) + ExprFindings(e)
    {
      match e
      case This =>
      case Ident(_, _) =>
      case Literal(_) =>
      case Array(elems) =>
        VisitExprs(elems);
      case Object(props) =>
        VisitProps(props);
      case Function(_, _, body) =>
        VisitStmts(body);
      case Unary(u) =>
        VisitUnaryExpr(u);
      case Update(_, _, target) =>
        VisitExpr(target);
      case Bin(b) =>
        VisitBinExpr(b);
      case Assign(a) =>
        VisitAssignExpr(a);
      case Member(m) =>
        VisitMemberExpr(m);
      case Cond(c) =>
        VisitCondExpr(c);
      case Call(c) =>
        VisitCallExpr(c);
      case Sequence(exprs) =>
        VisitExprs(exprs);
      case Paren(inner) =>
        VisitExpr(inner);
      case TsAs(expr, _) =>
        VisitExpr(expr);
    }

    method VisitBinExpr(b: BinExpr)
      modifies context
      ensures context.diagnostics == old(context.diagnostics) + ExprFindings(b.left) + ExprFindings(b.right)
    {
      VisitExpr(b.left);
      VisitExpr(b.right);
    }

    method VisitAssignExpr(a: AssignExpr)
      modifies context
      ensures context.diagnostics == old(context.diagnostics) + ExprFindings(a.left) + ExprFindings(a.right)
    {
      VisitExpr(a.left);
      VisitExpr(a.right);
    }

    method VisitMemberExpr(m: MemberExpr)
      modifies context
      ensures context.diagnostics == old(context.diagnostics) + ExprFindings(m.obj) + MemberPropFindings(m.prop)
    {
      VisitExpr(m.obj);
      VisitMemberProp(m.prop);
    }

    method VisitCondExpr(c: CondExpr)
      modifies context
      ensures context.diagnostics ==
              old(context.diagnostics) + ExprFindings(c.test) + ExprFindings(c.cons) + ExprFindings(c.alt)
    {
      VisitExpr(c.test);
      VisitExpr(c.cons);
      VisitExpr(c.alt);
    }

    method VisitCallExpr(c: CallExpr)
      modifies context
      ensures context.diagnostics == old(context.diagnostics) + ExprFindings(c.callee) + ExprsFindings(c.args)
    {
      VisitExpr(c.callee);
      VisitExprs(c.args);
    }

    method VisitMemberProp(prop: MemberProp)
      modifies context
      ensures context.diagnostics == old(context.diagnostics) + MemberPropFindings(prop)
    {
      match prop
      case PropIdent(_) =>
      case Computed(key) =>
        VisitExpr(key);
    }

    method VisitExprs(es: seq<Expr>)
      modifies context
      ensures context.diagnostics == old(context.diagnostics) + ExprsFindings(es)
    {
      var i := 0;
      while i < |es|
        invariant 0 <= i <= |es|
        invariant context.diagnostics == old(context.diagnostics) + ExprsFindings(es[..i])
      {
        assert es[..i + 1][..i] == es[..i];
        VisitExpr(es[i]);
        i := i + 1;
      }
      assert es[..i] == es;
    }

    method VisitProps(ps: seq<Prop>)
      modifies context
      ensures context.diagnostics == old(context.diagnostics) + PropsFindings(ps)
    {
      var i := 0;
      while i < |ps|
        invariant 0 <= i <= |ps|
        invariant context.diagnostics == old(context.diagnostics) + PropsFindings(ps[..i])
      {
        assert ps[..i + 1][..i] == ps[..i];
        VisitExpr(ps[i].value);
        i := i + 1;
      }
      assert ps[..i] == ps;
    }

    method VisitOptExpr(oe: Option<Expr>)
      modifies context
      ensures context.diagnostics == old(context.diagnostics) + OptExprFindings(oe)
    {
      match oe
      case None =>
      case Some(e) =>
        VisitExpr(e);
    }

    method VisitDecls(ds: seq<VarDeclarator>)
      modifies context
      ensures context.diagnostics == old(context.diagnostics) + DeclsFindings(ds)
    {
      var i := 0;
      while i < |ds|
        invariant 0 <= i <= |ds|
        invariant context.diagnostics == old(context.diagnostics) + DeclsFindings(ds[..i])
      {
        assert ds[..i + 1][..i] == ds[..i];
        VisitOptExpr(ds[i].init);
        i := i + 1;
      }
      assert ds[..i] == ds;
    }

    method VisitStmt(s: Stmt)
      modifies context
      ensures context.diagnostics == old(context.diagnostics) + StmtFindings(s)
    {
      match s
      case Empty =>
      case ExprStmt(expr) =>
        VisitExpr(expr);
      case VarDecl(_, decls) =>
        VisitDecls(decls);
      case Block(stmts) =>
        VisitStmts(stmts);
      case If(i) =>
        VisitIfStmt(i);
      case While(w) =>
        VisitWhileStmt(w);
      case Return(arg) =>
        VisitOptExpr(arg);
      case FnDecl(_, _, body) =>
        VisitStmts(body);
    }

    method VisitIfStmt(i: IfStmt)
      modifies context
      ensures context.diagnostics ==
              old(context.diagnostics) + ExprFindings(i.test) + StmtFindings(i.cons) + OptStmtFindings(i.alt)
    {
      VisitExpr(i.test);
      VisitStmt(i.cons);
      VisitOptStmt(i.alt);
    }

    method VisitWhileStmt(w: WhileStmt)
      modifies context
      ensures context.diagnostics == old(context.diagnostics) + ExprFindings(w.test) + StmtFindings(w.body)
    {
      VisitExpr(w.test);
      VisitStmt(w.body);
    }

    method VisitOptStmt(os: Option<Stmt>)
      modifies context
      ensures context.diagnostics == old(context.diagnostics) + OptStmtFindings(os)
    {
      match os
      case None =>
      case Some(s) =>
        VisitStmt(s);
    }

    method VisitStmts(ss: seq<Stmt>)
      modifies context
      ensures context.diagnostics == old(context.diagnostics) + StmtsFindings(ss)
    {
      var i := 0;
      while i < |ss|
        invariant 0 <= i <= |ss|
        invariant context.diagnostics == old(context.diagnostics) + StmtsFindings(ss[..i])
      {
        assert ss[..i + 1][..i] == ss[..i];
        VisitStmt(ss[i]);
        i := i + 1;
      }
      assert ss[..i] == ss;
    }

    method VisitModuleItem(item: ModuleItem)
      modifies context
      ensures context.diagnostics == old(context.diagnostics) + ItemFindings(item)
    {
      match item
      case Import(_) =>
      case ExportDefaultExpr(expr) =>
        VisitExpr(expr);
      case ItemStmt(stmt) =>
        VisitStmt(stmt);
    }

    /** Walks a module's items in order. */
    method VisitModule(items: seq<ModuleItem>)
      modifies context
      ensures context.diagnostics == old(context.diagnostics) + ItemsFindings(items)
    {
      var i := 0;
      while i < |items|
        invariant 0 <= i <= |items|
        invariant context.diagnostics == old(context.diagnostics) + ItemsFindings(items[..i])
      {
        assert items[..i + 1][..i] == items[..i];
        VisitModuleItem(items[i]);
        i := i + 1;
      }
      assert items[..i] == items;
    }

    /** Walks a script's statements in order. */
    method VisitScript(body: seq<Stmt>)
      modifies context
      ensures context.diagnostics == old(context.diagnostics) + StmtsFindings(body)
    {
      VisitStmts(body);
    }
  }

  /** The rule's entry point: binds a visitor to `context` and walks the
      program in whichever of its two shapes it comes. */
  method LintProgram(context: Context, program: Program)
    modifies context
    ensures context.diagnostics == old(context.diagnostics) + ProgramFindings(program)
  {
    var visitor := new NoDeleteVarVisitor(context);
    match program
    case Module(items) =>
      visitor.VisitModule(items);
    case Script(body) =>
      visitor.VisitScript(body);
  }
}

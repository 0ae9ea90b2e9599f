/**
 * The order in which the visitor walk reaches unary expressions. The walk is
 * pre-order and left to right; every node kind except a unary expression
 * continues into its children, type syntax is skipped, and a unary expression
 * is handed to the rule's handler, which does not continue into its operand.
 * Each function below gives, for one kind of node, the sequence of unary
 * expressions handed to that handler, in the order they are handed over.
 *
 * The same walk is also written as the visitor's methods and as the rule's
 * findings functions, which specify those methods. The functions here are
 * the reference that is independent of what the handler does with each
 * unary expression; the rule's properties prove that the findings are the
 * handler's reports for exactly this sequence.
 */
module Traversal {
  import opened Ast

  function ExprUnaries(e: Expr): seq<UnaryExpr> {
    match e
    case This => []
    case Ident(_, _) => []
    case Literal(_) => []
    case Array(elems) => ExprsUnaries(elems)
    case Object(props) => PropsUnaries(props)
    case Function(_, _, body) => StmtsUnaries(body)
    case Unary(u) => [u]
    case Update(_, _, target) => ExprUnaries(target)
    case Bin(b) => ExprUnaries(b.left) + ExprUnaries(b.right)
    case Assign(a) => ExprUnaries(a.left) + ExprUnaries(a.right)
    case Member(m) => ExprUnaries(m.obj) + MemberPropUnaries(m.prop)
    case Cond(c) => ExprUnaries(c.test) + ExprUnaries(c.cons) + ExprUnaries(c.alt)
    case Call(c) => ExprUnaries(c.callee) + ExprsUnaries(c.args)
    case Sequence(exprs) => ExprsUnaries(exprs)
    case Paren(inner) => ExprUnaries(inner)
    case TsAs(expr, _) => ExprUnaries(expr)
  }

  function MemberPropUnaries(prop: MemberProp): seq<UnaryExpr> {
    match prop
    case PropIdent(_) => []
    case Computed(key) => ExprUnaries(key)
  }

  function ExprsUnaries(es: seq<Expr>): seq<UnaryExpr> {
    if es == [] then [] else ExprsUnaries(es[..|es| - 1]) + ExprUnaries(es[|es| - 1])
  }

  function PropsUnaries(ps: seq<Prop>): seq<UnaryExpr> {
    if ps == [] then [] else PropsUnaries(ps[..|ps| - 1]) + ExprUnaries(ps[|ps| - 1].value)
  }

  function OptExprUnaries(oe: Option<Expr>): seq<UnaryExpr> {
    match oe
    case None => []
    case Some(e) => ExprUnaries(e)
  }

  function DeclsUnaries(ds: seq<VarDeclarator>): seq<UnaryExpr> {
    if ds == [] then [] else DeclsUnaries(ds[..|ds| - 1]) + OptExprUnaries(ds[|ds| - 1].init)
  }

  function StmtUnaries(s: Stmt): seq<UnaryExpr> {
    match s
    case Empty => []
    case ExprStmt(expr) => ExprUnaries(expr)
    case VarDecl(_, decls) => DeclsUnaries(decls)
    case Block(stmts) => StmtsUnaries(stmts)
    case If(i) => ExprUnaries(i.test) + StmtUnaries(i.cons) + OptStmtUnaries(i.alt)
    case While(w) => ExprUnaries(w.test) + StmtUnaries(w.body)
    case Return(arg) => OptExprUnaries(arg)
    case FnDecl(_, _, body) => StmtsUnaries(body)
  }

  function OptStmtUnaries(os: Option<Stmt>): seq<UnaryExpr> {
    match os
    case None => []
    case Some(s) => StmtUnaries(s)
  }

  function StmtsUnaries(ss: seq<Stmt>): seq<UnaryExpr> {
    if ss == [] then [] else StmtsUnaries(ss[..|ss| - 1]) + StmtUnaries(ss[|ss| - 1])
  }

  function ItemUnaries(item: ModuleItem): seq<UnaryExpr> {
    match item
    case Import(_) => []
    case ExportDefaultExpr(expr) => ExprUnaries(expr)
    case ItemStmt(stmt) => StmtUnaries(stmt)
  }

  function ItemsUnaries(items: seq<ModuleItem>): seq<UnaryExpr> {
    if items == [] then [] else ItemsUnaries(items[..|items| - 1]) + ItemUnaries(items[|items| - 1])
  }

  function ProgramUnaries(p: Program): seq<UnaryExpr> {
    match p
    case Module(items) => ItemsUnaries(items)
    case Script(body) => StmtsUnaries(body)
  }
}

/**
 * A small abstract syntax tree for the ECMAScript/TypeScript programs the lint
 * rules inspect. It stands in for the parser's tree: only the node kinds needed
 * to place a unary expression anywhere in a program are kept, each with its
 * children in the order the traversal visits them.
 */
module Ast {

  /** A source range as byte offsets [lo, hi). Resolving it to a line and a
      column is done outside the rule. */
  datatype Span = Span(lo: nat, hi: nat)

  /** The unary operators of the language (`-`, `+`, `!`, `~`, `typeof`,
      `void`, `delete`). */
  datatype UnaryOp = Minus | Plus | Bang | Tilde | TypeOf | Void | Delete

  datatype UpdateOp = PlusPlus | MinusMinus

  datatype VarDeclKind = Var | Let | Const

  datatype Lit = Str(str: string) | Num(num: int) | Bool(truth: bool) | Null

  /** Type syntax. It holds no value expressions, and the traversal never
      enters it. */
  datatype TsType =
    | TsKeyword(name: string)
    | TsTypeRef(name: string)
    | TsArrayType(elem: TsType)

  /** A unary expression: an operator, exactly one operand and the span of
      the whole expression. */
  datatype UnaryExpr = UnaryExpr(op: UnaryOp, arg: Expr, span: Span)

  datatype Expr =
    | This
    | Ident(sym: string, span: Span)
    | Literal(lit: Lit)
    | Array(elems: seq<Expr>)
    | Object(props: seq<Prop>)
    | Function(name: string, params: seq<string>, body: seq<Stmt>)
    | Unary(unary: UnaryExpr)
    | Update(updateOp: UpdateOp, prefix: bool, target: Expr)
    | Bin(bin: BinExpr)
    | Assign(assign: AssignExpr)
    | Member(member: MemberExpr)
    | Cond(cond: CondExpr)
    | Call(call: CallExpr)
    | Sequence(exprs: seq<Expr>)
    | Paren(inner: Expr)
    | TsAs(expr: Expr, typeAnn: TsType)

  datatype BinExpr = BinExpr(op: string, left: Expr, right: Expr)

  datatype AssignExpr = AssignExpr(op: string, left: Expr, right: Expr)

  /** A member access: `obj.name` or `obj[key]`. */
  datatype MemberExpr = MemberExpr(obj: Expr, prop: MemberProp)

  /** `test ? cons : alt` */
  datatype CondExpr = CondExpr(test: Expr, cons: Expr, alt: Expr)

  datatype CallExpr = CallExpr(callee: Expr, args: seq<Expr>)

  /** The property of a member access: `obj.name` or `obj[expr]`. */
  datatype MemberProp = PropIdent(name: string) | Computed(key: Expr)

  /** A property of an object literal, `key: value`. */
  datatype Prop = KeyValue(key: string, value: Expr)

  datatype VarDeclarator = VarDeclarator(name: string, typeAnn: Option<TsType>, init: Option<Expr>)

  datatype Stmt =
    | Empty
    | ExprStmt(expr: Expr)
    | VarDecl(kind: VarDeclKind, decls: seq<VarDeclarator>)
    | Block(stmts: seq<Stmt>)
    | If(ifStmt: IfStmt)
    | While(whileStmt: WhileStmt)
    | Return(arg: Option<Expr>)
    | FnDecl(fnName: string, fnParams: seq<string>, fnBody: seq<Stmt>)

  datatype IfStmt = IfStmt(test: Expr, cons: Stmt, alt: Option<Stmt>)

  datatype WhileStmt = WhileStmt(test: Expr, body: Stmt)

  /** A top-level item of a module: an import, `export default <expr>`, or a
      statement. */
  datatype ModuleItem =
    | Import(source: string)
    | ExportDefaultExpr(expr: Expr)
    | ItemStmt(stmt: Stmt)

  /** The two top-level shapes of a parsed program. */
  datatype Program = Module(items: seq<ModuleItem>) | Script(body: seq<Stmt>)

  datatype Option<+T> = None | Some(value: T)
}

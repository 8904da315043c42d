/** The syntax-node catalogue the folder walks over, reduced to a representative
    subset of the compiler's abstract syntax: token trees and interpolated
    fragments, paths, lifetimes, meta-items and attributes, types, patterns,
    expressions, statements, declarations, blocks, items, modules and the crate.

    Every node that carries an identity has a `NodeId`; every node that carries
    a source range has a `Span`. Tokens live in this module too, because a token
    can hold an already-parsed fragment (`Interpolated`), which can hold any
    node, which can hold a macro invocation, which holds tokens again: the whole
    family is one cluster of mutually recursive datatypes.

    Variant names follow the compiler's older prefixed spelling (`ExprBox`,
    `PatWild`, `TyPath`, `ItemFn`, `StmtDecl`) so that each constructor name is
    unambiguous across the family. */
module Ast {
  import opened Wrappers

  /** Identity tag of a node. */
  type NodeId = nat

  /** The identity given to nodes that have none yet, `!0` as a 32-bit value. */
  const DummyNodeId: NodeId := 0xFFFF_FFFF

  /** A source range. */
  datatype Span = Span(lo: nat, hi: nat)

  /** An identifier: an interned name plus its hygiene context. */
  datatype Ident = Ident(name: string, ctxt: nat)

  /** The identifier `special_idents::invalid`, with the empty name. */
  const InvalidIdent: Ident := Ident("", 0)

  /** An identifier with the span of its occurrence. */
  datatype SpIdent = SpIdent(node: Ident, span: Span)

  // ---------------------------------------------------------------- tokens

  /** Whether an identifier token is followed by `::`. */
  datatype IdentStyle = ModName | Plain

  datatype DelimToken = Paren | Bracket | Brace | NoDelim

  /** The repetition operator of a `$( ... )` group: `*` or `+`. */
  datatype KleeneOp = ZeroOrMore | OneOrMore

  datatype Token =
    | IdentTok(id: Ident, style: IdentStyle)
    | LifetimeTok(lifetime: Ident)
    | Interpolated(nt: Nonterminal)
    /** `$x` in a macro template. */
    | SubstNt(ident: Ident, identStyle: IdentStyle)
    /** `$x:kind` in a macro pattern. */
    | MatchNt(name: Ident, kind: Ident, nameStyle: IdentStyle, kindStyle: IdentStyle)
    /** Every fixed-symbol token: `=`, `::`, `$`, `=>`, `,`, `;`, ... */
    | Punct(sym: string)
    | Literal(text: string)
    | DocComment(doc: string)

  datatype TokenTree =
    | TtToken(span: Span, tok: Token)
    | TtDelimited(span: Span, delimited: Delimited)
    | TtSequence(span: Span, rep: SequenceRepetition)

  datatype Delimited = Delimited(delim: DelimToken, openSpan: Span, tts: seq<TokenTree>, closeSpan: Span)

  datatype SequenceRepetition =
    SequenceRepetition(tts: seq<TokenTree>, separator: Option<Token>, op: KleeneOp, numCaptures: nat)

  /** An already-parsed fragment embedded in a token stream. */
  datatype Nonterminal =
    | NtItem(item: Item)
    | NtBlock(block: Block)
    | NtStmt(stmt: Stmt)
    | NtPat(pat: Pat)
    | NtExpr(expr: Expr)
    | NtTy(ty: Ty)
    | NtIdent(ident: SpIdent, style: IdentStyle)
    | NtMeta(meta: MetaItem)
    | NtPath(path: Path)
    | NtTT(tt: TokenTree)
    | NtArm(arm: Arm)
    | NtImplItem(implItem: ImplItem)
    | NtTraitItem(traitItem: TraitItem)
    | NtGenerics(generics: Generics)
    | NtArg(arg: Arg)

  /** A macro invocation `path!(tts)`; `ctxt` is its hygiene context. */
  datatype Mac = Mac(path: Path, tts: seq<TokenTree>, ctxt: nat, span: Span)

  // ------------------------------------------------- paths and lifetimes

  datatype Path = Path(global: bool, segments: seq<PathSegment>, span: Span)

  datatype PathSegment = PathSegment(identifier: Ident, parameters: PathParameters)

  datatype PathParameters =
    | AngleBracketed(lifetimes: seq<Lifetime>, types: seq<Ty>)
    | Parenthesized(inputs: seq<Ty>, output: Option<Ty>, span: Span)

  datatype Lifetime = Lifetime(id: NodeId, name: string, span: Span)

  datatype LifetimeDef = LifetimeDef(lifetime: Lifetime, bounds: seq<Lifetime>)

  // ------------------------------------------ literals, meta items, attributes

  datatype LitKind = LitStr(s: string) | LitInt(n: int) | LitBool(b: bool)

  datatype Lit = Lit(node: LitKind, span: Span)

  datatype MetaItemKind =
    | Word(name: string)
    | List(listName: string, items: seq<MetaItem>)
    | NameValue(nvName: string, value: Lit)

  datatype MetaItem = MetaItem(node: MetaItemKind, span: Span)

  datatype AttrStyle = Outer | Inner

  datatype Attribute = Attribute(id: nat, style: AttrStyle, value: MetaItem, isSugaredDoc: bool, span: Span)

  // ---------------------------------------------------------------- types

  datatype Mutability = Mutable | Immutable

  datatype MutTy = MutTy(ty: Ty, mutbl: Mutability)

  /** The `<T as Trait>` qualifier of a qualified path. */
  datatype QSelf = QSelf(ty: Ty, position: nat)

  datatype Ty = Ty(id: NodeId, node: TyKind, span: Span)

  datatype TyKind =
    | TyInfer
    | TyVec(elem: Ty)
    | TyPtr(mt: MutTy)
    | TyRptr(region: Option<Lifetime>, mt: MutTy)
    | TyTup(tys: seq<Ty>)
    | TyParen(inner: Ty)
    | TyPath(qself: Option<QSelf>, path: Path)
    | TyFixedLengthVec(elem: Ty, len: Expr)
    | TyTypeof(expr: Expr)
    | TyMac(mac: Mac)

  // ------------------------------------------------------------- patterns

  datatype BindingMode = ByRef(m: Mutability) | ByValue(m: Mutability)

  datatype FieldPat = FieldPat(ident: Ident, pat: Pat, isShorthand: bool, span: Span)

  datatype Pat = Pat(id: NodeId, node: PatKind, span: Span)

  /** The sub-patterns of a tuple-struct pattern: `S(..)` has none listed
      (the compiler's `None`), `S(p, q)` lists them. */
  datatype TupleStructPats = Elided | Listed(pats: seq<Pat>)

  datatype PatKind =
    | PatWild
    | PatIdent(mode: BindingMode, name: SpIdent, sub: Option<Pat>)
    | PatLit(lit: Expr)
    | PatTupleStruct(path: Path, pats: TupleStructPats)
    | PatPath(path: Path)
    | PatStruct(path: Path, fields: seq<FieldPat>, etc: bool)
    | PatTup(elts: seq<Pat>)
    | PatBox(inner: Pat)
    | PatRef(inner: Pat, mutbl: Mutability)
    | PatRange(lo: Expr, hi: Expr)
    | PatMac(mac: Mac)

  // ---------------------------------------------------------- expressions

  datatype BinOpKind = Add | Sub | Mul | Div | And | Or | Eq | Lt | Gt

  datatype BinOp = BinOp(kind: BinOpKind, span: Span)

  datatype UnOp = Deref | Not | Neg

  datatype CaptureBy = CaptureByValue | CaptureByRef

  datatype Field = Field(ident: SpIdent, expr: Expr, span: Span)

  datatype Arm = Arm(attrs: seq<Attribute>, pats: seq<Pat>, guard: Option<Expr>, body: Expr)

  datatype Expr = Expr(id: NodeId, node: ExprKind, span: Span, attrs: seq<Attribute>)

  datatype ExprKind =
    | ExprBox(inner: Expr)
    | ExprVec(elems: seq<Expr>)
    | ExprTup(elems: seq<Expr>)
    | ExprCall(callee: Expr, args: seq<Expr>)
    | ExprMethodCall(name: SpIdent, tps: seq<Ty>, args: seq<Expr>)
    | ExprBinary(op: BinOp, lhs: Expr, rhs: Expr)
    | ExprUnary(unop: UnOp, inner: Expr)
    | ExprLit(lit: Lit)
    | ExprCast(inner: Expr, ty: Ty)
    | ExprIf(cond: Expr, thenBlock: Block, elseExpr: Option<Expr>)
    | ExprWhile(cond: Expr, body: Block, loopLabel: Option<Ident>)
    | ExprLoop(body: Block, loopLabel: Option<Ident>)
    | ExprMatch(scrutinee: Expr, arms: seq<Arm>)
    | ExprClosure(capture: CaptureBy, decl: FnDecl, body: Block)
    | ExprBlock(block: Block)
    | ExprAssign(lhs: Expr, rhs: Expr)
    | ExprField(inner: Expr, field: SpIdent)
    | ExprIndex(lhs: Expr, rhs: Expr)
    | ExprPath(qself: Option<QSelf>, path: Path)
    | ExprBreak(target: Option<SpIdent>)
    | ExprAgain(target: Option<SpIdent>)
    | ExprRet(value: Option<Expr>)
    | ExprMac(mac: Mac)
    | ExprStruct(path: Path, fields: seq<Field>, base: Option<Expr>)
    | ExprParen(inner: Expr)

  // ------------------------------------------ statements, declarations, blocks

  datatype BlockCheckMode = DefaultBlock | UnsafeBlock

  datatype Block = Block(id: NodeId, stmts: seq<Stmt>, expr: Option<Expr>, rules: BlockCheckMode, span: Span)

  datatype Local = Local(id: NodeId, pat: Pat, ty: Option<Ty>, init: Option<Expr>, span: Span, attrs: seq<Attribute>)

  datatype DeclKind = DeclLocal(local: Local) | DeclItem(item: Item)

  datatype Decl = Decl(node: DeclKind, span: Span)

  datatype MacStmtStyle = MacStmtWithSemicolon | MacStmtWithBraces | MacStmtWithoutBraces

  datatype StmtKind =
    | StmtDecl(decl: Decl, id: NodeId)
    | StmtExpr(expr: Expr, id: NodeId)
    | StmtSemi(expr: Expr, id: NodeId)
    | StmtMac(mac: Mac, style: MacStmtStyle, attrs: seq<Attribute>)

  datatype Stmt = Stmt(node: StmtKind, span: Span)

  // ---------------------------------------------------------------- items

  datatype Visibility = Public | Inherited

  datatype Unsafety = Unsafe | Normal

  datatype Constness = Const | NotConst

  datatype ImplPolarity = Positive | Negative

  datatype Defaultness = Default | Final

  datatype Arg = Arg(id: NodeId, pat: Pat, ty: Ty)

  datatype FunctionRetTy = RetTy(ty: Ty) | RetDefault(span: Span) | RetNone(span: Span)

  datatype FnDecl = FnDecl(inputs: seq<Arg>, output: FunctionRetTy, variadic: bool)

  datatype TyParam = TyParam(id: NodeId, ident: Ident, defaultTy: Option<Ty>, span: Span)

  datatype Generics = Generics(tyParams: seq<TyParam>, lifetimes: seq<LifetimeDef>)

  datatype TraitRef = TraitRef(path: Path, refId: NodeId)

  datatype MethodSig = MethodSig(generics: Generics, abi: string, unsafety: Unsafety, constness: Constness, decl: FnDecl)

  datatype TraitItemKind =
    | TraitConst(ty: Ty, defaultExpr: Option<Expr>)
    | TraitMethod(sig: MethodSig, body: Option<Block>)
    | TraitType(defaultTy: Option<Ty>)

  datatype TraitItem = TraitItem(id: NodeId, ident: Ident, attrs: seq<Attribute>, node: TraitItemKind, span: Span)

  datatype ImplItemKind =
    | ImplConst(ty: Ty, expr: Expr)
    | ImplMethod(sig: MethodSig, body: Block)
    | ImplType(ty: Ty)
    | ImplMacro(mac: Mac)

  datatype ImplItem =
    ImplItem(id: NodeId, ident: Ident, vis: Visibility, defaultness: Defaultness,
             attrs: seq<Attribute>, node: ImplItemKind, span: Span)

  datatype Mod = Mod(inner: Span, items: seq<Item>)

  datatype ItemKind =
    | ItemExternCrate(original: Option<string>)
    | ItemStatic(ty: Ty, mutbl: Mutability, expr: Expr)
    | ItemConst(ty: Ty, expr: Expr)
    | ItemFn(decl: FnDecl, unsafety: Unsafety, constness: Constness, abi: string, generics: Generics, body: Block)
    | ItemMod(contents: Mod)
    | ItemTy(ty: Ty, generics: Generics)
    | ItemImpl(unsafety: Unsafety, polarity: ImplPolarity, generics: Generics,
               ifce: Option<TraitRef>, ty: Ty, implItems: seq<ImplItem>)
    | ItemTrait(unsafety: Unsafety, generics: Generics, traitItems: seq<TraitItem>)
    | ItemMac(mac: Mac)

  datatype Item = Item(id: NodeId, ident: Ident, attrs: seq<Attribute>, node: ItemKind, vis: Visibility, span: Span)

  // ---------------------------------------------------------------- crate

  /** A `macro_rules!` definition exported from the crate. */
  datatype MacroDef = MacroDef(ident: Ident, attrs: seq<Attribute>, id: NodeId, span: Span, exported: bool, body: seq<TokenTree>)

  datatype Crate = Crate(root: Mod, attrs: seq<Attribute>, config: seq<MetaItem>, exportedMacros: seq<MacroDef>, span: Span)
}

/** The default AST-to-AST fold.

    A `Folder` is a record of override points. The leaf hooks are `newId`
    (every identity), `newSpan` (every span that is rewritten) and `foldIdent`
    (every identifier position that is rewritten). `foldsMacros` says whether
    `fold_mac` has been overridden with `noop_fold_mac`; by default it has not,
    and folding a macro invocation is fatal. The arity hooks say what a custom
    `fold_item`, `fold_impl_item`, `fold_trait_item`, `fold_stmt`, `fold_decl`,
    `fold_opt_expr` and `fold_attribute` make of each result of the stock fold:
    zero, one or many nodes (an `Option` for the last two). `implPrettyName`
    is the external naming function for `impl` blocks; it is not an override
    point, only an input.

    Each `NoopFoldX` is the stock recursion for one kind, calling back into the
    override points for its children. `FoldX` exists for the kinds that have an
    arity hook; for every other kind the model calls the stock recursion
    directly, since no other override is modelled.

    A fatal check (a `panic!` or `expect_one` in the compiler) is a `Failure`;
    list folds stop at the first failing element. */
module Fold {
  import opened Wrappers
  import opened Ast
  import opened MoveMap

  /** The fragment kinds whose fold may change arity but whose slot in an
      interpolated token holds exactly one node. */
  datatype FragmentKind = ItemFragment | StmtFragment | ImplItemFragment | TraitItemFragment

  datatype FoldError =
    /** "fold_mac disabled by default" */
    | MacFoldDisabled
    /** "expected fold to produce exactly one item/statement" */
    | ExpectedOne(fragment: FragmentKind)
    /** "a crate cannot expand to more than one item" */
    | CrateExpandsToMany
    /** "fold converted a module to not a module" */
    | NotAModule

  type FoldResult<T> = Result<T, FoldError>

  datatype Folder = Folder(
    newId: NodeId -> NodeId,
    newSpan: Span -> Span,
    foldIdent: Ident -> Ident,
    foldsMacros: bool,
    expandItem: Item -> seq<Item>,
    expandImplItem: ImplItem -> seq<ImplItem>,
    expandTraitItem: TraitItem -> seq<TraitItem>,
    expandStmt: Stmt -> seq<Stmt>,
    expandDecl: Decl -> seq<Decl>,
    keepExpr: Expr -> Option<Expr>,
    keepAttribute: Attribute -> Option<Attribute>,
    implPrettyName: (Option<TraitRef>, Ty) -> Ident)

  /** A folder that overrides nothing: identities, spans and identifiers are
      kept, every arity hook keeps its node, and macro folding is disabled. */
  function DefaultFolder(implPrettyName: (Option<TraitRef>, Ty) -> Ident): (fld: Folder)
    ensures !fld.foldsMacros
  {
    Folder(
      i => i, sp => sp, id => id, false,
      it => [it], ii => [ii], ti => [ti], s => [s], d => [d],
      e => Some(e), a => Some(a),
      implPrettyName)
  }

  /** The same folder with `fold_mac` overridden by `noop_fold_mac`. */
  function WithMacroFolding(fld: Folder): (r: Folder)
    ensures r.foldsMacros
  {
    fld.(foldsMacros := true)
  }

  /** The hook's results for every default result, spliced in order. */
  function ExpandAll<T>(hook: T -> seq<T>, xs: seq<T>): seq<T>
  {
    Concat(seq(|xs|, k requires 0 <= k < |xs| => hook(xs[k])))
  }

  // ------------------------------------------ meta items, attributes, lifetimes

  function NoopFoldMetaItem(fld: Folder, mi: MetaItem): MetaItem
    decreases mi
  {
    var node := match mi.node
      case Word(name) => Word(name)
      case List(name, mis) => List(name, seq(|mis|, i requires 0 <= i < |mis| => NoopFoldMetaItem(fld, mis[i])))
      case NameValue(name, value) => NameValue(name, value);
    MetaItem(node, fld.newSpan(mi.span))
  }

  function FoldMetaItems(fld: Folder, mis: seq<MetaItem>): seq<MetaItem>
  {
    seq(|mis|, i requires 0 <= i < |mis| => NoopFoldMetaItem(fld, mis[i]))
  }

  function NoopFoldAttribute(fld: Folder, at: Attribute): Option<Attribute>
  {
    Some(Attribute(at.id, at.style, NoopFoldMetaItem(fld, at.value), at.isSugaredDoc, fld.newSpan(at.span)))
  }

  function FoldAttribute(fld: Folder, at: Attribute): Option<Attribute>
  {
    match NoopFoldAttribute(fld, at)
    case None => None
    case Some(a) => fld.keepAttribute(a)
  }

  function FoldAttrs(fld: Folder, attrs: seq<Attribute>): seq<Attribute>
  {
    Concat(seq(|attrs|, i requires 0 <= i < |attrs| => FoldAttribute(fld, attrs[i]).ToSeq()))
  }

  function NoopFoldLifetime(fld: Folder, l: Lifetime): Lifetime
  {
    Lifetime(fld.newId(l.id), l.name, fld.newSpan(l.span))
  }

  function FoldLifetimes(fld: Folder, lts: seq<Lifetime>): seq<Lifetime>
  {
    seq(|lts|, i requires 0 <= i < |lts| => NoopFoldLifetime(fld, lts[i]))
  }

  function NoopFoldLifetimeDef(fld: Folder, l: LifetimeDef): LifetimeDef
  {
    LifetimeDef(NoopFoldLifetime(fld, l.lifetime), FoldLifetimes(fld, l.bounds))
  }

  function FoldLifetimeDefs(fld: Folder, lts: seq<LifetimeDef>): seq<LifetimeDef>
  {
    seq(|lts|, i requires 0 <= i < |lts| => NoopFoldLifetimeDef(fld, lts[i]))
  }

  function NoopFoldOptLifetime(fld: Folder, o: Option<Lifetime>): Option<Lifetime>
  {
    match o
    case None => None
    case Some(l) => Some(NoopFoldLifetime(fld, l))
  }

  // ---------------------------------------------------------------- macros

  function FoldMac(fld: Folder, mac: Mac): FoldResult<Mac>
    decreases mac, 1
  {
    if fld.foldsMacros then NoopFoldMac(fld, mac) else Failure(MacFoldDisabled)
  }

  function NoopFoldMac(fld: Folder, mac: Mac): FoldResult<Mac>
    decreases mac, 0
  {
    var path :- NoopFoldPath(fld, mac.path);
    var tts :- FoldTts(fld, mac.tts);
    Success(Mac(path, tts, mac.ctxt, fld.newSpan(mac.span)))
  }

  // ------------------------------------------------------------ token trees

  function NoopFoldTt(fld: Folder, tt: TokenTree): FoldResult<TokenTree>
    decreases tt
  {
    match tt
    case TtToken(span, tok) =>
      var tok' :- NoopFoldToken(fld, tok);
      Success(TtToken(span, tok'))
    case TtDelimited(span, d) =>
      var tts :- FoldTts(fld, d.tts);
      Success(TtDelimited(span, Delimited(d.delim, d.openSpan, tts, d.closeSpan)))
    case TtSequence(span, rep) =>
      var tts :- FoldTts(fld, rep.tts);
      var separator :- (match rep.separator
        case None => Success(None)
        case Some(tok) => var tok' :- NoopFoldToken(fld, tok); Success(Some(tok')));
      Success(TtSequence(span, rep.(tts := tts, separator := separator)))
  }

  function FoldTts(fld: Folder, tts: seq<TokenTree>): FoldResult<seq<TokenTree>>
    decreases tts
  {
    Collect(seq(|tts|, i requires 0 <= i < |tts| => NoopFoldTt(fld, tts[i])))
  }

  function NoopFoldToken(fld: Folder, t: Token): FoldResult<Token>
    decreases t
  {
    match t
    case IdentTok(id, style) => Success(IdentTok(fld.foldIdent(id), style))
    case LifetimeTok(id) => Success(LifetimeTok(fld.foldIdent(id)))
    case Interpolated(nt) =>
      var nt' :- NoopFoldInterpolated(fld, nt);
      Success(Interpolated(nt'))
    case SubstNt(ident, style) => Success(SubstNt(fld.foldIdent(ident), style))
    case MatchNt(name, kind, nameStyle, kindStyle) =>
      Success(MatchNt(fld.foldIdent(name), fld.foldIdent(kind), nameStyle, kindStyle))
    case _ => Success(t)
  }

  function NoopFoldInterpolated(fld: Folder, nt: Nonterminal): FoldResult<Nonterminal>
    decreases nt
  {
    match nt
    case NtItem(item) =>
      var items :- FoldItem(fld, item);
      if |items| == 1 then Success(NtItem(items[0])) else Failure(ExpectedOne(ItemFragment))
    case NtBlock(block) =>
      var block' :- NoopFoldBlock(fld, block);
      Success(NtBlock(block'))
    case NtStmt(stmt) =>
      var stmts :- FoldStmt(fld, stmt);
      if |stmts| == 1 then Success(NtStmt(stmts[0])) else Failure(ExpectedOne(StmtFragment))
    case NtPat(pat) =>
      var pat' :- NoopFoldPat(fld, pat);
      Success(NtPat(pat'))
    case NtExpr(expr) =>
      var expr' :- NoopFoldExpr(fld, expr);
      Success(NtExpr(expr'))
    case NtTy(ty) =>
      var ty' :- NoopFoldTy(fld, ty);
      Success(NtTy(ty'))
    case NtIdent(id, style) => Success(NtIdent(id.(node := fld.foldIdent(id.node)), style))
    case NtMeta(mi) => Success(NtMeta(NoopFoldMetaItem(fld, mi)))
    case NtPath(path) =>
      var path' :- NoopFoldPath(fld, path);
      Success(NtPath(path'))
    case NtTT(tt) =>
      var tt' :- NoopFoldTt(fld, tt);
      Success(NtTT(tt'))
    case NtArm(arm) =>
      var arm' :- NoopFoldArm(fld, arm);
      Success(NtArm(arm'))
    case NtImplItem(ii) =>
      var iis :- FoldImplItem(fld, ii);
      if |iis| == 1 then Success(NtImplItem(iis[0])) else Failure(ExpectedOne(ImplItemFragment))
    case NtTraitItem(ti) =>
      var tis :- FoldTraitItem(fld, ti);
      if |tis| == 1 then Success(NtTraitItem(tis[0])) else Failure(ExpectedOne(TraitItemFragment))
    case NtGenerics(g) =>
      var g' :- NoopFoldGenerics(fld, g);
      Success(NtGenerics(g'))
    case NtArg(arg) =>
      var arg' :- NoopFoldArg(fld, arg);
      Success(NtArg(arg'))
  }

  // ------------------------------------------------------------------ paths

  function NoopFoldPath(fld: Folder, p: Path): FoldResult<Path>
    decreases p
  {
    var segments :- FoldSegments(fld, p.segments);
    Success(Path(p.global, segments, fld.newSpan(p.span)))
  }

  function FoldSegments(fld: Folder, segs: seq<PathSegment>): FoldResult<seq<PathSegment>>
    decreases segs
  {
    Collect(seq(|segs|, i requires 0 <= i < |segs| => NoopFoldPathSegment(fld, segs[i])))
  }

  function NoopFoldPathSegment(fld: Folder, seg: PathSegment): FoldResult<PathSegment>
    decreases seg
  {
    var parameters :- NoopFoldPathParameters(fld, seg.parameters);
    Success(PathSegment(fld.foldIdent(seg.identifier), parameters))
  }

  function NoopFoldPathParameters(fld: Folder, pp: PathParameters): FoldResult<PathParameters>
    decreases pp
  {
    match pp
    case AngleBracketed(lifetimes, types) =>
      var types' :- FoldTys(fld, types);
      Success(AngleBracketed(FoldLifetimes(fld, lifetimes), types'))
    case Parenthesized(inputs, output, span) =>
      var inputs' :- FoldTys(fld, inputs);
      var output' :- FoldTyOption(fld, output);
      Success(Parenthesized(inputs', output', fld.newSpan(span)))
  }

  // ------------------------------------------------------------------ types

  function NoopFoldTy(fld: Folder, t: Ty): FoldResult<Ty>
    decreases t
  {
    var node :- NoopFoldTyKind(fld, t.node);
    Success(Ty(fld.newId(t.id), node, fld.newSpan(t.span)))
  }

  function NoopFoldTyKind(fld: Folder, k: TyKind): FoldResult<TyKind>
    decreases k
  {
    match k
    case TyInfer => Success(k)
    case TyVec(elem) =>
      var elem' :- NoopFoldTy(fld, elem);
      Success(TyVec(elem'))
    case TyPtr(mt) =>
      var mt' :- NoopFoldMt(fld, mt);
      Success(TyPtr(mt'))
    case TyRptr(region, mt) =>
      var mt' :- NoopFoldMt(fld, mt);
      Success(TyRptr(NoopFoldOptLifetime(fld, region), mt'))
    case TyTup(tys) =>
      var tys' :- FoldTys(fld, tys);
      Success(TyTup(tys'))
    case TyParen(inner) =>
      var inner' :- NoopFoldTy(fld, inner);
      Success(TyParen(inner'))
    case TyPath(qself, path) =>
      var qself' :- FoldQSelfOption(fld, qself);
      var path' :- NoopFoldPath(fld, path);
      Success(TyPath(qself', path'))
    case TyFixedLengthVec(elem, len) =>
      var elem' :- NoopFoldTy(fld, elem);
      var len' :- NoopFoldExpr(fld, len);
      Success(TyFixedLengthVec(elem', len'))
    case TyTypeof(expr) =>
      var expr' :- NoopFoldExpr(fld, expr);
      Success(TyTypeof(expr'))
    case TyMac(mac) =>
      var mac' :- FoldMac(fld, mac);
      Success(TyMac(mac'))
  }

  function NoopFoldMt(fld: Folder, mt: MutTy): FoldResult<MutTy>
    decreases mt
  {
    var ty :- NoopFoldTy(fld, mt.ty);
    Success(MutTy(ty, mt.mutbl))
  }

  function FoldQSelfOption(fld: Folder, q: Option<QSelf>): FoldResult<Option<QSelf>>
    decreases q
  {
    match q
    case None => Success(None)
    case Some(qs) =>
      var ty :- NoopFoldTy(fld, qs.ty);
      Success(Some(QSelf(ty, qs.position)))
  }

  function FoldTys(fld: Folder, tys: seq<Ty>): FoldResult<seq<Ty>>
    decreases tys
  {
    Collect(seq(|tys|, i requires 0 <= i < |tys| => NoopFoldTy(fld, tys[i])))
  }

  function FoldTyOption(fld: Folder, o: Option<Ty>): FoldResult<Option<Ty>>
    decreases o
  {
    match o
    case None => Success(None)
    case Some(t) =>
      var t' :- NoopFoldTy(fld, t);
      Success(Some(t'))
  }

  // ------------------------------------------- function signatures, generics

  function NoopFoldArg(fld: Folder, a: Arg): FoldResult<Arg>
    decreases a
  {
    var pat :- NoopFoldPat(fld, a.pat);
    var ty :- NoopFoldTy(fld, a.ty);
    Success(Arg(fld.newId(a.id), pat, ty))
  }

  function FoldArgs(fld: Folder, args: seq<Arg>): FoldResult<seq<Arg>>
    decreases args
  {
    Collect(seq(|args|, i requires 0 <= i < |args| => NoopFoldArg(fld, args[i])))
  }

  function NoopFoldFnDecl(fld: Folder, d: FnDecl): FoldResult<FnDecl>
    decreases d
  {
    var inputs :- FoldArgs(fld, d.inputs);
    var output :- (match d.output
      case RetTy(ty) => var ty' :- NoopFoldTy(fld, ty); Success(RetTy(ty'))
      case RetDefault(span) => Success(RetDefault(span))
      case RetNone(span) => Success(RetNone(span)));
    Success(FnDecl(inputs, output, d.variadic))
  }

  function NoopFoldTyParam(fld: Folder, tp: TyParam): FoldResult<TyParam>
    decreases tp
  {
    var defaultTy :- FoldTyOption(fld, tp.defaultTy);
    Success(TyParam(fld.newId(tp.id), tp.ident, defaultTy, tp.span))
  }

  function FoldTyParams(fld: Folder, tps: seq<TyParam>): FoldResult<seq<TyParam>>
    decreases tps
  {
    Collect(seq(|tps|, i requires 0 <= i < |tps| => NoopFoldTyParam(fld, tps[i])))
  }

  function NoopFoldGenerics(fld: Folder, g: Generics): FoldResult<Generics>
    decreases g
  {
    var tyParams :- FoldTyParams(fld, g.tyParams);
    Success(Generics(tyParams, FoldLifetimeDefs(fld, g.lifetimes)))
  }

  function NoopFoldTraitRef(fld: Folder, t: TraitRef): FoldResult<TraitRef>
    decreases t
  {
    var id := fld.newId(t.refId);
    var path :- NoopFoldPath(fld, t.path);
    Success(TraitRef(path, id))
  }

  function FoldTraitRefOption(fld: Folder, o: Option<TraitRef>): FoldResult<Option<TraitRef>>
    decreases o
  {
    match o
    case None => Success(None)
    case Some(t) =>
      var t' :- NoopFoldTraitRef(fld, t);
      Success(Some(t'))
  }

  function NoopFoldMethodSig(fld: Folder, sig: MethodSig): FoldResult<MethodSig>
    decreases sig
  {
    var generics :- NoopFoldGenerics(fld, sig.generics);
    var decl :- NoopFoldFnDecl(fld, sig.decl);
    Success(MethodSig(generics, sig.abi, sig.unsafety, sig.constness, decl))
  }

  // --------------------------------------------------------------- patterns

  function NoopFoldPat(fld: Folder, p: Pat): FoldResult<Pat>
    decreases p
  {
    var node :- NoopFoldPatKind(fld, p.node);
    Success(Pat(fld.newId(p.id), node, fld.newSpan(p.span)))
  }

  function NoopFoldPatKind(fld: Folder, k: PatKind): FoldResult<PatKind>
    decreases k
  {
    match k
    case PatWild => Success(PatWild)
    case PatIdent(mode, name, sub) =>
      var sub' :- FoldPatOption(fld, sub);
      Success(PatIdent(mode, SpIdent(fld.foldIdent(name.node), fld.newSpan(name.span)), sub'))
    case PatLit(e) =>
      var e' :- NoopFoldExpr(fld, e);
      Success(PatLit(e'))
    case PatTupleStruct(path, pats) =>
      var path' :- NoopFoldPath(fld, path);
      var pats' :- (match pats
        case Elided => Success(Elided)
        case Listed(ps) => var ps' :- FoldPats(fld, ps); Success(Listed(ps')));
      Success(PatTupleStruct(path', pats'))
    case PatPath(path) =>
      var path' :- NoopFoldPath(fld, path);
      Success(PatPath(path'))
    case PatStruct(path, fields, etc) =>
      var path' :- NoopFoldPath(fld, path);
      var fields' :- FoldFieldPats(fld, fields);
      Success(PatStruct(path', fields', etc))
    case PatTup(elts) =>
      var elts' :- FoldPats(fld, elts);
      Success(PatTup(elts'))
    case PatBox(inner) =>
      var inner' :- NoopFoldPat(fld, inner);
      Success(PatBox(inner'))
    case PatRef(inner, mutbl) =>
      var inner' :- NoopFoldPat(fld, inner);
      Success(PatRef(inner', mutbl))
    case PatRange(lo, hi) =>
      var lo' :- NoopFoldExpr(fld, lo);
      var hi' :- NoopFoldExpr(fld, hi);
      Success(PatRange(lo', hi'))
    case PatMac(mac) =>
      var mac' :- FoldMac(fld, mac);
      Success(PatMac(mac'))
  }

  /** A struct-pattern field: its name is kept as it is, only its span and
      sub-pattern are folded. */
  function NoopFoldFieldPat(fld: Folder, f: FieldPat): FoldResult<FieldPat>
    decreases f
  {
    var pat :- NoopFoldPat(fld, f.pat);
    Success(FieldPat(f.ident, pat, f.isShorthand, fld.newSpan(f.span)))
  }

  function FoldFieldPats(fld: Folder, fs: seq<FieldPat>): FoldResult<seq<FieldPat>>
    decreases fs
  {
    Collect(seq(|fs|, i requires 0 <= i < |fs| => NoopFoldFieldPat(fld, fs[i])))
  }

  function FoldPats(fld: Folder, ps: seq<Pat>): FoldResult<seq<Pat>>
    decreases ps
  {
    Collect(seq(|ps|, i requires 0 <= i < |ps| => NoopFoldPat(fld, ps[i])))
  }

  function FoldPatOption(fld: Folder, o: Option<Pat>): FoldResult<Option<Pat>>
    decreases o
  {
    match o
    case None => Success(None)
    case Some(p) =>
      var p' :- NoopFoldPat(fld, p);
      Success(Some(p'))
  }

  // ------------------------------------------------------------ expressions

  function NoopFoldExpr(fld: Folder, e: Expr): FoldResult<Expr>
    decreases e, 0
  {
    var node :- NoopFoldExprKind(fld, e.node);
    Success(Expr(fld.newId(e.id), node, fld.newSpan(e.span), FoldAttrs(fld, e.attrs)))
  }

  function NoopFoldExprKind(fld: Folder, k: ExprKind): FoldResult<ExprKind>
    decreases k
  {
    match k
    case ExprBox(inner) =>
      var inner' :- NoopFoldExpr(fld, inner);
      Success(ExprBox(inner'))
    case ExprVec(elems) =>
      var elems' :- NoopFoldExprs(fld, elems);
      Success(ExprVec(elems'))
    case ExprTup(elems) =>
      var elems' :- NoopFoldExprs(fld, elems);
      Success(ExprTup(elems'))
    case ExprCall(callee, args) =>
      var callee' :- NoopFoldExpr(fld, callee);
      var args' :- NoopFoldExprs(fld, args);
      Success(ExprCall(callee', args'))
    case ExprMethodCall(name, tps, args) =>
      var tps' :- FoldTys(fld, tps);
      var args' :- NoopFoldExprs(fld, args);
      Success(ExprMethodCall(SpIdent(fld.foldIdent(name.node), fld.newSpan(name.span)), tps', args'))
    case ExprBinary(op, lhs, rhs) =>
      var lhs' :- NoopFoldExpr(fld, lhs);
      var rhs' :- NoopFoldExpr(fld, rhs);
      Success(ExprBinary(op, lhs', rhs'))
    case ExprUnary(unop, inner) =>
      var inner' :- NoopFoldExpr(fld, inner);
      Success(ExprUnary(unop, inner'))
    case ExprLit(lit) => Success(ExprLit(lit))
    case ExprCast(inner, ty) =>
      var inner' :- NoopFoldExpr(fld, inner);
      var ty' :- NoopFoldTy(fld, ty);
      Success(ExprCast(inner', ty'))
    case ExprIf(cond, thenBlock, elseExpr) =>
      var cond' :- NoopFoldExpr(fld, cond);
      var thenBlock' :- NoopFoldBlock(fld, thenBlock);
      var elseExpr' :- FoldExprOption(fld, elseExpr);
      Success(ExprIf(cond', thenBlock', elseExpr'))
    case ExprWhile(cond, body, loopLabel) =>
      var cond' :- NoopFoldExpr(fld, cond);
      var body' :- NoopFoldBlock(fld, body);
      Success(ExprWhile(cond', body', FoldIdentOption(fld, loopLabel)))
    case ExprLoop(body, loopLabel) =>
      var body' :- NoopFoldBlock(fld, body);
      Success(ExprLoop(body', FoldIdentOption(fld, loopLabel)))
    case ExprMatch(scrutinee, arms) =>
      var scrutinee' :- NoopFoldExpr(fld, scrutinee);
      var arms' :- FoldArms(fld, arms);
      Success(ExprMatch(scrutinee', arms'))
    case ExprClosure(capture, decl, body) =>
      var decl' :- NoopFoldFnDecl(fld, decl);
      var body' :- NoopFoldBlock(fld, body);
      Success(ExprClosure(capture, decl', body'))
    case ExprBlock(block) =>
      var block' :- NoopFoldBlock(fld, block);
      Success(ExprBlock(block'))
    case ExprAssign(lhs, rhs) =>
      var lhs' :- NoopFoldExpr(fld, lhs);
      var rhs' :- NoopFoldExpr(fld, rhs);
      Success(ExprAssign(lhs', rhs'))
    case ExprField(inner, field) =>
      var inner' :- NoopFoldExpr(fld, inner);
      Success(ExprField(inner', SpIdent(fld.foldIdent(field.node), fld.newSpan(field.span))))
    case ExprIndex(lhs, rhs) =>
      var lhs' :- NoopFoldExpr(fld, lhs);
      var rhs' :- NoopFoldExpr(fld, rhs);
      Success(ExprIndex(lhs', rhs'))
    case ExprPath(qself, path) =>
      var qself' :- FoldQSelfOption(fld, qself);
      var path' :- NoopFoldPath(fld, path);
      Success(ExprPath(qself', path'))
    case ExprBreak(target) => Success(ExprBreak(FoldLabel(fld, target)))
    case ExprAgain(target) => Success(ExprAgain(FoldLabel(fld, target)))
    case ExprRet(value) =>
      var value' :- FoldExprOption(fld, value);
      Success(ExprRet(value'))
    case ExprMac(mac) =>
      var mac' :- FoldMac(fld, mac);
      Success(ExprMac(mac'))
    case ExprStruct(path, fields, base) =>
      var path' :- NoopFoldPath(fld, path);
      var fields' :- FoldFields(fld, fields);
      var base' :- FoldExprOption(fld, base);
      Success(ExprStruct(path', fields', base'))
    case ExprParen(inner) =>
      var inner' :- NoopFoldExpr(fld, inner);
      Success(ExprParen(inner'))
  }

  function FoldIdentOption(fld: Folder, o: Option<Ident>): Option<Ident>
  {
    match o
    case None => None
    case Some(i) => Some(fld.foldIdent(i))
  }

  /** A `break`/`continue` label: its identifier and its span are rewritten. */
  function FoldLabel(fld: Folder, o: Option<SpIdent>): Option<SpIdent>
  {
    match o
    case None => None
    case Some(l) => Some(SpIdent(fld.foldIdent(l.node), fld.newSpan(l.span)))
  }

  function FoldExprOption(fld: Folder, o: Option<Expr>): FoldResult<Option<Expr>>
    decreases o
  {
    match o
    case None => Success(None)
    case Some(e) =>
      var e' :- NoopFoldExpr(fld, e);
      Success(Some(e'))
  }

  function NoopFoldOptExpr(fld: Folder, e: Expr): FoldResult<Option<Expr>>
    decreases e, 1
  {
    var e' :- NoopFoldExpr(fld, e);
    Success(Some(e'))
  }

  function FoldOptExpr(fld: Folder, e: Expr): FoldResult<Option<Expr>>
    decreases e, 2
  {
    var o :- NoopFoldOptExpr(fld, e);
    Success(if o.Some? then fld.keepExpr(o.value) else None)
  }

  /** An expression list: each element may be dropped by `fold_opt_expr`. */
  function NoopFoldExprs(fld: Folder, es: seq<Expr>): FoldResult<seq<Expr>>
    decreases es
  {
    FlatCollect(seq(|es|, i requires 0 <= i < |es| => OptionToSeq(FoldOptExpr(fld, es[i]))))
  }

  /** A struct-literal field: its name keeps its span; its value and its own
      span are folded. */
  function NoopFoldField(fld: Folder, f: Field): FoldResult<Field>
    decreases f
  {
    var expr :- NoopFoldExpr(fld, f.expr);
    Success(Field(f.ident.(node := fld.foldIdent(f.ident.node)), expr, fld.newSpan(f.span)))
  }

  function FoldFields(fld: Folder, fs: seq<Field>): FoldResult<seq<Field>>
    decreases fs
  {
    Collect(seq(|fs|, i requires 0 <= i < |fs| => NoopFoldField(fld, fs[i])))
  }

  function NoopFoldArm(fld: Folder, a: Arm): FoldResult<Arm>
    decreases a
  {
    var pats :- FoldPats(fld, a.pats);
    var guard :- FoldExprOption(fld, a.guard);
    var body :- NoopFoldExpr(fld, a.body);
    Success(Arm(FoldAttrs(fld, a.attrs), pats, guard, body))
  }

  function FoldArms(fld: Folder, arms: seq<Arm>): FoldResult<seq<Arm>>
    decreases arms
  {
    Collect(seq(|arms|, i requires 0 <= i < |arms| => NoopFoldArm(fld, arms[i])))
  }

  // ------------------------------------------ blocks, statements, declarations

  function NoopFoldBlock(fld: Folder, b: Block): FoldResult<Block>
    decreases b
  {
    var stmts :- FoldStmts(fld, b.stmts);
    var expr :- (if b.expr.None? then Success(None) else FoldOptExpr(fld, b.expr.value));
    Success(Block(fld.newId(b.id), stmts, expr, b.rules, fld.newSpan(b.span)))
  }

  function FoldBlockOption(fld: Folder, o: Option<Block>): FoldResult<Option<Block>>
    decreases o
  {
    match o
    case None => Success(None)
    case Some(b) =>
      var b' :- NoopFoldBlock(fld, b);
      Success(Some(b'))
  }

  function FoldStmts(fld: Folder, stmts: seq<Stmt>): FoldResult<seq<Stmt>>
    decreases stmts
  {
    FlatCollect(seq(|stmts|, i requires 0 <= i < |stmts| => FoldStmt(fld, stmts[i])))
  }

  function FoldStmt(fld: Folder, s: Stmt): FoldResult<seq<Stmt>>
    decreases s, 1
  {
    var stmts :- NoopFoldStmt(fld, s);
    Success(ExpandAll(fld.expandStmt, stmts))
  }

  function NoopFoldStmt(fld: Folder, s: Stmt): FoldResult<seq<Stmt>>
    decreases s, 0
  {
    var span := fld.newSpan(s.span);
    match s.node
    case StmtDecl(d, id) =>
      var id' := fld.newId(id);
      var decls :- FoldDecl(fld, d);
      Success(seq(|decls|, k requires 0 <= k < |decls| => Stmt(StmtDecl(decls[k], id'), span)))
    case StmtExpr(e, id) =>
      var id' := fld.newId(id);
      var o :- FoldOptExpr(fld, e);
      Success(if o.Some? then [Stmt(StmtExpr(o.value, id'), span)] else [])
    case StmtSemi(e, id) =>
      var id' := fld.newId(id);
      var o :- FoldOptExpr(fld, e);
      Success(if o.Some? then [Stmt(StmtSemi(o.value, id'), span)] else [])
    case StmtMac(mac, style, attrs) =>
      var mac' :- FoldMac(fld, mac);
      Success([Stmt(StmtMac(mac', style, FoldAttrs(fld, attrs)), span)])
  }

  function FoldDecl(fld: Folder, d: Decl): FoldResult<seq<Decl>>
    decreases d, 1
  {
    var decls :- NoopFoldDecl(fld, d);
    Success(ExpandAll(fld.expandDecl, decls))
  }

  function NoopFoldDecl(fld: Folder, d: Decl): FoldResult<seq<Decl>>
    decreases d, 0
  {
    match d.node
    case DeclLocal(l) =>
      var l' :- NoopFoldLocal(fld, l);
      Success([Decl(DeclLocal(l'), fld.newSpan(d.span))])
    case DeclItem(it) =>
      var items :- FoldItem(fld, it);
      Success(seq(|items|, k requires 0 <= k < |items| => Decl(DeclItem(items[k]), fld.newSpan(d.span))))
  }

  function NoopFoldLocal(fld: Folder, l: Local): FoldResult<Local>
    decreases l
  {
    var ty :- FoldTyOption(fld, l.ty);
    var pat :- NoopFoldPat(fld, l.pat);
    var init :- FoldExprOption(fld, l.init);
    Success(Local(fld.newId(l.id), pat, ty, init, fld.newSpan(l.span), FoldAttrs(fld, l.attrs)))
  }

  // ------------------------------------------------------------------ items

  function FoldItem(fld: Folder, i: Item): FoldResult<seq<Item>>
    decreases i, 2
  {
    var items :- NoopFoldItem(fld, i);
    Success(ExpandAll(fld.expandItem, items))
  }

  function NoopFoldItem(fld: Folder, i: Item): FoldResult<seq<Item>>
    decreases i, 1
  {
    var i' :- NoopFoldItemSimple(fld, i);
    Success([i'])
  }

  function NoopFoldItemSimple(fld: Folder, i: Item): FoldResult<Item>
    decreases i, 0
  {
    var id := fld.newId(i.id);
    var node :- NoopFoldItemKind(fld, i.node);
    // The node may have changed, so an impl's name is computed afresh.
    var ident := if node.ItemImpl? then fld.implPrettyName(node.ifce, node.ty) else i.ident;
    Success(Item(id, fld.foldIdent(ident), FoldAttrs(fld, i.attrs), node, i.vis, fld.newSpan(i.span)))
  }

  function FoldItems(fld: Folder, items: seq<Item>): FoldResult<seq<Item>>
    decreases items
  {
    FlatCollect(seq(|items|, i requires 0 <= i < |items| => FoldItem(fld, items[i])))
  }

  function NoopFoldMod(fld: Folder, m: Mod): FoldResult<Mod>
    decreases m
  {
    var items :- FoldItems(fld, m.items);
    Success(Mod(fld.newSpan(m.inner), items))
  }

  function NoopFoldItemKind(fld: Folder, k: ItemKind): FoldResult<ItemKind>
    decreases k
  {
    match k
    case ItemExternCrate(original) => Success(ItemExternCrate(original))
    case ItemStatic(ty, mutbl, expr) =>
      var ty' :- NoopFoldTy(fld, ty);
      var expr' :- NoopFoldExpr(fld, expr);
      Success(ItemStatic(ty', mutbl, expr'))
    case ItemConst(ty, expr) =>
      var ty' :- NoopFoldTy(fld, ty);
      var expr' :- NoopFoldExpr(fld, expr);
      Success(ItemConst(ty', expr'))
    case ItemFn(decl, unsafety, constness, abi, generics, body) =>
      var decl' :- NoopFoldFnDecl(fld, decl);
      var generics' :- NoopFoldGenerics(fld, generics);
      var body' :- NoopFoldBlock(fld, body);
      Success(ItemFn(decl', unsafety, constness, abi, generics', body'))
    case ItemMod(m) =>
      var m' :- NoopFoldMod(fld, m);
      Success(ItemMod(m'))
    case ItemTy(ty, generics) =>
      var ty' :- NoopFoldTy(fld, ty);
      var generics' :- NoopFoldGenerics(fld, generics);
      Success(ItemTy(ty', generics'))
    case ItemImpl(unsafety, polarity, generics, ifce, ty, implItems) =>
      var implItems' :- FoldImplItems(fld, implItems);
      var ifce' :- FoldTraitRefOption(fld, ifce);
      var generics' :- NoopFoldGenerics(fld, generics);
      var ty' :- NoopFoldTy(fld, ty);
      Success(ItemImpl(unsafety, polarity, generics', ifce', ty', implItems'))
    case ItemTrait(unsafety, generics, traitItems) =>
      var traitItems' :- FoldTraitItems(fld, traitItems);
      var generics' :- NoopFoldGenerics(fld, generics);
      Success(ItemTrait(unsafety, generics', traitItems'))
    case ItemMac(mac) =>
      var mac' :- FoldMac(fld, mac);
      Success(ItemMac(mac'))
  }

  function FoldTraitItem(fld: Folder, ti: TraitItem): FoldResult<seq<TraitItem>>
    decreases ti, 1
  {
    var tis :- NoopFoldTraitItem(fld, ti);
    Success(ExpandAll(fld.expandTraitItem, tis))
  }

  function NoopFoldTraitItem(fld: Folder, ti: TraitItem): FoldResult<seq<TraitItem>>
    decreases ti, 0
  {
    var node :- (match ti.node
      case TraitConst(ty, defaultExpr) =>
        var ty' :- NoopFoldTy(fld, ty);
        var defaultExpr' :- FoldExprOption(fld, defaultExpr);
        Success(TraitConst(ty', defaultExpr'))
      case TraitMethod(sig, body) =>
        var sig' :- NoopFoldMethodSig(fld, sig);
        var body' :- FoldBlockOption(fld, body);
        Success(TraitMethod(sig', body'))
      case TraitType(defaultTy) =>
        var defaultTy' :- FoldTyOption(fld, defaultTy);
        Success(TraitType(defaultTy')));
    Success([TraitItem(fld.newId(ti.id), fld.foldIdent(ti.ident), FoldAttrs(fld, ti.attrs), node, fld.newSpan(ti.span))])
  }

  function FoldTraitItems(fld: Folder, tis: seq<TraitItem>): FoldResult<seq<TraitItem>>
    decreases tis
  {
    FlatCollect(seq(|tis|, i requires 0 <= i < |tis| => FoldTraitItem(fld, tis[i])))
  }

  function FoldImplItem(fld: Folder, ii: ImplItem): FoldResult<seq<ImplItem>>
    decreases ii, 1
  {
    var iis :- NoopFoldImplItem(fld, ii);
    Success(ExpandAll(fld.expandImplItem, iis))
  }

  function NoopFoldImplItem(fld: Folder, ii: ImplItem): FoldResult<seq<ImplItem>>
    decreases ii, 0
  {
    var node :- (match ii.node
      case ImplConst(ty, expr) =>
        var ty' :- NoopFoldTy(fld, ty);
        var expr' :- NoopFoldExpr(fld, expr);
        Success(ImplConst(ty', expr'))
      case ImplMethod(sig, body) =>
        var sig' :- NoopFoldMethodSig(fld, sig);
        var body' :- NoopFoldBlock(fld, body);
        Success(ImplMethod(sig', body'))
      case ImplType(ty) =>
        var ty' :- NoopFoldTy(fld, ty);
        Success(ImplType(ty'))
      case ImplMacro(mac) =>
        var mac' :- FoldMac(fld, mac);
        Success(ImplMacro(mac')));
    Success([ImplItem(fld.newId(ii.id), fld.foldIdent(ii.ident), ii.vis, ii.defaultness,
                      FoldAttrs(fld, ii.attrs), node, fld.newSpan(ii.span))])
  }

  function FoldImplItems(fld: Folder, iis: seq<ImplItem>): FoldResult<seq<ImplItem>>
    decreases iis
  {
    FlatCollect(seq(|iis|, i requires 0 <= i < |iis| => FoldImplItem(fld, iis[i])))
  }
}

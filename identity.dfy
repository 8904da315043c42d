/** The identity law of the default fold.

    A folder that keeps every identity, span and identifier, keeps every node
    each arity hook sees and folds macro invocations with `noop_fold_mac`
    rebuilds every node exactly as it was, with one exception: an `impl` item's
    name is recomputed from the folded trait reference and self type by the
    external naming function. The law therefore holds for nodes whose `impl`
    items already carry the name that function gives them, which is what the
    `Named` predicates below say. */
module Identity {
  import opened Wrappers
  import opened Ast
  import opened MoveMap
  import opened Fold

  /** Every hook of `fld` is left at its default, and `fold_mac` is
      overridden by `noop_fold_mac`. */
  ghost predicate IsIdentity(fld: Folder)
  {
    && (forall i :: fld.newId(i) == i)
    && (forall sp :: fld.newSpan(sp) == sp)
    && (forall id :: fld.foldIdent(id) == id)
    && fld.foldsMacros
    && (forall it :: fld.expandItem(it) == [it])
    && (forall ii :: fld.expandImplItem(ii) == [ii])
    && (forall ti :: fld.expandTraitItem(ti) == [ti])
    && (forall s :: fld.expandStmt(s) == [s])
    && (forall d :: fld.expandDecl(d) == [d])
    && (forall e :: fld.keepExpr(e) == Some(e))
    && (forall a :: fld.keepAttribute(a) == Some(a))
  }

  /** The default folder with macro folding switched on is an identity folder. */
  lemma DefaultFolderIsIdentity(name: (Option<TraitRef>, Ty) -> Ident)
    ensures IsIdentity(WithMacroFolding(DefaultFolder(name)))
    ensures WithMacroFolding(DefaultFolder(name)).implPrettyName == name
  {
  }

  // ---------------------------------------------------- canonical impl names

  type Namer = (Option<TraitRef>, Ty) -> Ident

  ghost predicate NamedTt(n: Namer, tt: TokenTree)
    decreases tt
  {
    match tt
    case TtToken(_, tok) => NamedToken(n, tok)
    case TtDelimited(_, d) => forall i :: 0 <= i < |d.tts| ==> NamedTt(n, d.tts[i])
    case TtSequence(_, rep) =>
      && (forall i :: 0 <= i < |rep.tts| ==> NamedTt(n, rep.tts[i]))
      && (rep.separator.Some? ==> NamedToken(n, rep.separator.value))
  }

  ghost predicate NamedToken(n: Namer, t: Token)
    decreases t
  {
    t.Interpolated? ==> NamedNt(n, t.nt)
  }

  ghost predicate NamedNt(n: Namer, nt: Nonterminal)
    decreases nt
  {
    match nt
    case NtItem(item) => NamedItem(n, item)
    case NtBlock(block) => NamedBlock(n, block)
    case NtStmt(stmt) => NamedStmt(n, stmt)
    case NtPat(pat) => NamedPat(n, pat)
    case NtExpr(expr) => NamedExpr(n, expr)
    case NtTy(ty) => NamedTy(n, ty)
    case NtIdent(_, _) => true
    case NtMeta(_) => true
    case NtPath(path) => NamedPath(n, path)
    case NtTT(tt) => NamedTt(n, tt)
    case NtArm(arm) => NamedArm(n, arm)
    case NtImplItem(ii) => NamedImplItem(n, ii)
    case NtTraitItem(ti) => NamedTraitItem(n, ti)
    case NtGenerics(g) => NamedGenerics(n, g)
    case NtArg(arg) => NamedArg(n, arg)
  }

  ghost predicate NamedMac(n: Namer, mac: Mac)
    decreases mac
  {
    NamedPath(n, mac.path) && forall i :: 0 <= i < |mac.tts| ==> NamedTt(n, mac.tts[i])
  }

  ghost predicate NamedPath(n: Namer, p: Path)
    decreases p
  {
    forall i :: 0 <= i < |p.segments| ==> NamedParams(n, p.segments[i].parameters)
  }

  ghost predicate NamedParams(n: Namer, pp: PathParameters)
    decreases pp
  {
    match pp
    case AngleBracketed(_, types) => forall i :: 0 <= i < |types| ==> NamedTy(n, types[i])
    case Parenthesized(inputs, output, _) =>
      && (forall i :: 0 <= i < |inputs| ==> NamedTy(n, inputs[i]))
      && (output.Some? ==> NamedTy(n, output.value))
  }

  ghost predicate NamedTy(n: Namer, t: Ty)
    decreases t
  {
    match t.node
    case TyInfer => true
    case TyVec(elem) => NamedTy(n, elem)
    case TyPtr(mt) => NamedTy(n, mt.ty)
    case TyRptr(_, mt) => NamedTy(n, mt.ty)
    case TyTup(tys) => forall i :: 0 <= i < |tys| ==> NamedTy(n, tys[i])
    case TyParen(inner) => NamedTy(n, inner)
    case TyPath(qself, path) => (qself.Some? ==> NamedTy(n, qself.value.ty)) && NamedPath(n, path)
    case TyFixedLengthVec(elem, len) => NamedTy(n, elem) && NamedExpr(n, len)
    case TyTypeof(expr) => NamedExpr(n, expr)
    case TyMac(mac) => NamedMac(n, mac)
  }

  ghost predicate NamedArg(n: Namer, a: Arg)
    decreases a
  {
    NamedPat(n, a.pat) && NamedTy(n, a.ty)
  }

  ghost predicate NamedFnDecl(n: Namer, d: FnDecl)
    decreases d
  {
    && (forall i :: 0 <= i < |d.inputs| ==> NamedArg(n, d.inputs[i]))
    && (d.output.RetTy? ==> NamedTy(n, d.output.ty))
  }

  ghost predicate NamedGenerics(n: Namer, g: Generics)
    decreases g
  {
    forall i :: 0 <= i < |g.tyParams| && g.tyParams[i].defaultTy.Some? ==>
      NamedTy(n, g.tyParams[i].defaultTy.value)
  }

  ghost predicate NamedMethodSig(n: Namer, sig: MethodSig)
    decreases sig
  {
    NamedGenerics(n, sig.generics) && NamedFnDecl(n, sig.decl)
  }

  ghost predicate NamedPat(n: Namer, p: Pat)
    decreases p
  {
    match p.node
    case PatWild => true
    case PatIdent(_, _, sub) => sub.Some? ==> NamedPat(n, sub.value)
    case PatLit(e) => NamedExpr(n, e)
    case PatTupleStruct(path, pats) =>
      NamedPath(n, path) && (pats.Listed? ==> forall i :: 0 <= i < |pats.pats| ==> NamedPat(n, pats.pats[i]))
    case PatPath(path) => NamedPath(n, path)
    case PatStruct(path, fields, _) =>
      NamedPath(n, path) && forall i :: 0 <= i < |fields| ==> NamedPat(n, fields[i].pat)
    case PatTup(elts) => forall i :: 0 <= i < |elts| ==> NamedPat(n, elts[i])
    case PatBox(inner) => NamedPat(n, inner)
    case PatRef(inner, _) => NamedPat(n, inner)
    case PatRange(lo, hi) => NamedExpr(n, lo) && NamedExpr(n, hi)
    case PatMac(mac) => NamedMac(n, mac)
  }

  ghost predicate NamedExprOption(n: Namer, o: Option<Expr>)
    decreases o
  {
    o.Some? ==> NamedExpr(n, o.value)
  }

  ghost predicate NamedExprs(n: Namer, es: seq<Expr>)
    decreases es
  {
    forall i :: 0 <= i < |es| ==> NamedExpr(n, es[i])
  }

  ghost predicate NamedExpr(n: Namer, e: Expr)
    decreases e
  {
    match e.node
    case ExprBox(inner) => NamedExpr(n, inner)
    case ExprVec(elems) => NamedExprs(n, elems)
    case ExprTup(elems) => NamedExprs(n, elems)
    case ExprCall(callee, args) => NamedExpr(n, callee) && NamedExprs(n, args)
    case ExprMethodCall(_, tps, args) =>
      (forall i :: 0 <= i < |tps| ==> NamedTy(n, tps[i])) && NamedExprs(n, args)
    case ExprBinary(_, lhs, rhs) => NamedExpr(n, lhs) && NamedExpr(n, rhs)
    case ExprUnary(_, inner) => NamedExpr(n, inner)
    case ExprLit(_) => true
    case ExprCast(inner, ty) => NamedExpr(n, inner) && NamedTy(n, ty)
    case ExprIf(cond, thenBlock, elseExpr) =>
      NamedExpr(n, cond) && NamedBlock(n, thenBlock) && NamedExprOption(n, elseExpr)
    case ExprWhile(cond, body, _) => NamedExpr(n, cond) && NamedBlock(n, body)
    case ExprLoop(body, _) => NamedBlock(n, body)
    case ExprMatch(scrutinee, arms) =>
      NamedExpr(n, scrutinee) && forall i :: 0 <= i < |arms| ==> NamedArm(n, arms[i])
    case ExprClosure(_, decl, body) => NamedFnDecl(n, decl) && NamedBlock(n, body)
    case ExprBlock(block) => NamedBlock(n, block)
    case ExprAssign(lhs, rhs) => NamedExpr(n, lhs) && NamedExpr(n, rhs)
    case ExprField(inner, _) => NamedExpr(n, inner)
    case ExprIndex(lhs, rhs) => NamedExpr(n, lhs) && NamedExpr(n, rhs)
    case ExprPath(qself, path) => (qself.Some? ==> NamedTy(n, qself.value.ty)) && NamedPath(n, path)
    case ExprBreak(_) => true
    case ExprAgain(_) => true
    case ExprRet(value) => NamedExprOption(n, value)
    case ExprMac(mac) => NamedMac(n, mac)
    case ExprStruct(path, fields, base) =>
      && NamedPath(n, path)
      && (forall i :: 0 <= i < |fields| ==> NamedExpr(n, fields[i].expr))
      && NamedExprOption(n, base)
    case ExprParen(inner) => NamedExpr(n, inner)
  }

  ghost predicate NamedArm(n: Namer, a: Arm)
    decreases a
  {
    && (forall i :: 0 <= i < |a.pats| ==> NamedPat(n, a.pats[i]))
    && NamedExprOption(n, a.guard)
    && NamedExpr(n, a.body)
  }

  ghost predicate NamedBlock(n: Namer, b: Block)
    decreases b
  {
    (forall i :: 0 <= i < |b.stmts| ==> NamedStmt(n, b.stmts[i])) && NamedExprOption(n, b.expr)
  }

  ghost predicate NamedStmt(n: Namer, s: Stmt)
    decreases s
  {
    match s.node
    case StmtDecl(d, _) => NamedDecl(n, d)
    case StmtExpr(e, _) => NamedExpr(n, e)
    case StmtSemi(e, _) => NamedExpr(n, e)
    case StmtMac(mac, _, _) => NamedMac(n, mac)
  }

  ghost predicate NamedDecl(n: Namer, d: Decl)
    decreases d
  {
    match d.node
    case DeclLocal(l) => NamedLocal(n, l)
    case DeclItem(it) => NamedItem(n, it)
  }

  ghost predicate NamedLocal(n: Namer, l: Local)
    decreases l
  {
    && NamedPat(n, l.pat)
    && (l.ty.Some? ==> NamedTy(n, l.ty.value))
    && NamedExprOption(n, l.init)
  }

  /** An item whose nested impls, and itself if it is one, carry the name `n`
      gives them. */
  ghost predicate NamedItem(n: Namer, it: Item)
    decreases it
  {
    && NamedItemKind(n, it.node)
    && (it.node.ItemImpl? ==> it.ident == n(it.node.ifce, it.node.ty))
  }

  ghost predicate NamedMod(n: Namer, m: Mod)
    decreases m
  {
    forall i :: 0 <= i < |m.items| ==> NamedItem(n, m.items[i])
  }

  ghost predicate NamedItemKind(n: Namer, k: ItemKind)
    decreases k
  {
    match k
    case ItemExternCrate(_) => true
    case ItemStatic(ty, _, expr) => NamedTy(n, ty) && NamedExpr(n, expr)
    case ItemConst(ty, expr) => NamedTy(n, ty) && NamedExpr(n, expr)
    case ItemFn(decl, _, _, _, generics, body) =>
      NamedFnDecl(n, decl) && NamedGenerics(n, generics) && NamedBlock(n, body)
    case ItemMod(m) => NamedMod(n, m)
    case ItemTy(ty, generics) => NamedTy(n, ty) && NamedGenerics(n, generics)
    case ItemImpl(_, _, generics, ifce, ty, implItems) =>
      && NamedGenerics(n, generics)
      && (ifce.Some? ==> NamedPath(n, ifce.value.path))
      && NamedTy(n, ty)
      && forall i :: 0 <= i < |implItems| ==> NamedImplItem(n, implItems[i])
    case ItemTrait(_, generics, traitItems) =>
      NamedGenerics(n, generics) && forall i :: 0 <= i < |traitItems| ==> NamedTraitItem(n, traitItems[i])
    case ItemMac(mac) => NamedMac(n, mac)
  }

  ghost predicate NamedTraitItem(n: Namer, ti: TraitItem)
    decreases ti
  {
    match ti.node
    case TraitConst(ty, defaultExpr) => NamedTy(n, ty) && NamedExprOption(n, defaultExpr)
    case TraitMethod(sig, body) => NamedMethodSig(n, sig) && (body.Some? ==> NamedBlock(n, body.value))
    case TraitType(defaultTy) => defaultTy.Some? ==> NamedTy(n, defaultTy.value)
  }

  ghost predicate NamedImplItem(n: Namer, ii: ImplItem)
    decreases ii
  {
    match ii.node
    case ImplConst(ty, expr) => NamedTy(n, ty) && NamedExpr(n, expr)
    case ImplMethod(sig, body) => NamedMethodSig(n, sig) && NamedBlock(n, body)
    case ImplType(ty) => NamedTy(n, ty)
    case ImplMacro(mac) => NamedMac(n, mac)
  }

  // ------------------------------------------- leaves outside the recursion

  lemma {:induction false} MetaItemIdentity(fld: Folder, mi: MetaItem)
    requires IsIdentity(fld)
    ensures NoopFoldMetaItem(fld, mi) == mi
    decreases mi
  {
    if mi.node.List? {
      MetaItemsIdentity(fld, mi.node.items);
    }
  }

  lemma {:induction false} MetaItemsIdentity(fld: Folder, mis: seq<MetaItem>)
    requires IsIdentity(fld)
    ensures FoldMetaItems(fld, mis) == mis
    decreases mis
  {
    forall i | 0 <= i < |mis| ensures NoopFoldMetaItem(fld, mis[i]) == mis[i] {
      MetaItemIdentity(fld, mis[i]);
    }
  }

  lemma AttrsIdentity(fld: Folder, attrs: seq<Attribute>)
    requires IsIdentity(fld)
    ensures FoldAttrs(fld, attrs) == attrs
  {
    forall i | 0 <= i < |attrs| ensures FoldAttribute(fld, attrs[i]).ToSeq() == [attrs[i]] {
      MetaItemIdentity(fld, attrs[i].value);
    }
    ConcatSingletons(seq(|attrs|, i requires 0 <= i < |attrs| => FoldAttribute(fld, attrs[i]).ToSeq()), attrs);
  }

  lemma LifetimesIdentity(fld: Folder, lts: seq<Lifetime>)
    requires IsIdentity(fld)
    ensures FoldLifetimes(fld, lts) == lts
    ensures forall l :: NoopFoldLifetime(fld, l) == l
  {
  }

  lemma LifetimeDefsIdentity(fld: Folder, lts: seq<LifetimeDef>)
    requires IsIdentity(fld)
    ensures FoldLifetimeDefs(fld, lts) == lts
  {
    forall i | 0 <= i < |lts| ensures NoopFoldLifetimeDef(fld, lts[i]) == lts[i] {
      LifetimesIdentity(fld, lts[i].bounds);
    }
  }

  // ------------------------------------------------ macros and token trees

  lemma {:induction false} MacIdentity(fld: Folder, mac: Mac)
    requires IsIdentity(fld) && NamedMac(fld.implPrettyName, mac)
    ensures FoldMac(fld, mac) == Success(mac)
    decreases mac
  {
    PathIdentity(fld, mac.path);
    TtsIdentity(fld, mac.tts);
  }

  lemma {:induction false} TtsIdentity(fld: Folder, tts: seq<TokenTree>)
    requires IsIdentity(fld)
    requires forall i :: 0 <= i < |tts| ==> NamedTt(fld.implPrettyName, tts[i])
    ensures FoldTts(fld, tts) == Success(tts)
    decreases tts
  {
    forall i | 0 <= i < |tts| ensures NoopFoldTt(fld, tts[i]) == Success(tts[i]) {
      TtIdentity(fld, tts[i]);
    }
    CollectExactly(seq(|tts|, i requires 0 <= i < |tts| => NoopFoldTt(fld, tts[i])), tts);
  }

  lemma {:induction false} TtIdentity(fld: Folder, tt: TokenTree)
    requires IsIdentity(fld) && NamedTt(fld.implPrettyName, tt)
    ensures NoopFoldTt(fld, tt) == Success(tt)
    decreases tt
  {
    match tt
    case TtToken(_, tok) => TokenIdentity(fld, tok);
    case TtDelimited(_, d) => TtsIdentity(fld, d.tts);
    case TtSequence(_, rep) =>
      TtsIdentity(fld, rep.tts);
      if rep.separator.Some? {
        TokenIdentity(fld, rep.separator.value);
      }
  }

  lemma {:induction false} TokenIdentity(fld: Folder, t: Token)
    requires IsIdentity(fld) && NamedToken(fld.implPrettyName, t)
    ensures NoopFoldToken(fld, t) == Success(t)
    decreases t
  {
    if t.Interpolated? {
      InterpolatedIdentity(fld, t.nt);
    }
  }

  lemma {:induction false} InterpolatedIdentity(fld: Folder, nt: Nonterminal)
    requires IsIdentity(fld) && NamedNt(fld.implPrettyName, nt)
    ensures NoopFoldInterpolated(fld, nt) == Success(nt)
    decreases nt
  {
    match nt
    case NtItem(item) => ItemIdentity(fld, item);
    case NtBlock(block) => BlockIdentity(fld, block);
    case NtStmt(stmt) => StmtIdentity(fld, stmt);
    case NtPat(pat) => PatIdentity(fld, pat);
    case NtExpr(expr) => ExprIdentity(fld, expr);
    case NtTy(ty) => TyIdentity(fld, ty);
    case NtIdent(_, _) =>
    case NtMeta(mi) => MetaItemIdentity(fld, mi);
    case NtPath(path) => PathIdentity(fld, path);
    case NtTT(tt) => TtIdentity(fld, tt);
    case NtArm(arm) => ArmIdentity(fld, arm);
    case NtImplItem(ii) => ImplItemIdentity(fld, ii);
    case NtTraitItem(ti) => TraitItemIdentity(fld, ti);
    case NtGenerics(g) => GenericsIdentity(fld, g);
    case NtArg(arg) => ArgIdentity(fld, arg);
  }

  // ------------------------------------------------------------ paths, types

  lemma {:induction false} PathIdentity(fld: Folder, p: Path)
    requires IsIdentity(fld) && NamedPath(fld.implPrettyName, p)
    ensures NoopFoldPath(fld, p) == Success(p)
    decreases p
  {
    SegmentsIdentity(fld, p.segments);
  }

  lemma {:induction false} SegmentsIdentity(fld: Folder, segs: seq<PathSegment>)
    requires IsIdentity(fld)
    requires forall i :: 0 <= i < |segs| ==> NamedParams(fld.implPrettyName, segs[i].parameters)
    ensures FoldSegments(fld, segs) == Success(segs)
    decreases segs
  {
    forall i | 0 <= i < |segs| ensures NoopFoldPathSegment(fld, segs[i]) == Success(segs[i]) {
      SegmentIdentity(fld, segs[i]);
    }
    CollectExactly(seq(|segs|, i requires 0 <= i < |segs| => NoopFoldPathSegment(fld, segs[i])), segs);
  }

  lemma {:induction false} SegmentIdentity(fld: Folder, seg: PathSegment)
    requires IsIdentity(fld) && NamedParams(fld.implPrettyName, seg.parameters)
    ensures NoopFoldPathSegment(fld, seg) == Success(seg)
    decreases seg
  {
    ParamsIdentity(fld, seg.parameters);
  }

  lemma {:induction false} ParamsIdentity(fld: Folder, pp: PathParameters)
    requires IsIdentity(fld) && NamedParams(fld.implPrettyName, pp)
    ensures NoopFoldPathParameters(fld, pp) == Success(pp)
    decreases pp
  {
    match pp
    case AngleBracketed(lifetimes, types) =>
      TysIdentity(fld, types);
      LifetimesIdentity(fld, lifetimes);
    case Parenthesized(inputs, output, _) =>
      TysIdentity(fld, inputs);
      if output.Some? {
        TyIdentity(fld, output.value);
      }
  }

  lemma {:induction false} TysIdentity(fld: Folder, tys: seq<Ty>)
    requires IsIdentity(fld)
    requires forall i :: 0 <= i < |tys| ==> NamedTy(fld.implPrettyName, tys[i])
    ensures FoldTys(fld, tys) == Success(tys)
    decreases tys
  {
    forall i | 0 <= i < |tys| ensures NoopFoldTy(fld, tys[i]) == Success(tys[i]) {
      TyIdentity(fld, tys[i]);
    }
    CollectExactly(seq(|tys|, i requires 0 <= i < |tys| => NoopFoldTy(fld, tys[i])), tys);
  }

  lemma {:induction false} TyIdentity(fld: Folder, t: Ty)
    requires IsIdentity(fld) && NamedTy(fld.implPrettyName, t)
    ensures NoopFoldTyKind(fld, t.node) == Success(t.node)
    ensures NoopFoldTy(fld, t) == Success(t)
    decreases t
  {
    match t.node
    case TyInfer =>
    case TyVec(elem) => TyIdentity(fld, elem);
    case TyPtr(mt) => TyIdentity(fld, mt.ty);
    case TyRptr(region, mt) =>
      TyIdentity(fld, mt.ty);
      LifetimesIdentity(fld, []);
    case TyTup(tys) => TysIdentity(fld, tys);
    case TyParen(inner) => TyIdentity(fld, inner);
    case TyPath(qself, path) =>
      if qself.Some? {
        TyIdentity(fld, qself.value.ty);
      }
      PathIdentity(fld, path);
    case TyFixedLengthVec(elem, len) =>
      TyIdentity(fld, elem);
      ExprIdentity(fld, len);
    case TyTypeof(expr) => ExprIdentity(fld, expr);
    case TyMac(mac) => MacIdentity(fld, mac);
  }

  lemma {:induction false} TyOptionIdentity(fld: Folder, o: Option<Ty>)
    requires IsIdentity(fld) && (o.Some? ==> NamedTy(fld.implPrettyName, o.value))
    ensures FoldTyOption(fld, o) == Success(o)
    decreases o
  {
    if o.Some? {
      TyIdentity(fld, o.value);
    }
  }

  // ------------------------------------------- function signatures, generics

  lemma {:induction false} ArgIdentity(fld: Folder, a: Arg)
    requires IsIdentity(fld) && NamedArg(fld.implPrettyName, a)
    ensures NoopFoldArg(fld, a) == Success(a)
    decreases a
  {
    PatIdentity(fld, a.pat);
    TyIdentity(fld, a.ty);
  }

  lemma {:induction false} FnDeclIdentity(fld: Folder, d: FnDecl)
    requires IsIdentity(fld) && NamedFnDecl(fld.implPrettyName, d)
    ensures NoopFoldFnDecl(fld, d) == Success(d)
    decreases d
  {
    ArgsIdentity(fld, d.inputs);
    if d.output.RetTy? {
      TyIdentity(fld, d.output.ty);
    }
  }

  lemma {:induction false} ArgsIdentity(fld: Folder, args: seq<Arg>)
    requires IsIdentity(fld)
    requires forall i :: 0 <= i < |args| ==> NamedArg(fld.implPrettyName, args[i])
    ensures FoldArgs(fld, args) == Success(args)
    decreases args
  {
    forall i | 0 <= i < |args| ensures NoopFoldArg(fld, args[i]) == Success(args[i]) {
      ArgIdentity(fld, args[i]);
    }
    CollectExactly(seq(|args|, i requires 0 <= i < |args| => NoopFoldArg(fld, args[i])), args);
  }

  lemma {:induction false} GenericsIdentity(fld: Folder, g: Generics)
    requires IsIdentity(fld) && NamedGenerics(fld.implPrettyName, g)
    ensures NoopFoldGenerics(fld, g) == Success(g)
    decreases g
  {
    TyParamsIdentity(fld, g.tyParams);
    LifetimeDefsIdentity(fld, g.lifetimes);
  }

  lemma {:induction false} TyParamIdentity(fld: Folder, tp: TyParam)
    requires IsIdentity(fld) && (tp.defaultTy.Some? ==> NamedTy(fld.implPrettyName, tp.defaultTy.value))
    ensures NoopFoldTyParam(fld, tp) == Success(tp)
    decreases tp
  {
    TyOptionIdentity(fld, tp.defaultTy);
  }

  lemma {:induction false} TyParamsIdentity(fld: Folder, tps: seq<TyParam>)
    requires IsIdentity(fld)
    requires forall i :: 0 <= i < |tps| && tps[i].defaultTy.Some? ==> NamedTy(fld.implPrettyName, tps[i].defaultTy.value)
    ensures FoldTyParams(fld, tps) == Success(tps)
    decreases tps
  {
    forall i | 0 <= i < |tps| ensures NoopFoldTyParam(fld, tps[i]) == Success(tps[i]) {
      TyParamIdentity(fld, tps[i]);
    }
    CollectExactly(seq(|tps|, i requires 0 <= i < |tps| => NoopFoldTyParam(fld, tps[i])), tps);
  }

  lemma {:induction false} TraitRefIdentity(fld: Folder, o: Option<TraitRef>)
    requires IsIdentity(fld) && (o.Some? ==> NamedPath(fld.implPrettyName, o.value.path))
    ensures o.Some? ==> NoopFoldTraitRef(fld, o.value) == Success(o.value)
    ensures FoldTraitRefOption(fld, o) == Success(o)
    decreases o
  {
    if o.Some? {
      PathIdentity(fld, o.value.path);
    }
  }

  lemma {:induction false} MethodSigIdentity(fld: Folder, sig: MethodSig)
    requires IsIdentity(fld) && NamedMethodSig(fld.implPrettyName, sig)
    ensures NoopFoldMethodSig(fld, sig) == Success(sig)
    decreases sig
  {
    GenericsIdentity(fld, sig.generics);
    FnDeclIdentity(fld, sig.decl);
  }

  // --------------------------------------------------------------- patterns

  lemma {:induction false} PatsIdentity(fld: Folder, ps: seq<Pat>)
    requires IsIdentity(fld)
    requires forall i :: 0 <= i < |ps| ==> NamedPat(fld.implPrettyName, ps[i])
    ensures FoldPats(fld, ps) == Success(ps)
    decreases ps
  {
    forall i | 0 <= i < |ps| ensures NoopFoldPat(fld, ps[i]) == Success(ps[i]) {
      PatIdentity(fld, ps[i]);
    }
    CollectExactly(seq(|ps|, i requires 0 <= i < |ps| => NoopFoldPat(fld, ps[i])), ps);
  }

  lemma {:induction false} PatIdentity(fld: Folder, p: Pat)
    requires IsIdentity(fld) && NamedPat(fld.implPrettyName, p)
    ensures NoopFoldPatKind(fld, p.node) == Success(p.node)
    ensures NoopFoldPat(fld, p) == Success(p)
    decreases p
  {
    match p.node
    case PatWild =>
    case PatIdent(_, _, sub) =>
      if sub.Some? {
        PatIdentity(fld, sub.value);
      }
    case PatLit(e) => ExprIdentity(fld, e);
    case PatTupleStruct(path, pats) =>
      PathIdentity(fld, path);
      if pats.Listed? {
        PatsIdentity(fld, pats.pats);
      }
    case PatPath(path) => PathIdentity(fld, path);
    case PatStruct(path, fields, _) =>
      PathIdentity(fld, path);
      FieldPatsIdentity(fld, fields);
    case PatTup(elts) => PatsIdentity(fld, elts);
    case PatBox(inner) => PatIdentity(fld, inner);
    case PatRef(inner, _) => PatIdentity(fld, inner);
    case PatRange(lo, hi) =>
      ExprIdentity(fld, lo);
      ExprIdentity(fld, hi);
    case PatMac(mac) => MacIdentity(fld, mac);
  }

  lemma {:induction false} FieldPatIdentity(fld: Folder, f: FieldPat)
    requires IsIdentity(fld) && NamedPat(fld.implPrettyName, f.pat)
    ensures NoopFoldFieldPat(fld, f) == Success(f)
    decreases f
  {
    PatIdentity(fld, f.pat);
  }

  lemma {:induction false} FieldPatsIdentity(fld: Folder, fs: seq<FieldPat>)
    requires IsIdentity(fld)
    requires forall i :: 0 <= i < |fs| ==> NamedPat(fld.implPrettyName, fs[i].pat)
    ensures FoldFieldPats(fld, fs) == Success(fs)
    decreases fs
  {
    forall i | 0 <= i < |fs| ensures NoopFoldFieldPat(fld, fs[i]) == Success(fs[i]) {
      FieldPatIdentity(fld, fs[i]);
    }
    CollectExactly(seq(|fs|, i requires 0 <= i < |fs| => NoopFoldFieldPat(fld, fs[i])), fs);
  }

  // ------------------------------------------------------------ expressions

  lemma {:induction false} ExprOptionIdentity(fld: Folder, o: Option<Expr>)
    requires IsIdentity(fld) && NamedExprOption(fld.implPrettyName, o)
    ensures FoldExprOption(fld, o) == Success(o)
    ensures o.Some? ==> FoldOptExpr(fld, o.value) == Success(o)
    decreases o
  {
    if o.Some? {
      ExprIdentity(fld, o.value);
    }
  }

  lemma {:induction false} ExprsIdentity(fld: Folder, es: seq<Expr>)
    requires IsIdentity(fld) && NamedExprs(fld.implPrettyName, es)
    ensures NoopFoldExprs(fld, es) == Success(es)
    decreases es
  {
    forall i | 0 <= i < |es| ensures OptionToSeq(FoldOptExpr(fld, es[i])) == Success([es[i]]) {
      ExprIdentity(fld, es[i]);
    }
    FlatCollectSingletons(seq(|es|, i requires 0 <= i < |es| => OptionToSeq(FoldOptExpr(fld, es[i]))), es);
  }

  lemma {:induction false} ExprIdentity(fld: Folder, e: Expr)
    requires IsIdentity(fld) && NamedExpr(fld.implPrettyName, e)
    ensures NoopFoldExpr(fld, e) == Success(e)
    ensures FoldOptExpr(fld, e) == Success(Some(e))
    decreases e, 1
  {
    ExprKindIdentity(fld, e);
    AttrsIdentity(fld, e.attrs);
  }

  lemma {:induction false} ExprKindIdentity(fld: Folder, e: Expr)
    requires IsIdentity(fld) && NamedExpr(fld.implPrettyName, e)
    ensures NoopFoldExprKind(fld, e.node) == Success(e.node)
    decreases e, 0
  {
    match e.node
    case ExprBox(inner) => ExprIdentity(fld, inner);
    case ExprVec(elems) => ExprsIdentity(fld, elems);
    case ExprTup(elems) => ExprsIdentity(fld, elems);
    case ExprCall(callee, args) =>
      ExprIdentity(fld, callee);
      ExprsIdentity(fld, args);
    case ExprMethodCall(_, tps, args) =>
      TysIdentity(fld, tps);
      ExprsIdentity(fld, args);
    case ExprBinary(_, lhs, rhs) =>
      ExprIdentity(fld, lhs);
      ExprIdentity(fld, rhs);
    case ExprUnary(_, inner) => ExprIdentity(fld, inner);
    case ExprLit(_) =>
    case ExprCast(inner, ty) =>
      ExprIdentity(fld, inner);
      TyIdentity(fld, ty);
    case ExprIf(cond, thenBlock, elseExpr) =>
      ExprIdentity(fld, cond);
      BlockIdentity(fld, thenBlock);
      ExprOptionIdentity(fld, elseExpr);
    case ExprWhile(cond, body, _) =>
      ExprIdentity(fld, cond);
      BlockIdentity(fld, body);
    case ExprLoop(body, _) => BlockIdentity(fld, body);
    case ExprMatch(scrutinee, arms) =>
      ExprIdentity(fld, scrutinee);
      ArmsIdentity(fld, arms);
    case ExprClosure(_, decl, body) =>
      FnDeclIdentity(fld, decl);
      BlockIdentity(fld, body);
    case ExprBlock(block) => BlockIdentity(fld, block);
    case ExprAssign(lhs, rhs) =>
      ExprIdentity(fld, lhs);
      ExprIdentity(fld, rhs);
    case ExprField(inner, _) => ExprIdentity(fld, inner);
    case ExprIndex(lhs, rhs) =>
      ExprIdentity(fld, lhs);
      ExprIdentity(fld, rhs);
    case ExprPath(qself, path) =>
      if qself.Some? {
        TyIdentity(fld, qself.value.ty);
      }
      PathIdentity(fld, path);
    case ExprBreak(_) =>
    case ExprAgain(_) =>
    case ExprRet(value) => ExprOptionIdentity(fld, value);
    case ExprMac(mac) => MacIdentity(fld, mac);
    case ExprStruct(path, fields, base) =>
      PathIdentity(fld, path);
      FieldsIdentity(fld, fields);
      ExprOptionIdentity(fld, base);
    case ExprParen(inner) => ExprIdentity(fld, inner);
  }

  lemma {:induction false} ArmIdentity(fld: Folder, a: Arm)
    requires IsIdentity(fld) && NamedArm(fld.implPrettyName, a)
    ensures NoopFoldArm(fld, a) == Success(a)
    decreases a
  {
    PatsIdentity(fld, a.pats);
    ExprOptionIdentity(fld, a.guard);
    ExprIdentity(fld, a.body);
    AttrsIdentity(fld, a.attrs);
  }

  lemma {:induction false} ArmsIdentity(fld: Folder, arms: seq<Arm>)
    requires IsIdentity(fld)
    requires forall i :: 0 <= i < |arms| ==> NamedArm(fld.implPrettyName, arms[i])
    ensures FoldArms(fld, arms) == Success(arms)
    decreases arms
  {
    forall i | 0 <= i < |arms| ensures NoopFoldArm(fld, arms[i]) == Success(arms[i]) {
      ArmIdentity(fld, arms[i]);
    }
    CollectExactly(seq(|arms|, i requires 0 <= i < |arms| => NoopFoldArm(fld, arms[i])), arms);
  }

  lemma {:induction false} FieldIdentity(fld: Folder, f: Field)
    requires IsIdentity(fld) && NamedExpr(fld.implPrettyName, f.expr)
    ensures NoopFoldField(fld, f) == Success(f)
    decreases f
  {
    ExprIdentity(fld, f.expr);
  }

  lemma {:induction false} FieldsIdentity(fld: Folder, fs: seq<Field>)
    requires IsIdentity(fld)
    requires forall i :: 0 <= i < |fs| ==> NamedExpr(fld.implPrettyName, fs[i].expr)
    ensures FoldFields(fld, fs) == Success(fs)
    decreases fs
  {
    forall i | 0 <= i < |fs| ensures NoopFoldField(fld, fs[i]) == Success(fs[i]) {
      FieldIdentity(fld, fs[i]);
    }
    CollectExactly(seq(|fs|, i requires 0 <= i < |fs| => NoopFoldField(fld, fs[i])), fs);
  }

  // ------------------------------------------ blocks, statements, declarations

  lemma {:induction false} BlockIdentity(fld: Folder, b: Block)
    requires IsIdentity(fld) && NamedBlock(fld.implPrettyName, b)
    ensures NoopFoldBlock(fld, b) == Success(b)
    decreases b
  {
    StmtsIdentity(fld, b.stmts);
    ExprOptionIdentity(fld, b.expr);
  }

  lemma {:induction false} BlockOptionIdentity(fld: Folder, o: Option<Block>)
    requires IsIdentity(fld) && (o.Some? ==> NamedBlock(fld.implPrettyName, o.value))
    ensures FoldBlockOption(fld, o) == Success(o)
    decreases o
  {
    if o.Some? {
      BlockIdentity(fld, o.value);
    }
  }

  lemma {:induction false} StmtsIdentity(fld: Folder, stmts: seq<Stmt>)
    requires IsIdentity(fld)
    requires forall i :: 0 <= i < |stmts| ==> NamedStmt(fld.implPrettyName, stmts[i])
    ensures FoldStmts(fld, stmts) == Success(stmts)
    decreases stmts
  {
    forall i | 0 <= i < |stmts| ensures FoldStmt(fld, stmts[i]) == Success([stmts[i]]) {
      StmtIdentity(fld, stmts[i]);
    }
    FlatCollectSingletons(seq(|stmts|, i requires 0 <= i < |stmts| => FoldStmt(fld, stmts[i])), stmts);
  }

  lemma {:induction false} StmtIdentity(fld: Folder, s: Stmt)
    requires IsIdentity(fld) && NamedStmt(fld.implPrettyName, s)
    ensures NoopFoldStmt(fld, s) == Success([s])
    ensures FoldStmt(fld, s) == Success([s])
    decreases s
  {
    match s.node {
      case StmtDecl(d, _) =>
        DeclIdentity(fld, d);
        assert NoopFoldStmt(fld, s).value[0] == s;
        assert NoopFoldStmt(fld, s).value == [s];
      case StmtExpr(e, _) => ExprIdentity(fld, e);
      case StmtSemi(e, _) => ExprIdentity(fld, e);
      case StmtMac(mac, _, attrs) =>
        MacIdentity(fld, mac);
        AttrsIdentity(fld, attrs);
    }
    assert ExpandAll(fld.expandStmt, [s]) == [s] by {
      ConcatSingletons([fld.expandStmt(s)], [s]);
    }
  }

  lemma {:induction false} DeclIdentity(fld: Folder, d: Decl)
    requires IsIdentity(fld) && NamedDecl(fld.implPrettyName, d)
    ensures NoopFoldDecl(fld, d) == Success([d])
    ensures FoldDecl(fld, d) == Success([d])
    decreases d
  {
    match d.node {
      case DeclLocal(l) => LocalIdentity(fld, l);
      case DeclItem(it) =>
        ItemIdentity(fld, it);
        assert NoopFoldDecl(fld, d).value[0] == d;
        assert NoopFoldDecl(fld, d).value == [d];
    }
    assert ExpandAll(fld.expandDecl, [d]) == [d] by {
      ConcatSingletons([fld.expandDecl(d)], [d]);
    }
  }

  lemma {:induction false} LocalIdentity(fld: Folder, l: Local)
    requires IsIdentity(fld) && NamedLocal(fld.implPrettyName, l)
    ensures NoopFoldLocal(fld, l) == Success(l)
    decreases l
  {
    PatIdentity(fld, l.pat);
    TyOptionIdentity(fld, l.ty);
    ExprOptionIdentity(fld, l.init);
    AttrsIdentity(fld, l.attrs);
  }

  // ------------------------------------------------------------------ items

  lemma {:induction false} ItemIdentity(fld: Folder, it: Item)
    requires IsIdentity(fld) && NamedItem(fld.implPrettyName, it)
    ensures NoopFoldItemSimple(fld, it) == Success(it)
    ensures FoldItem(fld, it) == Success([it])
    decreases it
  {
    ItemKindIdentity(fld, it.node);
    AttrsIdentity(fld, it.attrs);
    assert ExpandAll(fld.expandItem, [it]) == [it] by {
      ConcatSingletons([fld.expandItem(it)], [it]);
    }
  }

  lemma {:induction false} ModIdentity(fld: Folder, m: Mod)
    requires IsIdentity(fld) && NamedMod(fld.implPrettyName, m)
    ensures NoopFoldMod(fld, m) == Success(m)
    decreases m
  {
    ItemsIdentity(fld, m.items);
  }

  lemma {:induction false} ItemsIdentity(fld: Folder, items: seq<Item>)
    requires IsIdentity(fld)
    requires forall i :: 0 <= i < |items| ==> NamedItem(fld.implPrettyName, items[i])
    ensures FoldItems(fld, items) == Success(items)
    decreases items
  {
    forall i | 0 <= i < |items| ensures FoldItem(fld, items[i]) == Success([items[i]]) {
      ItemIdentity(fld, items[i]);
    }
    FlatCollectSingletons(seq(|items|, i requires 0 <= i < |items| => FoldItem(fld, items[i])), items);
  }

  lemma {:induction false} ItemKindIdentity(fld: Folder, k: ItemKind)
    requires IsIdentity(fld) && NamedItemKind(fld.implPrettyName, k)
    ensures NoopFoldItemKind(fld, k) == Success(k)
    decreases k
  {
    match k
    case ItemExternCrate(_) =>
    case ItemStatic(ty, _, expr) =>
      TyIdentity(fld, ty);
      ExprIdentity(fld, expr);
    case ItemConst(ty, expr) =>
      TyIdentity(fld, ty);
      ExprIdentity(fld, expr);
    case ItemFn(decl, _, _, _, generics, body) =>
      FnDeclIdentity(fld, decl);
      GenericsIdentity(fld, generics);
      BlockIdentity(fld, body);
    case ItemMod(m) => ModIdentity(fld, m);
    case ItemTy(ty, generics) =>
      TyIdentity(fld, ty);
      GenericsIdentity(fld, generics);
    case ItemImpl(_, _, generics, ifce, ty, implItems) =>
      ImplItemsIdentity(fld, implItems);
      TraitRefIdentity(fld, ifce);
      GenericsIdentity(fld, generics);
      TyIdentity(fld, ty);
    case ItemTrait(_, generics, traitItems) =>
      TraitItemsIdentity(fld, traitItems);
      GenericsIdentity(fld, generics);
    case ItemMac(mac) => MacIdentity(fld, mac);
  }

  lemma {:induction false} TraitItemIdentity(fld: Folder, ti: TraitItem)
    requires IsIdentity(fld) && NamedTraitItem(fld.implPrettyName, ti)
    ensures FoldTraitItem(fld, ti) == Success([ti])
    decreases ti
  {
    match ti.node {
      case TraitConst(ty, defaultExpr) =>
        TyIdentity(fld, ty);
        ExprOptionIdentity(fld, defaultExpr);
      case TraitMethod(sig, body) =>
        MethodSigIdentity(fld, sig);
        BlockOptionIdentity(fld, body);
      case TraitType(defaultTy) => TyOptionIdentity(fld, defaultTy);
    }
    AttrsIdentity(fld, ti.attrs);
    assert ExpandAll(fld.expandTraitItem, [ti]) == [ti] by {
      ConcatSingletons([fld.expandTraitItem(ti)], [ti]);
    }
  }

  lemma {:induction false} ImplItemIdentity(fld: Folder, ii: ImplItem)
    requires IsIdentity(fld) && NamedImplItem(fld.implPrettyName, ii)
    ensures FoldImplItem(fld, ii) == Success([ii])
    decreases ii
  {
    match ii.node {
      case ImplConst(ty, expr) =>
        TyIdentity(fld, ty);
        ExprIdentity(fld, expr);
      case ImplMethod(sig, body) =>
        MethodSigIdentity(fld, sig);
        BlockIdentity(fld, body);
      case ImplType(ty) => TyIdentity(fld, ty);
      case ImplMacro(mac) => MacIdentity(fld, mac);
    }
    AttrsIdentity(fld, ii.attrs);
    assert ExpandAll(fld.expandImplItem, [ii]) == [ii] by {
      ConcatSingletons([fld.expandImplItem(ii)], [ii]);
    }
  }

  lemma {:induction false} TraitItemsIdentity(fld: Folder, tis: seq<TraitItem>)
    requires IsIdentity(fld)
    requires forall i :: 0 <= i < |tis| ==> NamedTraitItem(fld.implPrettyName, tis[i])
    ensures FoldTraitItems(fld, tis) == Success(tis)
    decreases tis
  {
    forall i | 0 <= i < |tis| ensures FoldTraitItem(fld, tis[i]) == Success([tis[i]]) {
      TraitItemIdentity(fld, tis[i]);
    }
    FlatCollectSingletons(seq(|tis|, i requires 0 <= i < |tis| => FoldTraitItem(fld, tis[i])), tis);
  }

  lemma {:induction false} ImplItemsIdentity(fld: Folder, iis: seq<ImplItem>)
    requires IsIdentity(fld)
    requires forall i :: 0 <= i < |iis| ==> NamedImplItem(fld.implPrettyName, iis[i])
    ensures FoldImplItems(fld, iis) == Success(iis)
    decreases iis
  {
    forall i | 0 <= i < |iis| ensures FoldImplItem(fld, iis[i]) == Success([iis[i]]) {
      ImplItemIdentity(fld, iis[i]);
    }
    FlatCollectSingletons(seq(|iis|, i requires 0 <= i < |iis| => FoldImplItem(fld, iis[i])), iis);
  }
}

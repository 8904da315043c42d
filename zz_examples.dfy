/** Two hand-built crates folded by a folder that turns every identifier into
    `zz` and opts in to macro folding.

    Each crate is built by a function of the naming of its identifiers, so
    the crate as written and the crate the fold must produce are the same
    tree under two namings: the source names, and the one that names every
    identifier `zz`. Attribute names, punctuation, repetition operators and
    spans are not identifiers and stay as they are. */
module ZzExamples {
  import opened Wrappers
  import opened Ast
  import opened Fold
  import opened MoveMap
  import opened CrateFold
  import Arity

  const Zz: Ident := Ident("zz", 0)

  /** Every identifier becomes `zz`, macros are folded, and nothing else
      changes. */
  ghost predicate RenamesToZz(fld: Folder)
  {
    && fld.foldsMacros
    && (forall id :: fld.foldIdent(id) == Zz)
    && (forall i :: fld.newId(i) == i)
    && (forall sp :: fld.newSpan(sp) == sp)
    && (forall x :: fld.expandItem(x) == [x])
    && (forall x :: fld.expandStmt(x) == [x])
    && (forall x :: fld.keepExpr(x) == Some(x))
    && (forall x :: fld.keepAttribute(x) == Some(x))
  }

  /** The stock folder with `fold_ident` and `fold_mac` overridden. */
  function ZzFolder(): (fld: Folder)
    ensures RenamesToZz(fld)
  {
    WithMacroFolding(DefaultFolder((_, _) => InvalidIdent)).(foldIdent := _ => Zz)
  }

  type Naming = string -> Ident

  function SourceNames(): Naming
  {
    s => Ident(s, 0)
  }

  function ZzNames(): Naming
  {
    _ => Zz
  }

  const Sp: Span := Span(0, 0)

  function SimplePath(n: Naming, name: string): Path
  {
    Path(false, [PathSegment(n(name), AngleBracketed([], []))], Sp)
  }

  function PathTy(n: Naming, name: string): Ty
  {
    Ty(0, TyPath(None, SimplePath(n, name)), Sp)
  }

  function BindingPat(n: Naming, name: string): Pat
  {
    Pat(0, PatIdent(ByValue(Immutable), SpIdent(n(name), Sp), None), Sp)
  }

  function PathExpr(n: Naming, name: string): Expr
  {
    Expr(0, ExprPath(None, SimplePath(n, name)), Sp, [])
  }

  function IdentTt(n: Naming, name: string): TokenTree
  {
    TtToken(Sp, IdentTok(n(name), Plain))
  }

  function PunctTt(sym: string): TokenTree
  {
    TtToken(Sp, Punct(sym))
  }

  // ------------------------------------- #[a] mod b {fn c(d: e, f: g) {h!(i, j, k); l; m}}

  function MacroCall(n: Naming): Mac
  {
    Mac(SimplePath(n, "h"),
        [IdentTt(n, "i"), PunctTt(","), IdentTt(n, "j"), PunctTt(","), IdentTt(n, "k")],
        0, Sp)
  }

  function FnBody(n: Naming): Block
  {
    Block(0,
          [Stmt(StmtMac(MacroCall(n), MacStmtWithSemicolon, []), Sp),
           Stmt(StmtSemi(PathExpr(n, "l"), 0), Sp)],
          Some(PathExpr(n, "m")), DefaultBlock, Sp)
  }

  function FnSig(n: Naming): FnDecl
  {
    FnDecl([Arg(0, BindingPat(n, "d"), PathTy(n, "e")), Arg(0, BindingPat(n, "f"), PathTy(n, "g"))],
           RetDefault(Sp), false)
  }

  function FnItem(n: Naming): Item
  {
    Item(0, n("c"), [], ItemFn(FnSig(n), Normal, NotConst, "Rust", Generics([], []), FnBody(n)), Inherited, Sp)
  }

  function ModItem(n: Naming): Item
  {
    Item(0, n("b"), [Attribute(0, Outer, MetaItem(Word("a"), Sp), false, Sp)],
         ItemMod(Mod(Sp, [FnItem(n)])), Inherited, Sp)
  }

  function ModCrate(n: Naming): Crate
  {
    Crate(Mod(Sp, [ModItem(n)]), [], [], [], Sp)
  }

  // --------------- macro_rules! a {(b $c:expr $(d $e:token)f+ => (g $(d $d $e)+))}

  function MacroPattern(n: Naming): seq<TokenTree>
  {
    [IdentTt(n, "b"),
     TtToken(Sp, MatchNt(n("c"), n("expr"), Plain, Plain)),
     TtSequence(Sp, SequenceRepetition(
       [IdentTt(n, "d"), TtToken(Sp, MatchNt(n("e"), n("token"), Plain, Plain))],
       Some(IdentTok(n("f"), Plain)), OneOrMore, 1))]
  }

  function MacroTemplate(n: Naming): TokenTree
  {
    TtDelimited(Sp, Delimited(Paren, Sp,
      [IdentTt(n, "g"),
       TtSequence(Sp, SequenceRepetition(
         [IdentTt(n, "d"), TtToken(Sp, SubstNt(n("d"), Plain)), TtToken(Sp, SubstNt(n("e"), Plain))],
         None, OneOrMore, 0))],
      Sp))
  }

  function MacroRule(n: Naming): TokenTree
  {
    TtDelimited(Sp, Delimited(Paren, Sp, MacroPattern(n) + [PunctTt("=>"), MacroTemplate(n)], Sp))
  }

  function MacroRulesItem(n: Naming): Item
  {
    Item(0, n("a"), [], ItemMac(Mac(SimplePath(n, "macro_rules"), [MacroRule(n)], 0, Sp)), Inherited, Sp)
  }

  function MacroRulesCrate(n: Naming): Crate
  {
    Crate(Mod(Sp, [MacroRulesItem(n)]), [], [], [], Sp)
  }

  // ------------------------------------------------------------ the folds
  //
  // Each lemma holds for every naming `src` of the source identifiers.

  /** Empty child lists fold to empty lists. */
  lemma EmptyListsZz(fld: Folder)
    requires RenamesToZz(fld)
    ensures FoldTys(fld, []) == Success([])
    ensures FoldLifetimes(fld, []) == []
    ensures FoldAttrs(fld, []) == []
    ensures NoopFoldGenerics(fld, Generics([], [])) == Success(Generics([], []))
    ensures FoldMetaItems(fld, []) == []
  {
    assert FoldLifetimes(fld, []) == [];
    assert FoldLifetimeDefs(fld, []) == [];
    assert FoldMetaItems(fld, []) == [];
  }

  lemma SimplePathZz(fld: Folder, src: Naming, name: string)
    requires RenamesToZz(fld)
    ensures NoopFoldPath(fld, SimplePath(src, name)) == Success(SimplePath(ZzNames(), name))
  {
    var p := SimplePath(src, name);
    EmptyListsZz(fld);
    assert NoopFoldPathParameters(fld, AngleBracketed([], [])) == Success(AngleBracketed([], []));
    assert NoopFoldPathSegment(fld, p.segments[0]) == Success(PathSegment(Zz, AngleBracketed([], [])));
    assert FoldSegments(fld, p.segments).value == [PathSegment(Zz, AngleBracketed([], []))];
  }

  lemma LeavesZz(fld: Folder, src: Naming, name: string)
    requires RenamesToZz(fld)
    ensures NoopFoldTy(fld, PathTy(src, name)) == Success(PathTy(ZzNames(), name))
    ensures NoopFoldPat(fld, BindingPat(src, name)) == Success(BindingPat(ZzNames(), name))
    ensures NoopFoldExpr(fld, PathExpr(src, name)) == Success(PathExpr(ZzNames(), name))
    ensures FoldOptExpr(fld, PathExpr(src, name)) == Success(Some(PathExpr(ZzNames(), name)))
    ensures NoopFoldTt(fld, IdentTt(src, name)) == Success(IdentTt(ZzNames(), name))
  {
    SimplePathZz(fld, src, name);
    EmptyListsZz(fld);
    assert NoopFoldTyKind(fld, PathTy(src, name).node) == Success(PathTy(ZzNames(), name).node);
    assert NoopFoldPatKind(fld, BindingPat(src, name).node) == Success(BindingPat(ZzNames(), name).node);
    assert NoopFoldExprKind(fld, PathExpr(src, name).node) == Success(PathExpr(ZzNames(), name).node);
  }

  lemma TtsExactly(fld: Folder, tts: seq<TokenTree>, out: seq<TokenTree>)
    requires |out| == |tts| && forall i :: 0 <= i < |tts| ==> NoopFoldTt(fld, tts[i]) == Success(out[i])
    ensures FoldTts(fld, tts) == Success(out)
  {
    CollectExactly(seq(|tts|, i requires 0 <= i < |tts| => NoopFoldTt(fld, tts[i])), out);
  }

  lemma ArgsExactly(fld: Folder, args: seq<Arg>, out: seq<Arg>)
    requires |out| == |args| && forall i :: 0 <= i < |args| ==> NoopFoldArg(fld, args[i]) == Success(out[i])
    ensures FoldArgs(fld, args) == Success(out)
  {
    CollectExactly(seq(|args|, i requires 0 <= i < |args| => NoopFoldArg(fld, args[i])), out);
  }

  lemma MacroCallZz(fld: Folder, src: Naming)
    requires RenamesToZz(fld)
    ensures FoldMac(fld, MacroCall(src)) == Success(MacroCall(ZzNames()))
  {
    SimplePathZz(fld, src, "h");
    LeavesZz(fld, src, "i");
    LeavesZz(fld, src, "j");
    LeavesZz(fld, src, "k");
    assert NoopFoldTt(fld, PunctTt(",")) == Success(PunctTt(","));
    TtsExactly(fld, MacroCall(src).tts, MacroCall(ZzNames()).tts);
  }

  lemma FnSigZz(fld: Folder, src: Naming)
    requires RenamesToZz(fld)
    ensures NoopFoldFnDecl(fld, FnSig(src)) == Success(FnSig(ZzNames()))
  {
    var zz := ZzNames();
    LeavesZz(fld, src, "d");
    LeavesZz(fld, src, "e");
    LeavesZz(fld, src, "f");
    LeavesZz(fld, src, "g");
    assert NoopFoldArg(fld, FnSig(src).inputs[0]) == Success(FnSig(zz).inputs[0]);
    assert NoopFoldArg(fld, FnSig(src).inputs[1]) == Success(FnSig(zz).inputs[1]);
    ArgsExactly(fld, FnSig(src).inputs, FnSig(zz).inputs);
  }

  lemma FnBodyZz(fld: Folder, src: Naming)
    requires RenamesToZz(fld)
    ensures NoopFoldBlock(fld, FnBody(src)) == Success(FnBody(ZzNames()))
  {
    var zz := ZzNames();
    LeavesZz(fld, src, "l");
    LeavesZz(fld, src, "m");
    MacroCallZz(fld, src);
    EmptyListsZz(fld);
    var s0, s1 := FnBody(src).stmts[0], FnBody(src).stmts[1];
    assert NoopFoldStmt(fld, s0) == Success([FnBody(zz).stmts[0]]);
    assert NoopFoldStmt(fld, s1) == Success([FnBody(zz).stmts[1]]);
    Arity.KeepingStmtHook(fld, s0);
    Arity.KeepingStmtHook(fld, s1);
    Arity.StmtsSplice(fld, FnBody(src).stmts, [[FnBody(zz).stmts[0]], [FnBody(zz).stmts[1]]]);
    ConcatSingletons([[FnBody(zz).stmts[0]], [FnBody(zz).stmts[1]]], FnBody(zz).stmts);
  }

  lemma FnItemZz(fld: Folder, src: Naming)
    requires RenamesToZz(fld)
    ensures FoldItem(fld, FnItem(src)) == Success([FnItem(ZzNames())])
  {
    var zz := ZzNames();
    EmptyListsZz(fld);
    FnSigZz(fld, src);
    FnBodyZz(fld, src);
    assert NoopFoldItemKind(fld, FnItem(src).node) == Success(FnItem(zz).node);
    assert NoopFoldItemSimple(fld, FnItem(src)) == Success(FnItem(zz));
    Arity.KeepingItemHook(fld, FnItem(src));
  }

  /** The attribute `#[a]` is not an identifier position: it is kept. */
  lemma AttrsZz(fld: Folder, src: Naming)
    requires RenamesToZz(fld)
    ensures FoldAttrs(fld, ModItem(src).attrs) == ModItem(ZzNames()).attrs
  {
    var at := ModItem(src).attrs[0];
    assert NoopFoldMetaItem(fld, at.value) == at.value;
    Arity.AttrsSplice(fld, ModItem(src).attrs, [[at]]);
    ConcatSingletons([[at]], [at]);
  }

  lemma ModItemZz(fld: Folder, src: Naming)
    requires RenamesToZz(fld)
    ensures FoldItem(fld, ModItem(src)) == Success([ModItem(ZzNames())])
  {
    var zz := ZzNames();
    assert NoopFoldMod(fld, Mod(Sp, [FnItem(src)])) == Success(Mod(Sp, [FnItem(zz)])) by {
      FnItemZz(fld, src);
      Arity.ItemsSplice(fld, [FnItem(src)], [[FnItem(zz)]]);
      ConcatSingletons([[FnItem(zz)]], [FnItem(zz)]);
    }
    assert NoopFoldItemKind(fld, ModItem(src).node) == Success(ModItem(zz).node);
    assert NoopFoldItemSimple(fld, ModItem(src)) == Success(ModItem(zz)) by {
      AttrsZz(fld, src);
    }
    Arity.KeepingItemHook(fld, ModItem(src));
  }

  /** The identifier-transformation example: every identifier of
      `#[a] mod b {fn c(d: e, f: g) {h!(i, j, k); l; m}}` becomes `zz`, the
      macro invocation included, while the attribute `a` is kept. */
  lemma ModCrateZz(fld: Folder, src: Naming)
    requires RenamesToZz(fld)
    ensures FoldedCrate(fld, ModCrate(src)) == Success(ModCrate(ZzNames()))
  {
    var zz := ZzNames();
    var c := ModCrate(src);
    EmptyListsZz(fld);
    assert NoopFoldMod(fld, c.root) == Success(ModCrate(zz).root) by {
      ModItemZz(fld, src);
      Arity.ItemsSplice(fld, c.root.items, [[ModItem(zz)]]);
      ConcatSingletons([[ModItem(zz)]], [ModItem(zz)]);
    }
    assert NoopFoldItemKind(fld, RootItem(c).node) == Success(ItemMod(ModCrate(zz).root));
    assert NoopFoldItemSimple(fld, RootItem(c)) == Success(RootItem(c).(ident := Zz, node := ItemMod(ModCrate(zz).root)));
    Arity.KeepingItemHook(fld, RootItem(c));
    assert RenumberedMacros(fld, []) == [];
  }

  /** `$x:kind` and `$x` tokens have both their identifiers renamed. */
  lemma MetaVarsZz(fld: Folder, src: Naming, name: string, kind: string)
    requires RenamesToZz(fld)
    ensures NoopFoldTt(fld, TtToken(Sp, MatchNt(src(name), src(kind), Plain, Plain))) ==
      Success(TtToken(Sp, MatchNt(Zz, Zz, Plain, Plain)))
    ensures NoopFoldTt(fld, TtToken(Sp, SubstNt(src(name), Plain))) == Success(TtToken(Sp, SubstNt(Zz, Plain)))
  {
  }

  lemma MacroPatternZz(fld: Folder, src: Naming)
    requires RenamesToZz(fld)
    ensures forall i :: 0 <= i < |MacroPattern(src)| ==>
      NoopFoldTt(fld, MacroPattern(src)[i]) == Success(MacroPattern(ZzNames())[i])
  {
    var zz := ZzNames();
    LeavesZz(fld, src, "b");
    LeavesZz(fld, src, "d");
    MetaVarsZz(fld, src, "c", "expr");
    MetaVarsZz(fld, src, "e", "token");
    var rep := MacroPattern(src)[2].rep;
    TtsExactly(fld, rep.tts, MacroPattern(zz)[2].rep.tts);
    assert NoopFoldToken(fld, rep.separator.value) == Success(IdentTok(Zz, Plain));
  }

  lemma MacroTemplateZz(fld: Folder, src: Naming)
    requires RenamesToZz(fld)
    ensures NoopFoldTt(fld, MacroTemplate(src)) == Success(MacroTemplate(ZzNames()))
  {
    var zz := ZzNames();
    LeavesZz(fld, src, "g");
    LeavesZz(fld, src, "d");
    MetaVarsZz(fld, src, "d", "d");
    MetaVarsZz(fld, src, "e", "e");
    var rep := MacroTemplate(src).delimited.tts[1].rep;
    TtsExactly(fld, rep.tts, MacroTemplate(zz).delimited.tts[1].rep.tts);
    assert NoopFoldTt(fld, MacroTemplate(src).delimited.tts[1]) == Success(MacroTemplate(zz).delimited.tts[1]);
    TtsExactly(fld, MacroTemplate(src).delimited.tts, MacroTemplate(zz).delimited.tts);
  }

  lemma MacroRuleZz(fld: Folder, src: Naming)
    requires RenamesToZz(fld)
    ensures NoopFoldTt(fld, MacroRule(src)) == Success(MacroRule(ZzNames()))
  {
    var zz := ZzNames();
    var body, body' := MacroRule(src).delimited.tts, MacroRule(zz).delimited.tts;
    MacroPatternZz(fld, src);
    MacroTemplateZz(fld, src);
    assert NoopFoldTt(fld, PunctTt("=>")) == Success(PunctTt("=>"));
    assert forall i :: 0 <= i < |body| ==> NoopFoldTt(fld, body[i]) == Success(body'[i]);
    TtsExactly(fld, body, body');
  }

  lemma MacroRulesItemZz(fld: Folder, src: Naming)
    requires RenamesToZz(fld)
    ensures FoldItem(fld, MacroRulesItem(src)) == Success([MacroRulesItem(ZzNames())])
  {
    var zz := ZzNames();
    var mac, mac' := MacroRulesItem(src).node.mac, MacroRulesItem(zz).node.mac;
    assert FoldMac(fld, mac) == Success(mac') by {
      MacroRuleZz(fld, src);
      TtsExactly(fld, mac.tts, mac'.tts);
      SimplePathZz(fld, src, "macro_rules");
    }
    EmptyListsZz(fld);
    assert NoopFoldItemSimple(fld, MacroRulesItem(src)) == Success(MacroRulesItem(zz));
    Arity.KeepingItemHook(fld, MacroRulesItem(src));
  }

  /** The macro-definition example: inside
      `macro_rules! a {(b $c:expr $(d $e:token)f+ => (g $(d $d $e)+))}` every
      identifier becomes `zz`, the names and kinds of `$c:expr`, the
      substitutions `$d` and the separator `f` included, while `=>`, the
      delimiters and the `+` repetitions are kept. */
  lemma MacroRulesCrateZz(fld: Folder, src: Naming)
    requires RenamesToZz(fld)
    ensures FoldedCrate(fld, MacroRulesCrate(src)) == Success(MacroRulesCrate(ZzNames()))
  {
    var zz := ZzNames();
    var c := MacroRulesCrate(src);
    EmptyListsZz(fld);
    assert NoopFoldMod(fld, c.root) == Success(MacroRulesCrate(zz).root) by {
      MacroRulesItemZz(fld, src);
      Arity.ItemsSplice(fld, c.root.items, [[MacroRulesItem(zz)]]);
      ConcatSingletons([[MacroRulesItem(zz)]], [MacroRulesItem(zz)]);
    }
    assert NoopFoldItemKind(fld, RootItem(c).node) == Success(ItemMod(MacroRulesCrate(zz).root));
    assert NoopFoldItemSimple(fld, RootItem(c)) ==
      Success(RootItem(c).(ident := Zz, node := ItemMod(MacroRulesCrate(zz).root)));
    Arity.KeepingItemHook(fld, RootItem(c));
    assert RenumberedMacros(fld, []) == [];
  }

  /** Both examples for the stock folder with `fold_ident` and `fold_mac`
      overridden, on identifiers named as written. */
  lemma ZzFolderExamples()
    ensures FoldedCrate(ZzFolder(), ModCrate(SourceNames())) == Success(ModCrate(ZzNames()))
    ensures FoldedCrate(ZzFolder(), MacroRulesCrate(SourceNames())) == Success(MacroRulesCrate(ZzNames()))
  {
    ModCrateZz(ZzFolder(), SourceNames());
    MacroRulesCrateZz(ZzFolder(), SourceNames());
  }

  // ------------------------------------ names that are not passed to fold_ident

  /** Three name positions are copied, not renamed: a type parameter's name,
      a struct-pattern field's name and a lifetime's name. Renaming reaches
      only the identifiers the fold passes through `fold_ident`. */
  lemma UnrenamedPositions(fld: Folder, tp: TyParam, f: FieldPat, l: Lifetime)
    ensures NoopFoldTyParam(fld, tp).Success? ==> NoopFoldTyParam(fld, tp).value.ident == tp.ident
    ensures NoopFoldFieldPat(fld, f).Success? ==> NoopFoldFieldPat(fld, f).value.ident == f.ident
    ensures NoopFoldLifetime(fld, l).name == l.name
  {
  }

  /** With the renaming folder, `T` in `<T>`, the field `x` in `S { x: y }`
      and the lifetime `'a` keep their names, while the binding `y` becomes
      `zz`. */
  lemma ZzSkipsUnrenamedPositions(fld: Folder, src: Naming)
    requires RenamesToZz(fld)
    ensures NoopFoldTyParam(fld, TyParam(1, src("T"), None, Sp)) == Success(TyParam(1, src("T"), None, Sp))
    ensures NoopFoldFieldPat(fld, FieldPat(src("x"), BindingPat(src, "y"), false, Sp)) ==
      Success(FieldPat(src("x"), BindingPat(ZzNames(), "y"), false, Sp))
    ensures NoopFoldLifetime(fld, Lifetime(1, "a", Sp)) == Lifetime(1, "a", Sp)
  {
    LeavesZz(fld, src, "y");
  }
}

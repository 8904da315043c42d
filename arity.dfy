/** How many nodes each fold produces, and where they end up.

    The stock fold of an item, trait item, impl item or local declaration
    yields exactly one node; a statement or declaration holding an item yields
    as many as the item fold does; an expression statement survives exactly
    when `fold_opt_expr` keeps its expression. A list fold splices the
    per-element results in input order, and a list fold that fails reports its
    first failing element. A fragment embedded in a token must fold to exactly
    one node. */
module Arity {
  import opened Wrappers
  import opened Ast
  import opened MoveMap
  import opened Fold

  // ------------------------------------------------ order-preserving splicing

  /** A module's (or any) item list folds to the splicing, in input order, of
      what each item folds to. */
  lemma ItemsSplice(fld: Folder, items: seq<Item>, ss: seq<seq<Item>>)
    requires |ss| == |items|
    requires forall i :: 0 <= i < |items| ==> FoldItem(fld, items[i]) == Success(ss[i])
    ensures FoldItems(fld, items) == Success(Concat(ss))
    ensures |FoldItems(fld, items).value| == TotalLength(ss)
  {
    FlatCollectOf(seq(|items|, i requires 0 <= i < |items| => FoldItem(fld, items[i])), ss);
  }

  /** The first item whose fold fails decides the error of the item list. */
  lemma ItemsFirstFailure(fld: Folder, items: seq<Item>, k: nat)
    requires k < |items| && FoldItem(fld, items[k]).Failure?
    requires forall i :: 0 <= i < k ==> FoldItem(fld, items[i]).Success?
    ensures FoldItems(fld, items) == Failure(FoldItem(fld, items[k]).error)
  {
    FlatCollectFirstFailure(seq(|items|, i requires 0 <= i < |items| => FoldItem(fld, items[i])), k);
  }

  /** A block's statements fold to the splicing of what each statement folds to. */
  lemma StmtsSplice(fld: Folder, stmts: seq<Stmt>, ss: seq<seq<Stmt>>)
    requires |ss| == |stmts|
    requires forall i :: 0 <= i < |stmts| ==> FoldStmt(fld, stmts[i]) == Success(ss[i])
    ensures FoldStmts(fld, stmts) == Success(Concat(ss))
    ensures |FoldStmts(fld, stmts).value| == TotalLength(ss)
  {
    FlatCollectOf(seq(|stmts|, i requires 0 <= i < |stmts| => FoldStmt(fld, stmts[i])), ss);
  }

  lemma StmtsFirstFailure(fld: Folder, stmts: seq<Stmt>, k: nat)
    requires k < |stmts| && FoldStmt(fld, stmts[k]).Failure?
    requires forall i :: 0 <= i < k ==> FoldStmt(fld, stmts[i]).Success?
    ensures FoldStmts(fld, stmts) == Failure(FoldStmt(fld, stmts[k]).error)
  {
    FlatCollectFirstFailure(seq(|stmts|, i requires 0 <= i < |stmts| => FoldStmt(fld, stmts[i])), k);
  }

  /** A trait's items fold to the splicing of what each trait item folds to. */
  lemma TraitItemsSplice(fld: Folder, tis: seq<TraitItem>, ss: seq<seq<TraitItem>>)
    requires |ss| == |tis|
    requires forall i :: 0 <= i < |tis| ==> FoldTraitItem(fld, tis[i]) == Success(ss[i])
    ensures FoldTraitItems(fld, tis) == Success(Concat(ss))
    ensures |FoldTraitItems(fld, tis).value| == TotalLength(ss)
  {
    FlatCollectOf(seq(|tis|, i requires 0 <= i < |tis| => FoldTraitItem(fld, tis[i])), ss);
  }

  lemma TraitItemsFirstFailure(fld: Folder, tis: seq<TraitItem>, k: nat)
    requires k < |tis| && FoldTraitItem(fld, tis[k]).Failure?
    requires forall i :: 0 <= i < k ==> FoldTraitItem(fld, tis[i]).Success?
    ensures FoldTraitItems(fld, tis) == Failure(FoldTraitItem(fld, tis[k]).error)
  {
    FlatCollectFirstFailure(seq(|tis|, i requires 0 <= i < |tis| => FoldTraitItem(fld, tis[i])), k);
  }

  /** An impl's items fold to the splicing of what each impl item folds to. */
  lemma ImplItemsSplice(fld: Folder, iis: seq<ImplItem>, ss: seq<seq<ImplItem>>)
    requires |ss| == |iis|
    requires forall i :: 0 <= i < |iis| ==> FoldImplItem(fld, iis[i]) == Success(ss[i])
    ensures FoldImplItems(fld, iis) == Success(Concat(ss))
    ensures |FoldImplItems(fld, iis).value| == TotalLength(ss)
  {
    FlatCollectOf(seq(|iis|, i requires 0 <= i < |iis| => FoldImplItem(fld, iis[i])), ss);
  }

  lemma ImplItemsFirstFailure(fld: Folder, iis: seq<ImplItem>, k: nat)
    requires k < |iis| && FoldImplItem(fld, iis[k]).Failure?
    requires forall i :: 0 <= i < k ==> FoldImplItem(fld, iis[i]).Success?
    ensures FoldImplItems(fld, iis) == Failure(FoldImplItem(fld, iis[k]).error)
  {
    FlatCollectFirstFailure(seq(|iis|, i requires 0 <= i < |iis| => FoldImplItem(fld, iis[i])), k);
  }

  /** An expression list keeps, in order, exactly the expressions that
      `fold_opt_expr` keeps. */
  lemma ExprsSplice(fld: Folder, es: seq<Expr>, ss: seq<seq<Expr>>)
    requires |ss| == |es|
    requires forall i :: 0 <= i < |es| ==>
      FoldOptExpr(fld, es[i]).Success? && FoldOptExpr(fld, es[i]).value.ToSeq() == ss[i]
    ensures NoopFoldExprs(fld, es) == Success(Concat(ss))
    ensures |NoopFoldExprs(fld, es).value| == TotalLength(ss) <= |es|
  {
    var rs := seq(|es|, i requires 0 <= i < |es| => OptionToSeq(FoldOptExpr(fld, es[i])));
    FlatCollectOf(rs, ss);
    AtMostOneEach(ss);
  }

  lemma ExprsFirstFailure(fld: Folder, es: seq<Expr>, k: nat)
    requires k < |es| && FoldOptExpr(fld, es[k]).Failure?
    requires forall i :: 0 <= i < k ==> FoldOptExpr(fld, es[i]).Success?
    ensures NoopFoldExprs(fld, es) == Failure(FoldOptExpr(fld, es[k]).error)
  {
    FlatCollectFirstFailure(seq(|es|, i requires 0 <= i < |es| => OptionToSeq(FoldOptExpr(fld, es[i]))), k);
  }

  /** Lists of at most one element each splice to at most one per input. */
  lemma {:induction false} AtMostOneEach<T>(ss: seq<seq<T>>)
    requires forall i :: 0 <= i < |ss| ==> |ss[i]| <= 1
    ensures TotalLength(ss) <= |ss|
  {
    if |ss| > 0 {
      AtMostOneEach(ss[1..]);
    }
  }

  /** An attribute list keeps, in order, exactly the attributes that
      `fold_attribute` keeps. */
  lemma AttrsSplice(fld: Folder, attrs: seq<Attribute>, ss: seq<seq<Attribute>>)
    requires |ss| == |attrs|
    requires forall i :: 0 <= i < |attrs| ==> FoldAttribute(fld, attrs[i]).ToSeq() == ss[i]
    ensures FoldAttrs(fld, attrs) == Concat(ss)
    ensures |FoldAttrs(fld, attrs)| == TotalLength(ss) <= |attrs|
  {
    assert seq(|attrs|, i requires 0 <= i < |attrs| => FoldAttribute(fld, attrs[i]).ToSeq()) == ss;
    AtMostOneEach(ss);
  }

  // --------------------------------------------------- items and their kin

  /** A hook's results for one default result are the hook applied to it. */
  lemma ExpandOne<T>(hook: T -> seq<T>, x: T)
    ensures ExpandAll(hook, [x]) == hook(x)
  {
    assert seq(1, k requires 0 <= k < 1 => hook([x][k])) == [hook(x)];
    ConcatSingle(hook(x));
  }

  /** The stock item fold yields exactly one item, and `fold_item` is what
      the item hook makes of that one item. */
  lemma ItemArity(fld: Folder, it: Item)
    ensures NoopFoldItem(fld, it).Success? ==> |NoopFoldItem(fld, it).value| == 1
    ensures FoldItem(fld, it).Success? <==> NoopFoldItemSimple(fld, it).Success?
    ensures FoldItem(fld, it).Success? ==>
      FoldItem(fld, it).value == fld.expandItem(NoopFoldItemSimple(fld, it).value)
  {
    if NoopFoldItemSimple(fld, it).Success? {
      ExpandOne(fld.expandItem, NoopFoldItemSimple(fld, it).value);
    }
  }

  /** The stock trait-item fold yields exactly one trait item. */
  lemma TraitItemArity(fld: Folder, ti: TraitItem)
    ensures NoopFoldTraitItem(fld, ti).Success? ==> |NoopFoldTraitItem(fld, ti).value| == 1
    ensures FoldTraitItem(fld, ti).Success? <==> NoopFoldTraitItem(fld, ti).Success?
    ensures FoldTraitItem(fld, ti).Success? ==>
      FoldTraitItem(fld, ti).value == fld.expandTraitItem(NoopFoldTraitItem(fld, ti).value[0])
  {
    if NoopFoldTraitItem(fld, ti).Success? {
      ExpandOne(fld.expandTraitItem, NoopFoldTraitItem(fld, ti).value[0]);
    }
  }

  /** The stock impl-item fold yields exactly one impl item. */
  lemma ImplItemArity(fld: Folder, ii: ImplItem)
    ensures NoopFoldImplItem(fld, ii).Success? ==> |NoopFoldImplItem(fld, ii).value| == 1
    ensures FoldImplItem(fld, ii).Success? <==> NoopFoldImplItem(fld, ii).Success?
    ensures FoldImplItem(fld, ii).Success? ==>
      FoldImplItem(fld, ii).value == fld.expandImplItem(NoopFoldImplItem(fld, ii).value[0])
  {
    if NoopFoldImplItem(fld, ii).Success? {
      ExpandOne(fld.expandImplItem, NoopFoldImplItem(fld, ii).value[0]);
    }
  }

  // ------------------------------------------------ statements, declarations

  /** A declaration statement becomes one statement per declaration its
      declaration folds to, all sharing the statement's renumbered id and
      rewritten span. */
  lemma StmtDeclArity(fld: Folder, s: Stmt)
    requires s.node.StmtDecl?
    ensures NoopFoldStmt(fld, s).Success? <==> FoldDecl(fld, s.node.decl).Success?
    ensures FoldDecl(fld, s.node.decl).Failure? ==>
      NoopFoldStmt(fld, s) == Failure(FoldDecl(fld, s.node.decl).error)
    ensures NoopFoldStmt(fld, s).Success? ==>
      var stmts, decls := NoopFoldStmt(fld, s).value, FoldDecl(fld, s.node.decl).value;
      && |stmts| == |decls|
      && forall k :: 0 <= k < |stmts| ==>
           stmts[k] == Stmt(StmtDecl(decls[k], fld.newId(s.node.id)), fld.newSpan(s.span))
  {
  }

  /** An expression or semicolon statement survives, as the same kind of
      statement, exactly when `fold_opt_expr` keeps its expression. */
  lemma StmtExprArity(fld: Folder, s: Stmt)
    requires s.node.StmtExpr? || s.node.StmtSemi?
    ensures NoopFoldStmt(fld, s).Success? <==> FoldOptExpr(fld, s.node.expr).Success?
    ensures FoldOptExpr(fld, s.node.expr).Failure? ==>
      NoopFoldStmt(fld, s) == Failure(FoldOptExpr(fld, s.node.expr).error)
    ensures NoopFoldStmt(fld, s).Success? ==>
      var stmts, o := NoopFoldStmt(fld, s).value, FoldOptExpr(fld, s.node.expr).value;
      && |stmts| == |o.ToSeq()|
      && forall k :: 0 <= k < |stmts| ==>
           && stmts[k].span == fld.newSpan(s.span)
           && stmts[k].node.StmtExpr? == s.node.StmtExpr?
           && stmts[k].node.StmtSemi? == s.node.StmtSemi?
           && stmts[k].node.expr == o.value
           && stmts[k].node.id == fld.newId(s.node.id)
  {
  }

  /** A macro statement always stays exactly one statement; without macro
      folding it is fatal. */
  lemma StmtMacArity(fld: Folder, s: Stmt)
    requires s.node.StmtMac?
    ensures NoopFoldStmt(fld, s).Success? <==> FoldMac(fld, s.node.mac).Success?
    ensures !fld.foldsMacros ==> NoopFoldStmt(fld, s) == Failure(MacFoldDisabled)
    ensures NoopFoldStmt(fld, s).Success? ==>
      NoopFoldStmt(fld, s).value ==
        [Stmt(StmtMac(FoldMac(fld, s.node.mac).value, s.node.style, FoldAttrs(fld, s.node.attrs)),
              fld.newSpan(s.span))]
  {
  }

  /** A local declaration stays exactly one declaration; an item declaration
      becomes one declaration per item the item folds to, all with the
      declaration's rewritten span. */
  lemma DeclArity(fld: Folder, d: Decl)
    ensures d.node.DeclLocal? && NoopFoldDecl(fld, d).Success? ==>
      NoopFoldDecl(fld, d).value == [Decl(DeclLocal(NoopFoldLocal(fld, d.node.local).value), fld.newSpan(d.span))]
    ensures d.node.DeclItem? ==>
      (NoopFoldDecl(fld, d).Success? <==> FoldItem(fld, d.node.item).Success?)
    ensures d.node.DeclItem? && NoopFoldDecl(fld, d).Success? ==>
      var decls, items := NoopFoldDecl(fld, d).value, FoldItem(fld, d.node.item).value;
      && |decls| == |items|
      && forall k :: 0 <= k < |decls| ==> decls[k] == Decl(DeclItem(items[k]), fld.newSpan(d.span))
  {
  }

  /** An arity hook that keeps each node makes `fold_stmt` the stock
      statement fold. */
  lemma KeepingStmtHook(fld: Folder, s: Stmt)
    requires forall x :: fld.expandStmt(x) == [x]
    ensures FoldStmt(fld, s) == NoopFoldStmt(fld, s)
  {
    if NoopFoldStmt(fld, s).Success? {
      ExpandKeeping(fld.expandStmt, NoopFoldStmt(fld, s).value);
    }
  }

  /** The same for `fold_decl`. */
  lemma KeepingDeclHook(fld: Folder, d: Decl)
    requires forall x :: fld.expandDecl(x) == [x]
    ensures FoldDecl(fld, d) == NoopFoldDecl(fld, d)
  {
    if NoopFoldDecl(fld, d).Success? {
      ExpandKeeping(fld.expandDecl, NoopFoldDecl(fld, d).value);
    }
  }

  /** The same for `fold_item`. */
  lemma KeepingItemHook(fld: Folder, it: Item)
    requires forall x :: fld.expandItem(x) == [x]
    ensures FoldItem(fld, it) == NoopFoldItem(fld, it)
  {
    if NoopFoldItem(fld, it).Success? {
      ExpandKeeping(fld.expandItem, NoopFoldItem(fld, it).value);
    }
  }

  /** A hook that keeps each node keeps the whole list. */
  lemma ExpandKeeping<T>(hook: T -> seq<T>, xs: seq<T>)
    requires forall x :: hook(x) == [x]
    ensures ExpandAll(hook, xs) == xs
  {
    ConcatSingletons(seq(|xs|, k requires 0 <= k < |xs| => hook(xs[k])), xs);
  }

  // ------------------------------------------------------ singular fragments

  /** An interpolated item must fold to exactly one item. */
  lemma InterpolatedItem(fld: Folder, item: Item)
    ensures var r, f := NoopFoldInterpolated(fld, NtItem(item)), FoldItem(fld, item);
      && (r.Success? <==> f.Success? && |f.value| == 1)
      && (r.Success? ==> r.value == NtItem(f.value[0]))
      && (f.Failure? ==> r == Failure(f.error))
      && (f.Success? && |f.value| != 1 ==> r == Failure(ExpectedOne(ItemFragment)))
  {
  }

  /** An interpolated statement must fold to exactly one statement. */
  lemma InterpolatedStmt(fld: Folder, stmt: Stmt)
    ensures var r, f := NoopFoldInterpolated(fld, NtStmt(stmt)), FoldStmt(fld, stmt);
      && (r.Success? <==> f.Success? && |f.value| == 1)
      && (r.Success? ==> r.value == NtStmt(f.value[0]))
      && (f.Failure? ==> r == Failure(f.error))
      && (f.Success? && |f.value| != 1 ==> r == Failure(ExpectedOne(StmtFragment)))
  {
  }

  /** An interpolated impl item must fold to exactly one impl item. */
  lemma InterpolatedImplItem(fld: Folder, ii: ImplItem)
    ensures var r, f := NoopFoldInterpolated(fld, NtImplItem(ii)), FoldImplItem(fld, ii);
      && (r.Success? <==> f.Success? && |f.value| == 1)
      && (r.Success? ==> r.value == NtImplItem(f.value[0]))
      && (f.Failure? ==> r == Failure(f.error))
      && (f.Success? && |f.value| != 1 ==> r == Failure(ExpectedOne(ImplItemFragment)))
  {
  }

  /** An interpolated trait item must fold to exactly one trait item. */
  lemma InterpolatedTraitItem(fld: Folder, ti: TraitItem)
    ensures var r, f := NoopFoldInterpolated(fld, NtTraitItem(ti)), FoldTraitItem(fld, ti);
      && (r.Success? <==> f.Success? && |f.value| == 1)
      && (r.Success? ==> r.value == NtTraitItem(f.value[0]))
      && (f.Failure? ==> r == Failure(f.error))
      && (f.Success? && |f.value| != 1 ==> r == Failure(ExpectedOne(TraitItemFragment)))
  {
  }

  /** With the stock item hook an interpolated item always refolds to one
      item, so the singularity check can fail only under an item hook that
      drops or multiplies items. */
  lemma InterpolatedItemKept(fld: Folder, item: Item)
    requires forall x :: fld.expandItem(x) == [x]
    ensures NoopFoldInterpolated(fld, NtItem(item)).Success? <==>
      NoopFoldItemSimple(fld, item).Success?
    ensures NoopFoldInterpolated(fld, NtItem(item)).Success? ==>
      NoopFoldInterpolated(fld, NtItem(item)).value == NtItem(NoopFoldItemSimple(fld, item).value)
  {
    ItemArity(fld, item);
  }
}

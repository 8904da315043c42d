/** Laws of the token and macro folds.

    A plain token keeps everything but its identifiers, which go through
    `fold_ident`; a token without identifiers comes back unchanged. An
    interpolated fragment is refolded as the same kind of fragment. A token
    tree keeps its shape: its spans, delimiters, repetition operators, capture
    counts and the number and order of its subtrees. Folding a macro
    invocation is an opt-in: by default it is fatal, and once enabled it folds
    the path and the token trees and keeps the hygiene context. */
module TokenLaws {
  import opened Wrappers
  import opened Ast
  import opened MoveMap
  import opened Fold

  /** The identifiers a token carries, in order. */
  function TokenIdents(t: Token): seq<Ident>
  {
    match t
    case IdentTok(id, _) => [id]
    case LifetimeTok(id) => [id]
    case SubstNt(ident, _) => [ident]
    case MatchNt(name, kind, _, _) => [name, kind]
    case _ => []
  }

  /** The token with every identifier it carries blanked out. */
  function EraseIdents(t: Token): Token
  {
    match t
    case IdentTok(_, style) => IdentTok(InvalidIdent, style)
    case LifetimeTok(_) => LifetimeTok(InvalidIdent)
    case SubstNt(_, style) => SubstNt(InvalidIdent, style)
    case MatchNt(_, _, nameStyle, kindStyle) => MatchNt(InvalidIdent, InvalidIdent, nameStyle, kindStyle)
    case _ => t
  }

  function RenameAll(fld: Folder, ids: seq<Ident>): seq<Ident>
  {
    seq(|ids|, i requires 0 <= i < |ids| => fld.foldIdent(ids[i]))
  }

  /** A token is determined by its blanked form and its identifiers. */
  lemma TokenDeterminedByIdents(t: Token, u: Token)
    requires EraseIdents(t) == EraseIdents(u) && TokenIdents(t) == TokenIdents(u)
    ensures t == u
  {
    match t {
      case IdentTok(_, _) => assert TokenIdents(t)[0] == TokenIdents(u)[0];
      case LifetimeTok(_) => assert TokenIdents(t)[0] == TokenIdents(u)[0];
      case SubstNt(_, _) => assert TokenIdents(t)[0] == TokenIdents(u)[0];
      case MatchNt(_, _, _, _) =>
        assert TokenIdents(t)[0] == TokenIdents(u)[0];
        assert TokenIdents(t)[1] == TokenIdents(u)[1];
      case _ =>
    }
  }

  /** A token that is not a fragment always folds, keeps everything but its
      identifiers, and has each of its identifiers renamed by `fold_ident`. */
  lemma TokenRenamesIdents(fld: Folder, t: Token)
    requires !t.Interpolated?
    ensures NoopFoldToken(fld, t).Success?
    ensures EraseIdents(NoopFoldToken(fld, t).value) == EraseIdents(t)
    ensures TokenIdents(NoopFoldToken(fld, t).value) == RenameAll(fld, TokenIdents(t))
  {
    var ids := TokenIdents(t);
    if t.MatchNt? {
      assert RenameAll(fld, ids) == [fld.foldIdent(t.name), fld.foldIdent(t.kind)];
    } else if |ids| == 1 {
      assert RenameAll(fld, ids) == [fld.foldIdent(ids[0])];
    }
  }

  /** Punctuation, literals and doc comments come back unchanged. */
  lemma TokenWithoutIdentsUnchanged(fld: Folder, t: Token)
    requires !t.Interpolated? && TokenIdents(t) == []
    ensures NoopFoldToken(fld, t) == Success(t)
  {
    TokenRenamesIdents(fld, t);
    TokenDeterminedByIdents(t, NoopFoldToken(fld, t).value);
  }

  /** A token fold fails exactly when it meets a fragment whose fold fails. */
  lemma TokenFailure(fld: Folder, t: Token)
    ensures NoopFoldToken(fld, t).Failure? <==>
      t.Interpolated? && NoopFoldInterpolated(fld, t.nt).Failure?
    ensures t.Interpolated? && NoopFoldToken(fld, t).Success? ==>
      NoopFoldToken(fld, t).value == Interpolated(NoopFoldInterpolated(fld, t.nt).value)
  {
  }

  // ---------------------------------------------------------------- fragments

  predicate SameFragmentKind(a: Nonterminal, b: Nonterminal)
  {
    && a.NtItem? == b.NtItem? && a.NtBlock? == b.NtBlock? && a.NtStmt? == b.NtStmt?
    && a.NtPat? == b.NtPat? && a.NtExpr? == b.NtExpr? && a.NtTy? == b.NtTy?
    && a.NtIdent? == b.NtIdent? && a.NtMeta? == b.NtMeta? && a.NtPath? == b.NtPath?
    && a.NtTT? == b.NtTT? && a.NtArm? == b.NtArm? && a.NtImplItem? == b.NtImplItem?
    && a.NtTraitItem? == b.NtTraitItem? && a.NtGenerics? == b.NtGenerics? && a.NtArg? == b.NtArg?
  }

  /** A fragment is refolded as a fragment of the same kind; an identifier
      fragment has only its identifier renamed. */
  lemma InterpolatedKeepsKind(fld: Folder, nt: Nonterminal)
    ensures NoopFoldInterpolated(fld, nt).Success? ==>
      SameFragmentKind(nt, NoopFoldInterpolated(fld, nt).value)
    ensures nt.NtIdent? ==>
      NoopFoldInterpolated(fld, nt) ==
        Success(NtIdent(SpIdent(fld.foldIdent(nt.ident.node), nt.ident.span), nt.style))
  {
  }

  // -------------------------------------------------------------- token trees

  /** Two tokens agree but for identifiers, or are fragments of one kind. */
  predicate SameTokenShape(t: Token, u: Token)
  {
    if t.Interpolated? then u.Interpolated? && SameFragmentKind(t.nt, u.nt)
    else EraseIdents(t) == EraseIdents(u)
  }

  /** Two token trees have the same structure: the same spans, delimiters,
      repetition operators and capture counts, the same number of subtrees in
      each position, and tokens of the same shape. */
  predicate SameShape(a: TokenTree, b: TokenTree)
    decreases a
  {
    match a
    case TtToken(span, tok) => b.TtToken? && b.span == span && SameTokenShape(tok, b.tok)
    case TtDelimited(span, d) =>
      && b.TtDelimited? && b.span == span
      && b.delimited.delim == d.delim
      && b.delimited.openSpan == d.openSpan && b.delimited.closeSpan == d.closeSpan
      && |b.delimited.tts| == |d.tts|
      && forall i :: 0 <= i < |d.tts| ==> SameShape(d.tts[i], b.delimited.tts[i])
    case TtSequence(span, rep) =>
      && b.TtSequence? && b.span == span
      && b.rep.op == rep.op && b.rep.numCaptures == rep.numCaptures
      && b.rep.separator.Some? == rep.separator.Some?
      && (rep.separator.Some? ==> SameTokenShape(rep.separator.value, b.rep.separator.value))
      && |b.rep.tts| == |rep.tts|
      && forall i :: 0 <= i < |rep.tts| ==> SameShape(rep.tts[i], b.rep.tts[i])
  }

  lemma TokenKeepsShape(fld: Folder, t: Token)
    ensures NoopFoldToken(fld, t).Success? ==> SameTokenShape(t, NoopFoldToken(fld, t).value)
  {
    if t.Interpolated? {
      InterpolatedKeepsKind(fld, t.nt);
    } else {
      TokenRenamesIdents(fld, t);
    }
  }

  /** Folding a token tree preserves its shape. */
  lemma {:induction false} TtKeepsShape(fld: Folder, tt: TokenTree)
    ensures NoopFoldTt(fld, tt).Success? ==> SameShape(tt, NoopFoldTt(fld, tt).value)
    decreases tt
  {
    match tt {
      case TtToken(_, tok) => TokenKeepsShape(fld, tok);
      case TtDelimited(_, d) => TtsKeepShape(fld, d.tts);
      case TtSequence(_, rep) =>
        TtsKeepShape(fld, rep.tts);
        if rep.separator.Some? {
          TokenKeepsShape(fld, rep.separator.value);
        }
    }
  }

  /** Folding a list of token trees keeps its length, its order and the
      shape of each tree. */
  lemma {:induction false} TtsKeepShape(fld: Folder, tts: seq<TokenTree>)
    ensures FoldTts(fld, tts).Success? ==>
      && |FoldTts(fld, tts).value| == |tts|
      && forall i :: 0 <= i < |tts| ==> SameShape(tts[i], FoldTts(fld, tts).value[i])
    decreases tts
  {
    forall i | 0 <= i < |tts| ensures NoopFoldTt(fld, tts[i]).Success? ==>
      SameShape(tts[i], NoopFoldTt(fld, tts[i]).value)
    {
      TtKeepsShape(fld, tts[i]);
    }
  }

  /** A token tree with no embedded fragments. */
  predicate FragmentFree(tt: TokenTree)
    decreases tt
  {
    match tt
    case TtToken(_, tok) => !tok.Interpolated?
    case TtDelimited(_, d) => forall i :: 0 <= i < |d.tts| ==> FragmentFree(d.tts[i])
    case TtSequence(_, rep) =>
      && (rep.separator.Some? ==> !rep.separator.value.Interpolated?)
      && forall i :: 0 <= i < |rep.tts| ==> FragmentFree(rep.tts[i])
  }

  /** Only a fragment can make a token-tree fold fail. */
  lemma {:induction false} FragmentFreeTtFolds(fld: Folder, tt: TokenTree)
    requires FragmentFree(tt)
    ensures NoopFoldTt(fld, tt).Success?
    decreases tt
  {
    match tt {
      case TtToken(_, tok) => TokenRenamesIdents(fld, tok);
      case TtDelimited(_, d) => FragmentFreeTtsFold(fld, d.tts);
      case TtSequence(_, rep) =>
        FragmentFreeTtsFold(fld, rep.tts);
        if rep.separator.Some? {
          TokenRenamesIdents(fld, rep.separator.value);
        }
    }
  }

  lemma {:induction false} FragmentFreeTtsFold(fld: Folder, tts: seq<TokenTree>)
    requires forall i :: 0 <= i < |tts| ==> FragmentFree(tts[i])
    ensures FoldTts(fld, tts).Success?
    decreases tts
  {
    forall i | 0 <= i < |tts| ensures NoopFoldTt(fld, tts[i]).Success? {
      FragmentFreeTtFolds(fld, tts[i]);
    }
  }

  // ------------------------------------------------------------- renaming

  /** The identifiers of a token tree, in order; a fragment contributes none. */
  function TtIdents(tt: TokenTree): seq<Ident>
    decreases tt
  {
    match tt
    case TtToken(_, tok) => TokenIdents(tok)
    case TtDelimited(_, d) => TtsIdents(d.tts)
    case TtSequence(_, rep) =>
      TtsIdents(rep.tts) + (if rep.separator.Some? then TokenIdents(rep.separator.value) else [])
  }

  function TtsIdents(tts: seq<TokenTree>): seq<Ident>
    decreases tts
  {
    if |tts| == 0 then [] else TtIdents(tts[0]) + TtsIdents(tts[1..])
  }

  lemma RenameAllAppend(fld: Folder, a: seq<Ident>, b: seq<Ident>)
    ensures RenameAll(fld, a + b) == RenameAll(fld, a) + RenameAll(fld, b)
  {
  }

  /** The fold of a non-empty list is the fold of its head before the fold
      of its tail. */
  lemma FoldTtsCons(fld: Folder, tts: seq<TokenTree>)
    requires |tts| > 0 && FoldTts(fld, tts).Success?
    ensures NoopFoldTt(fld, tts[0]).Success? && FoldTts(fld, tts[1..]).Success?
    ensures FoldTts(fld, tts).value ==
      [NoopFoldTt(fld, tts[0]).value] + FoldTts(fld, tts[1..]).value
  {
    var v := FoldTts(fld, tts).value;
    FoldTtsPointwise(fld, tts);
    FoldTtsPointwise(fld, tts[1..]);
    assert v[1..] == FoldTts(fld, tts[1..]).value;
  }

  /** A token-tree list folds iff each tree folds, and then to those trees. */
  lemma FoldTtsPointwise(fld: Folder, tts: seq<TokenTree>)
    ensures FoldTts(fld, tts).Success? <==> forall i :: 0 <= i < |tts| ==> NoopFoldTt(fld, tts[i]).Success?
    ensures FoldTts(fld, tts).Success? ==>
      && |FoldTts(fld, tts).value| == |tts|
      && forall i :: 0 <= i < |tts| ==> FoldTts(fld, tts).value[i] == NoopFoldTt(fld, tts[i]).value
  {
    var rs := seq(|tts|, i requires 0 <= i < |tts| => NoopFoldTt(fld, tts[i]));
    assert FoldTts(fld, tts) == Collect(rs);
    assert forall i :: 0 <= i < |tts| ==> rs[i] == NoopFoldTt(fld, tts[i]);
  }

  /** Renaming law for token trees: a tree without fragments folds to a tree
      whose identifiers are, in order, its own identifiers each passed through
      `fold_ident`. With `TtKeepsShape` this fixes the folded tree. */
  lemma {:induction false} TtRenamesIdents(fld: Folder, tt: TokenTree)
    requires FragmentFree(tt)
    ensures NoopFoldTt(fld, tt).Success?
    ensures TtIdents(NoopFoldTt(fld, tt).value) == RenameAll(fld, TtIdents(tt))
    decreases tt
  {
    FragmentFreeTtFolds(fld, tt);
    match tt {
      case TtToken(_, tok) => TokenRenamesIdents(fld, tok);
      case TtDelimited(_, d) => TtsRenameIdents(fld, d.tts);
      case TtSequence(_, rep) =>
        TtsRenameIdents(fld, rep.tts);
        var sepIds := if rep.separator.Some? then TokenIdents(rep.separator.value) else [];
        if rep.separator.Some? {
          TokenRenamesIdents(fld, rep.separator.value);
        }
        RenameAllAppend(fld, TtsIdents(rep.tts), sepIds);
    }
  }

  lemma {:induction false} TtsRenameIdents(fld: Folder, tts: seq<TokenTree>)
    requires forall i :: 0 <= i < |tts| ==> FragmentFree(tts[i])
    ensures FoldTts(fld, tts).Success?
    ensures TtsIdents(FoldTts(fld, tts).value) == RenameAll(fld, TtsIdents(tts))
    decreases tts
  {
    FragmentFreeTtsFold(fld, tts);
    if |tts| > 0 {
      FoldTtsCons(fld, tts);
      TtRenamesIdents(fld, tts[0]);
      TtsRenameIdents(fld, tts[1..]);
      var v := FoldTts(fld, tts).value;
      assert v[0] == NoopFoldTt(fld, tts[0]).value && v[1..] == FoldTts(fld, tts[1..]).value;
      RenameAllAppend(fld, TtIdents(tts[0]), TtsIdents(tts[1..]));
    }
  }

  /** A folder that maps every identifier to `k` turns a tree without
      fragments into one of the same shape whose every identifier is `k`. */
  lemma ConstantRenamingTt(fld: Folder, tt: TokenTree, k: Ident)
    requires FragmentFree(tt) && forall id :: fld.foldIdent(id) == k
    ensures NoopFoldTt(fld, tt).Success?
    ensures SameShape(tt, NoopFoldTt(fld, tt).value)
    ensures |TtIdents(NoopFoldTt(fld, tt).value)| == |TtIdents(tt)|
    ensures forall i :: 0 <= i < |TtIdents(NoopFoldTt(fld, tt).value)| ==>
      TtIdents(NoopFoldTt(fld, tt).value)[i] == k
  {
    TtRenamesIdents(fld, tt);
    TtKeepsShape(fld, tt);
  }

  // ------------------------------------------------------------------ macros

  /** Macro folding is off unless the folder opts in, and opting in means the
      stock macro fold. */
  lemma MacOptIn(fld: Folder, mac: Mac)
    ensures !fld.foldsMacros ==> FoldMac(fld, mac) == Failure(MacFoldDisabled)
    ensures fld.foldsMacros ==> FoldMac(fld, mac) == NoopFoldMac(fld, mac)
    ensures FoldMac(DefaultFolder(fld.implPrettyName), mac) == Failure(MacFoldDisabled)
    ensures FoldMac(WithMacroFolding(fld), mac) == NoopFoldMac(WithMacroFolding(fld), mac)
  {
  }

  /** The stock macro fold folds the path, each token tree in order (so
      keeping their shape) and the span, and keeps the hygiene context. */
  lemma NoopMacFold(fld: Folder, mac: Mac)
    ensures NoopFoldMac(fld, mac).Success? <==>
      NoopFoldPath(fld, mac.path).Success? && FoldTts(fld, mac.tts).Success?
    ensures NoopFoldMac(fld, mac).Success? ==>
      var m := NoopFoldMac(fld, mac).value;
      && m.path == NoopFoldPath(fld, mac.path).value
      && m.ctxt == mac.ctxt
      && m.span == fld.newSpan(mac.span)
      && |m.tts| == |mac.tts|
      && (forall i :: 0 <= i < |mac.tts| ==> NoopFoldTt(fld, mac.tts[i]) == Success(m.tts[i]))
      && forall i :: 0 <= i < |mac.tts| ==> SameShape(mac.tts[i], m.tts[i])
  {
    TtsKeepShape(fld, mac.tts);
  }

  /** Under the default folder, a macro item, a macro statement or a macro
      expression cannot be folded. */
  lemma DefaultFolderRejectsMacros(name: (Option<TraitRef>, Ty) -> Ident, it: Item, s: Stmt, e: Expr)
    requires it.node.ItemMac? && s.node.StmtMac? && e.node.ExprMac?
    ensures FoldItem(DefaultFolder(name), it) == Failure(MacFoldDisabled)
    ensures FoldStmt(DefaultFolder(name), s) == Failure(MacFoldDisabled)
    ensures NoopFoldExpr(DefaultFolder(name), e) == Failure(MacFoldDisabled)
  {
    var fld := DefaultFolder(name);
    assert NoopFoldItemKind(fld, it.node) == Failure(MacFoldDisabled);
    assert NoopFoldItem(fld, it) == Failure(MacFoldDisabled);
    assert NoopFoldStmt(fld, s) == Failure(MacFoldDisabled);
    assert NoopFoldExprKind(fld, e.node) == Failure(MacFoldDisabled);
  }
}

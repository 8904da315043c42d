/** Folding a whole crate.

    The crate's root module is folded as if it were an ordinary public item
    with the invalid identifier and the dummy node id, carrying the crate's
    attributes and span. The item fold may expand that item into any number
    of items: none leaves an empty crate, one must still be a module, and more
    than one is fatal. The crate configuration is folded as meta items, and
    every exported macro definition gets a fresh node id in place; nothing
    else about a macro definition is folded. */
module CrateFold {
  import opened Wrappers
  import opened Ast
  import opened MoveMap
  import opened Fold
  import opened Identity

  /** The synthetic item that stands for the crate's root module. */
  function RootItem(c: Crate): Item
  {
    Item(DummyNodeId, InvalidIdent, c.attrs, ItemMod(c.root), Public, c.span)
  }

  /** The exported macro definitions with their ids renumbered by `newId`. */
  function RenumberedMacros(fld: Folder, defs: seq<MacroDef>): seq<MacroDef>
  {
    seq(|defs|, i requires 0 <= i < |defs| => defs[i].(id := fld.newId(defs[i].id)))
  }

  /** What folding crate `c` yields: the specification of `NoopFoldCrate`. */
  function FoldedCrate(fld: Folder, c: Crate): FoldResult<Crate>
  {
    var config := FoldMetaItems(fld, c.config);
    var items :- FoldItem(fld, RootItem(c));
    if |items| > 1 then Failure(CrateExpandsToMany)
    else if |items| == 1 && !items[0].node.ItemMod? then Failure(NotAModule)
    else
      var root := if |items| == 1 then items[0].node.contents else Mod(c.span, []);
      var attrs := if |items| == 1 then items[0].attrs else [];
      var span := if |items| == 1 then items[0].span else c.span;
      Success(Crate(root, attrs, config, RenumberedMacros(fld, c.exportedMacros), span))
  }

  /** The crate fold, renumbering the exported macros one at a time. */
  method NoopFoldCrate(fld: Folder, c: Crate) returns (r: FoldResult<Crate>)
    ensures r == FoldedCrate(fld, c)
  {
    var config := FoldMetaItems(fld, c.config);
    var folded := FoldItem(fld, RootItem(c));
    if folded.Failure? {
      return Failure(folded.error);
    }
    var items := folded.value;
    var root, attrs, span;
    if |items| == 0 {
      root, attrs, span := Mod(c.span, []), [], c.span;
    } else {
      if |items| > 1 {
        return Failure(CrateExpandsToMany);
      }
      if !items[0].node.ItemMod? {
        return Failure(NotAModule);
      }
      root, attrs, span := items[0].node.contents, items[0].attrs, items[0].span;
    }
    var macros := c.exportedMacros;
    var i := 0;
    while i < |macros|
      invariant 0 <= i <= |macros| == |c.exportedMacros|
      invariant forall k :: 0 <= k < i ==>
        macros[k] == c.exportedMacros[k].(id := fld.newId(c.exportedMacros[k].id))
      invariant macros[i..] == c.exportedMacros[i..]
    {
      assert macros[i] == macros[i..][0];
      macros := macros[i := macros[i].(id := fld.newId(macros[i].id))];
      i := i + 1;
    }
    assert macros == RenumberedMacros(fld, c.exportedMacros);
    r := Success(Crate(root, attrs, config, macros, span));
  }

  // ------------------------------------------------------------- crate laws

  /** The crate fold fails exactly when the root item's fold fails, expands
      to more than one item, or yields one item that is not a module; each
      case reports its own error. */
  lemma CrateFailures(fld: Folder, c: Crate)
    ensures FoldItem(fld, RootItem(c)).Failure? ==>
      FoldedCrate(fld, c) == Failure(FoldItem(fld, RootItem(c)).error)
    ensures FoldItem(fld, RootItem(c)).Success? && |FoldItem(fld, RootItem(c)).value| > 1 ==>
      FoldedCrate(fld, c) == Failure(CrateExpandsToMany)
    ensures FoldItem(fld, RootItem(c)).Success? && |FoldItem(fld, RootItem(c)).value| == 1 &&
            !FoldItem(fld, RootItem(c)).value[0].node.ItemMod? ==>
      FoldedCrate(fld, c) == Failure(NotAModule)
    ensures FoldedCrate(fld, c).Success? <==>
      && FoldItem(fld, RootItem(c)).Success?
      && |FoldItem(fld, RootItem(c)).value| <= 1
      && (|FoldItem(fld, RootItem(c)).value| == 1 ==> FoldItem(fld, RootItem(c)).value[0].node.ItemMod?)
  {
  }

  /** A root item that folds away entirely leaves an empty crate with no
      attributes, an empty module spanning the original crate, and the crate's
      own span. */
  lemma CrateFoldedAway(fld: Folder, c: Crate)
    requires FoldItem(fld, RootItem(c)) == Success([])
    ensures FoldedCrate(fld, c).Success?
    ensures FoldedCrate(fld, c).value.root == Mod(c.span, [])
    ensures FoldedCrate(fld, c).value.attrs == []
    ensures FoldedCrate(fld, c).value.span == c.span
  {
  }

  /** A root item that folds to one module gives the crate that module, and
      the folded item's attributes and span. */
  lemma CrateFromModule(fld: Folder, c: Crate, it: Item)
    requires FoldItem(fld, RootItem(c)) == Success([it]) && it.node.ItemMod?
    ensures FoldedCrate(fld, c).Success?
    ensures FoldedCrate(fld, c).value.root == it.node.contents
    ensures FoldedCrate(fld, c).value.attrs == it.attrs
    ensures FoldedCrate(fld, c).value.span == it.span
  {
  }

  /** However the root folds, a folded crate's configuration is the folded
      configuration, and its exported macros are the original ones, in order,
      each with only its id renumbered. */
  lemma CrateKeepsMacroDefs(fld: Folder, c: Crate)
    requires FoldedCrate(fld, c).Success?
    ensures FoldedCrate(fld, c).value.config == FoldMetaItems(fld, c.config)
    ensures |FoldedCrate(fld, c).value.exportedMacros| == |c.exportedMacros|
    ensures forall i :: 0 <= i < |c.exportedMacros| ==>
      var m, m' := c.exportedMacros[i], FoldedCrate(fld, c).value.exportedMacros[i];
      && m'.id == fld.newId(m.id)
      && m'.ident == m.ident && m'.attrs == m.attrs && m'.span == m.span
      && m'.exported == m.exported && m'.body == m.body
  {
  }

  /** Identity law for crates: a folder that overrides nothing (except that
      it folds macros) gives back a crate whose impl names are canonical. */
  lemma CrateIdentity(fld: Folder, c: Crate)
    requires IsIdentity(fld) && NamedMod(fld.implPrettyName, c.root)
    ensures FoldedCrate(fld, c) == Success(c)
  {
    ItemIdentity(fld, RootItem(c));
    MetaItemsIdentity(fld, c.config);
    forall i | 0 <= i < |c.exportedMacros|
      ensures RenumberedMacros(fld, c.exportedMacros)[i] == c.exportedMacros[i]
    {
      assert fld.newId(c.exportedMacros[i].id) == c.exportedMacros[i].id;
    }
    assert RenumberedMacros(fld, c.exportedMacros) == c.exportedMacros;
  }
}

# The default AST fold of libsyntax, in Dafny

This project models the compiler's AST-to-AST fold from `src/libsyntax/fold.rs`.
That file defines the `Folder` trait, which has one override point per syntax kind.
Each point defaults to a free `noop_fold_*` function. That function rebuilds the
node and calls back into the folder for every child. It sends every node id
through `new_id`, every span through `new_span` and every identifier through
`fold_ident`.

What the model contains:

- `Ast` is a reduced syntax catalogue: token trees, tokens and interpolated
  fragments (nonterminals), paths, lifetimes, meta items, attributes, types,
  patterns, expressions, statements, declarations, blocks, items, modules and
  the crate. They form one family of mutually recursive datatypes.
- `Fold` holds the `Folder` and the stock recursion. A folder is a record of
  hooks:
  - the leaf hooks `newId`, `newSpan` and `foldIdent`;
  - the flag `foldsMacros`, which says whether `fold_mac` is overridden by
    `noop_fold_mac`;
  - one arity hook each for `fold_item`, `fold_impl_item`, `fold_trait_item`,
    `fold_stmt`, `fold_decl`, `fold_opt_expr` and `fold_attribute`;
  - the external impl naming function.

  Each `NoopFoldX` follows the matching `noop_fold_*`. A `panic!` or
  `expect_one` becomes a `Failure` carrying a `FoldError`. `SmallVector` and
  `Vec` become `seq`, and `move_map`/`move_flat_map` become `Collect` and
  `FlatCollect` from `MoveMap`.
- `CrateFold` holds `noop_fold_crate`. It is an imperative method: it renumbers
  the exported macros in a loop, and it is proved equal to the specification
  function `FoldedCrate`.
- `Identity` proves the identity law. A folder that overrides nothing, except
  that it folds macros, gives back every node unchanged. Impl names are the one
  exception, because the fold recomputes them.
- `Arity` proves the list and arity laws: order-preserving flattening,
  propagation of the first failure, statement, declaration and item arity, and
  the one-result rule for interpolated fragments.
- `TokenLaws` proves the token and token-tree laws: identifier renaming,
  shape preservation, and macro folding being opt-in.
- `ZzExamples` restates the two renaming tests of `fold.rs` as lemmas over
  hand-built trees. The folder used there maps every identifier that goes through
  `fold_ident` to `zz`, and folds macros. Type-parameter names, struct-pattern
  field names and lifetime names do not go through `fold_ident`, so they keep
  their names.

## Model

| member | source | states |
|---|---|---|
| Fold.DefaultFolder | src/libsyntax/fold.rs:174-181 | the folder that overrides nothing does not fold macro invocations |
| Fold.WithMacroFolding | src/libsyntax/fold.rs:1414-1419 | overriding `fold_mac` with `noop_fold_mac` switches macro folding on |
| MoveMap.Collect | src/libsyntax/fold.rs:300-303 | a mapped list fold succeeds iff every element succeeds; it then keeps length and order; otherwise it reports the first failing element's error |
| MoveMap.Concat | src/libsyntax/fold.rs:340-342 | flattening yields as many elements as the per-element results hold together |
| MoveMap.FlatCollect | src/libsyntax/fold.rs:1012-1017 | a flat-mapped list fold succeeds iff every element's fold succeeds |
| MoveMap.OptionToSeq | src/libsyntax/fold.rs:1348-1350 | an optional result becomes a zero- or one-element list, and failure is kept |
| MoveMap.TotalLengthAppend | src/libsyntax/fold.rs:1012-1017 | the combined length of the results is additive over appended lists |
| MoveMap.ConcatAppend | src/libsyntax/fold.rs:1012-1017 | flattening distributes over appending lists of results |
| MoveMap.ConcatAt | src/libsyntax/fold.rs:1012-1017 | element `j` of result `i` sits at offset(i) + j of the flattened list |
| MoveMap.ConcatSingletons | src/libsyntax/fold.rs:1012-1017 | flattening one-element results gives back the list of those elements |
| MoveMap.CollectExactly | src/libsyntax/fold.rs:300-303 | if every element folds to a given value, the mapped fold is exactly those values |
| MoveMap.FlatCollectSingletons | src/libsyntax/fold.rs:1012-1017 | if every element folds to one node, the flat-map fold is exactly those nodes |
| MoveMap.FlatCollectAt | src/libsyntax/fold.rs:1012-1017 | when every element succeeds, each per-element result appears in place and in order in the flat-map fold |
| MoveMap.FlatCollectOf | src/libsyntax/fold.rs:1012-1017 | when every element succeeds, the flat-map fold is the concatenation of the per-element results |
| MoveMap.CollectFirstFailure | src/libsyntax/fold.rs:300-303 | the mapped fold fails with the error of the first failing element |
| MoveMap.FlatCollectFirstFailure | src/libsyntax/fold.rs:1012-1017 | the flat-map fold fails with the error of the first failing element |
| MoveMap.ConcatSingle | src/libsyntax/fold.rs:1063-1065 | flattening a single result gives that result |
| Identity.DefaultFolderIsIdentity | src/libsyntax/fold.rs:291-297 | the default folder with `noop_fold_mac` keeps ids, spans and identifiers, keeps every node each hook sees, and keeps the naming function |
| Identity.MetaItemIdentity | src/libsyntax/fold.rs:556-567 | an identity folder returns every meta item unchanged, including words and name-value literals |
| Identity.MetaItemsIdentity | src/libsyntax/fold.rs:300-303 | an identity folder returns a meta-item list unchanged |
| Identity.AttrsIdentity | src/libsyntax/fold.rs:510-521 | an identity folder keeps every attribute, unchanged and in order |
| Identity.LifetimesIdentity | src/libsyntax/fold.rs:721-727 | an identity folder keeps every lifetime and every lifetime list unchanged |
| Identity.LifetimeDefsIdentity | src/libsyntax/fold.rs:729-744 | an identity folder keeps every lifetime definition list unchanged |
| Identity.MacIdentity | src/libsyntax/fold.rs:545-554 | `noop_fold_mac` under an identity folder returns a macro invocation unchanged |
| Identity.TtsIdentity | src/libsyntax/fold.rs:601-605 | an identity folder returns a token-tree list unchanged |
| Identity.TtIdentity | src/libsyntax/fold.rs:577-599 | an identity folder returns a token tree unchanged |
| Identity.TokenIdentity | src/libsyntax/fold.rs:608-623 | an identity folder returns a token unchanged |
| Identity.InterpolatedIdentity | src/libsyntax/fold.rs:645-682 | an identity folder returns an interpolated fragment unchanged; the one-result checks pass |
| Identity.PathIdentity | src/libsyntax/fold.rs:457-466 | an identity folder returns a path unchanged |
| Identity.SegmentsIdentity | src/libsyntax/fold.rs:457-466 | an identity folder returns a path's segment list unchanged |
| Identity.SegmentIdentity | src/libsyntax/fold.rs:457-466 | an identity folder returns a path segment unchanged |
| Identity.ParamsIdentity | src/libsyntax/fold.rs:468-497 | an identity folder returns angle-bracketed and parenthesized path parameters unchanged |
| Identity.TysIdentity | src/libsyntax/fold.rs:379-427 | an identity folder returns a type list unchanged |
| Identity.TyIdentity | src/libsyntax/fold.rs:379-427 | an identity folder returns a type and its kind unchanged |
| Identity.TyOptionIdentity | src/libsyntax/fold.rs:379-427 | an identity folder returns an optional type unchanged |
| Identity.ArgIdentity | src/libsyntax/fold.rs:569-575 | an identity folder returns a function argument unchanged |
| Identity.FnDeclIdentity | src/libsyntax/fold.rs:684-694 | an identity folder returns a function signature unchanged |
| Identity.ArgsIdentity | src/libsyntax/fold.rs:684-694 | an identity folder returns an argument list unchanged |
| Identity.GenericsIdentity | src/libsyntax/fold.rs:751-758 | an identity folder returns generics unchanged |
| Identity.TyParamIdentity | src/libsyntax/fold.rs:705-714 | an identity folder returns a type parameter unchanged |
| Identity.TyParamsIdentity | src/libsyntax/fold.rs:716-719 | an identity folder returns a type parameter list unchanged |
| Identity.TraitRefIdentity | src/libsyntax/fold.rs:825-835 | an identity folder returns an optional trait reference unchanged |
| Identity.MethodSigIdentity | src/libsyntax/fold.rs:1108-1117 | an identity folder returns a method signature unchanged |
| Identity.PatsIdentity | src/libsyntax/fold.rs:1119-1169 | an identity folder returns a pattern list unchanged |
| Identity.PatIdentity | src/libsyntax/fold.rs:1119-1169 | an identity folder returns a pattern and its kind unchanged |
| Identity.FieldPatIdentity | src/libsyntax/fold.rs:1119-1169 | an identity folder returns a field pattern unchanged |
| Identity.FieldPatsIdentity | src/libsyntax/fold.rs:1119-1169 | an identity folder returns a field pattern list unchanged |
| Identity.ExprOptionIdentity | src/libsyntax/fold.rs:1344-1346 | an identity folder returns an optional expression unchanged, and `fold_opt_expr` keeps it |
| Identity.ExprsIdentity | src/libsyntax/fold.rs:1348-1350 | an identity folder returns an expression list unchanged |
| Identity.ExprIdentity | src/libsyntax/fold.rs:1171-1342 | an identity folder returns an expression unchanged |
| Identity.ExprKindIdentity | src/libsyntax/fold.rs:1171-1342 | an identity folder returns every expression kind unchanged |
| Identity.ArmIdentity | src/libsyntax/fold.rs:348-355 | an identity folder returns a match arm unchanged |
| Identity.ArmsIdentity | src/libsyntax/fold.rs:348-355 | an identity folder returns a list of match arms unchanged |
| Identity.FieldIdentity | src/libsyntax/fold.rs:858-864 | an identity folder returns a struct-literal field unchanged |
| Identity.FieldsIdentity | src/libsyntax/fold.rs:858-864 | an identity folder returns a list of struct-literal fields unchanged |
| Identity.BlockIdentity | src/libsyntax/fold.rs:883-891 | an identity folder returns a block unchanged |
| Identity.BlockOptionIdentity | src/libsyntax/fold.rs:883-891 | an identity folder returns an optional block unchanged |
| Identity.StmtsIdentity | src/libsyntax/fold.rs:1352-1392 | an identity folder returns a statement list unchanged |
| Identity.StmtIdentity | src/libsyntax/fold.rs:1352-1392 | an identity folder folds a statement to exactly itself |
| Identity.DeclIdentity | src/libsyntax/fold.rs:357-368 | an identity folder folds a declaration to exactly itself |
| Identity.LocalIdentity | src/libsyntax/fold.rs:499-508 | an identity folder returns a `let` binding unchanged |
| Identity.ItemIdentity | src/libsyntax/fold.rs:1063-1088 | an identity folder folds an item with canonical impl names to exactly itself |
| Identity.ModIdentity | src/libsyntax/fold.rs:1012-1017 | an identity folder returns a module unchanged |
| Identity.ItemsIdentity | src/libsyntax/fold.rs:1012-1017 | an identity folder returns an item list unchanged |
| Identity.ItemKindIdentity | src/libsyntax/fold.rs:893-963 | an identity folder returns every item kind unchanged |
| Identity.TraitItemIdentity | src/libsyntax/fold.rs:965-987 | an identity folder folds a trait item to exactly itself |
| Identity.ImplItemIdentity | src/libsyntax/fold.rs:989-1010 | an identity folder folds an impl item to exactly itself |
| Identity.TraitItemsIdentity | src/libsyntax/fold.rs:951-960 | an identity folder returns a trait's item list unchanged |
| Identity.ImplItemsIdentity | src/libsyntax/fold.rs:934-950 | an identity folder returns an impl's item list unchanged |
| CrateFold.NoopFoldCrate | src/libsyntax/fold.rs:1019-1060 | the crate fold, with each exported macro's id renumbered in place by a loop, yields exactly `FoldedCrate` |
| CrateFold.CrateFailures | src/libsyntax/fold.rs:1032-1042 | the crate fold fails iff the root item's fold fails, expands to more than one item, or yields one non-module; each case reports its own error |
| CrateFold.CrateFoldedAway | src/libsyntax/fold.rs:1043-1047 | a root that folds to nothing gives an empty module spanning the crate, no attributes and the crate's span |
| CrateFold.CrateFromModule | src/libsyntax/fold.rs:1032-1041 | a root that folds to one module gives that module and the folded item's attributes and span |
| CrateFold.CrateKeepsMacroDefs | src/libsyntax/fold.rs:1021-1059 | the configuration is folded as meta items; the exported macros keep count and order and everything but their id, which goes through `newId` |
| CrateFold.CrateIdentity | src/libsyntax/fold.rs:1019-1060 | an identity folder returns a crate with canonical impl names unchanged |
| Arity.ItemsSplice | src/libsyntax/fold.rs:1012-1017 | a module's items fold to the per-item results concatenated in order; the length is their total length |
| Arity.ItemsFirstFailure | src/libsyntax/fold.rs:1012-1017 | a module's item fold fails with the first failing item's error |
| Arity.StmtsSplice | src/libsyntax/fold.rs:883-891 | a block's statements fold to the per-statement results concatenated in order; the length is their total length |
| Arity.StmtsFirstFailure | src/libsyntax/fold.rs:883-891 | a block's statement fold fails with the first failing statement's error |
| Arity.TraitItemsSplice | src/libsyntax/fold.rs:951-960 | a trait's items fold to the per-item results concatenated in order |
| Arity.TraitItemsFirstFailure | src/libsyntax/fold.rs:951-960 | a trait's item fold fails with the first failing item's error |
| Arity.ImplItemsSplice | src/libsyntax/fold.rs:934-950 | an impl's items fold to the per-item results concatenated in order |
| Arity.ImplItemsFirstFailure | src/libsyntax/fold.rs:934-950 | an impl's item fold fails with the first failing item's error |
| Arity.ExprsSplice | src/libsyntax/fold.rs:1348-1350 | an expression list folds to the kept expressions in order, never more than the input |
| Arity.ExprsFirstFailure | src/libsyntax/fold.rs:1348-1350 | an expression list fold fails with the first failing expression's error |
| Arity.AtMostOneEach | src/libsyntax/fold.rs:1348-1350 | flattening results of at most one element each never lengthens the list |
| Arity.AttrsSplice | src/libsyntax/fold.rs:340-342 | an attribute list folds to the kept attributes in order, never more than the input, and never fails |
| Arity.ExpandOne | src/libsyntax/fold.rs:1063-1065 | an arity hook applied to a single node's result yields just that hook's output |
| Arity.ItemArity | src/libsyntax/fold.rs:1063-1088 | the stock item fold yields exactly one item; `fold_item` is the hook applied to the folded item |
| Arity.TraitItemArity | src/libsyntax/fold.rs:965-987 | the stock trait-item fold yields exactly one item; `fold_trait_item` is the hook applied to it |
| Arity.ImplItemArity | src/libsyntax/fold.rs:989-1010 | the stock impl-item fold yields exactly one item; `fold_impl_item` is the hook applied to it |
| Arity.StmtDeclArity | src/libsyntax/fold.rs:1356-1362 | a declaration statement yields one statement per folded declaration, each with the same new id and span, and fails as the declaration fails |
| Arity.StmtExprArity | src/libsyntax/fold.rs:1363-1384 | an expression or semicolon statement yields no statement when `fold_opt_expr` drops it, otherwise one of the same kind with new id and span |
| Arity.StmtMacArity | src/libsyntax/fold.rs:1385-1390 | a macro statement yields exactly one statement, and fails when macro folding is off |
| Arity.DeclArity | src/libsyntax/fold.rs:357-368 | a `let` declaration yields exactly one declaration; an item declaration yields one declaration per folded item, all with the same new span |
| Arity.KeepingStmtHook | src/libsyntax/fold.rs:1352-1392 | with a statement hook that keeps its node, `fold_stmt` is the stock statement fold |
| Arity.KeepingDeclHook | src/libsyntax/fold.rs:357-368 | with a declaration hook that keeps its node, `fold_decl` is the stock declaration fold |
| Arity.KeepingItemHook | src/libsyntax/fold.rs:1063-1065 | with an item hook that keeps its node, `fold_item` is the stock item fold |
| Arity.ExpandKeeping | src/libsyntax/fold.rs:1063-1065 | a hook that keeps its node leaves every list unchanged |
| Arity.InterpolatedItem | src/libsyntax/fold.rs:648-653 | an item fragment folds iff `fold_item` yields exactly one item; otherwise it reports that error or the one-result error |
| Arity.InterpolatedStmt | src/libsyntax/fold.rs:655-660 | a statement fragment folds iff `fold_stmt` yields exactly one statement; otherwise it reports that error or the one-result error |
| Arity.InterpolatedImplItem | src/libsyntax/fold.rs:672-674 | an impl-item fragment folds iff `fold_impl_item` yields exactly one impl item; otherwise it reports that error or the one-result error |
| Arity.InterpolatedTraitItem | src/libsyntax/fold.rs:675-677 | a trait-item fragment folds iff `fold_trait_item` yields exactly one trait item; otherwise it reports that error or the one-result error |
| Arity.InterpolatedItemKept | src/libsyntax/fold.rs:648-653 | with an item hook that keeps its node, an item fragment folds exactly as its item does |
| TokenLaws.TokenDeterminedByIdents | src/libsyntax/fold.rs:608-623 | a token is determined by its identifier-free skeleton and its identifiers |
| TokenLaws.TokenRenamesIdents | src/libsyntax/fold.rs:608-623 | a token that is not interpolated always folds; `fold_ident` renames each of its identifiers and every flag and style is kept |
| TokenLaws.TokenWithoutIdentsUnchanged | src/libsyntax/fold.rs:608-623 | a token with no identifiers that is not interpolated is returned unchanged |
| TokenLaws.TokenFailure | src/libsyntax/fold.rs:608-623 | a token fold fails iff the token is interpolated and its fragment's fold fails; otherwise an interpolated token is re-wrapped |
| TokenLaws.InterpolatedKeepsKind | src/libsyntax/fold.rs:645-682 | a fragment folds to a fragment of the same kind; an identifier fragment keeps its span and renames its identifier |
| TokenLaws.TokenKeepsShape | src/libsyntax/fold.rs:608-623 | a folded token has the same variant and the same non-identifier fields |
| TokenLaws.TtKeepsShape | src/libsyntax/fold.rs:577-599 | a folded token tree keeps every span, delimiter, repetition operator, capture count and separator presence, recursively |
| TokenLaws.TtsKeepShape | src/libsyntax/fold.rs:601-605 | a folded token-tree list has the same length, and each tree keeps its shape, in order |
| TokenLaws.FragmentFreeTtFolds | src/libsyntax/fold.rs:577-599 | a token tree without interpolated fragments always folds |
| TokenLaws.FragmentFreeTtsFold | src/libsyntax/fold.rs:601-605 | a token-tree list without interpolated fragments always folds |
| TokenLaws.FoldTtsPointwise | src/libsyntax/fold.rs:601-605 | a token-tree list folds iff each tree folds, and then to the folded trees in order |
| TokenLaws.TtRenamesIdents | src/libsyntax/fold.rs:577-623 | a token tree without fragments always folds, and its identifiers come out in order, each passed through `fold_ident` |
| TokenLaws.TtsRenameIdents | src/libsyntax/fold.rs:601-605 | the same renaming law for a list of token trees |
| TokenLaws.ConstantRenamingTt | src/libsyntax/fold.rs:577-623 | a folder mapping every identifier to `k` turns a tree without fragments into one of the same shape whose every identifier is `k` |
| TokenLaws.MacOptIn | src/libsyntax/fold.rs:174-181 | the default `fold_mac` always fails; once overridden by `noop_fold_mac`, it is that function |
| TokenLaws.NoopMacFold | src/libsyntax/fold.rs:545-554 | `noop_fold_mac` folds the path, folds each token tree in order (so keeping its shape), keeps the hygiene context and maps the span |
| TokenLaws.DefaultFolderRejectsMacros | src/libsyntax/fold.rs:174-181 | the default folder fails on a macro item, a macro statement and a macro expression |
| ZzExamples.ZzFolder | src/libsyntax/fold.rs:1410-1420 | the test folder maps every identifier that goes through `fold_ident` to `zz`, and folds macros |
| ZzExamples.EmptyListsZz | src/libsyntax/fold.rs:1410-1420 | the renaming folder returns empty lists and empty generics unchanged |
| ZzExamples.SimplePathZz | src/libsyntax/fold.rs:457-466 | the renaming folder keeps a one-segment path and renames its identifier to `zz` |
| ZzExamples.LeavesZz | src/libsyntax/fold.rs:1437-1448 | the renaming folder renames a path type, a binding pattern, a path expression and an identifier token to `zz` |
| ZzExamples.TtsExactly | src/libsyntax/fold.rs:601-605 | if each tree folds to a given tree, the list folds to those trees |
| ZzExamples.ArgsExactly | src/libsyntax/fold.rs:684-694 | if each argument folds to a given argument, the argument list folds to those arguments |
| ZzExamples.MacroCallZz | src/libsyntax/fold.rs:1437-1448 | the renaming folder turns `h!(i,j,k)` into `zz!(zz,zz,zz)` |
| ZzExamples.FnSigZz | src/libsyntax/fold.rs:1437-1448 | the renaming folder turns `(d : e, f : g)` into `(zz:zz,zz:zz)` |
| ZzExamples.FnBodyZz | src/libsyntax/fold.rs:1437-1448 | the renaming folder turns `{h!(i,j,k);l;m}` into `{zz!(zz,zz,zz);zz;zz}` |
| ZzExamples.FnItemZz | src/libsyntax/fold.rs:1437-1448 | the renaming folder turns `fn c (d : e, f : g) {...}` into exactly one `fn zz(zz:zz,zz:zz){...}` |
| ZzExamples.AttrsZz | src/libsyntax/fold.rs:1437-1448 | the renaming folder keeps the attribute `#[a]` unchanged |
| ZzExamples.ModItemZz | src/libsyntax/fold.rs:1437-1448 | the renaming folder turns `#[a] mod b {...}` into exactly one `#[a]mod zz{...}` |
| ZzExamples.ModCrateZz | src/libsyntax/fold.rs:1437-1448 | the crate fold of `#[a] mod b {fn c (d : e, f : g) {h!(i,j,k);l;m}}` gives `#[a]mod zz{fn zz(zz:zz,zz:zz){zz!(zz,zz,zz);zz;zz}}` |
| ZzExamples.MetaVarsZz | src/libsyntax/fold.rs:1450-1462 | the renaming folder renames both identifiers of `$c:expr` and the identifier of `$d` to `zz` |
| ZzExamples.MacroPatternZz | src/libsyntax/fold.rs:1450-1462 | the renaming folder turns the pattern `b $c:expr $(d $e:token)f+` into `zz$zz:zz$(zz $zz:zz)zz+` |
| ZzExamples.MacroTemplateZz | src/libsyntax/fold.rs:1450-1462 | the renaming folder turns the template `(g $(d $d $e)+)` into `(zz$(zz$zz$zz)+)` |
| ZzExamples.MacroRuleZz | src/libsyntax/fold.rs:1450-1462 | the renaming folder folds the whole rule, keeping `=>` and the `+` operators |
| ZzExamples.MacroRulesItemZz | src/libsyntax/fold.rs:1450-1462 | the renaming folder turns `macro_rules! a {...}` into exactly one `zz!zz(...)` item |
| ZzExamples.MacroRulesCrateZz | src/libsyntax/fold.rs:1450-1462 | the crate fold of the `macro_rules!` crate gives the all-`zz` crate |
| ZzExamples.ZzFolderExamples | src/libsyntax/fold.rs:1437-1462 | both renaming tests hold for the test folder on the source's own identifiers |
| ZzExamples.UnrenamedPositions | src/libsyntax/fold.rs:705-727 | for every folder, type-parameter, struct-pattern field and lifetime names come out as they went in |
| ZzExamples.ZzSkipsUnrenamedPositions | src/libsyntax/fold.rs:1143-1150 | under the renaming folder, `T`, the field `x` and `'a` keep their names while the binding `y` becomes `zz` |

## Left out

- The syntax catalogue is a representative subset. These kinds are not modelled:
  - where clauses, type parameter bounds, poly trait references and `NtWhereClause`;
  - foreign items and foreign modules;
  - view paths, enum variants, struct items, variant data and struct fields;
  - type bindings, explicit `self`, and `TupField`;
  - inline assembly, slice patterns and qualified-path patterns;
  - bare function types (`TyKind::BareFn`), trait-object sums (`TyKind::ObjectSum`)
    and default impls (`ItemKind::DefaultImpl`);
  - the expression kinds not listed in `Ast.ExprKind`.

  `noop_fold_usize` is the identity and is not modelled either.
- The renaming law for the syntax tree (a folder whose `fold_ident` is a
  constant `k` makes every identifier position `k`) is proved for all inputs
  only for token trees without fragments (`TokenLaws.ConstantRenamingTt`). For
  the rest of the tree it is shown by example only, in `ZzExamples`. The law
  would not hold there as stated: type-parameter names (fold.rs:709),
  struct-pattern field names (fold.rs:1147) and lifetime names (fold.rs:724)
  are copied, not renamed. `ZzExamples.UnrenamedPositions` and
  `ZzExamples.ZzSkipsUnrenamedPositions` state this.
- Override points that replace the stock recursion outright are not modelled. A
  folder customizes only the leaf hooks, whether it folds macros, and what each
  arity hook makes of the stock fold's result. For every kind without an arity
  hook, the model calls the stock recursion directly.
- Stateful folders are not modelled. Every hook is a pure function, so a
  `new_id` that draws from a counter cannot be expressed.
- `ast_util::impl_pretty_name` is not part of this model. It is the folder's
  `implPrettyName` field, and nothing is assumed about it. The identity laws
  therefore need their input's impl items to already carry that function's
  name. The `Named` predicates in `Identity` state this.
- Boxing and container plumbing (`P`, `Rc`, `ThinAttributes`, `SmallVector`,
  `move_map` and `move_flat_map`) becomes `seq` and `Option`. Reuse of storage
  in place is not modelled.
- The parser and the pretty printer are not modelled (`string_to_crate`,
  `pprust`, `matches_codepattern`). The two renaming tests are therefore stated
  as equalities between hand-built trees, not between printed strings.
- Hygiene contexts are copied verbatim. Spans are pairs of naturals. Node ids
  are naturals, with the dummy id as the 32-bit all-ones value.
- The order in which hooks are called within one node is not modelled. The
  hooks are pure, so that order cannot change the result.

# Jesse strategy merger — a Dafny model of `FunctionMerger`

`merge_strategies.py` merges several Jesse trading strategies into one
strategy class. Its core is the `FunctionMerger` syntax-tree transformer,
which works in three phases:

1. **Renaming.** Every strategy file is renamed on its own. A
   `self.<name>` attribute, a `def <name>` or a `self.<name>(...)` call gets
   the prefix `<strategy>_`, unless the name is a reserved Jesse name or
   already carries that prefix. The strategy name is the directory that holds
   the file.
2. **Merging.** The definitions of each function name are merged across all
   files, module by module in file order. In the combined body, each module's
   code is preceded by a `# Merged from <file>` marker.
   - The entry evaluators `should_long` and `should_short` have each
     `return e` in the walked blocks (not in `except` handlers or `finally`)
     turned into an ownership claim on `self.active_strategy`.
   - The gated callbacks wrap each module's code in a test, so that it runs
     only while that module owns the trade. The first super call, from the
     first module that has one, is copied once in front of that module's
     block, outside the test, so it runs whoever owns the trade. Later super
     calls are not copied and stay inside their modules' tests.
   - The `hyperparameters` lists are concatenated. The merged definition
     holds only a comment and the concatenated list, with no markers.
   - `should_short`, when some module defines it, is rebuilt from the
     modules' rewritten bodies, with no markers, after a check that returns
     `False` whenever `should_long` holds.
   - `on_close_position` and `__init__` reset the owner to `None`.
3. **Assembly.** The merged functions are emitted in one class deriving from
   `Strategy`: attributes first, then properties, then protocol functions,
   then everything else.

The model is organised as follows:

- `Ast.dfy` holds the part of Python's syntax the merger reads or builds.
- `Paths.dfy` models `get_strategy_name`.
- `Naming.dfy` holds the reserved names and the prefix rule.
- `Renamer.dfy` holds the renaming pass. Pure functions say what the pass
  produces. The class `Renamer` has visitor methods that produce it while they
  grow `modified_functions`.
- `Walk.dfy` models `ast.walk` and the definition table built by
  `collect_functions`.
- `Returns.dfy` models `modify_return_statements`.
- `Merge.dfy` holds the merge and assembly phases. Functions give each merged
  definition. The class `Merger` fills `file_functions` and `merged_functions`
  in place.
- `Semantics.dfy` is a small evaluator for the statements the merger builds.
  It states what the merged callbacks do when they run: which module claims a
  trade, what `should_short` does when `should_long` holds, and who runs a
  gated callback.

The code's quirks are modelled as written and shown by lemmas:

- `on_close_position` repeats the blocks of earlier modules.
- The first super call is copied once, in front of the block of the first
  module that has one, and also stays in that module's body.
- A rewritten `return 'yes'` no longer returns.
- A helper name can be renamed into a protocol name.
- Renaming is not injective: in strategy `go`, helpers `x` and `go_x` both
  become `go_x`.
- In a gated callback, that copied super call runs unguarded, whoever owns
  the trade.

## Model

| member | source | states |
|---|---|---|
| Paths.Split | merge_strategies.py:65 | `str.split`: at least one part; no part contains the separator; exactly one part iff the separator does not occur |
| Paths.StrategyName | merge_strategies.py:63-65 | the next-to-last path component; absent (Python's `IndexError`) exactly when the path has no `/`; the result never contains `/` |
| Paths.SplitJoin | merge_strategies.py:65 | splitting a join of separator-free components gives those components back |
| Paths.JoinSplit | merge_strategies.py:65 | joining the parts of a split gives the path back, so no character is lost |
| Paths.SplitNoSep | merge_strategies.py:65 | a string without the separator splits into itself |
| Paths.SplitAfterComponent | merge_strategies.py:65 | splitting `a/rest` gives `a` followed by the parts of `rest` |
| Paths.StrategyNameOfStrategyFile | merge_strategies.py:63-65 | for the path `strategies/<name>/__init__.py` that `merge_files` builds, the strategy name is `<name>` |
| Naming.Rename | merge_strategies.py:73-98 | a name changes iff it is neither reserved (attributes + functions) nor already prefixed with `<strategy>_`; when it changes, it becomes exactly `<strategy>_` + name; the result is prefixed unless the name is reserved |
| Naming.RenameIdempotent | merge_strategies.py:77-78 | renaming an already renamed name changes nothing |
| Naming.ProtocolNamesKept | merge_strategies.py:25-45 | protocol names such as `should_long` and the gated callbacks are never renamed |
| Naming.RenameInjective | merge_strategies.py:77-78 | two distinct names that the rule renames never collide |
| Naming.RenameCanReachProtocolName | merge_strategies.py:83-86 | strategy `go` with helper `self.long` gets `go_long`, which is a gated callback name |
| Naming.RenameCollidesWithPrefixed | merge_strategies.py:77-78 | strategy `go` with helpers `self.x` and `self.go_x` gets `go_x` for both, so the prefix rule can merge two distinct helpers into one name |
| Renaming.ExprRenamed | merge_strategies.py:73-98 | on an expression, the pass is idempotent, and the called `self` methods after it are exactly the renamed called methods before it |
| Renaming.CallRenamed | merge_strategies.py:90-98 | the `self.<name>(...)` case of the pass keeps idempotence and maps the called names through the rule |
| Renaming.ExprsRenamed | merge_strategies.py:73-98 | the same for an expression list |
| Renaming.OptRenamed | merge_strategies.py:73-98 | the same for an optional expression |
| Renaming.StmtRenamed | merge_strategies.py:81-98 | on a statement, the pass is idempotent; called names and defined names after it are the renamed names before it |
| Renaming.HandlersRenamed | merge_strategies.py:79-98 | the same for `except` handlers, which the generic visit reaches |
| Renaming.BodyRenamed | merge_strategies.py:81-98 | the same for a statement list: applying the pass twice gives the same tree as applying it once |
| Renaming.DefinitionAndCallsAgree | merge_strategies.py:81-98 | a method that a module both defines and calls is, after the pass, defined and called under the same name |
| Renaming.CallsReachRenamedDefs | merge_strategies.py:90-98 | every call target after the pass is the renamed form of a target that was called before it |
| Renaming.Renamer.constructor | merge_strategies.py:48-55 | the strategy is the name taken from the file path; `modified_functions` starts empty |
| Renaming.RenameExpr | merge_strategies.py:73-98 | the pass on an expression: names and constants are left alone, and attributes and calls stay attributes and calls; that only attribute names of `self` change is stated by `Renaming.OnlySelfAttrsChange` |
| Renaming.OnlySelfAttrsChange | merge_strategies.py:73-98 | apart from the attribute names of `self`, the renamed expression equals the original: other names, non-`self` receivers' attributes, constants and operators are unchanged |
| Renaming.RenameBody | merge_strategies.py:81-98 | the pass on a statement list keeps one statement for each statement |
| Renaming.Renamer.VisitAttribute | merge_strategies.py:73-79 | returns the renamed `<value>.<attr>`; `modified_functions` gains exactly the renamed self-call names inside `<value>`, and nothing for the attribute itself |
| Renaming.Renamer.VisitExpr | merge_strategies.py:90-98 | returns the renamed expression; `modified_functions` gains exactly the new names of the `self.<name>(...)` calls it renames |
| Renaming.Renamer.VisitExprs | merge_strategies.py:73-98 | returns the renamed expression list; `modified_functions` gains exactly the new names of the self calls it renames |
| Renaming.Renamer.VisitOpt | merge_strategies.py:73-98 | returns the renamed optional expression; `modified_functions` gains exactly the new names of the self calls it renames |
| Renaming.Renamer.VisitFunctionDef | merge_strategies.py:81-88 | returns the renamed definition, so the `modified_functions` test never blocks a rename; `modified_functions` gains exactly the new names of the renamed `def`s and self calls inside it |
| Renaming.Renamer.VisitStmt | merge_strategies.py:81-98 | returns the renamed statement; `modified_functions` gains exactly the new names of the renamed `def`s and self calls inside it |
| Renaming.Renamer.VisitHandlers | merge_strategies.py:79-98 | returns the renamed handlers; `modified_functions` gains exactly the new names of the renamed `def`s and self calls inside them |
| Renaming.Renamer.VisitBody | merge_strategies.py:81-98 | returns the renamed statement list; `modified_functions` gains exactly the new names of the renamed `def`s and self calls inside it |
| Walk.BreadthFirstDefs | merge_strategies.py:104-106 | the names of the definitions the breadth-first walk meets are the names defined anywhere in the queued nodes |
| Walk.BreadthFirst | merge_strategies.py:104 | `ast.walk` order: the walk starts with the first queued node and meets every queued node |
| Walk.DefTable | merge_strategies.py:103-106 | every entry of `function_map` is stored under its definition's own name |
| Walk.WalkMeetsEveryDef | merge_strategies.py:104-106 | `ast.walk` over a module meets every nested `def`, including methods of classes |
| Walk.DefTableLastWins | merge_strategies.py:103-106 | a name is in the table iff some walked node defines it; its entry is the last definition of that name in walk order |
| Walk.CollectedNames | merge_strategies.py:100-107 | the table's keys are exactly the names defined anywhere in the tree |
| Returns.RewriteStmtClaims | merge_strategies.py:112-142 | after rewriting one statement, every reachable `return` is `return True` right after the claim, and the result never starts with a `return` |
| Returns.RewriteReturnsClaims | merge_strategies.py:109-143 | after the rewrite, every `return` in the walked lists is `return True`, directly after `self.active_strategy = '<strategy>'` |
| Returns.UnrewriteRewrite | merge_strategies.py:109-143 | folding each temporary-plus-claim pair back into `return e` gives the original body: other statements keep their order, and handlers and `finally` blocks are untouched |
| Returns.RewriteStmt | merge_strategies.py:112-142 | one statement's rewrite: a `return e` becomes the temporary assignment and the claim, compound statements are rewritten inside, others are kept; its properties are stated by `Returns.RewriteStmtClaims` |
| Returns.RewriteReturns | merge_strategies.py:109-143 | the rewrite of a statement list, statement by statement; its properties are stated by `Returns.RewriteReturnsClaims`, `Returns.UnrewriteRewrite` and `Returns.RewriteRemovesTopLevelReturns` |
| Returns.RewriteRemovesTopLevelReturns | merge_strategies.py:112-134 | no `return` is left among the rewritten statements themselves; each statement stays one, only a `return` becomes two |
| Merge.ContribsAreDefinitions | merge_strategies.py:158-163 | the contributions for a name are exactly the files that define it, each with its own definition and strategy name |
| Merge.Contribs | merge_strategies.py:158-163 | the modules that define a name, with their strategy names, in file order; its properties are stated by `Merge.ContribsAreDefinitions` and `Merge.ContribsInFileOrder` |
| Merge.DefinersAreDefiningPositions | merge_strategies.py:158-159 | the defining positions are exactly the positions of the files that define the name, strictly increasing |
| Merge.ContribsAtDefiners | merge_strategies.py:158-163 | the k-th contribution is the definition of the file at the k-th defining position |
| Merge.ContribsInFileOrder | merge_strategies.py:158-163 | contributions come from strictly increasing file positions and miss no definer; when the first file defines the name, its definition comes first, so it supplies `first_func` |
| Merge.FirstSuperCall | merge_strategies.py:179-185 | the call found is in the body and is a `<x>.<name>(...)` call statement; none is found iff the body has no such statement |
| Merge.FirstSuperCallIsFirst | merge_strategies.py:179-185 | the call found sits at a position with no such call before it, and a call at such a position is the one found |
| Merge.Block | merge_strategies.py:186-202 | one module's block: the marker, then the module's body, wrapped in the owner test for a gated name; nothing for `hyperparameters` |
| Merge.Combined | merge_strategies.py:155-202 | `combined_body` after the given modules: the blocks in order, with the first super call copied once; its properties are stated by the lemmas below |
| Merge.CombinedLength | merge_strategies.py:179-202 | the combined body holds the module blocks and exactly one statement more iff some module has a super call |
| Merge.SuperAddedMeans | merge_strategies.py:182-184 | `super_call_added` holds iff some module so far has a super call |
| Merge.CombinedWithoutSuperCall | merge_strategies.py:186-201 | without a super call, the merged body is each module's block in turn |
| Merge.CombinedWithSuperCall | merge_strategies.py:179-201 | the first module's super call is inserted once, between the blocks of the modules before it and its own block, which still contains the call |
| Merge.GatedLayout | merge_strategies.py:187-197 | when no module has a super call, a merged gated callback is, for module i, the marker at 2i and `if self.active_strategy == '<strategy>': <body>` at 2i+1 |
| Merge.BlocksGated | merge_strategies.py:187-197 | the same layout for the concatenated module blocks |
| Merge.GatedBlockShape | merge_strategies.py:187-197 | one module's block for a gated name is its marker and its guarded body |
| Merge.HyperAppend | merge_strategies.py:171-175 | the collected hyperparameters of two module lists are the concatenation of each list's own |
| Merge.Hyper | merge_strategies.py:171-175 | `combined_hyperparameters` after the given modules; its properties are stated by `Merge.HyperAppend`, `Merge.HyperMembers` and `Merge.HyperparametersUnion` |
| Merge.ListReturnsMembers | merge_strategies.py:173-175 | an element is collected from a body iff some top-level `return [...]` lists it; other returns contribute nothing |
| Merge.HyperMembers | merge_strategies.py:171-175 | an element is in the merged list iff some module's `hyperparameters` returns it in a list literal |
| Merge.HyperparametersUnion | merge_strategies.py:213-226 | the final `hyperparameters` definition is the comment followed by `return [<list>]`, and an element is in that list iff some defining module returns it in a list literal |
| Merge.OnCloseBodyOfTwo | merge_strategies.py:203-205 | with two modules, the collected `on_close_position` body is the first block followed by the whole combined body |
| Merge.OnCloseRepeatsEarlierModules | merge_strategies.py:203-205 | with two modules, the final `on_close_position` runs the first module's guarded block twice, then the second module's, then the reset |
| Merge.ShortBody | merge_strategies.py:167-170 | `should_short_body` after the given modules: their rewritten bodies in order, with no markers; its properties are stated by `Merge.ShortBodyHasNoReturn` and `Merge.ShortNonEmpty` |
| Merge.ShortBodyHasNoReturn | merge_strategies.py:167-170 | the collected `should_short` body holds no `return` of its own: every module's returns were turned into claims |
| Merge.OnCloseBody | merge_strategies.py:203-205 | `on_close_position_body` after the given modules: the whole combined body appended after each module; its properties are stated by `Merge.OnCloseBodyOfTwo` and `Merge.OnCloseNonEmpty` |
| Merge.MergedDef | merge_strategies.py:206-226 | the definition stored for a name takes the name, and the parameters, decorators and return annotation of the first definer |
| Merge.FinalDef | merge_strategies.py:219-296 | the definition `merged_functions` finally holds for a name carries that name |
| Merge.AccumulatedStep | merge_strategies.py:158-205 | one module step keeps every accumulator equal to its definition over the modules seen so far |
| Merge.ClassBodyIsPermutation | merge_strategies.py:309-320 | the four groups together hold every merged function exactly once, so the class body is a rearrangement of `merged_functions` |
| Merge.GroupOf | merge_strategies.py:311-319 | the group of a merged function: properties first by decorator, then attributes, protocol functions and the rest by name; its use is stated by `Merge.ClassBodyIsPermutation` |
| Merge.Select | merge_strategies.py:311-321 | the definitions of one group, in `merged_functions` order; its use is stated by `Merge.ClassBodyIsPermutation` |
| Merge.Merger.constructor | merge_strategies.py:49-55 | one empty function table per file; nothing merged yet |
| Merge.Merger.CollectFunctions | merge_strategies.py:100-107 | the file's table becomes the last-definition-wins table of the walked tree; the other files' tables are unchanged |
| Merge.Merger.Put | merge_strategies.py:226 | dict assignment: the entry is set; a new key goes last and an existing key keeps its place |
| Merge.Merger.ComposeName | merge_strategies.py:155-205 | for one name: the first definer's definition, the combined body, and each accumulator extended by exactly this name's share |
| Merge.AddModule | merge_strategies.py:159-205 | one module's step: super-call flag, combined body, hyperparameters, `should_short` body and `on_close_position` body as specified |
| Merge.ListReturnsOf | merge_strategies.py:173-175 | the loop collects exactly the elements of the top-level list returns |
| Merge.ScanSuperCall | merge_strategies.py:179-185 | the loop copies the first super call in front exactly when none was added before, and sets the flag |
| Merge.Merger.MergeName | merge_strategies.py:154-226 | merging one more name keeps the merger state equal to its definition over the names merged so far |
| Merge.Merger.MergeNames | merge_strategies.py:154-226 | after the name loop, the state is the one defined for all names in iteration order |
| Merge.LoopEnd | merge_strategies.py:228-296 | after the loop, the protocol definitions added on top give each name its final definition |
| Merge.Merger.AddProtocolDefinitions | merge_strategies.py:228-296 | installs the `should_short`, `on_close_position` and `__init__` definitions in the order the code does |
| Merge.ProtocolOrderAppends | merge_strategies.py:228-296 | the protocol step only appends `should_short`, `on_close_position` and `__init__`, each only when it is not already a key |
| Merge.ProtocolDefinitionsAreFinal | merge_strategies.py:228-296 | every entry after the protocol step is the final definition of its name |
| Merge.WithProtocolLookup | merge_strategies.py:255-296 | the keys and values after the protocol step: `should_short` and `on_close_position` are rebuilt when their collected bodies are non-empty, and `__init__` is synthesized only when missing |
| Merge.Merger.MergeFunctions | merge_strategies.py:145-296 | the merged keys are the defined names in iteration order, plus `__init__` if no module defines it; each entry is that name's final definition |
| Merge.Merger.GenerateMergedTree | merge_strategies.py:298-330 | one class with base `Strategy` whose body is attributes, then properties, then protocol functions, then others, each in `merged_functions` order |
| Merge.CollectedNamesInOrder | merge_strategies.py:147-154 | every name that some module defines is visited by the name loop |
| Merge.OnCloseNonEmpty | merge_strategies.py:258 | the collected `on_close_position` body is non-empty iff some module defines it, so none is synthesized otherwise |
| Merge.ShortNonEmpty | merge_strategies.py:167-229 | the collected `should_short` body is non-empty, so `should_short` is rebuilt, iff some module defines it with a non-empty body, as every Python `def` has |
| Semantics.ResetOwnerReleases | merge_strategies.py:259-262 | the reset statement sets the owner to `None` and keeps the locals |
| Semantics.Eval | merge_strategies.py:109-296 | the meaning of the expressions the merger builds or compares; its properties are stated by the lemmas below |
| Semantics.Exec | merge_strategies.py:109-296 | the meaning of the statements the merger builds; its properties are stated by the lemmas below |
| Semantics.MarkerSkipped | merge_strategies.py:195 | a provenance marker has no effect |
| Semantics.GuardRunsOnlyOwner | merge_strategies.py:187-193 | the guard runs the body iff the module owns the trade, and otherwise does nothing |
| Semantics.RewrittenReturn | merge_strategies.py:113-134 | a rewritten `return e` stores the value and returns True while claiming the trade iff the value `== True`; otherwise it continues |
| Semantics.TruthyReturnFallsThrough | merge_strategies.py:121-125 | `return 'yes'` returns a truthy value, but its rewrite does not return |
| Semantics.ClaimIfClaims | merge_strategies.py:126-133 | the claim can only return True, with the module as owner |
| Semantics.RewrittenStmtClaims | merge_strategies.py:135-140 | a rewritten statement that returns, returns True with the module as owner |
| Semantics.RewrittenBodyClaims | merge_strategies.py:109-143 | a rewritten body that returns, returns True with the module as owner |
| Semantics.EntryBlocks | merge_strategies.py:164-170 | entry evaluators get no super-call insertion: the merged body is the module blocks in order |
| Semantics.ComposedShouldLong | merge_strategies.py:164-201 | the merged `should_long` runs the first module's rewritten body and continues with the rest only when that body does not return: first match wins |
| Semantics.ComposedShouldLongClaims | merge_strategies.py:164-201 | when the merged `should_long` returns, it returns True and the owner is one of the modules |
| Semantics.ShouldShortYieldsToShouldLong | merge_strategies.py:229-255 | the merged `should_short` returns False whenever `should_long` is truthy; otherwise it runs the modules' bodies in the state `should_long` left |
| Semantics.GatedBlocksSkipNonOwners | merge_strategies.py:187-197 | gated blocks of modules that do not own the trade do nothing |
| Semantics.GatedBlock | merge_strategies.py:187-197 | one gated block runs the module's body iff it owns the trade |
| Semantics.GatedCallbackRunsOnlyOwner | merge_strategies.py:187-197 | when no module of a gated callback has a super call, the strategy names are distinct, and the owner's code finishes normally without changing `self.active_strategy`, the merged callback ends exactly as the owner's code alone would |
| Semantics.OnCloseReleasesOwner | merge_strategies.py:257-275 | the final `on_close_position` ends with no owner when its body finishes normally; a `return` inside a module's block skips the reset |
| Semantics.InitDefUnowned | merge_strategies.py:277-296 | the synthesized `__init__` leaves no owner |
| Semantics.MergedInitStartsUnowned | merge_strategies.py:207-212 | a merged `__init__` clears the owner before running the modules' code |
| Semantics.OnCloseRunsFirstModuleTwice | merge_strategies.py:203-205 | with two modules, when the first owns the trade, its `on_close_position` code runs twice before the reset |

## Left out

- Reading and writing files, creating directories, `print` and argument parsing in `merge_files` and `main`: these are I/O.
- `datetime.now()` in the class name: the clock is not modelled, and `GenerateMergedTree` takes the class name as a parameter.
- `ast.parse` and `astor.to_source`: the syntax tree is a Dafny datatype, and source text is not modelled.
- Import collection (`collect_imports`) and the sorted import header: these only handle text.
- The `visit` override that pins `current_file` to `file_names[0]`: the renaming pass takes the file path, and so the strategy name, as a parameter. `merge_files` builds one renamer per file, so the two agree.
- The stale `modified_body` that the `hyperparameters` branch reuses, or the `UnboundLocalError` it can raise: the body it builds is replaced by the rebuilt one, so the model contributes nothing there.
- A bare `return` is represented as `return None`.
- In-place mutation of tree nodes and the aliasing between a module's tree and the merged definitions: the model rewrites values.
- The iteration order of the Python set of function names is unspecified: `Merge.Merger.MergeFunctions` takes it as the parameter `order`.
- Merge.Merger.constructor: requires every file path to contain `/`. The code accepts any path, but later raises `IndexError` in `get_strategy_name` for a path without `/`.
- Renaming.Renamer.constructor: requires the file path to contain `/`, for the same reason.
- Hyperparameter names inside the `hyperparameters` list literals are not renamed, because the code only renames `self.<name>` attributes, calls and definitions.
- The evaluator does not run loops, which end as stuck, and it raises no exceptions. Every value other than `self.active_strategy` and the locals comes from an oracle, and method calls are bounded by a fuel count.
- Semantics.RewrittenBodyClaims, Semantics.RewrittenStmtClaims and Semantics.ComposedShouldLongClaims: they assume bodies with no `finally` block, because a `return` in an untouched `finally` can still leave without claiming; and a `return` in an `except` handler, which the rewrite leaves as it is and the evaluator never runs, is not covered either.
- Keyword arguments of calls, keyword defaults, `*args`/`**kwargs` and parameter annotations of a `def`, and the decorators and keywords of a class are not fields of the syntax tree. The code renames `self.<name>` inside them too (for example `f(x=self.g())`); the model reaches such an expression only when it is folded into the positional arguments or an opaque expression.
- The bodies of `async def`, `async for`, `async with`, `match` and `try*` statements: these are opaque statements that carry only their expressions, so the renaming pass does not reach inside their bodies and the walk meets no definition there.
- Whether the merged trading logic makes sense is not modelled: the code never checks it.

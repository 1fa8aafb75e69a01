# pynalyser traversal engine, redefinition analysis and tree dumper

A Dafny model of three pieces of pynalyser:

- **`NodeVisitor`** (`pynalyser/acr/utils.py`): the traversal engine over the
  enriched tree ("ACR"). It keeps the current `scope` and `block` as ambient state.
  It dispatches each node to its `visit_<Kind>` handler. With no handler, strict mode
  raises and lenient mode falls back to `do_nothing`. It descends into primitive
  nodes field by field. It descends into Blocks FlowContainer by FlowContainer,
  element by element, and CodeBlock statement by statement. Any other element of a
  FlowContainer raises.
- **`RedefinitionAnalyserBase.visit`** (`pynalyser/analysers/redefinitions.py`):
  before delegating to the engine, it collects the names a node (re)binds and
  advances each name's generation in the symbol table, in order.
- **`dump`** (`pynalyser/acr/utils.py`): the deterministic serialiser of lists,
  dicts and nodes, with optional indentation.

Modules:

- `Errors` (errors.dfy): `Option`, `Result`, `Status`, and one `Error` constructor per exception the code raises.
- `Acr` (acr.dfy): the tree. It has primitive nodes (`Ast`) with ordered fields, `Scope`, `Block`, `CodeBlock` and other nodes.
- `Redefinitions` (redefinitions.dfy): the names each node kind binds (`BoundNames`) and the method that builds them as the source does (`CollectNames`). It also holds the generation table (`WithNextDef`, `Advance`) and the in-place `SymbolTable` class.
- `Traversal` (traversal.dfy): the engine as functions from a visitor state to an outcome and a new state (`Visit`, `BaseVisit`, `GenericVisit`, `Start`). It also has the reference pre-order trace `Expected`, and two inductive families of lemmas: one for normal returns (`...Sound`), one for every outcome (`...Table`).
- `Visitor` (visitor.dfy): `NodeVisitor` as a class. Its fields `scope`, `block`, `trace` and the symbol table are updated in place by the methods `Start`, `Visit`, `BaseVisit` and `GenericVisit`. Each method is proved to compute exactly the corresponding `Traversal` function.
- `EngineFacts` (engine_facts.dfy): the engine's guarantees and the analyser's guarantees, stated on `Traversal`.
- `Dump` (dump.dfy): the serialiser. It has the specification functions (`Format`, `Args`, `FormatArgs`) and the source's accumulating loops as methods proved equal to them. It also holds the rendering lemmas.

The redefinition analyser is the visitor with a name collector (`Config.collect`
is `Some`). Every recursive `visit` goes through the overriding `visit`, so the
names of every node are advanced before that node's handler runs. A plain visitor
has `collect == None`. The state records a trace of events:

- `Visited(node, scope, block)` for each handler call, with the context the handler saw;
- `Rebound(name, scope)` for each `next_def` call.

Two behaviours of the code matter here, and the model follows the code:

- The handler runs before the context switch (utils.py:159, 172). It therefore sees the enclosing scope and block, not the node itself (`EngineFacts.HandlerRunsFirst`).
- The saved scope and block are restored only on a normal return (utils.py:167-170, 177-179). The `del` in `start` (utils.py:142) also runs only on a normal return. After a failure, the context is left pointing into the failed subtree (`EngineFacts.StartLeavesContextOnError`).

## Model

| member | source | states |
|---|---|---|
| Acr.Lookup | pynalyser/analysers/redefinitions.py:19-25 | attribute lookup finds a value exactly when a field of that name exists, and returns the first such field's value |
| Redefinitions.CollectNames | pynalyser/analysers/redefinitions.py:15-27 | returns exactly `BoundNames`: a Scope's own name; the collector's names for the `target` of a For, AugAssign or NamedExpr; every Assign target's names; one name per import alias; nothing for every other kind; a missing attribute is an error |
| Redefinitions.CollectTargets | pynalyser/analysers/redefinitions.py:21-23 | the loop over `node.targets` yields the concatenation of the collector's names per target, left to right |
| Redefinitions.CollectAliases | pynalyser/analysers/redefinitions.py:24-25 | the generator over `node.names` yields `AliasNames`: one name per alias, or the first malformed alias's error |
| Redefinitions.TargetsInOrder | pynalyser/analysers/redefinitions.py:21-23 | the names of targets `xs + ys` are the names of `xs` followed by those of `ys` |
| Redefinitions.OneNamePerAlias | pynalyser/analysers/redefinitions.py:24-25 | an import's names exist iff every alias is well formed; then there is exactly one name per alias, the i-th from the i-th alias |
| Redefinitions.AsNameWins | pynalyser/analysers/redefinitions.py:25 | `alias.asname or alias.name`: `asname` is read first; a non-empty one is bound and `name` is never read; a None or empty one falls back to `name` |
| Redefinitions.WithNextDef | pynalyser/analysers/redefinitions.py:30 | `next_def` raises the name's generation by one (a missing entry is created at generation 0), leaves every other name's generation alone, and adds only that name to the table |
| Redefinitions.AdvanceCounts | pynalyser/analysers/redefinitions.py:29-30 | after the loop, each name's generation has risen by its number of occurrences in `names` |
| Redefinitions.AdvanceKeys | pynalyser/analysers/redefinitions.py:29-30 | after the loop, the table has entries exactly for its old names and the bound names |
| Redefinitions.AdvanceAppend | pynalyser/analysers/redefinitions.py:29-30 | advancing `xs + ys` equals advancing `xs` and then `ys` |
| Redefinitions.SymbolTable.NextDef | pynalyser/analysers/redefinitions.py:30 | the in-place table becomes `WithNextDef` of the old one |
| Traversal.VisitSound | pynalyser/acr/utils.py:144-210 | on a normal return of `visit`, scope and block are back to their values on entry. The trace grew by exactly the reference pre-order `Expected`. The node's rebindings and handler call come first, made in the enclosing context. The descendants follow in descent order, each in the context of its nearest enclosing Scope and Block |
| Traversal.BaseVisitSound | pynalyser/acr/utils.py:144-185 | on a normal return of the base `visit`, the context is restored and the trace is the handler call followed by the descent. The descent runs with both fields set to a Scope, only the block set to a Block, and nothing changed otherwise |
| Traversal.GenericSound | pynalyser/acr/utils.py:187-210 | a normal return of `generic_visit` leaves the context unchanged and records the reference trace of the node's children |
| Traversal.FieldsSound | pynalyser/acr/utils.py:191-192 | the primitive walk visits the primitive sub-nodes of every field in order, list fields element-wise |
| Traversal.ContainersSound | pynalyser/acr/utils.py:195-197 | FlowContainers are walked in declaration order |
| Traversal.ItemsSound | pynalyser/acr/utils.py:197-210 | a FlowContainer's elements are walked in order |
| Traversal.ItemSound | pynalyser/acr/utils.py:198-205 | a CodeBlock contributes its statements, and a nested Block or terminal statement contributes its own visit |
| Traversal.CodeSound | pynalyser/acr/utils.py:199-200 | a CodeBlock's statements are visited in order |
| Traversal.VisitTable | pynalyser/analysers/redefinitions.py:29-32 | whatever way `visit` ends, the trace only grows, and the table changed by exactly the recorded `next_def` calls, in order |
| Visitor.NodeVisitor.Start | pynalyser/acr/utils.py:137-142 | the in-place `start` ends in exactly the status and state of `Traversal.Start` |
| Visitor.NodeVisitor.Visit | pynalyser/analysers/redefinitions.py:15-32 | the overriding `visit` collects the names, calls `next_def` on each in order, then runs the base `visit`. It ends exactly as `Traversal.Visit` |
| Visitor.NodeVisitor.BaseVisit | pynalyser/acr/utils.py:144-185 | handler resolution, the call, then the save/switch/descend/restore of the context. It ends exactly as `Traversal.BaseVisit` |
| Visitor.NodeVisitor.GenericVisit | pynalyser/acr/utils.py:187-210 | the nested loops over FlowContainers, elements and CodeBlock statements end exactly as `Traversal.GenericVisit` |
| Visitor.NodeVisitor.VisitFields | pynalyser/acr/utils.py:191-192 | the loop over a primitive node's fields ends exactly as `Traversal.VisitFields` |
| EngineFacts.StartSound | pynalyser/acr/utils.py:137-142 | on a normal return of `start`, scope and block are unset, and the module was walked with itself as scope and block. In every case, the table changed by exactly the recorded `next_def` calls |
| EngineFacts.StartLeavesContextOnError | pynalyser/acr/utils.py:137-142 | a concrete module whose `if` body holds a bare `pass` fails with the Unreachable error. Scope is left at the module and block at the `if`, because nothing restores or unsets them on that path |
| EngineFacts.HandlerRunsFirst | pynalyser/acr/utils.py:144-185 | a missing handler in strict mode fails with nothing recorded. Otherwise the handler is called on the incoming state before any context switch. Its exception is the visit's error, and a normal return yields the handler's value |
| EngineFacts.NoHandlerRegistered | pynalyser/acr/utils.py:148-155 | with no `visit_<Kind>`: strict mode raises before anything happens; lenient mode still descends and returns None |
| EngineFacts.DescentContext | pynalyser/acr/utils.py:158-179 | a Scope's containers are walked with scope and block both equal to it. A plain Block's containers are walked with only the block switched and the scope kept. A normal return restores both fields |
| EngineFacts.StrayItemsFail | pynalyser/acr/utils.py:197-210 | a FlowContainer holding an element other than a CodeBlock, Block or terminal statement never completes |
| EngineFacts.StrayContainersFail | pynalyser/acr/utils.py:195-210 | the same, for any of a Block's FlowContainers |
| EngineFacts.StrayItemRaises | pynalyser/acr/utils.py:144-210 | `visit` of a Scope or Block holding such an element never returns normally, whatever the handlers and the state |
| EngineFacts.ContainersInOrder | pynalyser/acr/utils.py:195-197 | the reference trace of FlowContainers `xs + ys` is that of `xs` followed by that of `ys` |
| EngineFacts.ItemsInOrder | pynalyser/acr/utils.py:197-205 | the same, for the elements of one FlowContainer |
| EngineFacts.CodeInOrder | pynalyser/acr/utils.py:199-200 | the same, for a CodeBlock's statements |
| EngineFacts.AnalyserDelegates | pynalyser/analysers/redefinitions.py:15-32 | a node whose names cannot be read fails untouched. Otherwise the analyser's `visit` is exactly `super().visit` run on the state in which each bound name was advanced once per occurrence, in order, under the current scope |
| EngineFacts.AnalyserRebindsFirst | pynalyser/analysers/redefinitions.py:29-32 | every `next_def` is recorded before the handler call; the handler is called on the advanced state, and its exception or value is the analyser's outcome |
| EngineFacts.NonBindingDelegates | pynalyser/analysers/redefinitions.py:26-32 | a node of any other kind reaches the base `visit` with the table and the trace untouched |
| EngineFacts.ScopeRebindsOwnName | pynalyser/analysers/redefinitions.py:17-18 | a Scope advances exactly its own name, once, before the base `visit` |
| Dump.DumpObj | pynalyser/acr/utils.py:18-29 | `dump` fails with TypeError exactly for a value that is not a list, dict or node. Otherwise it is the level-0 rendering with the indent normalised |
| Dump.FormatObj | pynalyser/acr/utils.py:32-84 | the accumulating `_format` returns exactly `Format`: prefix and separator per level, `[...]`, `{...}`, `TypeName(...)`, and a leaf's `repr` marked simple |
| Dump.FormatItems | pynalyser/acr/utils.py:41-51 | the list loop collects each item's rendering in order and the conjunction of their simplicity |
| Dump.FormatEntries | pynalyser/acr/utils.py:58-69 | the dict loop collects `key!r: value` per entry in order and the conjunction of simplicity |
| Dump.FormatFields | pynalyser/acr/utils.py:100-119 | `_format_ast_or_acr` gives the fields' parts, followed by the attributes' parts when attributes are asked for and the node has any |
| Dump.FormatFieldList | pynalyser/acr/utils.py:105-111 | each field renders as `name=value` when annotating, and as the bare value otherwise |
| Dump.FormatAttributeList | pynalyser/acr/utils.py:113-117 | each attribute renders as `name=value`, annotated or not |
| Dump.FormatAttrValue | pynalyser/acr/utils.py:94-97 | a missing attribute renders as the `repr` of the default string, and is simple |
| Dump.SpacesIndent | pynalyser/acr/utils.py:26-27 | an integer indent n is a unit of n spaces (none for n <= 0) |
| Dump.NestingAddsOneUnit | pynalyser/acr/utils.py:33-36 | with an indent, parts are met one level deeper, and each level's prefix and separator carry one unit more than the level above |
| Dump.FormatArgsShape | pynalyser/acr/utils.py:87-91 | the result is simple iff all parts were simple and there are none. A compact result (all simple, at most 3 parts) of one-line parts is one line. Otherwise the prefix leads |
| Dump.SimpleIff | pynalyser/acr/utils.py:32-91 | a rendering is simple exactly for a leaf or a list, dict or node with no parts |
| Dump.Enclosed | pynalyser/acr/utils.py:41-84 | lists render in brackets, dicts in braces, nodes as `TypeName(...)`, leaves as their `repr` |
| Dump.SingleLine | pynalyser/acr/utils.py:32-119 | without an indent, a tree whose texts hold no newline dumps to a single line, however deep |

## Left out

- `ScopeReference` and `get_scope` (utils.py:188-189): the model has no reference nodes. The Scope a reference resolves to is not a sub-term of the reference, so the walk it starts has no structural measure, and modelling it would need a fuel or size bound threaded through every traversal function and lemma. What is lost: a Scope reached only through a reference is never walked (its handler, its rebindings and its descendants are absent from the trace), and the failure of an unresolvable reference is not modelled. `pynalyser/acr/classes.py`, where `get_scope` lives, is not part of this model.
- `NameCollector.collect_names` is not part of this model. It is a parameter (`Collector`), an arbitrary total function from a target node to its names.
- `SymTabAnalyser`, `Analyser` and `SymbolTableType` are not part of this model. The analyser's table is one map from name to generation. Switching tables per scope is left out, and `next_def` is "generation + 1, created at 0".
- Handlers are pure functions of the node and the visitor state. Their return value or exception is modelled; any change a handler makes to the visitor or the tree is not.
- Dispatch by `getattr(self, 'visit_' + type(node).__name__)` becomes a map from kind to handler. The map holds every `visit_<Kind>` attribute the visitor has, inherited ones included. From Python 3.8 onward `ast.NodeVisitor` itself defines `visit_Constant`, so `Constant` always has an entry; `DoNothing` represents it, because a Constant has no AST children and the inherited method returns None. The deprecated `visit_Num`/`visit_Str` redirection inside that method is not modelled. The text of the strict-mode ValueError and of every other exception is not modelled; the error's kind and cause are.
- The standard library's `generic_visit` for primitive nodes (utils.py:191-192) becomes an ordered list of fields. Only primitive sub-nodes are visited, single or in lists.
- `isinstance` against terminal statement classes is a test of the kind name (`Return`, `Raise`, `Assert`, `Break`, `Continue`); subclasses of those are not modelled.
- The `assert isinstance(node, Block)` in `generic_visit` is modelled as enabled (the `NotABlock` error). Running Python with assertions disabled is not modelled.
- A node attribute the analyser reads but the node lacks (`target`, `targets`, `names`, `alias.name`) is the `Malformed` error, Python's AttributeError. An attribute present with a value of the wrong shape (not a node, a list or a string where one is expected) is also `Malformed`, where Python passes it on: an alias whose `name` and `asname` are both None binds None, an `asname` holding a node binds that node, and a `target` of None reaches the collector. `ast.parse` never builds such nodes.
- `repr` of leaf values (utils.py:84) is opaque: a leaf carries its `repr` text and type name.
- The rendering of list and dict subclasses and of `defaultdict` (utils.py:54-55, 72-75) is not modelled; every list and dict renders as a plain one.
- The TypeError message of `dump` (utils.py:23-25) is not modelled. Its second literal has no `f` prefix, so the message reads `got {type(obj).__name__}` verbatim and never names the type; the model's `WrongType(typeName)` carries a type name the source's message lacks.
- Exception-safe restoration of the context is not modelled, because the code does not have it: the save and restore are not guarded by `try`/`finally`.
- Dump.Enclosed: states only the opening and closing characters of each rendering; the full layout is `Format` itself.

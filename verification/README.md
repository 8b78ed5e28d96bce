# Scope graph of a Python module, and scope classification

This project models two parts of a supply-chain-attack detector for Python code.

- **The scope-graph builder** (`ScopeGraph` in `src/scope_graph.py`) makes one depth-first pass over a module's syntax tree. It keeps three pieces of state:
  - a stack of active scope identifiers, starting at `s0__main__`;
  - a counter for fresh identifiers, starting at 1;
  - a graph mapping each scope identifier to its declared names (`decls`), referenced names (`refs`) and parent scope.

  Functions, async functions, lambdas, classes, list comprehensions and exception handlers each open a new scope, named `s{counter}_{tag}`. Assignments to plain names declare those names in the current scope. Names read in Load context become references of the current scope, and so does each import entry's alias if it has one, else the imported name as written (`os.path` for `import os.path`, `*` for `from m import *`).
- **Scope classification** (`Detector` in `src/detector.py`) labels each scope that declares a variable. A scope with a parent is *local*; a scope without one is *global*.

Modules:

- `Wrappers`: `Option`, plus sets of elements of options and sequences.
- `ScopeIds`: scope identifiers as real strings, with a decimal rendering of the counter. The counter can be read back out of an identifier, which is how freshness is proved.
- `PyAst`: a closed syntax-tree datatype covering the node kinds the visitor handles. `Other(children)` stands for every other node kind, which is visited generically.
- `ScopeGraph`: the builder's state as an immutable `Builder` value, with `__init__`, `__current_scope`, `__get_parent_scope` and every `visit_*` method as functions. `Visit` dispatches on the node kind.
- `ScopeGraphInvariants`: the invariant of every reachable state, and proofs that every visit preserves it. The invariant:
  - the global scope is at the bottom of the stack;
  - every identifier's counter read-back is below the next counter value;
  - every non-global scope's parent was created before it.
- `ScopeGraphProperties`: what a visit does to the graph, stated against reference definitions that do not mention the builder's state. `DirectDecls` and `DirectRefs` give the names a subtree contributes to the scope it sits in; `OpeningOf` gives the scope a node opens. This module also covers parent chains.
- `ScopeGraphExample`: the module that `src/main.py` parses, and the exact graph the builder produces for it.
- `Detector`: `__is_local_scope`, `__is_global_scope` and `classify_scope`. Instead of printing, `classify_scope` returns a `Report`. It takes the list of declaring scopes as a parameter.

The model follows `src/scope_graph.py` as written. In particular:

- Declarations and references are bare names, with no category prefix such as `var_`, `func_` or `import_`: the code adds `node.name`, `arg.arg`, `t.id` and the alias name unchanged.
- Identifier tags are exactly `func_{name}`, `asyncFunc_{name}`, `lambda`, `class_{name}`, `lstComp` and `excHandler` (`src/scope_graph.py:44-125`).
- A class's own name is not declared in the enclosing scope (`visit_ClassDef` does not add it). Only functions and async functions declare their name there.
- Scopes have no `has_children` flag; the code never records one.
- Only `ListComp` opens a comprehension scope. Set, dict and generator comprehensions are ordinary nodes.
- Only positional parameters (`args.args`) are declared. A function's decorators, defaults and annotations are visited by `generic_visit` after the new scope is pushed, so the names they read land in the new scope. In the model they are among the node's `children`.

## Model

| member | source | states |
|---|---|---|
| ScopeGraph.Init | src/scope_graph.py:23-26 | The initial stack is `[s0__main__]` and the counter is 1. The graph holds exactly `s0__main__`, with no names and no parent. |
| ScopeGraph.ParentAfterPush | src/scope_graph.py:51-54 | `ParentScope` (`__get_parent_scope`, lines 40-41) finds nothing on the initial stack, and right after a push it finds the scope that was on top before it, so the `is not None` guard of every scope-introducing visit passes. |
| ScopeGraph.EnterScope | src/scope_graph.py:44-57 | Opening a scope pushes the new identifier, bumps the counter and adds the identifier to the keys. If the identifier is fresh, that is exactly one new key, the new entry's parent is the scope that was on top, its decls are the parameters, the enclosing scope gains only the function's own name, and every other entry is untouched. |
| ScopeGraphInvariants.OpenScopeGrows | src/scope_graph.py:43-141 | The identifier `s{counter}_{tag}` is not yet in the graph. Opening it keeps the invariant, adds one entry and only extends the old ones. |
| ScopeGraphInvariants.EnterScopeGrows | src/scope_graph.py:43-141 | Any identifier carrying the current counter value is fresh. Pushing it keeps the invariant, and its parent link points to an earlier scope. |
| ScopeIds.CounterOfMakeId | src/scope_graph.py:44 | Reading the counter back out of `s{n}_{tag}` gives `n`, whatever the tag. This is why an identifier made from an unused counter value is itself unused. |
| ScopeIds.MakeIdInjective | src/scope_graph.py:63 | Two identifiers `s{n}_{tag}` are equal only if both the counter and the tag are equal. |
| ScopeIds.MainIdIsCounterZero | src/scope_graph.py:24 | `s0__main__` follows the same naming scheme, with counter 0. |
| ScopeIds.DecimalRoundTrip | src/scope_graph.py:80 | The decimal rendering of the counter in `f"s{...}"` reads back as the same number. |
| ScopeGraph.Visit | src/scope_graph.py:51-60 | Every visit restores the scope stack, keeps every key, and advances the counter by the number of scopes the subtree opens. |
| ScopeGraph.VisitScopeNode | src/scope_graph.py:43-141 | Each of the six scope-introducing visits restores the stack, keeps every key, and advances the counter by one plus the scopes opened inside the node. |
| ScopeGraph.VisitSeq | src/scope_graph.py:59 | `generic_visit` over a list of children restores the stack, keeps every key, and advances the counter by the total number of scopes the children open. |
| ScopeGraph.Build | src/detector.py:27-28 | A fresh builder visiting a whole module ends with the stack back at `[s0__main__]`, the global scope still present, and the counter at one plus the number of scopes the module opens. |
| ScopeGraph.VisitScope | src/scope_graph.py:68-77 | A scope-opening visit pushes, visits its children and pops. The stack ends as it began, and the counter advances by one plus the scopes opened inside. |
| ScopeGraph.VisitAssign | src/scope_graph.py:143-147 | Visiting an assignment leaves the stack unchanged. The counter advances by the scopes opened in the targets and the value. |
| ScopeGraph.TargetNames | src/scope_graph.py:144-146 | A name is declared by an assignment exactly when some target is directly a `Name` with that id. |
| ScopeGraph.VisitLeaf | src/scope_graph.py:149-167 | `Name`, `Import` and `ImportFrom` open no scope, add no key and leave the stack and counter alone. |
| ScopeGraphInvariants.VisitGrows | src/scope_graph.py:43-141 | Every visit keeps the invariant. It adds one entry per scope the subtree opens, keeps each old entry's parent, and only adds names. |
| ScopeGraphInvariants.AddNamesGrows | src/scope_graph.py:146 | Recording declarations or references keeps the invariant and adds no entry. |
| ScopeGraphInvariants.BuildValid | src/scope_graph.py:23-26 | The graph of a whole module satisfies the invariant and has exactly one entry more than the number of scopes the module opens. |
| ScopeGraphProperties.VisitFrame | src/scope_graph.py:43-167 | A visit changes no existing entry other than the current scope's. |
| ScopeGraphProperties.VisitCurrentScope | src/scope_graph.py:34-38 | After a visit, the entry of the current scope (`CurrentScope`, the top of the stack as `__current_scope` returns it) is its old entry plus exactly the node's direct declarations and references. So only a function or async function adds to the enclosing scope, and it adds only its own name. Names inside nested scopes never reach it. Load names and import names go to refs; Store names go nowhere. |
| ScopeGraphProperties.AssignCurrent | src/scope_graph.py:143-147 | An assignment declares its plain-name targets in the current scope, plus whatever the targets and value declare and reference directly. |
| ScopeGraphProperties.LeafCurrent | src/scope_graph.py:149-167 | A `Name` in Load context adds its id to the current scope's refs; in Store or Del context it adds nothing. An `Import` or `ImportFrom` adds, for each alias, its `asname`, or its `name` when there is no `asname`, to the current scope's refs and never to its decls. |
| ScopeGraphProperties.ScopeNodeCurrent | src/scope_graph.py:62-122 | A class, lambda, list comprehension or exception handler adds nothing to the enclosing scope. A function adds only its own name. |
| ScopeGraphProperties.NewScopeEntry | src/scope_graph.py:43-141 | A scope-introducing node creates its entry under a previously unused `s{counter}_{tag}`. The entry's parent is the scope that was current. Its decls are the initial names (parameters, or the handler's bound name; none for classes and list comprehensions) plus what its body declares directly. Its refs are what its body references directly. |
| ScopeGraphProperties.BuildGlobalScope | src/scope_graph.py:24-25 | In a module's graph, `s0__main__` declares and references exactly what the module does directly. It is the only scope without a parent. |
| ScopeGraphProperties.AncestorChain | src/scope_graph.py:53-54 | Following parent links from any scope reaches `s0__main__`. Every step goes to a scope created earlier. |
| ScopeGraphProperties.AncestorChainBounded | src/scope_graph.py:53-54 | A parent chain has no more scopes than the graph, so it never cycles. |
| ScopeGraphExample.MainPyGraph | src/main.py:6-21 | For `x = 1; def f(y): z = 2; def g(): print(y)`, the graph is exactly `s0__main__` {x, f}, `s1_func_f` {y, z, g} with parent `s0__main__`, and `s2_func_g` with refs {print, y} and parent `s1_func_f`. |
| Detector.IsGlobalScope | src/detector.py:33-51 | A scope is global exactly when it is not local (`IsLocalScope`, `__is_local_scope` at line 41: its parent is not `None`), that is, exactly when its parent is `None`. |
| Detector.LabelOf | src/detector.py:67-70 | The `elif` fires whenever the `if` does not. Every scope gets exactly one label, naming that scope, local exactly when it has a parent. |
| Detector.LabelScopes | src/detector.py:66-70 | The loop produces one label per scope, in list order. It stops at the first scope missing from the graph, where the lookup raises `KeyError`, and only at such a scope. |
| Detector.ClassifyScope | src/detector.py:60-70 | The result is "not declared" exactly when the list of declaring scopes is empty. Otherwise each label matches its scope in list order, local iff the scope has a parent; labels are produced up to a missing scope if there is one, and for every scope if there is none. |
| Detector.OnlyMainIsGlobal | src/detector.py:51 | On a graph the builder made, only `s0__main__` can be labelled global. |

## Left out

- `Detector.__init__` (src/detector.py:13-31): reading the file, `ast.parse` and `draw` are I/O and an external parser. The model starts from a syntax tree. `draw` is not part of this model.
- `shadowing_detection` (src/detector.py:72-73): its body is `...`, so there is no behaviour to model.
- `get_declaration_scopes`, `get_builder`, `length_longest_scope_chain`, `local_import_detection` and `inner_function_detection`: these are called but defined in neither `src/scope_graph.py` nor `src/detector.py`. `ClassifyScope` takes the declaring scopes as a parameter instead.
- `Detector.ClassifyScope`: the printed messages become `Label` values. The `KeyError` for a scope missing from the graph becomes the `missing` field rather than an exception.
- The detector's `__main__` block (src/detector.py:75-78) calls `classify_scope()` without its argument. It is a driver and is not modelled.
- ScopeGraph.Visit: the model covers trees of any depth and does not model Python's recursion limit. `NodeVisitor.visit` and `generic_visit` recurse into each other, so a deep enough tree (a left-deep chain of several hundred `+` operations, say) makes `builder.visit(tree)` at src/detector.py:28 raise `RecursionError`, which nothing catches (src/data_extraction.py:35-36). The stack-balance and invariant lemmas hold only for trees within that depth; the `RecursionError` path is dropped.
- `get_graph` is the identity on the builder's graph; the model reads `Builder.graph` directly.
- `PyAst.Node`: only the node kinds the visitor distinguishes are modelled. Every other Python node is `Other(children)`, with its children in `generic_visit` order; a function's `arguments` node, decorators, defaults and annotations are among its children. Only the names of positional parameters are kept as `params`.
- `isinstance(pkg, ast.alias)` in `visit_Import` and `visit_ImportFrom` always holds for parser output, so import entries are always aliases.
- Python's mutable dictionaries and sets become immutable maps and sets threaded through the traversal. Idempotence and determinism follow from the functions being pure.
- The orchestration scripts, the YARA wrapper and the sample programs are not part of this model. They drive package installation, external rule matching and output.

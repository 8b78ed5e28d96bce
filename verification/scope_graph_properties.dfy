/**
 * Properties of the scope-graph builder, stated against definitions that do
 * not mention the builder's state: which names a subtree contributes to the
 * scope it sits in, and what scope a scope-introducing node opens.
 */
module ScopeGraphProperties {
  import opened Wrappers
  import opened ScopeIds
  import opened PyAst
  import opened ScopeGraph
  import opened ScopeGraphInvariants

  /**
   * The names a node declares in the scope it is visited in: a function's own
   * name, the plain-name targets of an assignment, and whatever its
   * non-scope children declare. Nothing inside a nested scope counts, and a
   * class does not declare its own name.
   */
  function DirectDecls(n: Node): set<string>
    decreases n
  {
    match n
    case FunctionDef(name, _, _) => {name}
    case AsyncFunctionDef(name, _, _) => {name}
    case Lambda(_, _) => {}
    case ClassDef(_, _) => {}
    case ListComp(_) => {}
    case ExceptHandler(_, _) => {}
    case Assign(targets, value) => TargetNames(targets) + DirectDeclsSeq(targets) + DirectDecls(value)
    case Name(_, _) => {}
    case Import(_) => {}
    case ImportFrom(_, _) => {}
    case Other(ch) => DirectDeclsSeq(ch)
  }

  function DirectDeclsSeq(ns: seq<Node>): set<string>
    decreases ns
  {
    if ns == [] then {} else DirectDecls(ns[0]) + DirectDeclsSeq(ns[1..])
  }

  /**
   * The names a node references in the scope it is visited in: names read in
   * Load context and the names imports record (`RecordedName`), outside nested
   * scopes.
   */
  function DirectRefs(n: Node): set<string>
    decreases n
  {
    match n
    case FunctionDef(_, _, _) => {}
    case AsyncFunctionDef(_, _, _) => {}
    case Lambda(_, _) => {}
    case ClassDef(_, _) => {}
    case ListComp(_) => {}
    case ExceptHandler(_, _) => {}
    case Assign(targets, value) => DirectRefsSeq(targets) + DirectRefs(value)
    case Name(id, ctx) => if ctx == Load then {id} else {}
    case Import(names) => set a | a in names :: RecordedName(a)
    case ImportFrom(_, names) => set a | a in names :: RecordedName(a)
    case Other(ch) => DirectRefsSeq(ch)
  }

  function DirectRefsSeq(ns: seq<Node>): set<string>
    decreases ns
  {
    if ns == [] then {} else DirectRefs(ns[0]) + DirectRefsSeq(ns[1..])
  }

  /**
   * The scope a node opens: the tag its identifier ends in, the name it
   * declares in the enclosing scope, the names its new scope starts with, and
   * the children visited inside it.
   */
  datatype Opening = Opening(tag: string, enclosingDecl: Option<string>, initialDecls: set<string>, body: seq<Node>)

  function OpeningOf(n: Node): Option<Opening> {
    match n
    case FunctionDef(name, params, ch) => Some(Opening("func_" + name, Some(name), Elems(params), ch))
    case AsyncFunctionDef(name, params, ch) => Some(Opening("asyncFunc_" + name, Some(name), Elems(params), ch))
    case Lambda(params, ch) => Some(Opening("lambda", None, Elems(params), ch))
    case ClassDef(name, ch) => Some(Opening("class_" + name, None, {}, ch))
    case ListComp(ch) => Some(Opening("lstComp", None, {}, ch))
    case ExceptHandler(bound, ch) => Some(Opening("excHandler", None, OptionElems(bound), ch))
    case _ => None
  }

  /** The graph of `r` agrees with that of `b` on every old entry except the current scope's. */
  ghost predicate OnlyCurrentChanged(b: Builder, r: Builder)
    requires |b.stack| > 0
  {
    forall k :: k in b.graph && k != CurrentScope(b) ==> k in r.graph && r.graph[k] == b.graph[k]
  }

  /** `OnlyCurrentChanged` composes over visits that leave the stack as it was. */
  lemma FrameChain(b0: Builder, b1: Builder, b2: Builder)
    requires |b0.stack| > 0 && b1.stack == b0.stack
    requires OnlyCurrentChanged(b0, b1) && OnlyCurrentChanged(b1, b2)
    ensures OnlyCurrentChanged(b0, b2)
  {
  }

  /** A visit changes no existing scope other than the current one. */
  lemma {:induction false} VisitFrame(b: Builder, n: Node)
    requires Valid(b)
    ensures OnlyCurrentChanged(b, Visit(b, n))
    decreases n, 2
  {
    if OpensScope(n) {
      ScopeNodeFrame(b, n);
    } else if n.Assign? {
      AssignFrame(b, n.targets, n.value);
    } else if n.Other? {
      VisitSeqFrame(b, n.children);
    }
  }

  lemma {:induction false} ScopeNodeFrame(b: Builder, n: Node)
    requires Valid(b)
    requires OpensScope(n)
    ensures OnlyCurrentChanged(b, VisitScopeNode(b, n))
    decreases n, 1
  {
    match n
    case FunctionDef(name, params, ch) => VisitScopeFrame(b, "func_" + name, Some(name), params, ch);
    case AsyncFunctionDef(name, params, ch) => VisitScopeFrame(b, "asyncFunc_" + name, Some(name), params, ch);
    case Lambda(params, ch) => VisitScopeFrame(b, "lambda", None, params, ch);
    case ClassDef(name, ch) => VisitScopeFrame(b, "class_" + name, None, [], ch);
    case ListComp(ch) => VisitScopeFrame(b, "lstComp", None, [], ch);
    case ExceptHandler(bound, ch) =>
      VisitScopeFrame(b, "excHandler", None, if bound.Some? then [bound.value] else [], ch);
  }

  lemma {:induction false} AssignFrame(b: Builder, targets: seq<Node>, value: Node)
    requires Valid(b)
    ensures OnlyCurrentChanged(b, VisitAssign(b, targets, value))
    decreases Assign(targets, value), 1
  {
    var declared := AddDecls(b, TargetNames(targets));
    AddNamesGrows(b, TargetNames(targets));
    var visited := VisitSeq(declared, targets);
    VisitSeqGrows(declared, targets);
    VisitSeqFrame(declared, targets);
    VisitFrame(visited, value);
    FrameChain(b, declared, visited);
    FrameChain(b, visited, Visit(visited, value));
  }

  lemma {:induction false} VisitScopeFrame(b: Builder, tag: string, enclosingDecl: Option<string>, params: seq<string>, ch: seq<Node>)
    requires Valid(b)
    ensures OnlyCurrentChanged(b, VisitScope(b, tag, enclosingDecl, params, ch))
    decreases ch, 1
  {
    var sid := MakeId(b.nextId, tag);
    var entered := EnterScope(b, sid, enclosingDecl, params);
    OpenScopeGrows(b, tag, enclosingDecl, params);
    VisitSeqFrame(entered, ch);
  }

  lemma {:induction false} VisitSeqFrame(b: Builder, ns: seq<Node>)
    requires Valid(b)
    ensures OnlyCurrentChanged(b, VisitSeq(b, ns))
    decreases ns, 0
  {
    if ns != [] {
      var first := Visit(b, ns[0]);
      VisitGrows(b, ns[0]);
      VisitFrame(b, ns[0]);
      VisitSeqFrame(first, ns[1..]);
      FrameChain(b, first, VisitSeq(first, ns[1..]));
    }
  }

  /** What a visit does to the current scope: it gains exactly the node's direct declarations and references. */
  ghost predicate CurrentGains(b: Builder, r: Builder, decls: set<string>, refs: set<string>)
    requires |b.stack| > 0 && CurrentScope(b) in b.graph
  {
    var top := CurrentScope(b);
    && top in r.graph
    && r.graph[top] == b.graph[top].(decls := b.graph[top].decls + decls, refs := b.graph[top].refs + refs)
  }

  /** `CurrentGains` composes over visits that leave the stack as it was. */
  lemma GainsChain(b0: Builder, b1: Builder, b2: Builder, d1: set<string>, r1: set<string>, d2: set<string>, r2: set<string>)
    requires |b0.stack| > 0 && CurrentScope(b0) in b0.graph && b1.stack == b0.stack
    requires CurrentGains(b0, b1, d1, r1) && CurrentGains(b1, b2, d2, r2)
    ensures CurrentGains(b0, b2, d1 + d2, r1 + r2)
  {
  }

  /**
   * The current scope's entry after visiting `n` is its entry before, plus
   * the names `n` declares and references directly; in particular only a
   * function or async function adds anything to the scope enclosing it, and
   * it adds exactly its own name.
   */
  lemma {:induction false} VisitCurrentScope(b: Builder, n: Node)
    requires Valid(b)
    ensures CurrentGains(b, Visit(b, n), DirectDecls(n), DirectRefs(n))
    decreases n, 2
  {
    if OpensScope(n) {
      ScopeNodeCurrent(b, n);
      assert Visit(b, n) == VisitScopeNode(b, n);
      assert DirectRefs(n) == {};
    } else if n.Assign? {
      AssignCurrent(b, n.targets, n.value);
      assert Visit(b, n) == VisitAssign(b, n.targets, n.value);
    } else if n.Other? {
      VisitSeqCurrentScope(b, n.children);
      assert Visit(b, n) == VisitSeq(b, n.children);
    } else {
      LeafCurrent(b, n);
      assert Visit(b, n) == VisitLeaf(b, n);
      assert DirectDecls(n) == {};
    }
  }

  lemma LeafCurrent(b: Builder, n: Node)
    requires Valid(b)
    requires IsReference(n)
    ensures CurrentGains(b, VisitLeaf(b, n), {}, DirectRefs(n))
  {
    match n
    case Name(_, _) =>
    case Import(names) =>
      assert ImportedNames(names) == DirectRefs(n);
    case ImportFrom(_, names) =>
      assert ImportedNames(names) == DirectRefs(n);
  }

  lemma {:induction false} ScopeNodeCurrent(b: Builder, n: Node)
    requires Valid(b)
    requires OpensScope(n)
    ensures CurrentGains(b, VisitScopeNode(b, n), DirectDecls(n), {})
    decreases n, 1
  {
    match n
    case FunctionDef(name, params, ch) => VisitScopeCurrent(b, "func_" + name, Some(name), params, ch);
    case AsyncFunctionDef(name, params, ch) => VisitScopeCurrent(b, "asyncFunc_" + name, Some(name), params, ch);
    case Lambda(params, ch) => VisitScopeCurrent(b, "lambda", None, params, ch);
    case ClassDef(name, ch) => VisitScopeCurrent(b, "class_" + name, None, [], ch);
    case ListComp(ch) => VisitScopeCurrent(b, "lstComp", None, [], ch);
    case ExceptHandler(bound, ch) =>
      VisitScopeCurrent(b, "excHandler", None, if bound.Some? then [bound.value] else [], ch);
  }

  lemma {:induction false} AssignCurrent(b: Builder, targets: seq<Node>, value: Node)
    requires Valid(b)
    ensures CurrentGains(b, VisitAssign(b, targets, value), DirectDecls(Assign(targets, value)), DirectRefs(Assign(targets, value)))
    decreases Assign(targets, value), 1
  {
    var visited := VisitSeq(AddDecls(b, TargetNames(targets)), targets);
    AssignTargetsCurrent(b, targets);
    VisitCurrentScope(visited, value);
    GainsChain(b, visited, Visit(visited, value), TargetNames(targets) + DirectDeclsSeq(targets), DirectRefsSeq(targets), DirectDecls(value), DirectRefs(value));
  }

  /** The first half of `visit_Assign`: declaring the targets and visiting them. */
  lemma {:induction false} AssignTargetsCurrent(b: Builder, targets: seq<Node>)
    requires Valid(b)
    ensures var visited := VisitSeq(AddDecls(b, TargetNames(targets)), targets);
            && Valid(visited)
            && CurrentGains(b, visited, TargetNames(targets) + DirectDeclsSeq(targets), DirectRefsSeq(targets))
    decreases targets, 1
  {
    var names := TargetNames(targets);
    var declared := AddDecls(b, names);
    AddDeclsGains(b, names);
    AddNamesGrows(b, names);
    VisitSeqGrows(declared, targets);
    VisitSeqCurrentScope(declared, targets);
    GainsChain(b, declared, VisitSeq(declared, targets), names, {}, DirectDeclsSeq(targets), DirectRefsSeq(targets));
    assert {} + DirectRefsSeq(targets) == DirectRefsSeq(targets);
  }

  lemma AddDeclsGains(b: Builder, ids: set<string>)
    requires Valid(b)
    ensures CurrentGains(b, AddDecls(b, ids), ids, {})
  {
  }

  lemma {:induction false} VisitScopeCurrent(b: Builder, tag: string, enclosingDecl: Option<string>, params: seq<string>, ch: seq<Node>)
    requires Valid(b)
    ensures CurrentGains(b, VisitScope(b, tag, enclosingDecl, params, ch), OptionElems(enclosingDecl), {})
    decreases ch, 1
  {
    var top := CurrentScope(b);
    var sid := MakeId(b.nextId, tag);
    var entered := EnterScope(b, sid, enclosingDecl, params);
    OpenScopeGrows(b, tag, enclosingDecl, params);
    VisitSeqFrame(entered, ch);
    KeepsEnclosingScope(b, entered, VisitSeq(entered, ch), OptionElems(enclosingDecl));
  }

  /** Once a new scope is on top, what happens inside it leaves the enclosing scope's entry alone. */
  lemma KeepsEnclosingScope(b: Builder, entered: Builder, inner: Builder, decls: set<string>)
    requires |b.stack| > 0 && CurrentScope(b) in b.graph
    requires |entered.stack| > 0 && CurrentScope(entered) != CurrentScope(b) && CurrentScope(b) in entered.graph
    requires entered.graph[CurrentScope(b)] == b.graph[CurrentScope(b)].(decls := b.graph[CurrentScope(b)].decls + decls)
    requires |inner.stack| > 0 && OnlyCurrentChanged(entered, inner)
    ensures CurrentGains(b, ExitScope(inner), decls, {})
  {
  }

  lemma {:induction false} VisitSeqCurrentScope(b: Builder, ns: seq<Node>)
    requires Valid(b)
    ensures CurrentGains(b, VisitSeq(b, ns), DirectDeclsSeq(ns), DirectRefsSeq(ns))
    decreases ns, 0
  {
    if ns != [] {
      var first := Visit(b, ns[0]);
      VisitGrows(b, ns[0]);
      VisitCurrentScope(b, ns[0]);
      VisitSeqCurrentScope(first, ns[1..]);
      GainsChain(b, first, VisitSeq(first, ns[1..]), DirectDecls(ns[0]), DirectRefs(ns[0]), DirectDeclsSeq(ns[1..]), DirectRefsSeq(ns[1..]));
    }
  }

  /**
   * A scope-introducing node creates its entry under `s{counter}_{tag}`, an
   * identifier not in the graph before; once the node is visited, the entry's
   * parent is the scope that was current, and it holds the node's initial
   * declarations plus what its body declares and references directly.
   */
  lemma NewScopeEntry(b: Builder, n: Node)
    requires Valid(b)
    requires OpeningOf(n).Some?
    ensures var o := OpeningOf(n).value;
            var sid := MakeId(b.nextId, o.tag);
            var r := Visit(b, n);
            && sid !in b.graph
            && sid in r.graph
            && r.graph[sid] == Scope(o.initialDecls + DirectDeclsSeq(o.body), DirectRefsSeq(o.body), Some(CurrentScope(b)))
  {
    var o := OpeningOf(n).value;
    var params := ScopeNodeParams(n);
    VisitOpensScope(b, n);
    VisitScopeEntry(b, o.tag, o.enclosingDecl, params, o.body);
  }

  /** The names a scope-introducing `visit_*` method declares in its new scope, as a list. */
  function ScopeNodeParams(n: Node): seq<string> {
    match n
    case FunctionDef(_, params, _) => params
    case AsyncFunctionDef(_, params, _) => params
    case Lambda(params, _) => params
    case ExceptHandler(bound, _) => if bound.Some? then [bound.value] else []
    case _ => []
  }

  /** Visiting a scope-introducing node is `VisitScope` with the node's opening. */
  lemma VisitOpensScope(b: Builder, n: Node)
    requires Valid(b)
    requires OpeningOf(n).Some?
    ensures var o := OpeningOf(n).value;
            && Elems(ScopeNodeParams(n)) == o.initialDecls
            && Visit(b, n) == VisitScope(b, o.tag, o.enclosingDecl, ScopeNodeParams(n), o.body)
  {
    assert Visit(b, n) == VisitScopeNode(b, n);
  }

  lemma VisitScopeEntry(b: Builder, tag: string, enclosingDecl: Option<string>, params: seq<string>, ch: seq<Node>)
    requires Valid(b)
    ensures var sid := MakeId(b.nextId, tag);
            var r := VisitScope(b, tag, enclosingDecl, params, ch);
            && sid !in b.graph
            && sid in r.graph
            && r.graph[sid] == Scope(Elems(params) + DirectDeclsSeq(ch), DirectRefsSeq(ch), Some(CurrentScope(b)))
  {
    var sid := MakeId(b.nextId, tag);
    var entered := EnterScope(b, sid, enclosingDecl, params);
    OpenScopeGrows(b, tag, enclosingDecl, params);
    VisitSeqCurrentScope(entered, ch);
  }

  /**
   * The whole module: the global scope declares and references exactly what
   * the module does directly, and it is the only scope without a parent.
   */
  lemma BuildGlobalScope(tree: Node)
    ensures var r := Build(tree);
            && r.graph[MainId] == Scope(DirectDecls(tree), DirectRefs(tree), None)
            && forall k :: k in r.graph ==> (r.graph[k].parent == None <==> k == MainId)
  {
    InitValid();
    VisitCurrentScope(Init(), tree);
    BuildValid(tree);
    var r := Build(tree);
    forall k | k in r.graph
      ensures r.graph[k].parent == None <==> k == MainId
    {
      if k != MainId {
        assert HasEarlierParent(r.graph, k);
      }
    }
  }

  /**
   * The chain of scopes from `k` up to the global scope, following parent
   * links: it always ends at `s0__main__`, and each step goes to a scope
   * created earlier.
   */
  function AncestorChain(g: map<string, Scope>, k: string): (c: seq<string>)
    requires Rooted(g) && k in g
    ensures |c| >= 1 && c[0] == k && c[|c| - 1] == MainId
    ensures forall i :: 0 <= i < |c| ==> c[i] in g
    ensures forall i :: 0 <= i < |c| - 1 ==> g[c[i]].parent == Some(c[i + 1])
    ensures forall i, j :: 0 <= i < j < |c| ==> CounterOf(c[j]) < CounterOf(c[i])
    decreases CounterOf(k)
  {
    if k == MainId then [k]
    else
      assert HasEarlierParent(g, k);
      [k] + AncestorChain(g, g[k].parent.value)
  }

  lemma {:induction false} DistinctCard(c: seq<string>)
    requires forall i, j :: 0 <= i < j < |c| ==> CounterOf(c[j]) < CounterOf(c[i])
    ensures |Elems(c)| == |c|
    decreases |c|
  {
    if c != [] {
      DistinctCard(c[1..]);
      assert Elems(c) == {c[0]} + Elems(c[1..]);
      assert c[0] !in Elems(c[1..]) by {
        forall i | 0 <= i < |c[1..]|
          ensures c[1..][i] != c[0]
        {
          assert CounterOf(c[i + 1]) < CounterOf(c[0]);
        }
      }
    }
  }

  /** Following parent links from any scope reaches the global scope in fewer steps than there are scopes. */
  lemma AncestorChainBounded(g: map<string, Scope>, k: string)
    requires Rooted(g) && k in g
    ensures |AncestorChain(g, k)| <= |g.Keys|
  {
    var c := AncestorChain(g, k);
    DistinctCard(c);
    assert Elems(c) <= g.Keys;
    assert g.Keys == Elems(c) + (g.Keys - Elems(c));
  }
}

/**
 * The invariant of every builder state reachable from `ScopeGraph.Init`, and
 * the proof that every visit keeps it while only adding to the graph.
 */
module ScopeGraphInvariants {
  import opened Wrappers
  import opened ScopeIds
  import opened PyAst
  import opened ScopeGraph

  /**
   * Every entry other than the global scope has a parent that is itself in the
   * graph and was created before it, and the global scope has none.
   */
  ghost predicate Rooted(g: map<string, Scope>) {
    && MainId in g
    && g[MainId].parent == None
    && forall k {:trigger HasEarlierParent(g, k)} :: k in g && k != MainId ==> HasEarlierParent(g, k)
  }

  ghost predicate HasEarlierParent(g: map<string, Scope>, k: string)
    requires k in g
  {
    && g[k].parent.Some?
    && g[k].parent.value in g
    && CounterOf(g[k].parent.value) < CounterOf(k)
  }

  /**
   * The global scope sits at the bottom of a non-empty stack, every stacked
   * scope is in the graph, every identifier's counter read-back is below the
   * next counter value, and the parent links are rooted at the global
   * scope.
   */
  ghost predicate Valid(b: Builder) {
    && StackInGraph(b)
    && b.stack[0] == MainId
    && (forall k {:trigger CounterOf(k)} :: k in b.graph ==> CounterOf(k) < b.nextId)
    && Rooted(b.graph)
  }

  /** `g'` keeps every entry of `g` with the same parent and at least the same names. */
  ghost predicate Extends(g: map<string, Scope>, g': map<string, Scope>) {
    forall k :: k in g ==>
      && k in g'
      && g'[k].parent == g[k].parent
      && g[k].decls <= g'[k].decls
      && g[k].refs <= g'[k].refs
  }

  /**
   * What a visit that opens `count` scopes does to the state: the invariant is
   * kept, the stack is as it was, the counter moved on by `count`, and exactly
   * `count` entries were added while the old ones were only extended.
   */
  ghost predicate Grows(b: Builder, r: Builder, count: nat) {
    && Valid(r)
    && r.stack == b.stack
    && r.nextId == b.nextId + count
    && |r.graph.Keys| == |b.graph.Keys| + count
    && Extends(b.graph, r.graph)
  }

  /** The builder starts in a valid state. */
  lemma InitValid()
    ensures Valid(Init())
  {
    MainIdIsCounterZero();
  }

  /**
   * Opening a scope whose identifier carries the current counter value: the
   * identifier is fresh, the invariant is kept, one entry is added and the old
   * ones are only extended.
   */
  lemma EnterScopeGrows(b: Builder, sid: string, enclosingDecl: Option<string>, params: seq<string>)
    requires Valid(b)
    requires CounterOf(sid) == b.nextId
    ensures sid !in b.graph
    ensures var r := EnterScope(b, sid, enclosingDecl, params);
            && Valid(r)
            && |r.graph.Keys| == |b.graph.Keys| + 1
            && Extends(b.graph, r.graph)
  {
    var r := EnterScope(b, sid, enclosingDecl, params);
    PushedScopeValid(b, r, sid);
  }

  /**
   * `EnterScopeGrows` for the identifier a scope-introducing visit makes from
   * the counter and its tag.
   */
  lemma OpenScopeGrows(b: Builder, tag: string, enclosingDecl: Option<string>, params: seq<string>)
    requires Valid(b)
    ensures MakeId(b.nextId, tag) !in b.graph
    ensures var r := EnterScope(b, MakeId(b.nextId, tag), enclosingDecl, params);
            && Valid(r)
            && |r.graph.Keys| == |b.graph.Keys| + 1
            && Extends(b.graph, r.graph)
  {
    CounterOfMakeId(b.nextId, tag);
    EnterScopeGrows(b, MakeId(b.nextId, tag), enclosingDecl, params);
  }

  /**
   * The state facts behind `EnterScopeGrows`, for any state that adds `sid` as
   * a child of the current scope and only extends the other entries.
   */
  lemma PushedScopeValid(b: Builder, r: Builder, sid: string)
    requires Valid(b)
    requires CounterOf(sid) == b.nextId
    requires r.stack == b.stack + [sid] && r.nextId == b.nextId + 1
    requires r.graph.Keys == b.graph.Keys + {sid}
    requires sid !in b.graph ==>
               && r.graph[sid].parent == Some(CurrentScope(b))
               && forall k :: k in b.graph ==>
                    && r.graph[k].parent == b.graph[k].parent
                    && b.graph[k].decls <= r.graph[k].decls
                    && b.graph[k].refs <= r.graph[k].refs
    ensures sid !in b.graph
    ensures Valid(r)
    ensures |r.graph.Keys| == |b.graph.Keys| + 1
    ensures Extends(b.graph, r.graph)
  {
    var top := CurrentScope(b);
    assert top in b.graph;
    MainIdIsCounterZero();
    assert MainId != sid;
    forall k | k in r.graph && k != MainId
      ensures HasEarlierParent(r.graph, k)
    {
      if k != sid {
        assert HasEarlierParent(b.graph, k);
      }
    }
    forall i | 0 <= i < |r.stack|
      ensures r.stack[i] in r.graph
    {
      if i < |b.stack| {
        assert r.stack[i] == b.stack[i];
      }
    }
  }

  /** Visiting the body of a freshly opened scope and popping it gives back the stack one started with. */
  lemma ExitScopeGrows(b0: Builder, b1: Builder, b2: Builder, c1: nat, c2: nat)
    requires Valid(b0) && Valid(b1)
    requires |b1.graph.Keys| == |b0.graph.Keys| + c1 && b1.nextId == b0.nextId + c1
    requires Extends(b0.graph, b1.graph)
    requires |b1.stack| == |b0.stack| + 1 && b1.stack[..|b0.stack|] == b0.stack
    requires Grows(b1, b2, c2)
    ensures Grows(b0, ExitScope(b2), c1 + c2)
  {
    var r := ExitScope(b2);
    assert r.stack == b0.stack;
    assert r.graph == b2.graph;
    forall i | 0 <= i < |r.stack|
      ensures r.stack[i] in r.graph
    {
      assert r.stack[i] == b1.stack[i];
    }
    assert Valid(r);
    assert Extends(b0.graph, r.graph);
  }

  /** `Grows` composes: counts add up. */
  lemma GrowsChain(b0: Builder, b1: Builder, b2: Builder, c1: nat, c2: nat)
    requires Grows(b0, b1, c1) && Grows(b1, b2, c2)
    ensures Grows(b0, b2, c1 + c2)
  {
  }

  /** Adding names to an existing entry keeps the invariant. */
  lemma UpdateNamesGrows(b: Builder, id: string, s: Scope)
    requires Valid(b) && id in b.graph
    requires s.parent == b.graph[id].parent
    requires b.graph[id].decls <= s.decls && b.graph[id].refs <= s.refs
    ensures Grows(b, Update(b, id, s), 0)
  {
    var r := Update(b, id, s);
    forall k | k in r.graph && k != MainId
      ensures HasEarlierParent(r.graph, k)
    {
      assert HasEarlierParent(b.graph, k);
    }
    assert r.graph.Keys == b.graph.Keys;
  }

  /** Recording references or declarations keeps the invariant and adds no entry. */
  lemma AddNamesGrows(b: Builder, ids: set<string>)
    requires Valid(b)
    ensures Grows(b, AddRefs(b, ids), 0)
    ensures Grows(b, AddDecls(b, ids), 0)
  {
    var cur := CurrentScope(b);
    UpdateNamesGrows(b, cur, b.graph[cur].(refs := b.graph[cur].refs + ids));
    UpdateNamesGrows(b, cur, b.graph[cur].(decls := b.graph[cur].decls + ids));
  }

  /** Every visit keeps the invariant, adds one entry per scope the subtree opens, and only extends the old ones. */
  lemma {:induction false} VisitGrows(b: Builder, n: Node)
    requires Valid(b)
    ensures Grows(b, Visit(b, n), ScopeCount(n))
    decreases n, 2
  {
    if OpensScope(n) {
      ScopeNodeGrows(b, n);
    } else if n.Assign? {
      AssignGrows(b, n.targets, n.value);
    } else if n.Other? {
      VisitSeqGrows(b, n.children);
    } else {
      LeafGrows(b, n);
    }
  }

  lemma {:induction false} ScopeNodeGrows(b: Builder, n: Node)
    requires Valid(b)
    requires OpensScope(n)
    ensures Grows(b, VisitScopeNode(b, n), ScopeCount(n))
    decreases n, 1
  {
    match n
    case FunctionDef(name, params, ch) => VisitScopeGrows(b, "func_" + name, Some(name), params, ch);
    case AsyncFunctionDef(name, params, ch) => VisitScopeGrows(b, "asyncFunc_" + name, Some(name), params, ch);
    case Lambda(params, ch) => VisitScopeGrows(b, "lambda", None, params, ch);
    case ClassDef(name, ch) => VisitScopeGrows(b, "class_" + name, None, [], ch);
    case ListComp(ch) => VisitScopeGrows(b, "lstComp", None, [], ch);
    case ExceptHandler(bound, ch) =>
      VisitScopeGrows(b, "excHandler", None, if bound.Some? then [bound.value] else [], ch);
  }

  lemma LeafGrows(b: Builder, n: Node)
    requires Valid(b)
    requires IsReference(n)
    ensures Grows(b, VisitLeaf(b, n), 0)
  {
    match n
    case Name(id, ctx) => AddNamesGrows(b, {id});
    case Import(names) => AddNamesGrows(b, ImportedNames(names));
    case ImportFrom(_, names) => AddNamesGrows(b, ImportedNames(names));
  }

  lemma {:induction false} AssignGrows(b: Builder, targets: seq<Node>, value: Node)
    requires Valid(b)
    ensures Grows(b, VisitAssign(b, targets, value), ScopeCountSeq(targets) + ScopeCount(value))
    decreases Assign(targets, value), 1
  {
    var b1 := AddDecls(b, TargetNames(targets));
    AddNamesGrows(b, TargetNames(targets));
    var b2 := VisitSeq(b1, targets);
    VisitSeqGrows(b1, targets);
    VisitGrows(b2, value);
    GrowsChain(b, b1, b2, 0, ScopeCountSeq(targets));
    GrowsChain(b, b2, Visit(b2, value), ScopeCountSeq(targets), ScopeCount(value));
  }

  lemma {:induction false} VisitScopeGrows(b: Builder, tag: string, enclosingDecl: Option<string>, params: seq<string>, ch: seq<Node>)
    requires Valid(b)
    ensures Grows(b, VisitScope(b, tag, enclosingDecl, params, ch), 1 + ScopeCountSeq(ch))
    decreases ch, 1
  {
    var sid := MakeId(b.nextId, tag);
    var entered := EnterScope(b, sid, enclosingDecl, params);
    OpenScopeGrows(b, tag, enclosingDecl, params);
    var inner := VisitSeq(entered, ch);
    VisitSeqGrows(entered, ch);
    ExitScopeGrows(b, entered, inner, 1, ScopeCountSeq(ch));
  }

  lemma {:induction false} VisitSeqGrows(b: Builder, ns: seq<Node>)
    requires Valid(b)
    ensures Grows(b, VisitSeq(b, ns), ScopeCountSeq(ns))
    decreases ns, 0
  {
    if ns != [] {
      var b1 := Visit(b, ns[0]);
      VisitGrows(b, ns[0]);
      VisitSeqGrows(b1, ns[1..]);
      GrowsChain(b, b1, VisitSeq(b1, ns[1..]), ScopeCount(ns[0]), ScopeCountSeq(ns[1..]));
    }
  }

  /** The graph of a whole module is valid and has one entry per scope opened, plus the global one. */
  lemma BuildValid(tree: Node)
    ensures Valid(Build(tree))
    ensures |Build(tree).graph.Keys| == 1 + ScopeCount(tree)
  {
    InitValid();
    VisitGrows(Init(), tree);
  }
}

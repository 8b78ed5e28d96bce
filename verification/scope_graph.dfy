/**
 * The scope-graph builder: a depth-first visit of a syntax tree that keeps a
 * stack of active scope identifiers and a counter for fresh identifiers, and
 * builds a map from scope identifier to the scope's declared names, referenced
 * names and parent scope.
 *
 * The builder's three mutable fields are one immutable `Builder` value here,
 * threaded through the traversal; each `visit_*` method is a case of `Visit`.
 * The contracts here are the ones the traversal needs to be well defined;
 * the invariants of the graph it builds are proved in `ScopeGraphInvariants`.
 */
module ScopeGraph {
  import opened Wrappers
  import opened ScopeIds
  import opened PyAst

  /** One graph entry: `{"decls": ..., "refs": ..., "parent": ...}`. */
  datatype Scope = Scope(decls: set<string>, refs: set<string>, parent: Option<string>)

  /** The builder's state: scope stack (innermost last), graph, next counter value. */
  datatype Builder = Builder(stack: seq<string>, graph: map<string, Scope>, nextId: nat)

  /** A scope just created: no names yet and no parent. */
  const EmptyScope: Scope := Scope({}, {}, None)

  /** The stack is not empty and every scope on it has an entry: what the `visit_*` methods rely on. */
  ghost predicate StackInGraph(b: Builder) {
    && |b.stack| > 0
    && forall i :: 0 <= i < |b.stack| ==> b.stack[i] in b.graph
  }

  /** `ScopeGraph.__init__`. */
  function Init(): (b: Builder)
    ensures StackInGraph(b)
    ensures b.stack == [MainId] && b.nextId == 1
    ensures b.graph.Keys == {MainId} && b.graph[MainId] == Scope({}, {}, None)
  {
    Builder([MainId], map[MainId := EmptyScope], 1)
  }

  /** `__current_scope`: the innermost active scope. */
  function CurrentScope(b: Builder): string
    requires |b.stack| > 0
  {
    b.stack[|b.stack| - 1]
  }

  /** `__get_parent_scope`: the scope below the innermost one, if any. */
  function ParentScope(b: Builder): Option<string> {
    if |b.stack| > 1 then Some(b.stack[|b.stack| - 2]) else None
  }

  /**
   * `__get_parent_scope` finds nothing on the initial stack, and after any
   * push it finds the scope that was on top before the push: the `is not None`
   * guard of every scope-introducing visit always passes.
   */
  lemma ParentAfterPush(b: Builder, sid: string)
    requires |b.stack| > 0
    ensures ParentScope(Init()) == None
    ensures ParentScope(b.(stack := b.stack + [sid])) == Some(CurrentScope(b))
  {
  }

  /** Replaces the entry of scope `id` (a Python dict update in place). */
  function Update(b: Builder, id: string, s: Scope): Builder {
    b.(graph := b.graph[id := s])
  }

  /**
   * The common opening of every scope-introducing `visit_*` method, once the
   * identifier `sid` has been made from the counter: bump the counter, store
   * an empty entry under `sid`, add `enclosingDecl` (the function's own name,
   * for functions) to the enclosing scope's declarations, push `sid`, link it
   * to its parent, and declare `params` in it. When `sid` is fresh, the new
   * entry's parent is the scope that was current, and the only old entry
   * touched is that scope's, which gains `enclosingDecl`.
   */
  function EnterScope(b: Builder, sid: string, enclosingDecl: Option<string>, params: seq<string>): (r: Builder)
    requires |b.stack| > 0 && CurrentScope(b) in b.graph
    ensures r.stack == b.stack + [sid]
    ensures r.nextId == b.nextId + 1
    ensures r.graph.Keys == b.graph.Keys + {sid}
    ensures sid !in b.graph ==>
              && r.graph[sid] == Scope(Elems(params), {}, Some(CurrentScope(b)))
              && r.graph[CurrentScope(b)] == b.graph[CurrentScope(b)].(decls := b.graph[CurrentScope(b)].decls + OptionElems(enclosingDecl))
              && forall k :: k in b.graph && k != CurrentScope(b) ==> r.graph[k] == b.graph[k]
  {
    var b1 := Update(b.(nextId := b.nextId + 1), sid, EmptyScope);
    var cur := CurrentScope(b1);
    var b2 :=
      match enclosingDecl
      case Some(name) => Update(b1, cur, b1.graph[cur].(decls := b1.graph[cur].decls + {name}))
      case None => b1;
    var b3 := b2.(stack := b2.stack + [sid]);
    var b4 :=
      match ParentScope(b3)
      case Some(p) => Update(b3, CurrentScope(b3), b3.graph[CurrentScope(b3)].(parent := Some(p)))
      case None => b3;
    Update(b4, sid, b4.graph[sid].(decls := b4.graph[sid].decls + Elems(params)))
  }

  /** `self.__scope_stack.pop()`. */
  function ExitScope(b: Builder): Builder
    requires |b.stack| > 0
  {
    b.(stack := b.stack[..|b.stack| - 1])
  }

  /** The names `visit_Assign` declares: those of the targets that are plain `Name` nodes. */
  function TargetNames(targets: seq<Node>): (names: set<string>)
    ensures forall i :: 0 <= i < |targets| && targets[i].Name? ==> targets[i].id in names
    ensures forall x :: x in names ==> exists i :: 0 <= i < |targets| && targets[i].Name? && targets[i].id == x
    decreases |targets|
  {
    if targets == [] then {}
    else
      var rest := TargetNames(targets[1..]);
      assert forall x :: x in rest ==> exists i :: 1 <= i < |targets| && targets[i].Name? && targets[i].id == x by {
        forall x | x in rest
          ensures exists i :: 1 <= i < |targets| && targets[i].Name? && targets[i].id == x
        {
          var j :| 0 <= j < |targets[1..]| && targets[1..][j].Name? && targets[1..][j].id == x;
          assert targets[j + 1].Name? && targets[j + 1].id == x;
        }
      }
      match targets[0]
      case Name(x, _) => {x} + rest
      case _ => rest
  }

  /** The names `visit_Import` and `visit_ImportFrom` record for a list of import entries. */
  function ImportedNames(names: seq<Alias>): set<string> {
    set i | 0 <= i < |names| :: RecordedName(names[i])
  }

  /** Adds `ids` to the current scope's references (`visit_Name` in Load context, `visit_Import`, `visit_ImportFrom`). */
  function AddRefs(b: Builder, ids: set<string>): (r: Builder)
    requires StackInGraph(b)
    ensures r.stack == b.stack && r.nextId == b.nextId && r.graph.Keys == b.graph.Keys
  {
    var cur := CurrentScope(b);
    Update(b, cur, b.graph[cur].(refs := b.graph[cur].refs + ids))
  }

  /** Adds `ids` to the current scope's declarations. */
  function AddDecls(b: Builder, ids: set<string>): (r: Builder)
    requires StackInGraph(b)
    ensures r.stack == b.stack && r.nextId == b.nextId && r.graph.Keys == b.graph.Keys
  {
    var cur := CurrentScope(b);
    Update(b, cur, b.graph[cur].(decls := b.graph[cur].decls + ids))
  }

  /**
   * `visit(node)`: dispatch to the `visit_*` method of the node's kind, or to
   * the generic visit of its children for every other kind. Every visit
   * leaves the scope stack as it found it, keeps every entry, and moves the
   * counter on by the number of scopes the subtree opens.
   */
  function Visit(b: Builder, n: Node): (r: Builder)
    requires StackInGraph(b)
    ensures r.stack == b.stack && b.graph.Keys <= r.graph.Keys && r.nextId == b.nextId + ScopeCount(n)
    decreases n, 2
  {
    if OpensScope(n) then VisitScopeNode(b, n)
    else if n.Assign? then VisitAssign(b, n.targets, n.value)
    else if n.Other? then VisitSeq(b, n.children)
    else VisitLeaf(b, n)
  }

  /**
   * The scope-introducing `visit_*` methods: each makes its identifier from
   * its own tag, and they differ in what they declare in the enclosing scope
   * (only functions declare their name there) and in the new scope (the
   * positional parameters, or the exception handler's bound name).
   */
  function VisitScopeNode(b: Builder, n: Node): (r: Builder)
    requires StackInGraph(b)
    requires OpensScope(n)
    ensures r.stack == b.stack && b.graph.Keys <= r.graph.Keys && r.nextId == b.nextId + ScopeCount(n)
    decreases n, 1
  {
    match n
    case FunctionDef(name, params, ch) => VisitScope(b, "func_" + name, Some(name), params, ch)
    case AsyncFunctionDef(name, params, ch) => VisitScope(b, "asyncFunc_" + name, Some(name), params, ch)
    case Lambda(params, ch) => VisitScope(b, "lambda", None, params, ch)
    case ClassDef(name, ch) => VisitScope(b, "class_" + name, None, [], ch)
    case ListComp(ch) => VisitScope(b, "lstComp", None, [], ch)
    case ExceptHandler(bound, ch) =>
      VisitScope(b, "excHandler", None, if bound.Some? then [bound.value] else [], ch)
  }

  /**
   * `visit_Name`, `visit_Import` and `visit_ImportFrom`: they record
   * references in the current scope and do not visit any child.
   */
  function VisitLeaf(b: Builder, n: Node): (r: Builder)
    requires StackInGraph(b)
    requires IsReference(n)
    ensures r.stack == b.stack && r.nextId == b.nextId && r.graph.Keys == b.graph.Keys
  {
    match n
    case Name(id, ctx) => if ctx == Load then AddRefs(b, {id}) else b
    case Import(names) => AddRefs(b, ImportedNames(names))
    case ImportFrom(_, names) => AddRefs(b, ImportedNames(names))
  }

  /** `visit_Assign`: declare the plain-name targets, then visit the targets and the value. */
  function VisitAssign(b: Builder, targets: seq<Node>, value: Node): (r: Builder)
    requires StackInGraph(b)
    ensures r.stack == b.stack && b.graph.Keys <= r.graph.Keys
    ensures r.nextId == b.nextId + ScopeCountSeq(targets) + ScopeCount(value)
    decreases Assign(targets, value), 1
  {
    var declared := AddDecls(b, TargetNames(targets));
    Visit(VisitSeq(declared, targets), value)
  }

  /** A scope-introducing visit: open the scope, visit the children inside it, pop it. */
  function VisitScope(b: Builder, tag: string, enclosingDecl: Option<string>, params: seq<string>, ch: seq<Node>): (r: Builder)
    requires StackInGraph(b)
    ensures r.stack == b.stack && b.graph.Keys <= r.graph.Keys && r.nextId == b.nextId + 1 + ScopeCountSeq(ch)
    decreases ch, 1
  {
    var entered := EnterScope(b, MakeId(b.nextId, tag), enclosingDecl, params);
    var inner := VisitSeq(entered, ch);
    assert inner.stack[..|b.stack|] == b.stack;
    ExitScope(inner)
  }

  /** `generic_visit`: visit the children in order. */
  function VisitSeq(b: Builder, ns: seq<Node>): (r: Builder)
    requires StackInGraph(b)
    ensures r.stack == b.stack && b.graph.Keys <= r.graph.Keys && r.nextId == b.nextId + ScopeCountSeq(ns)
    decreases ns, 0
  {
    if ns == [] then b else VisitSeq(Visit(b, ns[0]), ns[1..])
  }

  /** A fresh builder visiting a whole module: `ScopeGraph().visit(tree)`. */
  function Build(tree: Node): (r: Builder)
    ensures r.stack == [MainId]
    ensures MainId in r.graph
    ensures r.nextId == 1 + ScopeCount(tree)
  {
    Visit(Init(), tree)
  }
}

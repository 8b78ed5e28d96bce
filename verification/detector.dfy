/**
 * The detector's scope classification: given a built scope graph and the
 * list of scopes that declare a variable, label each scope local (it has a
 * parent) or global (it has none). The messages the detector prints become a
 * `Report` value. The list of declaring scopes is an input here.
 */
module Detector {
  import opened Wrappers
  import opened ScopeIds
  import opened PyAst
  import opened ScopeGraph
  import opened ScopeGraphProperties

  /** `__is_local_scope`: the scope has a parent. */
  predicate IsLocalScope(g: map<string, Scope>, scope: string)
    requires scope in g
  {
    g[scope].parent != None
  }

  /** `__is_global_scope`: the scope has no parent. Exactly one of the two holds of any scope. */
  predicate IsGlobalScope(g: map<string, Scope>, scope: string)
    requires scope in g
    ensures IsGlobalScope(g, scope) <==> !IsLocalScope(g, scope)
  {
    g[scope].parent == None
  }

  /** One line of `classify_scope`'s output: "declared in local scope (s)" or "... global scope (s)". */
  datatype Label = Local(scope: string) | Global(scope: string)

  /**
   * The outcome of `classify_scope`: "not declared", or the labels printed in
   * order. `missing` is the scope whose lookup raised a `KeyError` after the
   * labels before it were printed, if one did.
   */
  datatype Report =
    | NotDeclared(variable: string)
    | Declared(variable: string, labels: seq<Label>, missing: Option<string>)

  /**
   * One loop iteration: the `if` / `elif` pair. The `elif` fires whenever the
   * `if` does not, so every scope gets exactly one label, local iff it has a
   * parent; `None` would mean that neither branch fired.
   */
  function LabelOf(g: map<string, Scope>, scope: string): (l: Option<Label>)
    requires scope in g
    ensures l.Some?
    ensures l.value.scope == scope
    ensures l.value.Local? <==> g[scope].parent.Some?
  {
    if IsLocalScope(g, scope) then Some(Local(scope))
    else if IsGlobalScope(g, scope) then Some(Global(scope))
    else None
  }

  /** The `Label` a scope gets, stated from its parent link alone. */
  ghost predicate LabelsScope(g: map<string, Scope>, l: Label, scope: string) {
    && scope in g
    && l.scope == scope
    && (l.Local? <==> g[scope].parent.Some?)
  }

  /**
   * The loop over the declaring scopes: the labels of the scopes in order,
   * stopping at the first scope not in the graph (a `KeyError`).
   */
  function LabelScopes(g: map<string, Scope>, scopes: seq<string>): (r: (seq<Label>, Option<string>))
    ensures r.1.None? <==> forall i :: 0 <= i < |scopes| ==> scopes[i] in g
    ensures r.1.None? ==> |r.0| == |scopes|
    ensures r.1.Some? ==> |r.0| < |scopes| && scopes[|r.0|] == r.1.value && r.1.value !in g
    ensures forall i :: 0 <= i < |r.0| ==> i < |scopes| && LabelsScope(g, r.0[i], scopes[i])
    decreases |scopes|
  {
    if scopes == [] then ([], None)
    else if scopes[0] !in g then ([], Some(scopes[0]))
    else
      var rest := LabelScopes(g, scopes[1..]);
      assert forall i :: 1 <= i < |scopes| ==> scopes[i] == scopes[1..][i - 1];
      ([LabelOf(g, scopes[0]).value] + rest.0, rest.1)
  }

  /**
   * `classify_scope(decl_var)` with the declaring scopes given: "not declared"
   * exactly when the list is empty; otherwise one label per scope, in list
   * order, until a scope missing from the graph, if any.
   */
  function ClassifyScope(g: map<string, Scope>, declVar: string, declScopes: seq<string>): (r: Report)
    ensures r.NotDeclared? <==> declScopes == []
    ensures r.NotDeclared? ==> r.variable == declVar
    ensures r.Declared? ==>
              && r.variable == declVar
              && (r.missing.None? <==> forall i :: 0 <= i < |declScopes| ==> declScopes[i] in g)
              && (r.missing.None? ==> |r.labels| == |declScopes|)
              && (r.missing.Some? ==> |r.labels| < |declScopes| && declScopes[|r.labels|] == r.missing.value
                                      && r.missing.value !in g)
              && forall i :: 0 <= i < |r.labels| ==> i < |declScopes| && LabelsScope(g, r.labels[i], declScopes[i])
  {
    if |declScopes| == 0 then NotDeclared(declVar)
    else
      var (labels, missing) := LabelScopes(g, declScopes);
      Declared(declVar, labels, missing)
  }

  /** On a graph the builder made, only the global scope `s0__main__` can be labelled global. */
  lemma OnlyMainIsGlobal(tree: Node, declVar: string, declScopes: seq<string>)
    ensures var r := ClassifyScope(Build(tree).graph, declVar, declScopes);
            r.Declared? ==> forall i :: 0 <= i < |r.labels| && r.labels[i].Global? ==> r.labels[i].scope == MainId
  {
    BuildGlobalScope(tree);
  }
}

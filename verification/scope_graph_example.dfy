/**
 * A worked example: the module written out in `src/main.py`, as a tree, and
 * the graph the builder makes of it.
 */
module ScopeGraphExample {
  import opened Wrappers
  import opened ScopeIds
  import opened PyAst
  import opened ScopeGraph

  const AssignX: Node := Assign([Name("x", Store)], Other([]))
  const AssignZ: Node := Assign([Name("z", Store)], Other([]))
  /** `print(y)`: an expression statement holding a call. */
  const PrintY: Node := Other([Other([Name("print", Load), Name("y", Load)])])
  const DefG: Node := FunctionDef("g", [], [Other([]), PrintY])
  const DefF: Node := FunctionDef("f", ["y"], [Other([]), AssignZ, DefG])

  /** `x = 1`, then `def f(y): z = 2; def g(): print(y)`; each `Other([])` is an argument list or a constant. */
  const MainPyTree: Node := Other([AssignX, DefF])

  const Main: string := "s0__main__"
  const F: string := "s1_func_f"
  const G: string := "s2_func_g"

  /** The state after `x = 1`. */
  const B1: Builder := Builder([Main], map[Main := Scope({"x"}, {}, None)], 1)
  /** The state inside `f`, after `z = 2`. */
  const F1: Builder := Builder([Main, F], map[Main := Scope({"x", "f"}, {}, None), F := Scope({"y", "z"}, {}, Some(Main))], 2)
  /** The state inside `g`, after `print(y)`. */
  const G1: Builder :=
    Builder([Main, F, G],
            map[Main := Scope({"x", "f"}, {}, None), F := Scope({"y", "z", "g"}, {}, Some(Main)), G := Scope({}, {"print", "y"}, Some(F))],
            3)

  lemma StepAssignX()
    ensures Visit(Init(), AssignX) == B1
  {
    var b0 := Init();
    assert TargetNames([Name("x", Store)]) == {"x"};
    var d := AddDecls(b0, {"x"});
    assert d.graph[Main] == Scope({"x"}, {}, None);
    assert d.graph.Keys == {Main};
    assert d.graph == B1.graph;
    assert Visit(d, Name("x", Store)) == d;
    assert VisitSeq(d, [Name("x", Store)]) == d;
    assert Visit(d, Other([])) == d;
  }

  /** The state on entering `f`. */
  const F0: Builder := Builder([Main, F], map[Main := Scope({"x", "f"}, {}, None), F := Scope({"y"}, {}, Some(Main))], 2)
  /** The state on entering `g`. */
  const G0: Builder :=
    Builder([Main, F, G],
            map[Main := Scope({"x", "f"}, {}, None), F := Scope({"y", "z", "g"}, {}, Some(Main)), G := Scope({}, {}, Some(F))],
            3)

  lemma StepEnterF()
    ensures MakeId(B1.nextId, "func_f") == F
    ensures EnterScope(B1, F, Some("f"), ["y"]) == F0
  {
    assert Decimal(1) == "1";
    assert "s" + "1" + "_" + "func_f" == F;
    assert Elems(["y"]) == {"y"};
    var r := EnterScope(B1, F, Some("f"), ["y"]);
    assert r.graph[F] == F0.graph[F];
    assert r.graph[Main] == F0.graph[Main];
    assert r.graph.Keys == F0.graph.Keys;
    assert r.graph == F0.graph;
  }

  lemma StepAssignZ()
    ensures Visit(Visit(F0, Other([])), AssignZ) == F1
  {
    var b := F0;
    assert Visit(b, Other([])) == b;
    assert TargetNames([Name("z", Store)]) == {"z"};
    var d := AddDecls(b, {"z"});
    assert d.graph[F] == Scope({"y", "z"}, {}, Some(Main));
    assert d.graph.Keys == {Main, F};
    assert d.graph == F1.graph;
    assert Visit(d, Name("z", Store)) == d;
    assert VisitSeq(d, [Name("z", Store)]) == d;
    assert Visit(d, Other([])) == d;
  }

  lemma StepEnterG()
    ensures MakeId(F1.nextId, "func_g") == G
    ensures EnterScope(F1, G, Some("g"), []) == G0
  {
    assert Decimal(2) == "2";
    assert "s" + "2" + "_" + "func_g" == G;
    assert Elems<string>([]) == {};
    var r := EnterScope(F1, G, Some("g"), []);
    assert r.graph[G] == G0.graph[G];
    assert r.graph[F] == G0.graph[F];
    assert r.graph[Main] == G0.graph[Main];
    assert r.graph.Keys == G0.graph.Keys;
    assert r.graph == G0.graph;
  }

  /** The references `print` and `y`, made one after the other. */
  lemma StepCall()
    ensures Visit(G0, Other([Name("print", Load), Name("y", Load)])) == G1
  {
    var p := AddRefs(G0, {"print"});
    assert Visit(G0, Name("print", Load)) == p;
    var y := AddRefs(p, {"y"});
    assert Visit(p, Name("y", Load)) == y;
    assert y.graph[G] == Scope({}, {"print", "y"}, Some(F));
    assert y.graph.Keys == {Main, F, G};
    assert y.graph == G1.graph;
    assert VisitSeq(G0, [Name("print", Load), Name("y", Load)]) == y;
  }

  lemma StepBodyG()
    ensures VisitSeq(G0, [Other([]), PrintY]) == G1
  {
    assert Visit(G0, Other([])) == G0;
    StepCall();
    assert [Other([]), PrintY] == [Other([])] + [PrintY];
    VisitSeqCons(G0, Other([]), [PrintY]);
    VisitSeqOne(G0, PrintY);
    VisitSeqOne(G0, Other([Name("print", Load), Name("y", Load)]));
  }

  /** Visiting a function definition opens its scope under `s{counter}_func_{name}`. */
  lemma VisitFunction(b: Builder, name: string, params: seq<string>, ch: seq<Node>)
    requires StackInGraph(b)
    ensures Visit(b, FunctionDef(name, params, ch)) == ExitScope(VisitSeq(EnterScope(b, MakeId(b.nextId, "func_" + name), Some(name), params), ch))
  {
    var n := FunctionDef(name, params, ch);
    assert Visit(b, n) == VisitScopeNode(b, n);
    assert VisitScopeNode(b, n) == VisitScope(b, "func_" + name, Some(name), params, ch);
  }

  /** A generic visit of several children is the visit of the first followed by the rest. */
  lemma VisitSeqCons(b: Builder, n: Node, ns: seq<Node>)
    requires StackInGraph(b)
    ensures VisitSeq(b, [n] + ns) == VisitSeq(Visit(b, n), ns)
  {
    assert ([n] + ns)[1..] == ns;
  }

  lemma VisitSeqOne(b: Builder, n: Node)
    requires StackInGraph(b)
    ensures VisitSeq(b, [n]) == Visit(b, n)
  {
    assert [n][1..] == [];
  }

  lemma StepDefG()
    ensures Visit(F1, DefG) == ExitScope(G1)
  {
    StepEnterG();
    StepBodyG();
    assert "func_" + "g" == "func_g";
    VisitFunction(F1, "g", [], [Other([]), PrintY]);
  }

  lemma StepBodyF()
    ensures VisitSeq(F0, [Other([]), AssignZ, DefG]) == ExitScope(G1)
  {
    StepAssignZ();
    StepDefG();
    assert [Other([]), AssignZ, DefG] == [Other([])] + [AssignZ, DefG];
    VisitSeqCons(F0, Other([]), [AssignZ, DefG]);
    assert [AssignZ, DefG] == [AssignZ] + [DefG];
    VisitSeqCons(Visit(F0, Other([])), AssignZ, [DefG]);
    VisitSeqOne(F1, DefG);
  }

  lemma StepDefF()
    ensures Visit(B1, DefF) == ExitScope(ExitScope(G1))
  {
    StepEnterF();
    StepBodyF();
    assert "func_" + "f" == "func_f";
    VisitFunction(B1, "f", ["y"], [Other([]), AssignZ, DefG]);
  }

  /**
   * The graph the builder makes for the module in `src/main.py`: the global scope declares `x` and `f`,
   * `f`'s scope declares its parameter `y`, `z` and the nested `g`, and `g`'s
   * scope references `print` and `y` without declaring anything.
   */
  lemma MainPyGraph()
    ensures Build(MainPyTree).stack == [Main]
    ensures Build(MainPyTree).graph == map[
              Main := Scope({"x", "f"}, {}, None),
              F := Scope({"y", "z", "g"}, {}, Some(Main)),
              G := Scope({}, {"print", "y"}, Some(F))]
  {
    StepAssignX();
    StepDefF();
    assert [AssignX, DefF] == [AssignX] + [DefF];
    VisitSeqCons(Init(), AssignX, [DefF]);
    VisitSeqOne(B1, DefF);
    assert Build(MainPyTree) == VisitSeq(Init(), [AssignX, DefF]);
  }
}

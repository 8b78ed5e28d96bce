/**
 * The part of Python's syntax tree the scope-graph builder looks at. Each
 * node kind the builder has a `visit_*` method for is a constructor of its
 * own; every other kind is `Other`, which only carries its children in the
 * order a generic visit reaches them.
 */
module PyAst {
  import opened Wrappers

  /** The context of a `Name` node. */
  datatype ExprContext = Load | Store | Del

  /** One entry of an `import` or `from ... import` statement. */
  datatype Alias = Alias(name: string, asname: Option<string>)

  /**
   * A syntax-tree node. For the scope-introducing kinds `children` lists every
   * child node a generic visit reaches, in field order: for a function that is
   * its arguments' annotations and defaults, its body, its decorators and its
   * return annotation; for a class, its bases, keywords, body and decorators.
   * `params` are the names of the plain positional parameters (`args.args`)
   * only. An assignment's `targets` are visited before its `value`.
   */
  datatype Node =
    | FunctionDef(name: string, params: seq<string>, children: seq<Node>)
    | AsyncFunctionDef(name: string, params: seq<string>, children: seq<Node>)
    | Lambda(params: seq<string>, children: seq<Node>)
    | ClassDef(name: string, children: seq<Node>)
    | ListComp(children: seq<Node>)
    | ExceptHandler(boundName: Option<string>, children: seq<Node>)
    | Assign(targets: seq<Node>, value: Node)
    | Name(id: string, ctx: ExprContext)
    | Import(names: seq<Alias>)
    | ImportFrom(fromModule: Option<string>, names: seq<Alias>)
    | Other(children: seq<Node>)

  /** The node kinds the builder opens a new scope for. */
  predicate OpensScope(n: Node) {
    n.FunctionDef? || n.AsyncFunctionDef? || n.Lambda? || n.ClassDef? || n.ListComp? || n.ExceptHandler?
  }

  /** The node kinds whose `visit_*` method records references and does not visit the children. */
  predicate IsReference(n: Node) {
    n.Name? || n.Import? || n.ImportFrom?
  }

  /**
   * The name the builder records for an import entry: the alias if there is
   * one, else the imported name as written (`os.path` for `import os.path`,
   * `*` for `from m import *`), which is not always the name Python binds.
   */
  function RecordedName(a: Alias): string {
    match a.asname
    case Some(alias) => alias
    case None => a.name
  }

  /** Number of nodes in a tree that open a scope of their own. */
  function ScopeCount(n: Node): nat
    decreases n
  {
    match n
    case FunctionDef(_, _, ch) => 1 + ScopeCountSeq(ch)
    case AsyncFunctionDef(_, _, ch) => 1 + ScopeCountSeq(ch)
    case Lambda(_, ch) => 1 + ScopeCountSeq(ch)
    case ClassDef(_, ch) => 1 + ScopeCountSeq(ch)
    case ListComp(ch) => 1 + ScopeCountSeq(ch)
    case ExceptHandler(_, ch) => 1 + ScopeCountSeq(ch)
    case Assign(ts, v) => ScopeCountSeq(ts) + ScopeCount(v)
    case Name(_, _) => 0
    case Import(_) => 0
    case ImportFrom(_, _) => 0
    case Other(ch) => ScopeCountSeq(ch)
  }

  function ScopeCountSeq(ns: seq<Node>): nat
    decreases ns
  {
    if ns == [] then 0 else ScopeCount(ns[0]) + ScopeCountSeq(ns[1..])
  }
}

/** The generator's depth-first ordering of proto files: imports before importers. */
module ImportOrder {
  import opened Basics

  /** An import may lack a descriptor; it is then skipped. */
  datatype Import = Resolved(path: string) | Unresolved

  type Graph = map<string, seq<Import>>

  predicate Edge(g: Graph, a: string, b: string) {
    a in g && Resolved(b) in g[a]
  }

  /** Every descriptor that an import carries is a file of the graph. */
  ghost predicate Closed(g: Graph) {
    forall a, b :: Edge(g, a, b) ==> b in g
  }

  ghost predicate IsPath(g: Graph, p: seq<string>) {
    p != [] && forall i :: 0 <= i < |p| - 1 ==> Edge(g, p[i], p[i + 1])
  }

  ghost predicate PathFrom(g: Graph, roots: seq<string>, p: seq<string>, x: string) {
    IsPath(g, p) && p[0] in roots && p[|p| - 1] == x
  }

  ghost predicate Reached(g: Graph, roots: seq<string>, x: string) {
    exists p :: PathFrom(g, roots, p, x)
  }

  /** No reachable file imports itself, directly or not. */
  ghost predicate Acyclic(g: Graph, roots: seq<string>) {
    forall p :: IsPath(g, p) && |p| >= 2 && Reached(g, roots, p[0]) ==> p[0] != p[|p| - 1]
  }

  /** Every import stands before its importer. */
  ghost predicate Topological(g: Graph, xs: seq<string>) {
    forall i, b :: 0 <= i < |xs| && Edge(g, xs[i], b) ==> b in xs[..i]
  }

  lemma ReachedStep(g: Graph, roots: seq<string>, a: string, b: string)
    requires Reached(g, roots, a) && Edge(g, a, b)
    ensures Reached(g, roots, b)
  {
    var p :| PathFrom(g, roots, p, a);
    assert PathFrom(g, roots, p + [b], b);
  }

  lemma ImportIsReached(g: Graph, roots: seq<string>, file: string, i: nat)
    requires file in g && i < |g[file]| && g[file][i].Resolved? && Reached(g, roots, file)
    ensures Edge(g, file, g[file][i].path) && Reached(g, roots, g[file][i].path)
  {
    assert g[file][i] == Resolved(g[file][i].path);
    ReachedStep(g, roots, file, g[file][i].path);
  }

  lemma ImportsSeen(g: Graph, file: string, seen: set<string>)
    requires file in g && forall j :: 0 <= j < |g[file]| && g[file][j].Resolved? ==> g[file][j].path in seen
    ensures forall b :: Edge(g, file, b) ==> b in seen
  {
    forall b | Edge(g, file, b) ensures b in seen {
      var j :| 0 <= j < |g[file]| && g[file][j] == Resolved(b);
    }
  }

  /** An import that is still open closes a cycle. */
  lemma OpenImportIsCycle(g: Graph, roots: seq<string>, stack: seq<string>, b: string)
    requires IsPath(g, stack) && Edge(g, stack[|stack| - 1], b) && b in stack
    requires forall x :: x in stack ==> Reached(g, roots, x)
    ensures !Acyclic(g, roots)
  {
    var i :| 0 <= i < |stack| && stack[i] == b;
    var p := stack[i..] + [b];
    assert IsPath(g, p) && |p| >= 2 && p[0] == p[|p| - 1];
  }

  /** What holds between any two calls of the closure; `stack` lists the open calls. */
  ghost predicate Consistent(g: Graph, roots: seq<string>, seen: set<string>, ordered: seq<string>,
                             stack: seq<string>) {
    && seen <= g.Keys
    && Distinct(ordered)
    && (forall x :: x in seen <==> x in ordered || x in stack)
    && (forall x :: x in stack ==> x !in ordered)
    && (stack != [] ==> IsPath(g, stack))
    && (forall x :: x in seen ==> Reached(g, roots, x))
    && (forall x, b :: x in ordered && Edge(g, x, b) ==> b in seen)
    && (Acyclic(g, roots) ==> Topological(g, ordered))
  }

  lemma OpenKeeps(g: Graph, roots: seq<string>, seen: set<string>, ordered: seq<string>, stack: seq<string>, f: string)
    requires Consistent(g, roots, seen, ordered, stack) && f in g && f !in seen && Reached(g, roots, f)
    requires stack != [] ==> Edge(g, stack[|stack| - 1], f)
    ensures Consistent(g, roots, seen + {f}, ordered, stack + [f])
  {
  }

  lemma CloseKeeps(g: Graph, roots: seq<string>, seen: set<string>, ordered: seq<string>, stack: seq<string>, f: string)
    requires Consistent(g, roots, seen, ordered, stack + [f]) && f !in stack
    requires forall b :: Edge(g, f, b) ==> b in seen
    ensures Consistent(g, roots, seen, ordered + [f], stack)
  {
    var open, more := stack + [f], ordered + [f];
    assert f in open;
    if stack != [] {
      assert forall i :: 0 <= i < |stack| ==> open[i] == stack[i];
    }
    if Acyclic(g, roots) {
      forall i, b | 0 <= i < |more| && Edge(g, more[i], b) ensures b in more[..i] {
        if i < |ordered| {
          assert more[..i] == ordered[..i];
        } else {
          assert more[..i] == ordered;
          if b in open { OpenImportIsCycle(g, roots, open, b); }
        }
      }
    }
  }

  class Walk {
    const graph: Graph
    ghost const roots: seq<string>
    var descriptors: set<string>
    var ordered: seq<string>

    ghost predicate Valid(stack: seq<string>)
      reads this
    {
      Closed(graph) && Consistent(graph, roots, descriptors, ordered, stack)
    }

    constructor (graph: Graph, ghost roots: seq<string>)
      requires Closed(graph)
      ensures Valid([]) && ordered == [] && this.graph == graph && this.roots == roots
    {
      this.graph, this.roots := graph, roots;
      descriptors, ordered := {}, [];
    }

    /** The recursive closure. It ends because every call that goes on marks a new file. */
    method Collect(file: string, ghost stack: seq<string>)
      requires Valid(stack) && file in graph && Reached(graph, roots, file)
      requires stack != [] ==> Edge(graph, stack[|stack| - 1], file)
      modifies this
      ensures Valid(stack) && file in descriptors
      ensures old(descriptors) <= descriptors && old(ordered) <= ordered
      decreases graph.Keys - descriptors
    {
      if file in descriptors { return; }
      OpenKeeps(graph, roots, descriptors, ordered, stack, file);
      descriptors := descriptors + {file};
      ghost var open := stack + [file];
      var imports := graph[file];
      for i := 0 to |imports|
        invariant Valid(open) && file in descriptors
        invariant old(descriptors) <= descriptors && old(ordered) <= ordered
        invariant forall j :: 0 <= j < i && imports[j].Resolved? ==> imports[j].path in descriptors
      {
        if imports[i].Resolved? {
          ImportIsReached(graph, roots, file, i);
          Collect(imports[i].path, open);
        }
      }
      ImportsSeen(graph, file, descriptors);
      CloseKeeps(graph, roots, descriptors, ordered, stack, file);
      ordered := ordered + [file];
    }
  }

  lemma {:induction false} ReachedIsSeen(g: Graph, roots: seq<string>, ordered: seq<string>, p: seq<string>)
    requires IsPath(g, p) && p[0] in ordered
    requires forall x, b :: x in ordered && Edge(g, x, b) ==> b in ordered
    ensures p[|p| - 1] in ordered
  {
    if |p| > 1 {
      var q := p[..|p| - 1];
      ReachedIsSeen(g, roots, ordered, q);
      assert Edge(g, p[|p| - 2], p[|p| - 1]);
    }
  }

  /** Along a path, positions in a topological order strictly fall. */
  lemma {:induction false} PathFalls(g: Graph, xs: seq<string>, p: seq<string>, i: nat)
    requires Topological(g, xs) && IsPath(g, p) && i < |xs| && xs[i] == p[0]
    ensures |p| >= 2 ==> p[|p| - 1] in xs[..i]
    ensures |p| == 1 ==> p[|p| - 1] == xs[i]
  {
    if |p| >= 2 {
      assert Edge(g, p[0], p[1]);
      assert p[1] in xs[..i];
      var j :| 0 <= j < i && xs[j] == p[1];
      var q := p[1..];
      assert forall k :: 0 <= k < |q| ==> q[k] == p[k + 1];
      PathFalls(g, xs, q, j);
      if |q| >= 2 { assert forall x :: x in xs[..j] ==> x in xs[..i]; }
    }
  }

  /** The order of the request: every file reachable from the inputs exactly once and nothing
      else; and imports come first exactly when the reachable graph has no cycle. */
  method Order(graph: Graph, files: seq<string>) returns (ordered: seq<string>)
    requires Closed(graph) && forall f :: f in files ==> f in graph
    ensures Distinct(ordered)
    ensures forall x :: x in ordered <==> Reached(graph, files, x)
    ensures Topological(graph, ordered) <==> Acyclic(graph, files)
  {
    var walk := new Walk(graph, files);
    for i := 0 to |files|
      invariant walk.Valid([]) && walk.graph == graph && walk.roots == files
      invariant forall j :: 0 <= j < i ==> files[j] in walk.descriptors
    {
      assert PathFrom(graph, files, [files[i]], files[i]);
      walk.Collect(files[i], []);
    }
    ordered := walk.ordered;
    forall x | Reached(graph, files, x) ensures x in ordered {
      var p :| PathFrom(graph, files, p, x);
      ReachedIsSeen(graph, files, ordered, p);
    }
    if Topological(graph, ordered) {
      forall p | IsPath(graph, p) && |p| >= 2 && Reached(graph, files, p[0]) ensures p[0] != p[|p| - 1] {
        var i :| 0 <= i < |ordered| && ordered[i] == p[0];
        PathFalls(graph, ordered, p, i);
      }
    }
  }
}

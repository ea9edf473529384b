/** The dependency closure of a package: a worklist over a graph that may have cycles. */
module Closure {
  type Package = string
  type Graph = map<Package, seq<Package>>

  /** A package that is not indexed has no dependencies. */
  function DirectDeps(graph: Graph, pkg: Package): seq<Package>
  {
    if pkg in graph then graph[pkg] else []
  }

  /** A dependency path: each package depends directly on the next. */
  predicate IsPath(graph: Graph, path: seq<Package>)
  {
    |path| >= 2 && forall i :: 0 <= i < |path| - 1 ==> path[i] in graph && path[i + 1] in graph[path[i]]
  }

  ghost predicate Reaches(graph: Graph, start: Package, pkg: Package)
  {
    exists path :: IsPath(graph, path) && path[0] == start && path[|path| - 1] == pkg
  }

  function AllDeps(graph: Graph): set<Package>
  {
    set p, d | p in graph && d in graph[p] :: d
  }

  /** Everything `pkg` leads to in one step is already known. */
  predicate Expanded(graph: Graph, seen: set<Package>, pkg: Package)
  {
    forall d :: d in DirectDeps(graph, pkg) ==> d in seen
  }

  lemma OneStep(graph: Graph, start: Package, pkg: Package, dep: Package)
    requires start == pkg || Reaches(graph, start, pkg)
    requires dep in DirectDeps(graph, pkg)
    ensures Reaches(graph, start, dep)
  {
    if start == pkg {
      assert IsPath(graph, [start, dep]);
    } else {
      var path :| IsPath(graph, path) && path[0] == start && path[|path| - 1] == pkg;
      assert IsPath(graph, path + [dep]);
    }
  }

  /** A set closed under dependencies holds every package on a path from `start`. */
  lemma {:induction false} ClosedHoldsPaths(graph: Graph, seen: set<Package>, start: Package, path: seq<Package>)
    requires IsPath(graph, path) && path[0] == start
    requires Expanded(graph, seen, start) && forall p :: p in seen ==> Expanded(graph, seen, p)
    ensures path[|path| - 1] in seen
    decreases |path|
  {
    if |path| > 2 {
      var init := path[..|path| - 1];
      assert forall i :: 0 <= i < |init| - 1 ==> init[i + 1] in DirectDeps(graph, init[i]);
      ClosedHoldsPaths(graph, seen, start, init);
      assert path[|path| - 1] in DirectDeps(graph, path[|path| - 2]);
    } else {
      assert path[0 + 1] in DirectDeps(graph, path[0]);
    }
  }

  /** The worklist's bookkeeping: what is queued, what is known and why. */
  ghost predicate Worklist(graph: Graph, start: Package, seen: set<Package>, queue: seq<Package>)
  {
    && seen <= AllDeps(graph)
    && (forall p :: p in queue ==> p == start || p in seen)
    && (forall p :: p in seen ==> Reaches(graph, start, p))
  }

  /** Every known package outside the queue, and the start, is already expanded. */
  ghost predicate ExpandedOutside(graph: Graph, start: Package, seen: set<Package>, queue: seq<Package>)
  {
    forall p :: (p == start || p in seen) && p !in queue ==> Expanded(graph, seen, p)
  }

  /** Exactly the packages a non-empty dependency path leads to, on every graph. */
  method ComputeClosure(graph: Graph, start: Package) returns (seen: set<Package>)
    ensures forall p :: p in seen <==> Reaches(graph, start, p)
  {
    seen := {};
    var queue := [start];
    while queue != []
      invariant Worklist(graph, start, seen, queue)
      invariant ExpandedOutside(graph, start, seen, queue)
      decreases AllDeps(graph) - seen, |queue|
    {
      seen, queue := Expand(graph, start, queue[0], seen, queue[1..]);
    }
    forall p | Reaches(graph, start, p) ensures p in seen {
      var path :| IsPath(graph, path) && path[0] == start && path[|path| - 1] == p;
      ClosedHoldsPaths(graph, seen, start, path);
    }
  }

  /** Take `pkg` off the worklist: its unknown dependencies become known and join the queue. */
  method Expand(graph: Graph, start: Package, pkg: Package, known: set<Package>, rest: seq<Package>)
    returns (seen: set<Package>, queue: seq<Package>)
    requires Worklist(graph, start, known, [pkg] + rest)
    requires ExpandedOutside(graph, start, known, [pkg] + rest)
    ensures Worklist(graph, start, seen, queue)
    ensures ExpandedOutside(graph, start, seen, queue)
    ensures known <= seen && (seen == known ==> queue == rest)
  {
    seen, queue := known, rest;
    var deps := DirectDeps(graph, pkg);
    assert pkg in [pkg] + rest;
    var i := 0;
    while i < |deps|
      invariant i <= |deps|
      invariant Worklist(graph, start, seen, queue)
      invariant known <= seen && (seen == known ==> queue == rest)
      invariant rest <= queue && forall p :: p in seen ==> p in known || p in queue
      invariant forall k :: 0 <= k < i ==> deps[k] in seen
    {
      if deps[i] !in seen {
        OneStep(graph, start, pkg, deps[i]);
        seen := seen + {deps[i]};
        queue := queue + [deps[i]];
      }
      i := i + 1;
    }
    forall p | (p == start || p in seen) && p !in queue ensures Expanded(graph, seen, p) {
      if p != pkg {
        assert p !in rest;
        assert p !in [pkg] + rest;
        assert Expanded(graph, known, p);
      }
    }
  }
}

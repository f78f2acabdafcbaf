/**
  The dependency graph of a factory plan: `_assert_acyclic` and `_stage_ancestors` of
  src/orbenchlab/agentic_factory.py.
  */
module FactoryGraph {
  import opened Ordering

  type Id = string

  /** For each stage the stages it depends on. */
  type Graph = map<Id, seq<Id>>

  ghost predicate Known(g: Graph) {
    forall id, d :: id in g && d in g[id] ==> d in g
  }

  /** `order` lists every stage of `part` once, each after all its dependencies. */
  ghost predicate Orders(g: Graph, part: set<Id>, order: seq<Id>) {
    && part <= g.Keys
    && Lists(order, part)
    && (forall i, d :: 0 <= i < |order| && order[i] in g && d in g[order[i]] ==> d in order[..i])
  }

  ghost predicate Topological(g: Graph, order: seq<Id>) {
    Orders(g, g.Keys, order)
  }

  /** The stages along `path` depend on one another: each on the next. */
  ghost predicate IsPath(g: Graph, path: seq<Id>) {
    && (forall i :: 0 <= i < |path| ==> path[i] in g)
    && (forall i :: 0 <= i < |path| - 1 ==> path[i + 1] in g[path[i]])
  }

  /** `to` is in the transitive closure of `depends_on`. */
  ghost predicate DependsOn(g: Graph, from: Id, to: Id) {
    exists path :: |path| >= 2 && IsPath(g, path) && path[0] == from && path[|path| - 1] == to
  }

  datatype Verdict = Accepted | UnknownDependencies(ids: set<Id>) | Cyclic

  // ---------------------------------------------------------------------------
  // _assert_acyclic
  // ---------------------------------------------------------------------------

  /** All dependencies of `id` are among `resolved`: `value <= resolved`. */
  predicate Satisfied(g: Graph, id: Id, resolved: set<Id>) {
    id in g && forall d :: d in g[id] ==> d in resolved
  }

  ghost predicate HasOrder(g: Graph) {
    exists order :: Topological(g, order)
  }

  /** The dependencies that are not stages of the plan. */
  function UnknownOnes(g: Graph): (ids: set<Id>)
    ensures forall d :: d in ids <==> d !in g && exists id :: id in g && d in g[id]
    ensures ids == {} <==> Known(g)
  {
    set id, d | id in g && d in g[id] && d !in g :: d
  }

  /** `_assert_acyclic` accepts exactly the known graphs that have a topological order, which are the
      known graphs in which no stage depends on itself. */
  method AssertAcyclic(g: Graph) returns (verdict: Verdict)
    ensures verdict.Accepted? <==> Known(g) && HasOrder(g)
    ensures verdict.Accepted? <==> Known(g) && forall id :: !DependsOn(g, id, id)
    ensures verdict.UnknownDependencies? <==> !Known(g)
    ensures verdict.UnknownDependencies? ==> verdict.ids == UnknownOnes(g)
  {
    OrderedMeansAcyclic(g);
    var unknown := UnknownOnes(g);
    if unknown != {} {
      return UnknownDependencies(unknown);
    }
    var acyclic := Resolve(g);
    return if acyclic then Accepted else Cyclic;
  }

  /** The loop of `_assert_acyclic`. */
  method Resolve(g: Graph) returns (acyclic: bool)
    requires Known(g)
    ensures if acyclic then HasOrder(g) else exists id :: DependsOn(g, id, id)
  {
    var remaining := g;
    var resolved: set<Id> := {};
    ghost var order: seq<Id> := [];
    while remaining != map[]
      invariant Resolving(g, remaining, resolved, order)
      decreases |remaining|
    {
      var ready := set id | id in remaining && Satisfied(remaining, id, resolved);
      if ready == {} {
        Stuck(g, remaining.Keys, resolved);
        return false;
      }
      var keys := SortedList(ready);
      remaining, resolved, order := ResolveReady(g, remaining, resolved, keys, order);
    }
    assert Topological(g, order);
    return true;
  }

  lemma OrderedMeansAcyclic(g: Graph)
    ensures HasOrder(g) ==> forall id :: !DependsOn(g, id, id)
  {
    if order :| Topological(g, order) {
      NoSelfDependency(g, order);
    }
  }

  ghost predicate Resolving(g: Graph, remaining: Graph, resolved: set<Id>, order: seq<Id>) {
    && (forall id :: id in remaining <==> id in g && id !in resolved)
    && (forall id :: id in remaining ==> remaining[id] == g[id])
    && Orders(g, resolved, order)
  }

  lemma ResolvingStep(g: Graph, remaining: Graph, resolved: set<Id>, order: seq<Id>, key: Id)
    requires Resolving(g, remaining, resolved, order)
    requires key in remaining && Satisfied(g, key, resolved)
    ensures Resolving(g, remaining - {key}, resolved + {key}, order + [key])
  {
    var longer := order + [key];
    forall i, d | 0 <= i < |longer| && longer[i] in g && d in g[longer[i]]
      ensures d in longer[..i]
    {
      if i < |order| {
        assert longer[..i] == order[..i];
      } else {
        assert longer[..i] == order;
      }
    }
  }

  /** `for key in ready`: the ready stages move from `remaining` to `resolved`, one after the other. */
  method ResolveReady(g: Graph, remaining: Graph, resolved: set<Id>, ready: seq<Id>, ghost order: seq<Id>)
    returns (remaining': Graph, resolved': set<Id>, ghost order': seq<Id>)
    requires Resolving(g, remaining, resolved, order)
    requires ready != [] && Distinct(ready)
    requires forall id :: id in ready ==> id in remaining && Satisfied(g, id, resolved)
    ensures Resolving(g, remaining', resolved', order')
    ensures forall id :: id in resolved' <==> id in resolved || id in ready
    ensures |remaining'| < |remaining|
  {
    remaining', resolved', order' := remaining, resolved, order;
    for i := 0 to |ready|
      invariant Resolving(g, remaining', resolved', order')
      invariant resolved <= resolved'
      invariant forall id :: id in resolved' ==> id in resolved || id in ready
      invariant forall j :: 0 <= j < i ==> ready[j] in resolved'
      invariant forall j :: i <= j < |ready| ==> ready[j] in remaining'
      invariant |remaining'| == |remaining| - i
    {
      var key := ready[i];
      ResolvingStep(g, remaining', resolved', order', key);
      order' := order' + [key];
      resolved' := resolved' + {key};
      remaining' := remaining' - {key};
    }
  }

  /** Along a path one goes back in any topological order. */
  lemma {:induction false} PathGoesBack(g: Graph, order: seq<Id>, path: seq<Id>) returns (i: nat, j: nat)
    requires Topological(g, order) && IsPath(g, path) && |path| >= 2
    ensures i < j < |order| && order[i] == path[|path| - 1] && order[j] == path[0]
  {
    assert path[0] in order;
    j :| 0 <= j < |order| && order[j] == path[0];
    assert path[1] in order[..j];
    assert exists m :: 0 <= m < j && order[m] == path[1];
    if |path| == 2 {
      i :| 0 <= i < j && order[i] == path[1];
    } else {
      var k;
      i, k := PathGoesBack(g, order, path[1..]);
      var m :| 0 <= m < j && order[m] == path[1];
    }
  }

  lemma NoSelfDependency(g: Graph, order: seq<Id>)
    requires Topological(g, order)
    ensures forall id :: !DependsOn(g, id, id)
  {
    forall id | DependsOn(g, id, id)
      ensures false
    {
      var path :| |path| >= 2 && IsPath(g, path) && path[0] == id && path[|path| - 1] == id;
      var i, j := PathGoesBack(g, order, path);
    }
  }

  /** If every remaining stage still waits for a remaining one, some stage waits for itself. */
  lemma Stuck(g: Graph, remaining: set<Id>, resolved: set<Id>)
    requires Known(g) && remaining + resolved == g.Keys && remaining != {}
    requires forall id :: id in remaining ==> !Satisfied(g, id, resolved)
    ensures exists id :: DependsOn(g, id, id)
  {
    var path := Walk(g, remaining, resolved, |remaining| + 1);
    var i, j := Repeats(path, remaining);
    var cycle := path[i..j + 1];
    assert IsPath(g, cycle) && cycle[0] == path[i] && cycle[|cycle| - 1] == path[i];
    assert DependsOn(g, path[i], path[i]);
  }

  lemma {:induction false} Walk(g: Graph, remaining: set<Id>, resolved: set<Id>, n: nat) returns (path: seq<Id>)
    requires Known(g) && remaining + resolved == g.Keys && remaining != {} && n > 0
    requires forall id :: id in remaining ==> !Satisfied(g, id, resolved)
    ensures |path| == n && IsPath(g, path) && forall i :: 0 <= i < n ==> path[i] in remaining
  {
    if n == 1 {
      var id :| id in remaining;
      path := [id];
    } else {
      path := Walk(g, remaining, resolved, n - 1);
      var last := path[|path| - 1];
      var d :| d in g[last] && d !in resolved;
      assert d in g;
      path := path + [d];
    }
  }

  /** Pigeonhole: a list longer than a set of its possible elements repeats one. */
  lemma {:induction false} Repeats(path: seq<Id>, s: set<Id>) returns (i: nat, j: nat)
    requires |path| > |s| && forall k :: 0 <= k < |path| ==> path[k] in s
    ensures i < j < |path| && path[i] == path[j]
  {
    if k: nat :| 1 <= k < |path| && path[k] == path[0] {
      i, j := 0, k;
    } else {
      i, j := Repeats(path[1..], s - {path[0]});
      i, j := i + 1, j + 1;
    }
  }

  // ---------------------------------------------------------------------------
  // _stage_ancestors
  // ---------------------------------------------------------------------------

  /** Everything `from` depends on has been visited or is waiting, and so for every visited stage. */
  ghost predicate Explored(g: Graph, from: Id, visited: set<Id>, pending: seq<Id>)
    requires Known(g) && from in g
  {
    && visited <= g.Keys
    && (forall id :: id in visited ==> DependsOn(g, from, id))
    && (forall id :: id in pending ==> id in g && DependsOn(g, from, id))
    && (forall d :: d in g[from] ==> d in visited || d in pending)
    && (forall id, d :: id in visited && d in g[id] ==> d in visited || d in pending)
  }

  method StageAncestors(g: Graph, stage: Id) returns (ancestors: set<Id>)
    requires Known(g) && stage in g
    ensures forall id :: id in ancestors <==> DependsOn(g, stage, id)
    ensures HasOrder(g) ==> stage !in ancestors
  {
    ancestors := {};
    var pending := g[stage];
    forall d | d in pending
      ensures DependsOn(g, stage, d)
    {
      assert IsPath(g, [stage, d]);
    }
    while pending != []
      invariant Explored(g, stage, ancestors, pending)
      decreases g.Keys - ancestors, |pending|
    {
      var candidate := pending[|pending| - 1];
      var rest := pending[..|pending| - 1];
      assert pending == rest + [candidate];
      if candidate in ancestors {
        pending := rest;
        continue;
      }
      ExploreOne(g, stage, ancestors, rest, candidate);
      ancestors := ancestors + {candidate};
      pending := rest + g[candidate];
    }
    forall id | DependsOn(g, stage, id)
      ensures id in ancestors
    {
      var path :| |path| >= 2 && IsPath(g, path) && path[0] == stage && path[|path| - 1] == id;
      ClosedUnderPaths(g, stage, ancestors, path);
    }
    OrderedMeansAcyclic(g);
  }

  lemma DependsOnStep(g: Graph, from: Id, mid: Id, to: Id)
    requires Known(g) && DependsOn(g, from, mid) && mid in g && to in g[mid]
    ensures DependsOn(g, from, to)
  {
    var path :| |path| >= 2 && IsPath(g, path) && path[0] == from && path[|path| - 1] == mid;
    assert IsPath(g, path + [to]);
  }

  lemma ExploreOne(g: Graph, from: Id, visited: set<Id>, rest: seq<Id>, candidate: Id)
    requires Known(g) && from in g && Explored(g, from, visited, rest + [candidate])
    ensures Explored(g, from, visited + {candidate}, rest + g[candidate])
  {
    assert candidate in rest + [candidate];
    forall d | d in g[candidate]
      ensures DependsOn(g, from, d)
    {
      DependsOnStep(g, from, candidate, d);
    }
  }

  /** A set that holds the dependencies of `from` and of its own members holds all ancestors of `from`. */
  lemma {:induction false} ClosedUnderPaths(g: Graph, from: Id, closed: set<Id>, path: seq<Id>)
    requires from in g && forall d :: d in g[from] ==> d in closed
    requires forall id, d :: id in closed && id in g && d in g[id] ==> d in closed
    requires IsPath(g, path) && |path| >= 2 && path[0] == from
    ensures path[|path| - 1] in closed
  {
    if |path| > 2 {
      ClosedUnderPaths(g, from, closed, path[..|path| - 1]);
      assert path[|path| - 1] in g[path[|path| - 2]];
    } else {
      assert path[1] in g[from];
    }
  }
}

/** The supersession graph of a scope manifest: the cycle check and the closure worklist. */
module SupersessionGraph {

  /** Scope id to the ids that it supersedes, in manifest order. */
  type Graph = map<string, seq<string>>

  /** Every superseded id is itself a scope; the validator checks this before it looks for cycles. */
  predicate Closed(g: Graph) {
    forall id | id in g :: forall child | child in g[id] :: child in g
  }

  /** A walk follows one supersedes link at each step. */
  ghost predicate Walk(g: Graph, p: seq<string>) {
    && p != []
    && (forall i | 0 <= i < |p| :: p[i] in g)
    && (forall i | 0 <= i < |p| - 1 :: p[i + 1] in g[p[i]])
  }

  /** b can be reached from a in one or more steps. */
  ghost predicate Reaches(g: Graph, a: string, b: string) {
    exists p :: Walk(g, p) && |p| > 1 && p[0] == a && p[|p| - 1] == b
  }

  ghost predicate Acyclic(g: Graph) {
    forall id | id in g :: !Reaches(g, id, id)
  }

  lemma ReachesStep(g: Graph, a: string, b: string)
    requires Closed(g) && a in g && b in g[a]
    ensures Reaches(g, a, b)
  {
    assert Walk(g, [a, b]);
  }

  lemma ReachesTransitive(g: Graph, a: string, b: string, c: string)
    requires Reaches(g, a, b) && Reaches(g, b, c)
    ensures Reaches(g, a, c)
  {
    var p :| Walk(g, p) && |p| > 1 && p[0] == a && p[|p| - 1] == b;
    var q :| Walk(g, q) && |q| > 1 && q[0] == b && q[|q| - 1] == c;
    var r := p + q[1..];
    forall i | 0 <= i < |r| - 1 ensures r[i + 1] in g[r[i]] {
      if i >= |p| - 1 {
        assert r[i] == q[i - |p| + 1];
      }
    }
    assert Walk(g, r);
  }

  /** The first step of a reachability claim, and what is left of it. */
  lemma ReachesFirst(g: Graph, a: string, b: string) returns (c: string)
    requires Reaches(g, a, b)
    ensures a in g && c in g && c in g[a] && (c == b || Reaches(g, c, b))
  {
    var p :| Walk(g, p) && |p| > 1 && p[0] == a && p[|p| - 1] == b;
    c := p[1];
    if |p| > 2 {
      assert Walk(g, p[1..]);
    }
  }

  /** A set that contains the children of its members contains everything they reach. */
  ghost predicate Absorbing(g: Graph, s: set<string>) {
    s <= g.Keys && forall id | id in s :: forall child | child in g[id] :: child in s
  }

  lemma AbsorbingKeeps(g: Graph, s: set<string>, a: string, b: string)
    requires Absorbing(g, s) && a in s && Reaches(g, a, b)
    ensures b in s
  {
    var p :| Walk(g, p) && |p| > 1 && p[0] == a && p[|p| - 1] == b;
    AbsorbingWalk(g, s, p, |p| - 1);
  }

  lemma {:induction false} AbsorbingWalk(g: Graph, s: set<string>, p: seq<string>, i: nat)
    requires Absorbing(g, s) && Walk(g, p) && p[0] in s && i < |p|
    ensures p[i] in s
  {
    if i > 0 {
      AbsorbingWalk(g, s, p, i - 1);
      assert p[i - 1 + 1] in g[p[i - 1]];
    }
  }

  /** What the depth-first search knows between two steps. */
  ghost predicate SearchInvariant(g: Graph, visiting: set<string>, visited: set<string>) {
    && visiting <= g.Keys
    && visiting !! visited
    && Absorbing(g, visited)
    && forall id | id in visited :: !Reaches(g, id, id)
  }

  /** The nested visit function: it fails on an id that is still being visited, and otherwise
      leaves visiting as it found it and visited grown by the id. */
  method Visit(g: Graph, id: string, visiting0: set<string>, visited0: set<string>)
    returns (ok: bool, visiting: set<string>, visited: set<string>)
    requires Closed(g) && id in g
    requires SearchInvariant(g, visiting0, visited0)
    requires forall v | v in visiting0 :: Reaches(g, v, id)
    ensures ok ==> visiting == visiting0 && visited0 <= visited && id in visited
    ensures ok ==> SearchInvariant(g, visiting, visited)
    ensures !ok ==> !Acyclic(g)
    decreases g.Keys - visiting0
  {
    visiting, visited := visiting0, visited0;
    if id in visiting {
      return false, visiting, visited;
    }
    if id in visited {
      return true, visiting, visited;
    }
    visiting := visiting + {id};
    for k := 0 to |g[id]|
      invariant visiting == visiting0 + {id}
      invariant visited0 <= visited
      invariant SearchInvariant(g, visiting, visited)
      invariant forall j | 0 <= j < k :: g[id][j] in visited
    {
      var child := g[id][k];
      ReachesStep(g, id, child);
      forall v | v in visiting ensures Reaches(g, v, child) {
        if v != id { ReachesTransitive(g, v, id, child); }
      }
      ok, visiting, visited := Visit(g, child, visiting, visited);
      if !ok {
        return false, visiting, visited;
      }
    }
    if Reaches(g, id, id) {
      var child := ReachesFirst(g, id, id);
      assert child in visited;
      if child != id { AbsorbingKeeps(g, visited, child, id); }
      assert false;
    }
    visiting := visiting - {id};
    visited := visited + {id};
    assert visiting == visiting0;
    return true, visiting, visited;
  }

  /** The validator's cycle check accepts a manifest exactly when its graph has no cycle,
      whatever order it starts the visits in. */
  method ValidateSupersessionCycles(g: Graph, order: seq<string>) returns (accepted: bool)
    requires Closed(g)
    requires forall id :: id in order <==> id in g
    ensures accepted <==> Acyclic(g)
  {
    var visiting: set<string>, visited: set<string> := {}, {};
    for k := 0 to |order|
      invariant visiting == {}
      invariant SearchInvariant(g, visiting, visited)
      invariant forall j | 0 <= j < k :: order[j] in visited
    {
      assert order[k] in order;
      accepted, visiting, visited := Visit(g, order[k], visiting, visited);
      if !accepted {
        return false;
      }
    }
    return true;
  }

  /** The ids reachable in one or more steps from a set of starting ids. */
  ghost function Closure(g: Graph, starts: set<string>): set<string> {
    set c | c in g && exists s | s in starts :: Reaches(g, s, c)
  }

  /** What the worklist knows between two steps: everything found is reachable, and only the
      pending ids still owe their children. The id being expanded has handed over its first k. */
  ghost predicate WorklistInvariant(g: Graph, starts: set<string>, pending: seq<string>,
                                    visited: set<string>, superseded: set<string>) {
    && starts <= visited <= g.Keys
    && visited <= starts + superseded
    && superseded <= visited * Closure(g, starts)
    && (forall id | id in pending :: id in visited)
    && (forall id | id in visited && id !in pending :: Expanded(g, id, superseded))
  }

  ghost predicate Expanded(g: Graph, id: string, superseded: set<string>)
    requires id in g
  {
    forall child | child in g[id] :: child in superseded
  }

  ghost predicate Expanding(g: Graph, starts: set<string>, id: string, k: nat, pending: seq<string>,
                            visited: set<string>, superseded: set<string>) {
    && id in g && id in visited && k <= |g[id]|
    && starts <= visited <= g.Keys
    && visited <= starts + superseded
    && superseded <= visited * Closure(g, starts)
    && (forall x | x in pending :: x in visited)
    && (forall x | x in visited && x !in pending && x != id :: Expanded(g, x, superseded))
    && (forall j | 0 <= j < k :: g[id][j] in superseded)
  }

  lemma ExpandStep(g: Graph, starts: set<string>, id: string, k: nat, pending: seq<string>,
                   visited: set<string>, superseded: set<string>)
    requires Closed(g)
    requires id in g && k < |g[id]|
    requires Expanding(g, starts, id, k, pending, visited, superseded)
    ensures var child := g[id][k];
            var unseen := child !in visited;
            Expanding(g, starts, id, k + 1, if unseen then pending + [child] else pending,
                      visited + {child}, superseded + {child})
  {
    var child := g[id][k];
    ReachesStep(g, id, child);
    if id !in starts {
      var s :| s in starts && Reaches(g, s, id);
      ReachesTransitive(g, s, id, child);
    }
    assert child in Closure(g, starts);
    forall x | x in visited && x !in pending && x != id
      ensures Expanded(g, x, superseded + {child})
    {
      assert Expanded(g, x, superseded);
    }
    var longer := pending + [child];
    assert forall x | x in pending :: x in longer;
    assert child in longer;
  }

  /** The loop that pops an id, records its children as superseded and queues the unseen ones
      ends with exactly the ids reachable in one or more steps. */
  method TransitivelySuperseded(g: Graph, starts: seq<string>) returns (superseded: set<string>)
    requires Closed(g)
    requires forall id | id in starts :: id in g
    ensures superseded == Closure(g, set id | id in starts)
  {
    var pending := starts;
    ghost var first := set id | id in starts;
    var visited := set id | id in starts;
    superseded := {};
    while pending != []
      invariant WorklistInvariant(g, first, pending, visited, superseded)
      decreases g.Keys - visited, |pending|
    {
      var id := pending[|pending| - 1];
      assert id in pending;
      assert forall x | x in pending :: x == id || x in pending[..|pending| - 1];
      pending := pending[..|pending| - 1];
      ghost var seen, left := visited, |pending|;
      for k := 0 to |g[id]|
        invariant Expanding(g, first, id, k, pending, visited, superseded)
        invariant seen <= visited && (seen == visited ==> |pending| == left)
      {
        ExpandStep(g, first, id, k, pending, visited, superseded);
        var child := g[id][k];
        superseded := superseded + {child};
        if child !in visited {
          visited := visited + {child};
          pending := pending + [child];
        } else {
          assert visited + {child} == visited;
        }
      }
      assert Expanded(g, id, superseded);
    }
    forall c | c in Closure(g, first) ensures c in superseded {
      var s :| s in first && Reaches(g, s, c);
      ClosureFound(g, visited, superseded, s, c);
    }
  }

  lemma ClosureFound(g: Graph, visited: set<string>, superseded: set<string>, a: string, b: string)
    requires superseded <= visited <= g.Keys && a in visited && Reaches(g, a, b)
    requires forall id | id in visited :: Expanded(g, id, superseded)
    ensures b in superseded
  {
    var p :| Walk(g, p) && |p| > 1 && p[0] == a && p[|p| - 1] == b;
    AbsorbingWalk(g, visited, p, |p| - 2);
    assert p[|p| - 2 + 1] in g[p[|p| - 2]];
  }
}

/** The `requires` graph of a workflow: ancestors by worklist, cycles by depth-first search,
    and what both mean in terms of paths. */
module GateGraph {

  type Graph = map<string, seq<string>>

  /** Every gate named in a `requires` list exists. */
  ghost predicate Closed(g: Graph) {
    forall v, d | v in g && d in g[v] :: d in g
  }

  /** `p` walks along `requires` edges. */
  ghost predicate IsWalk(g: Graph, p: seq<string>) {
    forall i | 0 <= i < |p| - 1 :: p[i] in g && p[i + 1] in g[p[i]]
  }

  ghost predicate WalkBetween(g: Graph, p: seq<string>, from: string, to: string) {
    |p| >= 2 && p[0] == from && p[|p| - 1] == to && IsWalk(g, p)
  }

  /** `to` is required, directly or through other gates, by `from`. */
  ghost predicate Reaches(g: Graph, from: string, to: string) {
    exists p: seq<string> :: WalkBetween(g, p, from, to)
  }

  ghost predicate Acyclic(g: Graph) {
    forall v | v in g :: !Reaches(g, v, v)
  }

  lemma EdgeReaches(g: Graph, v: string, d: string)
    requires v in g && d in g[v]
    ensures Reaches(g, v, d)
  {
    assert WalkBetween(g, [v, d], v, d);
  }

  lemma ReachesTransitive(g: Graph, a: string, b: string, c: string)
    requires Reaches(g, a, b) && Reaches(g, b, c)
    ensures Reaches(g, a, c)
  {
    var p: seq<string> :| WalkBetween(g, p, a, b);
    var q: seq<string> :| WalkBetween(g, q, b, c);
    var r := p + q[1..];
    forall i | 0 <= i < |r| - 1
      ensures r[i] in g && r[i + 1] in g[r[i]]
    {
      if i < |p| - 1 {
        assert r[i] == p[i] && r[i + 1] == p[i + 1];
      } else {
        assert r[i] == q[i - |p| + 1] && r[i + 1] == q[i - |p| + 2];
      }
    }
    assert WalkBetween(g, r, a, c);
  }

  lemma ReachedIsGate(g: Graph, from: string, to: string)
    requires Closed(g) && Reaches(g, from, to)
    ensures from in g && to in g
  {
    var p: seq<string> :| WalkBetween(g, p, from, to);
    assert p[|p| - 2] in g && p[|p| - 1] in g[p[|p| - 2]];
  }

  /** The first edge of a walk, and what is left of it. */
  lemma FirstStep(g: Graph, from: string, to: string)
    requires Reaches(g, from, to)
    ensures from in g && exists d | d in g[from] :: d == to || Reaches(g, d, to)
  {
    var p: seq<string> :| WalkBetween(g, p, from, to);
    var d := p[1];
    assert p[0] in g && d in g[p[0]];
    if |p| > 2 {
      var q := p[1..];
      forall i | 0 <= i < |q| - 1
        ensures q[i] in g && q[i + 1] in g[q[i]]
      {
        assert q[i] == p[i + 1] && q[i + 1] == p[i + 2];
      }
      assert WalkBetween(g, q, d, to);
    }
  }

  /** A set that holds the direct requirements of `from` and is closed under `requires`
      holds all its ancestors. */
  lemma {:induction false} ClosedSetHoldsReached(g: Graph, s: set<string>, p: seq<string>, from: string, to: string)
    requires from in g && forall d | d in g[from] :: d in s
    requires forall v, d | v in s && v in g && d in g[v] :: d in s
    requires WalkBetween(g, p, from, to)
    ensures to in s
    decreases |p|
  {
    if |p| > 2 {
      var q := p[..|p| - 1];
      forall i | 0 <= i < |q| - 1 ensures q[i] in g && q[i + 1] in g[q[i]] {
        assert q[i] == p[i] && q[i + 1] == p[i + 1];
      }
      ClosedSetHoldsReached(g, s, q, from, p[|p| - 2]);
      assert p[|p| - 2] in g && p[|p| - 1] in g[p[|p| - 2]];
    } else {
      assert p[0] in g && p[1] in g[p[0]];
    }
  }

  /** The ancestors as a value. */
  ghost function AncestorSet(g: Graph, v: string): (s: set<string>)
  {
    set u | u in g && Reaches(g, v, u)
  }

  /** What the worklist knows: everything found or pending is an ancestor, and every
      requirement of the start or of a found gate is found or pending. */
  ghost predicate Frontier(g: Graph, from: string, found: set<string>, pending: seq<string>)
    requires from in g
  {
    && (forall u | u in found :: u in g && Reaches(g, from, u))
    && (forall u | u in pending :: u in g && Reaches(g, from, u))
    && (forall d | d in g[from] :: d in found || d in pending)
    && (forall v, d | v in found && d in g[v] :: d in found || d in pending)
  }

  lemma FrontierSkips(g: Graph, from: string, found: set<string>, pending: seq<string>)
    requires Closed(g) && from in g && pending != []
    requires Frontier(g, from, found, pending)
    requires pending[|pending| - 1] in found
    ensures Frontier(g, from, found, pending[..|pending| - 1])
  {
    assert pending == pending[..|pending| - 1] + [pending[|pending| - 1]];
  }

  lemma FrontierGrows(g: Graph, from: string, found: set<string>, pending: seq<string>)
    requires Closed(g) && from in g && pending != []
    requires Frontier(g, from, found, pending)
    ensures var current := pending[|pending| - 1];
            && current in g
            && Frontier(g, from, found + {current}, pending[..|pending| - 1] + g[current])
  {
    var rest, current := pending[..|pending| - 1], pending[|pending| - 1];
    assert pending == rest + [current];
    var pending', found' := rest + g[current], found + {current};
    forall u | u in pending' ensures u in g && Reaches(g, from, u) {
      if u !in rest {
        EdgeReaches(g, current, u);
        ReachesTransitive(g, from, current, u);
      }
    }
    forall v, d | v in found' && d in g[v] ensures d in found' || d in pending' { }
  }

  /** The worklist computes exactly the transitive closure of `requires`. */
  method Ancestors(gateId: string, g: Graph) returns (result: set<string>)
    requires Closed(g) && gateId in g
    ensures forall u :: u in result <==> Reaches(g, gateId, u)
  {
    result := {};
    var pending := g[gateId];
    forall d | d in pending ensures Reaches(g, gateId, d) { EdgeReaches(g, gateId, d); }
    while pending != []
      invariant Frontier(g, gateId, result, pending)
      decreases |g.Keys - result|, |pending|
    {
      var current := pending[|pending| - 1];
      if current in result {
        FrontierSkips(g, gateId, result, pending);
        pending := pending[..|pending| - 1];
        continue;
      }
      FrontierGrows(g, gateId, result, pending);
      SubsetSmaller(g.Keys - (result + {current}), g.Keys - result);
      result := result + {current};
      pending := pending[..|pending| - 1];
      pending := pending + g[current];
    }
    forall u | Reaches(g, gateId, u) ensures u in result {
      var p: seq<string> :| WalkBetween(g, p, gateId, u);
      ClosedSetHoldsReached(g, result, p, gateId, u);
    }
  }

  /** One call of the depth-first search. `ok` is false where the source raises; the two sets
      are the source's mutable ones. */
  method Visit(gateId: string, g: Graph, visiting: set<string>, visited: set<string>)
    returns (ok: bool, visiting': set<string>, visited': set<string>)
    requires Closed(g) && gateId in g
    requires visiting <= g.Keys && visited <= g.Keys && visiting !! visited
    requires forall u | u in visiting :: Reaches(g, u, gateId)
    requires SettledAcyclic(g, visited)
    ensures !ok ==> !Acyclic(g)
    ensures ok ==> visiting' == visiting && visited <= visited' <= g.Keys && gateId in visited'
    ensures ok ==> visiting !! visited' && SettledAcyclic(g, visited')
    decreases g.Keys - visiting
  {
    visiting', visited' := visiting, visited;
    if gateId in visiting {
      return false, visiting', visited';
    }
    if gateId in visited {
      return true, visiting', visited';
    }
    visiting' := visiting' + {gateId};
    ghost var stack := visiting';
    var requirements := g[gateId];
    var i := 0;
    while i < |requirements|
      invariant 0 <= i <= |requirements|
      invariant visiting' == stack == visiting + {gateId}
      invariant visited <= visited' <= g.Keys && stack !! visited'
      invariant SettledAcyclic(g, visited')
      invariant forall j | 0 <= j < i :: requirements[j] in visited'
    {
      var d := requirements[i];
      forall u | u in visiting' ensures Reaches(g, u, d) {
        EdgeReaches(g, gateId, d);
        if u != gateId {
          ReachesTransitive(g, u, gateId, d);
        }
      }
      ok, visiting', visited' := Visit(d, g, visiting', visited');
      if !ok {
        return;
      }
      i := i + 1;
    }
    SettleOne(g, visited', gateId);
    visiting' := visiting' - {gateId};
    visited' := visited' + {gateId};
    ok := true;
  }

  /** `s` is closed under `requires` and no gate of it lies on a cycle. */
  ghost predicate SettledAcyclic(g: Graph, s: set<string>) {
    && (forall v, d | v in s && v in g && d in g[v] :: d in s)
    && (forall v | v in s :: !Reaches(g, v, v))
  }

  lemma SettleOne(g: Graph, s: set<string>, v: string)
    requires SettledAcyclic(g, s) && v in g && v !in s
    requires forall d | d in g[v] :: d in s
    ensures SettledAcyclic(g, s + {v})
  {
    if Reaches(g, v, v) {
      var p: seq<string> :| WalkBetween(g, p, v, v);
      ClosedSetHoldsReached(g, s, p, v, v);
      assert false;
    }
  }

  /** The search reports a cycle exactly when there is one. */
  method RejectCycles(g: Graph) returns (ok: bool)
    requires Closed(g)
    ensures ok <==> Acyclic(g)
  {
    var visiting, visited: set<string> := {}, {};
    var todo := g.Keys;
    while todo != {}
      invariant todo <= g.Keys && visited <= g.Keys
      invariant visiting == {} && SettledAcyclic(g, visited)
      invariant g.Keys - todo <= visited
      decreases |todo|
    {
      var gateId :| gateId in todo;
      ok, visiting, visited := Visit(gateId, g, visiting, visited);
      if !ok {
        return;
      }
      todo := todo - {gateId};
    }
    ok := true;
  }

  /** In an acyclic graph a requirement has strictly fewer ancestors. */
  lemma AncestorsShrink(g: Graph, v: string, d: string)
    requires Closed(g) && Acyclic(g) && v in g && d in g[v]
    ensures AncestorSet(g, d) < AncestorSet(g, v)
    ensures |AncestorSet(g, d)| < |AncestorSet(g, v)|
  {
    EdgeReaches(g, v, d);
    forall u | u in AncestorSet(g, d) ensures u in AncestorSet(g, v) {
      ReachesTransitive(g, v, d, u);
    }
    assert d in AncestorSet(g, v) && d !in AncestorSet(g, d);
    SubsetSmaller(AncestorSet(g, d), AncestorSet(g, v));
  }

  lemma SubsetSmaller(a: set<string>, b: set<string>)
    requires a < b
    ensures |a| < |b|
  {
    assert b == a + (b - a);
    assert b - a != {};
  }

  /** Why the engine never gets stuck: among any non-empty set of gates one has no
      requirement in the set. */
  lemma {:induction false} SomeGateIsMinimal(g: Graph, s: set<string>, v: string) returns (m: string)
    requires Closed(g) && Acyclic(g) && s <= g.Keys && v in s
    ensures m in s && forall d | d in g[m] :: d !in s
    decreases |AncestorSet(g, v)|
  {
    if d :| d in g[v] && d in s {
      AncestorsShrink(g, v, d);
      m := SomeGateIsMinimal(g, s, d);
    } else {
      m := v;
    }
  }
}

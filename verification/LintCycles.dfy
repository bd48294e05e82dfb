/** Lint rule L013 (internal/policy/lint.go): the depth-first search for circular only_after dependencies. */
module LintCycles {
  import opened Prelude
  import opened Policies

  datatype Color = White | Gray | Black

  /** Consecutive tools of the walk depend on each other: w[i] lists w[i + 1] in its only_after. */
  ghost predicate Walk(pol: Policy, w: seq<string>) {
    forall i :: 0 <= i < |w| - 1 ==> w[i + 1] in OnlyAfter(pol, w[i])
  }

  /** A walk of at least one edge that ends where it starts. */
  ghost predicate ClosedWalk(pol: Policy, w: seq<string>) {
    |w| >= 2 && w[0] == w[|w| - 1] && Walk(pol, w)
  }

  ghost predicate HasCycle(pol: Policy) {
    exists w :: ClosedWalk(pol, w)
  }

  /** Each tool of the order comes after everything it depends on. */
  ghost predicate Topological(pol: Policy, order: seq<string>) {
    forall i :: 0 <= i < |order| ==> forall d :: d in OnlyAfter(pol, order[i]) ==> d in order[..i]
  }

  /** The nodes of the graph: the declared tools and everything they depend on. */
  function Nodes(pol: Policy): set<string> {
    pol.tools.Keys + set t, d | t in pol.tools && d in pol.tools[t].sequencing.onlyAfter :: d
  }

  function ColorOf(color: map<string, Color>, t: string): Color {
    if t in color then color[t] else White
  }

  /** Gray is exactly the search path, a walk; black is exactly what is finished, in dependency order. */
  ghost predicate Searching(pol: Policy, color: map<string, Color>, finished: seq<string>, path: seq<string>) {
    && (forall t :: ColorOf(color, t) == Gray <==> t in path)
    && (forall t :: ColorOf(color, t) == Black <==> t in finished)
    && Walk(pol, path)
    && Topological(pol, finished)
  }

  /** The nodes the search has not met. */
  function Unmet(pol: Policy, color: map<string, Color>): set<string> {
    set t | t in Nodes(pol) && ColorOf(color, t) == White
  }

  lemma Enter(pol: Policy, color: map<string, Color>, finished: seq<string>, path: seq<string>, node: string)
    requires Searching(pol, color, finished, path) && ColorOf(color, node) == White && node in Nodes(pol)
    requires |path| > 0 ==> node in OnlyAfter(pol, path[|path| - 1])
    ensures Searching(pol, color[node := Gray], finished, path + [node])
    ensures Unmet(pol, color[node := Gray]) < Unmet(pol, color) && node !in path
  {
    var color' := color[node := Gray];
    assert forall t :: ColorOf(color', t) == if t == node then Gray else ColorOf(color, t);
    assert node in Unmet(pol, color) && node !in Unmet(pol, color');
  }

  lemma Leave(pol: Policy, color: map<string, Color>, finished: seq<string>, path: seq<string>, node: string)
    requires Searching(pol, color, finished, path + [node]) && node !in path
    requires forall d :: d in OnlyAfter(pol, node) ==> ColorOf(color, d) == Black
    ensures Searching(pol, color[node := Black], finished + [node], path)
    ensures Unmet(pol, color[node := Black]) <= Unmet(pol, color)
  {
    var color', finished' := color[node := Black], finished + [node];
    assert forall t :: ColorOf(color', t) == if t == node then Black else ColorOf(color, t);
    assert (path + [node])[|path|] == node;
    assert forall i :: 0 <= i < |path| ==> (path + [node])[i] == path[i];
    forall i | 0 <= i < |finished'|
      ensures forall d :: d in OnlyAfter(pol, finished'[i]) ==> d in finished'[..i]
    {
      if i < |finished| {
        assert finished'[..i] == finished[..i] && finished'[i] == finished[i];
      } else {
        assert finished'[..i] == finished;
      }
    }
  }

  /** The part of the search path from a gray node, closed by the back edge to it. */
  method CloseCycle(pol: Policy, path: seq<string>, next: string) returns (cycle: seq<string>)
    requires |path| > 0 && next in path && Walk(pol, path) && next in OnlyAfter(pol, path[|path| - 1])
    ensures ClosedWalk(pol, cycle) && cycle[0] == next
    ensures forall t :: t in cycle ==> t in path
  {
    var start := 0;
    while path[start] != next
      invariant 0 <= start < |path|
      invariant next !in path[..start]
      decreases |path| - start
    {
      assert path == path[..start + 1] + path[start + 1..];
      start := start + 1;
    }
    cycle := path[start..] + [next];
  }

  class CycleSearch {
    const pol: Policy
    var color: map<string, Color>
    var cyclePath: seq<string>
    /** The black tools, in the order the search finished them. */
    ghost var finished: seq<string>

    constructor (pol: Policy)
      ensures this.pol == pol && color == map[] && finished == []
    {
      this.pol := pol;
      color, cyclePath, finished := map[], [], [];
    }

    /** Explores `node`, reached along `path`. Either it closes a cycle, or it finishes the node. */
    method Dfs(node: string, path: seq<string>) returns (found: bool)
      requires Searching(pol, color, finished, path) && node in Nodes(pol) && ColorOf(color, node) == White
      requires |path| > 0 ==> node in OnlyAfter(pol, path[|path| - 1])
      modifies this
      ensures found ==> ClosedWalk(pol, cyclePath)
      ensures !found ==>
                && Searching(pol, color, finished, path) && ColorOf(color, node) == Black
                && old(finished) <= finished && Unmet(pol, color) <= old(Unmet(pol, color))
      decreases Unmet(pol, color)
    {
      hide Searching, Walk, Topological, Unmet, ClosedWalk, Nodes;
      Enter(pol, color, finished, path, node);
      color := color[node := Gray];
      var path' := path + [node];
      var neighbors := OnlyAfter(pol, node);
      for i := 0 to |neighbors|
        invariant Searching(pol, color, finished, path') && old(finished) <= finished
        invariant Unmet(pol, color) < old(Unmet(pol, color))
        invariant forall k :: 0 <= k < i ==> ColorOf(color, neighbors[k]) == Black
      {
        var next := neighbors[i];
        GrayOnPath(pol, color, finished, path', next);
        if ColorOf(color, next) == Gray {
          cyclePath := CloseCycle(pol, path', next);
          return true;
        } else if ColorOf(color, next) == White {
          ghost var before, blackBefore := color, finished;
          found := Dfs(next, path');
          if found {
            return true;
          }
          BlackStays(pol, before, blackBefore, color, finished, path');
        }
      }
      GrayOnPath(pol, color, finished, path', node);
      Leave(pol, color, finished, path, node);
      color := color[node := Black];
      finished := finished + [node];
      return false;
    }
  }

  lemma GrayOnPath(pol: Policy, color: map<string, Color>, finished: seq<string>, path: seq<string>, next: string)
    requires Searching(pol, color, finished, path)
    ensures ColorOf(color, next) == Gray ==> next in path && Walk(pol, path)
    ensures |path| > 0 && next in OnlyAfter(pol, path[|path| - 1]) ==> next in Nodes(pol)
  {
  }

  lemma BlackStays(
    pol: Policy, before: map<string, Color>, blackBefore: seq<string>, after: map<string, Color>,
        blackAfter: seq<string>,
    path: seq<string>)
    requires Searching(pol, before, blackBefore, path) && Searching(pol, after, blackAfter, path)
    requires blackBefore <= blackAfter
    ensures forall t :: ColorOf(before, t) == Black ==> ColorOf(after, t) == Black
  {
    forall t | ColorOf(before, t) == Black
      ensures ColorOf(after, t) == Black
    {
      var i :| 0 <= i < |blackBefore| && blackBefore[i] == t;
      assert blackAfter[i] == t;
    }
  }

  /** The rule, for any order in which the map of tools is iterated. Returns the reported cycle. */
  method LintL013(pol: Policy, iteration: seq<string>) returns (report: Option<seq<string>>, ghost order: seq<string>)
    requires forall t :: t in iteration <==> t in pol.tools
    ensures report.Some? <==> HasCycle(pol)
    ensures report.Some? ==> ClosedWalk(pol, report.value)
    ensures report.None? ==> Topological(pol, order) && forall t :: t in pol.tools ==> t in order
  {
    var search := new CycleSearch(pol);
    for i := 0 to |iteration|
      invariant search.pol == pol && Searching(pol, search.color, search.finished, [])
      invariant forall k :: 0 <= k < i ==> iteration[k] in search.finished
    {
      if ColorOf(search.color, iteration[i]) == White {
        var found := search.Dfs(iteration[i], []);
        if found {
          return Some(search.cyclePath), [];
        }
      }
    }
    if HasCycle(pol) {
      NoCycleInOrder(pol, search.finished);
    }
    return None, search.finished;
  }

  lemma FirstIndex(order: seq<string>, t: string) returns (i: nat)
    requires t in order
    ensures i < |order| && order[i] == t && t !in order[..i]
  {
    i := 0;
    while order[i] != t
      invariant 0 <= i < |order| && t !in order[..i] && t in order[i..]
      decreases |order| - i
    {
      i := i + 1;
    }
  }

  /** Along a walk, every later tool stands earlier in a topological order. */
  lemma {:induction false} WalkDescends(pol: Policy, order: seq<string>, w: seq<string>, i: nat, m: nat)
    requires Topological(pol, order) && Walk(pol, w) && i < |order| && 1 <= m < |w| && order[i] == w[0]
    ensures w[m] in order[..i]
  {
    assert w[m] in OnlyAfter(pol, w[m - 1]);
    if m > 1 {
      WalkDescends(pol, order, w, i, m - 1);
      var j :| 0 <= j < i && order[j] == w[m - 1];
      assert w[m] in order[..j];
    }
  }

  /** A topological order that contains all declared tools rules out every closed walk. */
  lemma NoCycleInOrder(pol: Policy, order: seq<string>)
    requires Topological(pol, order) && forall t :: t in pol.tools ==> t in order
    ensures !HasCycle(pol)
  {
    forall w
      ensures !ClosedWalk(pol, w)
    {
      if ClosedWalk(pol, w) {
        assert w[1] in OnlyAfter(pol, w[0]);
        var i := FirstIndex(order, w[0]);
        WalkDescends(pol, order, w, i, |w| - 1);
      }
    }
  }
}

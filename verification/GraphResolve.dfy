/**
 Reading a node through its merge chain: the 128-step walk that every graph
 mutation uses, and the five-hop walk behind same-meeting parent hints.
 */
module GraphResolve {
  import opened Options
  import opened GraphModel

  const MAX_CANONICAL_HOPS: nat := 128
  const MAX_HINT_HOPS: nat := 5

  function GetProjectNode(g: Graph, p: ProjectId, x: NodeId): Result<NodeId> {
    if Live(g, x) && g.nodes[x].project == p then Ok(x)
    else if x in g.nodes then Err(OtherProject)
    else Err(NotFound)
  }

  /** The body of the walk, with `hops` iterations left and `visited` already seen. */
  function Walk(g: Graph, p: ProjectId, x: NodeId, expected: Kind, visited: set<NodeId>, hops: nat): Result<NodeId>
    requires x in g.nodes
    decreases hops
  {
    if hops == 0 then Err(HopLimit)
    else if x in visited then Err(MergeCycle)
    else if g.nodes[x].kind != expected then Err(TypeChange)
    else if g.nodes[x].state != Merged then
      if g.nodes[x].mergedInto.Some? then Err(StrayMergePointer)
      else if !Canonical(g.nodes[x]) then Err(NotAvailable)
      else Ok(x)
    else if g.nodes[x].mergedInto.None? then Err(MissingMergeTarget)
    else
      var y := g.nodes[x].mergedInto.value;
      if Live(g, y) && g.nodes[y].project == p then Walk(g, p, y, expected, visited + {x}, hops - 1)
      else if y in g.nodes then Err(CrossesProject)
      else Err(DanglingMergePointer)
  }

  function Resolve(g: Graph, p: ProjectId, x: NodeId, expected: Option<Kind>): Result<NodeId> {
    var start := GetProjectNode(g, p, x);
    if start.Err? then start
    else Walk(g, p, x, if expected.Some? then expected.value else g.nodes[x].kind, {}, MAX_CANONICAL_HOPS)
  }

  lemma {:induction false} WalkAlongChain(g: Graph, p: ProjectId, c: seq<NodeId>, expected: Kind, visited: set<NodeId>, hops: nat)
    requires ShapesOk(g) && PointersOk(g) && IsChain(g, c)
    requires g.nodes[c[0]].project == p && g.nodes[c[0]].kind == expected
    requires forall i :: 0 <= i < |c| ==> c[i] !in visited
    ensures Walk(g, p, c[0], expected, visited, hops)
         == if |c| <= hops then Ok(c[|c| - 1]) else Err(HopLimit)
    decreases |c|
  {
    assert NodeShape(g.nodes[c[0]]) && PointerOk(g, c[0]);
    if hops > 0 && |c| > 1 {
      ChainDistinct(g, c);
      WalkAlongChain(g, p, c[1..], expected, visited + {c[0]}, hops - 1);
    }
  }

  /**
   The walk on an invariant graph, for every input.  The only ways to fail are a
   node that is not live in the project, a caller expecting another kind, and a
   root more than 127 pointers away; the cycle, stray-pointer, missing-target,
   cross-project, dangling and unavailable exits are unreachable.
   */
  lemma ResolveExactly(g: Graph, p: ProjectId, x: NodeId, expected: Option<Kind>)
    requires ForestInv(g)
    ensures Resolve(g, p, x, expected) ==
            if x !in g.nodes then Err(NotFound)
            else if !Live(g, x) || g.nodes[x].project != p then Err(OtherProject)
            else if expected.Some? && expected.value != g.nodes[x].kind then Err(TypeChange)
            else if Depth(g, x) <= 127 then Ok(Root(g, x))
            else Err(HopLimit)
  {
    if Live(g, x) && g.nodes[x].project == p && (expected.Some? ==> expected.value == g.nodes[x].kind) {
      WalkAlongChain(g, p, Chain(g, x), g.nodes[x].kind, {}, MAX_CANONICAL_HOPS);
    }
  }

  /** What a successful resolution gives its caller. */
  lemma ResolveOk(g: Graph, p: ProjectId, x: NodeId, expected: Option<Kind>)
    requires ForestInv(g) && Resolve(g, p, x, expected).Ok?
    ensures Live(g, x) && g.nodes[x].project == p && HasChain(g, x)
    ensures var r := Resolve(g, p, x, expected).value;
            && r == Root(g, x) && Live(g, r) && Canonical(g.nodes[r]) && g.nodes[r].mergedInto.None?
            && g.nodes[r].project == p && g.nodes[r].kind == g.nodes[x].kind
            && (expected.Some? ==> g.nodes[r].kind == expected.value)
  {
    ResolveExactly(g, p, x, expected);
    RootFacts(g, x);
  }

  /** The parent-hint walk: pointers only, deleted rows included, None on any anomaly. */
  function HintWalk(g: Graph, p: ProjectId, x: NodeId, expected: Kind, visited: set<NodeId>, hops: nat): Option<NodeId>
    requires x in g.nodes
    decreases MAX_HINT_HOPS + 1 - hops
  {
    if g.nodes[x].mergedInto.None? then Some(x)
    else if x in visited then None
    else if hops + 1 > MAX_HINT_HOPS then None
    else
      var y := g.nodes[x].mergedInto.value;
      if y !in g.nodes || g.nodes[y].project != p then None
      else if g.nodes[y].kind != expected then None
      else HintWalk(g, p, y, expected, visited + {x}, hops + 1)
  }

  function HintCanonical(g: Graph, p: ProjectId, x: Option<NodeId>): Option<NodeId> {
    if x.None? || x.value !in g.nodes then None
    else HintWalk(g, p, x.value, g.nodes[x.value].kind, {}, 0)
  }

  lemma {:induction false} HintWalkAlongChain(g: Graph, p: ProjectId, c: seq<NodeId>, visited: set<NodeId>, hops: nat)
    requires PointersOk(g) && IsChain(g, c) && g.nodes[c[0]].project == p
    requires forall i :: 0 <= i < |c| ==> c[i] !in visited
    ensures HintWalk(g, p, c[0], g.nodes[c[0]].kind, visited, hops)
         == if |c| == 1 || |c| - 1 + hops <= MAX_HINT_HOPS then Some(c[|c| - 1]) else None
    decreases |c|
  {
    assert PointerOk(g, c[0]);
    if |c| > 1 && hops < MAX_HINT_HOPS {
      ChainDistinct(g, c);
      HintWalkAlongChain(g, p, c[1..], visited + {c[0]}, hops + 1);
    }
  }

  /** The two walks agree up to five pointers; beyond that the hint is dropped. */
  lemma HintAgreesUpToFive(g: Graph, p: ProjectId, x: NodeId)
    requires ForestInv(g) && Live(g, x) && g.nodes[x].project == p
    ensures HintCanonical(g, p, Some(x)) == if Depth(g, x) <= 5 then Some(Root(g, x)) else None
    ensures Depth(g, x) <= 5 ==> Resolve(g, p, x, None) == Ok(HintCanonical(g, p, Some(x)).value)
  {
    HintWalkAlongChain(g, p, Chain(g, x), {}, 0);
    ResolveExactly(g, p, x, None);
  }

  // ----- the hint walk on any stored graph -----

  /** Redirects from node to node inside the project and kind, ending at a node without one. */
  ghost predicate HintPath(g: Graph, p: ProjectId, c: seq<NodeId>)
    decreases |c|
  {
    && |c| > 0 && c[0] in g.nodes
    && if |c| == 1 then g.nodes[c[0]].mergedInto.None?
       else
         && g.nodes[c[0]].mergedInto == Some(c[1]) && c[1] in g.nodes
         && g.nodes[c[1]].project == p && g.nodes[c[1]].kind == g.nodes[c[0]].kind && HintPath(g, p, c[1..])
  }

  lemma {:induction false} HintPathUnique(g: Graph, p: ProjectId, c: seq<NodeId>, d: seq<NodeId>)
    requires HintPath(g, p, c) && HintPath(g, p, d) && c[0] == d[0]
    ensures c == d
    decreases |c|
  {
    if |c| > 1 {
      HintPathUnique(g, p, c[1..], d[1..]);
      assert c == [c[0]] + c[1..] && d == [d[0]] + d[1..];
    }
  }

  lemma {:induction false} HintPathDrop(g: Graph, p: ProjectId, c: seq<NodeId>, i: nat)
    requires HintPath(g, p, c) && i < |c|
    ensures HintPath(g, p, c[i..])
    decreases i
  {
    if i > 0 {
      HintPathDrop(g, p, c[1..], i - 1);
      assert c[1..][i - 1..] == c[i..];
    } else {
      assert c[0..] == c;
    }
  }

  lemma HintPathFresh(g: Graph, p: ProjectId, c: seq<NodeId>)
    requires HintPath(g, p, c)
    ensures forall i :: 0 < i < |c| ==> c[i] != c[0]
  {
    forall i | 0 < i < |c|
      ensures c[i] != c[0]
    {
      HintPathDrop(g, p, c, i);
      if c[i] == c[0] {
        HintPathUnique(g, p, c[i..], c);
        assert false;
      }
    }
  }

  lemma {:induction false} HintWalkFollows(g: Graph, p: ProjectId, c: seq<NodeId>, visited: set<NodeId>, hops: nat)
    requires HintPath(g, p, c) && forall i :: 0 <= i < |c| ==> c[i] !in visited
    ensures HintWalk(g, p, c[0], g.nodes[c[0]].kind, visited, hops) == if |c| == 1 || |c| - 1 + hops <= 5 then Some(c[|c| - 1]) else None
    decreases |c|
  {
    if |c| > 1 && hops < MAX_HINT_HOPS {
      HintPathFresh(g, p, c);
      HintWalkFollows(g, p, c[1..], visited + {c[0]}, hops + 1);
    }
  }

  /** A walk that answers has followed such a path. */
  lemma {:induction false} HintWalkFound(g: Graph, p: ProjectId, x: NodeId, visited: set<NodeId>, hops: nat) returns (c: seq<NodeId>)
    requires x in g.nodes && HintWalk(g, p, x, g.nodes[x].kind, visited, hops).Some?
    ensures HintPath(g, p, c) && c[0] == x && HintWalk(g, p, x, g.nodes[x].kind, visited, hops) == Some(c[|c| - 1])
    ensures |c| == 1 || |c| - 1 + hops <= 5
    decreases MAX_HINT_HOPS + 1 - hops
  {
    if g.nodes[x].mergedInto.None? {
      c := [x];
    } else {
      var rest := HintWalkFound(g, p, g.nodes[x].mergedInto.value, visited + {x}, hops + 1);
      c := [x] + rest;
      assert c[1..] == rest;
    }
  }

  /**
   On any stored graph, sound or not, the hint of a node is y exactly when at most
   five redirects, all inside the project and the kind, lead from it to y and y
   has none; an absent or unknown node has no hint.
   */
  lemma HintExactly(g: Graph, p: ProjectId, x: Option<NodeId>, y: NodeId)
    ensures HintCanonical(g, p, x) == Some(y) <==>
            x.Some? && exists c :: HintPath(g, p, c) && |c| <= 6 && c[0] == x.value && c[|c| - 1] == y
  {
    if HintCanonical(g, p, x) == Some(y) {
      var c := HintWalkFound(g, p, x.value, {}, 0);
    }
    if x.Some? {
      forall c | HintPath(g, p, c) && |c| <= 6 && c[0] == x.value && c[|c| - 1] == y
        ensures HintCanonical(g, p, x) == Some(y)
      {
        HintWalkFollows(g, p, c, {}, 0);
      }
    }
  }
}

/**
 Logical delete of a set of seeds: the effective set is expanded over structural
 children and reverse merge edges in one fixpoint, relations that touch it are
 expired, and every member becomes a DELETED row without pointers.
 */
module GraphDelete {
  import opened Options
  import opened GraphModel
  import opened GraphMerge

  /** `x` is a live node of the project whose parent or merge target lies in `d`. */
  predicate PointsInto(g: Graph, p: ProjectId, x: NodeId, d: set<NodeId>) {
    && Live(g, x) && g.nodes[x].project == p
    && (|| (g.nodes[x].parent.Some? && g.nodes[x].parent.value in d)
        || (g.nodes[x].mergedInto.Some? && g.nodes[x].mergedInto.value in d))
  }

  function Pointing(g: Graph, p: ProjectId, d: set<NodeId>): set<NodeId> {
    set x | x in g.nodes && PointsInto(g, p, x, d)
  }

  ghost predicate Closed(g: Graph, p: ProjectId, d: set<NodeId>) {
    forall x :: PointsInto(g, p, x, d) ==> x in d
  }

  /** `d` is the least set that contains the seeds and is closed. */
  ghost predicate LeastClosed(g: Graph, p: ProjectId, seeds: set<NodeId>, d: set<NodeId>) {
    && seeds <= d && Closed(g, p, d)
    && forall e: set<NodeId> :: seeds <= e && Closed(g, p, e) ==> d <= e
  }

  lemma LeastClosedUnique(g: Graph, p: ProjectId, seeds: set<NodeId>, d: set<NodeId>, e: set<NodeId>)
    requires LeastClosed(g, p, seeds, d) && LeastClosed(g, p, seeds, e)
    ensures d == e
  {
  }

  lemma PointsIntoMonotone(g: Graph, p: ProjectId, x: NodeId, d: set<NodeId>, e: set<NodeId>)
    requires PointsInto(g, p, x, d) && d <= e
    ensures PointsInto(g, p, x, e)
  {
  }

  /** The fixpoint as a function of the stored graph, whatever shape its pointers have. */
  function Saturate(g: Graph, p: ProjectId, d: set<NodeId>): (e: set<NodeId>)
    ensures LeastClosed(g, p, d, e)
    decreases g.nodes.Keys - d
  {
    var added := Pointing(g, p, d) - d;
    if added == {} then
      FixpointClosed(g, p, d);
      d
    else
      SaturateStep(g, p, d);
      Saturate(g, p, d + added)
  }

  lemma FixpointClosed(g: Graph, p: ProjectId, d: set<NodeId>)
    requires Pointing(g, p, d) - d == {}
    ensures Closed(g, p, d)
  {
    forall x | PointsInto(g, p, x, d)
      ensures x in d
    {
      assert x in Pointing(g, p, d);
      assert x !in Pointing(g, p, d) - d;
    }
  }

  lemma SaturateStep(g: Graph, p: ProjectId, d: set<NodeId>)
    ensures var added := Pointing(g, p, d) - d;
            && (added != {} ==> g.nodes.Keys - (d + added) < g.nodes.Keys - d)
            && forall e: set<NodeId> :: d <= e && Closed(g, p, e) ==> d + added <= e
  {
  }

  /** The frontier loop over the stored rows; it ends even on cyclic pointers. */
  method EffectiveDeleteClosure(g: Graph, p: ProjectId, seeds: set<NodeId>) returns (resolved: set<NodeId>)
    ensures seeds + resolved == Saturate(g, p, seeds)
    ensures forall x :: x in resolved ==> Live(g, x) && g.nodes[x].project == p
  {
    resolved := {};
    var frontier := seeds;
    while frontier != {}
      invariant frontier <= seeds + resolved
      invariant forall x :: x in resolved ==> Live(g, x) && g.nodes[x].project == p
      invariant forall x :: PointsInto(g, p, x, (seeds + resolved) - frontier) ==> x in resolved
      invariant forall e: set<NodeId> :: seeds <= e && Closed(g, p, e) ==> resolved <= e
      decreases g.nodes.Keys - resolved, frontier
    {
      var rows := Pointing(g, p, frontier);
      ghost var before, done := resolved, (seeds + resolved) - frontier;
      forall e: set<NodeId> | seeds <= e && Closed(g, p, e)
        ensures rows <= e
      {
        forall x | x in rows
          ensures x in e
        {
          PointsIntoMonotone(g, p, x, frontier, e);
        }
      }
      ghost var old_frontier := frontier;
      frontier := rows - resolved;
      resolved := resolved + rows;
      forall x | PointsInto(g, p, x, (seeds + resolved) - frontier)
        ensures x in resolved
      {
        if !PointsInto(g, p, x, old_frontier) {
          assert PointsInto(g, p, x, done);
        }
      }
      if frontier != {} {
        var x :| x in frontier;
        assert x in g.nodes.Keys - before && x !in g.nodes.Keys - resolved;
      }
    }
    assert LeastClosed(g, p, seeds, seeds + resolved) by {
      assert (seeds + resolved) - {} == seeds + resolved;
    }
    LeastClosedUnique(g, p, seeds, seeds + resolved, Saturate(g, p, seeds));
  }

  /** Live nodes outside `d` that still refer into it. */
  function Dangling(g: Graph, p: ProjectId, d: set<NodeId>): set<NodeId> {
    Pointing(g, p, d) - d
  }

  function DeletedNode(n: Node, member: string): Node {
    var specs := if n.revision.Some? then n.revision.value.evidence else [];
    n.(state := Deleted, parent := None, mergedInto := None, version := n.version + 1, lastActor := User,
       revision := Some(Revision(User, member, None, specs, specs != [])))
  }

  predicate Expires(k: RelationKey, p: ProjectId, d: set<NodeId>) {
    k.project == p && (k.source in d || k.target in d)
  }

  function DeletedGraph(g: Graph, p: ProjectId, d: set<NodeId>, member: string): Graph {
    g.(nodes := map x | x in g.nodes :: if x in d then DeletedNode(g.nodes[x], member) else g.nodes[x],
       relations := map k | k in g.relations :: g.relations[k] && !Expires(k, p, d))
  }

  function DeleteNodes(g: Graph, p: ProjectId, seeds: seq<NodeId>, member: string): Result<Graph> {
    if exists i :: 0 <= i < |seeds| && !Live(g, seeds[i]) then Err(NotFound)
    else if exists i :: 0 <= i < |seeds| && g.nodes[seeds[i]].project != p then Err(OtherProject)
    else
      var d := Saturate(g, p, set i | 0 <= i < |seeds| :: seeds[i]);
      var h := DeletedGraph(g, p, d, member);
      if Dangling(g, p, d) != {} || Dangling(h, p, d) != {} then Err(DanglingReference)
      else Ok(h)
  }

  ghost function Seeds(seeds: seq<NodeId>): set<NodeId> {
    set i | 0 <= i < |seeds| :: seeds[i]
  }

  /**
   On every stored graph, cyclic or not, both dangling-reference checks pass: a
   delete is refused only for a seed that is not a live node of the project.
   */
  lemma DeleteAcceptedIff(g: Graph, p: ProjectId, seeds: seq<NodeId>, member: string)
    ensures DeleteNodes(g, p, seeds, member) ==
            if exists i :: 0 <= i < |seeds| && !Live(g, seeds[i]) then Err(NotFound)
            else if exists i :: 0 <= i < |seeds| && g.nodes[seeds[i]].project != p then Err(OtherProject)
            else Ok(DeletedGraph(g, p, Saturate(g, p, Seeds(seeds)), member))
  {
  }

  /** References stay within live nodes of the referring node's project. */
  ghost predicate RefsLive(g: Graph) {
    && (forall x :: Live(g, x) && g.nodes[x].parent.Some? ==> RefLive(g, g.nodes[x].parent.value, g.nodes[x].project))
    && (forall x :: Live(g, x) && g.nodes[x].mergedInto.Some? ==> RefLive(g, g.nodes[x].mergedInto.value, g.nodes[x].project))
    && (forall k :: Open(g, k) ==> RefLive(g, k.source, k.project) && RefLive(g, k.target, k.project))
  }

  predicate RefLive(g: Graph, x: NodeId, p: ProjectId) {
    Live(g, x) && g.nodes[x].project == p
  }

  /** A row that died keeps its text; its last revision is the member's, over the evidence it had, and its redirect is gone. */
  predicate DiedAs(n: Node, m: Node, member: string) {
    && m.state == Deleted && m.mergedInto.None? && m.lastActor == User
    && m.project == n.project && m.kind == n.kind && m.category == n.category && m.title == n.title && m.content == n.content
    && m.needsAttention == n.needsAttention
    && m.revision.Some? && match m.revision.value case Revision(author, authorId, run, evidence, requiresEvidence) =>
         && author == User && authorId == member && run.None?
         && (evidence == if n.revision.Some? then n.revision.value.evidence else []) && (requiresEvidence <==> evidence != [])
  }

  /**
   What an accepted delete does, from any graph whose live rows reference only
   live rows: exactly the least closed set dies, each member's version steps
   once, all other nodes are untouched, exactly the open relations touching the
   set close, and afterwards nothing live refers to a deleted node.
   */
  lemma DeleteExactly(g: Graph, p: ProjectId, seeds: seq<NodeId>, member: string)
    requires RefsLive(g) && DeleteNodes(g, p, seeds, member).Ok?
    ensures var d := Saturate(g, p, Seeds(seeds));
            var h := DeleteNodes(g, p, seeds, member).value;
            && LeastClosed(g, p, Seeds(seeds), d)
            && h.nodes.Keys == g.nodes.Keys
            && (forall x :: x in d ==> Live(g, x) && g.nodes[x].project == p)
            && (forall x :: Live(h, x) <==> Live(g, x) && x !in d)
            && (forall x :: x in g.nodes && x !in d ==> h.nodes[x] == g.nodes[x])
            && (forall x :: x in d ==> DiedAs(g.nodes[x], h.nodes[x], member) && h.nodes[x].parent.None? && h.nodes[x].version == g.nodes[x].version + 1)
            && (forall k :: Open(h, k) <==> Open(g, k) && k.source !in d && k.target !in d)
            && h.ops == g.ops && h.deps == g.deps && h.published == g.published
            && RefsLive(h)
  {
    var s := Seeds(seeds);
    var d := Saturate(g, p, s);
    DeleteAcceptedIff(g, p, seeds, member);
    ClosureStaysInProject(g, p, s, d);
    var h := DeletedGraph(g, p, d, member);
    forall x | Live(h, x) && h.nodes[x].parent.Some?
      ensures RefLive(h, h.nodes[x].parent.value, h.nodes[x].project)
    {
      assert RefLive(g, g.nodes[x].parent.value, g.nodes[x].project);
      assert !PointsInto(g, p, x, d);
    }
    forall x | Live(h, x) && h.nodes[x].mergedInto.Some?
      ensures RefLive(h, h.nodes[x].mergedInto.value, h.nodes[x].project)
    {
      assert RefLive(g, g.nodes[x].mergedInto.value, g.nodes[x].project);
      assert !PointsInto(g, p, x, d);
    }
    forall k
      ensures Open(h, k) <==> Open(g, k) && k.source !in d && k.target !in d
    {
      if Open(g, k) {
        assert RefLive(g, k.source, k.project) && RefLive(g, k.target, k.project);
      }
    }
  }

  lemma ClosureStaysInProject(g: Graph, p: ProjectId, s: set<NodeId>, d: set<NodeId>)
    requires LeastClosed(g, p, s, d)
    requires forall x :: x in s ==> Live(g, x) && g.nodes[x].project == p
    ensures forall x :: x in d ==> Live(g, x) && g.nodes[x].project == p
  {
    var e := set x | x in d && Live(g, x) && g.nodes[x].project == p;
    forall x | PointsInto(g, p, x, e)
      ensures x in e
    {
      PointsIntoMonotone(g, p, x, e, d);
    }
    assert Closed(g, p, e);
    assert d <= e;
  }

  /** A chain that starts outside a closed set stays outside it. */
  lemma {:induction false} ChainAvoids(g: Graph, p: ProjectId, d: set<NodeId>, c: seq<NodeId>, i: nat)
    requires PointersOk(g) && Closed(g, p, d) && IsChain(g, c) && i < |c|
    requires forall x :: x in d ==> x in g.nodes && g.nodes[x].project == p
    requires c[0] !in d
    ensures c[i] !in d
    decreases i
  {
    if i > 0 {
      ChainAvoids(g, p, d, c, i - 1);
      ChainMembers(g, c, i - 1);
      assert PointerOk(g, c[i - 1]);
      assert c[i] in d ==> PointsInto(g, p, c[i - 1], d);
    }
  }

  lemma DeleteKeepsForest(g: Graph, p: ProjectId, d: set<NodeId>, member: string)
    requires ForestInv(g) && Closed(g, p, d)
    requires forall x :: x in d ==> x in g.nodes && g.nodes[x].project == p
    ensures var h := DeletedGraph(g, p, d, member);
            ForestInv(h) && forall x :: Live(h, x) ==> HasChain(g, x) && HasChain(h, x) && Chain(h, x) == Chain(g, x)
  {
    var h := DeletedGraph(g, p, d, member);
    forall x | x in h.nodes
      ensures NodeShape(h.nodes[x])
    {
      assert NodeShape(g.nodes[x]);
    }
    forall x | Live(h, x)
      ensures HasChain(g, x) && HasChain(h, x) && Chain(h, x) == Chain(g, x) && PointerOk(h, x)
    {
      assert Live(g, x) && PointerOk(g, x) && !PointsInto(g, p, x, d);
      var c := Chain(g, x);
      forall i | 0 <= i < |c|
        ensures Live(h, c[i]) && c[i] in g.nodes && h.nodes[c[i]].mergedInto == g.nodes[c[i]].mergedInto
      {
        ChainAvoids(g, p, d, c, i);
        ChainMembers(g, c, i);
      }
      ChainTransfer(g, h, c);
      ChainIs(h, c);
    }
  }

  lemma DeleteKeepsUndo(g: Graph, p: ProjectId, d: set<NodeId>, member: string)
    requires UndoInv(g)
    ensures UndoInv(DeletedGraph(g, p, d, member))
  {
  }

  lemma InvRefsLive(g: Graph)
    requires Inv(g)
    ensures RefsLive(g)
  {
  }

  lemma DeleteKeepsRest(g: Graph, p: ProjectId, d: set<NodeId>, member: string)
    requires RefsLive(g) && ParentsOk(g) && RelationsOk(g) && OneParentRelation(g) && RunsOk(g) && Closed(g, p, d)
    requires forall x :: x in d ==> x in g.nodes && g.nodes[x].project == p
    ensures var h := DeletedGraph(g, p, d, member); ParentsOk(h) && RelationsOk(h) && OneParentRelation(h) && RunsOk(h)
  {
    var h := DeletedGraph(g, p, d, member);
    forall x | Live(h, x)
      ensures ParentOk(h, x)
    {
      assert ParentOk(g, x) && !PointsInto(g, p, x, d);
    }
    assert forall k :: Open(h, k) ==> Open(g, k) && k.source !in d && k.target !in d;
  }

  /** Removing any closed set of the project's nodes keeps the invariant. */
  lemma ClosedDeleteKeepsInv(g: Graph, p: ProjectId, d: set<NodeId>, member: string)
    requires Inv(g) && Closed(g, p, d)
    requires forall x :: x in d ==> x in g.nodes && g.nodes[x].project == p
    ensures Inv(DeletedGraph(g, p, d, member))
  {
    InvRefsLive(g);
    DeleteKeepsForest(g, p, d, member);
    DeleteKeepsUndo(g, p, d, member);
    DeleteKeepsRest(g, p, d, member);
    hide ForestInv, UndoInv, ParentsOk, RelationsOk, OneParentRelation, RunsOk;
  }

  lemma DeleteKeepsInv(g: Graph, p: ProjectId, seeds: seq<NodeId>, member: string)
    requires Inv(g) && DeleteNodes(g, p, seeds, member).Ok?
    ensures Inv(DeleteNodes(g, p, seeds, member).value)
  {
    hide Inv;
    var d := Saturate(g, p, Seeds(seeds));
    DeleteAcceptedIff(g, p, seeds, member);
    ClosureStaysInProject(g, p, Seeds(seeds), d);
    ClosedDeleteKeepsInv(g, p, d, member);
  }
}

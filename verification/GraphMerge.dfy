/**
 Logical merge and its undo.  A merge redirects only the source node and logs an
 operation; an undo is refused while a later operation depends on it.
 */
module GraphMerge {
  import opened Options
  import opened GraphModel
  import opened GraphResolve

  // ----- transfer of chains between graphs -----

  lemma {:induction false} ChainTransfer(g: Graph, h: Graph, c: seq<NodeId>)
    requires IsChain(g, c)
    requires forall i :: 0 <= i < |c| ==> Live(h, c[i]) && c[i] in g.nodes && h.nodes[c[i]].mergedInto == g.nodes[c[i]].mergedInto
    ensures IsChain(h, c)
    decreases |c|
  {
    if |c| > 1 {
      assert forall i :: 0 <= i < |c[1..]| ==> c[1..][i] == c[i + 1];
      ChainTransfer(g, h, c[1..]);
    } else {
      assert Live(h, c[0]);
    }
  }

  /** `h` keeps every live node of `g` live, with the same merge pointer. */
  ghost predicate KeepsPointers(g: Graph, h: Graph) {
    forall x :: Live(g, x) ==> Live(h, x) && h.nodes[x].mergedInto == g.nodes[x].mergedInto
  }

  lemma KeepsChains(g: Graph, h: Graph, x: NodeId)
    requires KeepsPointers(g, h) && HasChain(g, x)
    ensures HasChain(h, x) && Chain(h, x) == Chain(g, x) && Root(h, x) == Root(g, x)
  {
    var c := Chain(g, x);
    forall i | 0 <= i < |c|
      ensures Live(h, c[i]) && c[i] in g.nodes && h.nodes[c[i]].mergedInto == g.nodes[c[i]].mergedInto
    {
      ChainMembers(g, c, i);
    }
    ChainTransfer(g, h, c);
    ChainIs(h, c);
  }

  // ----- merge -----

  /** APPLIED operations whose resolved target is `s`. */
  function Incoming(g: Graph, p: ProjectId, s: NodeId): set<OpId> {
    set o | o in g.ops && g.ops[o].project == p && g.ops[o].applied && g.ops[o].resolved == s
  }

  function MergedSource(n: Node, target: NodeId, actor: Actor): Node {
    n.(state := Merged, mergedInto := Some(target), version := n.version + 1, lastActor := actor)
  }

  function MergedGraph(g: Graph, p: ProjectId, s: NodeId, t: NodeId, r: NodeId, actor: Actor, id: OpId): Graph
    requires s in g.nodes && r in g.nodes
  {
    g.(nodes := g.nodes[s := MergedSource(g.nodes[s], r, actor)],
       ops := g.ops[id := MergeOp(p, s, t, r, g.nodes[s].version, g.nodes[r].version, g.nodes[s].state, true)],
       deps := g.deps + set o | o in Incoming(g, p, s) :: (id, o))
  }

  function ApplyMerge(g: Graph, p: ProjectId, s: NodeId, t: NodeId, actor: Actor, id: OpId): Result<Graph>
    requires s in g.nodes && t in g.nodes
  {
    if g.nodes[s].project != p || g.nodes[t].project != p then Err(OtherProject)
    else if s == t then Err(SelfReference)
    else if !Canonical(g.nodes[s]) || g.nodes[s].mergedInto.Some? then Err(NotAvailable)
    else if g.nodes[s].kind != g.nodes[t].kind then Err(TypeChange)
    else
      var r := Resolve(g, p, t, Some(g.nodes[s].kind));
      if r.Err? then Err(r.error)
      else if r.value == s then Err(WouldCycle)
      else if r.value !in g.nodes || g.nodes[s].revision.None? || g.nodes[r.value].revision.None? then Err(NoRevision)
      else Ok(MergedGraph(g, p, s, t, r.value, actor, id))
  }

  /** A merge is accepted exactly on these inputs; no other guard can refuse it. */
  lemma MergeAcceptedIff(g: Graph, p: ProjectId, s: NodeId, t: NodeId, actor: Actor, id: OpId)
    requires ForestInv(g) && s in g.nodes && t in g.nodes
    ensures ApplyMerge(g, p, s, t, actor, id).Ok? <==>
            && g.nodes[s].project == p && g.nodes[t].project == p && s != t
            && Canonical(g.nodes[s]) && Live(g, t) && g.nodes[s].kind == g.nodes[t].kind
            && Depth(g, t) <= 127 && Root(g, t) != s && Root(g, t) in g.nodes
            && g.nodes[s].revision.Some? && g.nodes[Root(g, t)].revision.Some?
  {
    ResolveExactly(g, p, t, Some(g.nodes[s].kind));
    assert NodeShape(g.nodes[s]);
    if Live(g, t) {
      RootFacts(g, t);
    }
  }

  lemma {:induction false} MergeChain(g: Graph, h: Graph, s: NodeId, r: NodeId, c: seq<NodeId>)
    requires IsChain(g, c) && Live(g, s) && Live(g, r) && s != r
    requires g.nodes[s].mergedInto.None? && g.nodes[r].mergedInto.None?
    requires s in h.nodes && h.nodes == g.nodes[s := h.nodes[s]]
    requires Live(h, s) && h.nodes[s].mergedInto == Some(r)
    ensures IsChain(h, if c[|c| - 1] == s then c + [r] else c)
    decreases |c|
  {
    if |c| == 1 {
      if c[0] == s {
        assert [s, r][1..] == [r] && c + [r] == [s, r];
        assert IsChain(h, [r]);
      }
    } else {
      MergeChain(g, h, s, r, c[1..]);
      assert (c + [r])[1..] == c[1..] + [r];
    }
  }

  /**
   Merging s into r is union: every live node whose root was s now has root r,
   every other root is unchanged, and no node appears or disappears.
   */
  lemma MergeRoots(g: Graph, h: Graph, s: NodeId, r: NodeId, x: NodeId)
    requires ForestInv(g) && Live(g, x) && Live(g, s) && Live(g, r) && s != r
    requires g.nodes[s].mergedInto.None? && g.nodes[r].mergedInto.None?
    requires s in h.nodes && h.nodes == g.nodes[s := h.nodes[s]]
    requires Live(h, s) && h.nodes[s].mergedInto == Some(r)
    ensures HasChain(g, x) && HasChain(h, x)
    ensures Root(h, x) == if Root(g, x) == s then r else Root(g, x)
    ensures Depth(h, x) == if Root(g, x) == s then Depth(g, x) + 1 else Depth(g, x)
  {
    var c := Chain(g, x);
    MergeChain(g, h, s, r, c);
    ChainIs(h, if c[|c| - 1] == s then c + [r] else c);
  }

  /** The two ends of an accepted merge: distinct live roots of one project and kind. */
  ghost predicate MergeEnds(g: Graph, p: ProjectId, s: NodeId, r: NodeId) {
    && s != r && Live(g, s) && Live(g, r)
    && Canonical(g.nodes[s]) && g.nodes[s].mergedInto.None? && g.nodes[r].mergedInto.None?
    && g.nodes[s].project == p && g.nodes[r].project == p && g.nodes[s].kind == g.nodes[r].kind
  }

  lemma MergeFacts(g: Graph, p: ProjectId, s: NodeId, t: NodeId, actor: Actor, id: OpId) returns (r: NodeId)
    requires ForestInv(g) && s in g.nodes && t in g.nodes
    requires ApplyMerge(g, p, s, t, actor, id).Ok?
    ensures Resolve(g, p, t, Some(g.nodes[s].kind)) == Ok(r)
    ensures MergeEnds(g, p, s, r) && g.nodes[s].revision.Some? && g.nodes[r].revision.Some?
    ensures ApplyMerge(g, p, s, t, actor, id) == Ok(MergedGraph(g, p, s, t, r, actor, id))
  {
    r := Resolve(g, p, t, Some(g.nodes[s].kind)).value;
    ResolveOk(g, p, t, Some(g.nodes[s].kind));
  }

  lemma MergeKeepsForest(g: Graph, h: Graph, p: ProjectId, s: NodeId, r: NodeId, actor: Actor)
    requires ForestInv(g) && MergeEnds(g, p, s, r)
    requires h.nodes == g.nodes[s := MergedSource(g.nodes[s], r, actor)]
    ensures ForestInv(h)
  {
    assert NodeShape(g.nodes[s]);
    forall x | x in h.nodes
      ensures NodeShape(h.nodes[x])
    {
      assert NodeShape(g.nodes[x]);
    }
    forall x | Live(h, x)
      ensures HasChain(h, x) && PointerOk(h, x)
    {
      MergeRoots(g, h, s, r, x);
      assert PointerOk(g, x);
    }
  }

  /** A root is the source of no APPLIED operation. */
  lemma RootHasNoOp(g: Graph, x: NodeId, o: OpId)
    requires OpsOk(g) && Live(g, x) && g.nodes[x].mergedInto.None? && Applied(g, o)
    ensures g.ops[o].source != x
  {
  }

  lemma MergeKeepsOps(g: Graph, p: ProjectId, s: NodeId, t: NodeId, r: NodeId, actor: Actor, id: OpId)
    requires ShapesOk(g) && OpsOk(g) && MergeEnds(g, p, s, r) && id !in g.ops
    ensures OpsOk(MergedGraph(g, p, s, t, r, actor, id))
  {
  }

  lemma MergeKeepsLog(g: Graph, p: ProjectId, s: NodeId, t: NodeId, r: NodeId, actor: Actor, id: OpId)
    requires OpsOk(g) && OneOpPerSource(g) && MergedHaveOps(g) && MergeEnds(g, p, s, r) && id !in g.ops
    ensures var h := MergedGraph(g, p, s, t, r, actor, id); OneOpPerSource(h) && MergedHaveOps(h)
  {
    var h := MergedGraph(g, p, s, t, r, actor, id);
    forall o, q | Applied(h, o) && Applied(h, q) && h.ops[o].source == h.ops[q].source
      ensures o == q
    {
      if o != id { RootHasNoOp(g, s, o); }
      if q != id { RootHasNoOp(g, s, q); }
    }
    forall x | Live(h, x) && h.nodes[x].state == Merged
      ensures HasOp(h, x)
    {
      if x == s {
        assert Applied(h, id);
      } else {
        assert HasOp(g, x);
        var o :| Applied(g, o) && g.ops[o].source == x;
        assert Applied(h, o);
      }
    }
  }

  lemma MergeKeepsDeps(g: Graph, p: ProjectId, s: NodeId, t: NodeId, r: NodeId, actor: Actor, id: OpId)
    requires OpsOk(g) && DepsRecorded(g) && DepsSound(g) && MergeEnds(g, p, s, r) && id !in g.ops
    ensures var h := MergedGraph(g, p, s, t, r, actor, id); DepsRecorded(h) && DepsSound(h)
  {
  }

  lemma MergeKeepsInv(g: Graph, p: ProjectId, s: NodeId, t: NodeId, actor: Actor, id: OpId)
    requires Inv(g) && s in g.nodes && t in g.nodes && id !in g.ops
    requires ApplyMerge(g, p, s, t, actor, id).Ok?
    ensures Inv(ApplyMerge(g, p, s, t, actor, id).value)
  {
    var r := MergeFacts(g, p, s, t, actor, id);
    var h := MergedGraph(g, p, s, t, r, actor, id);
    MergeKeepsForest(g, h, p, s, r, actor);
    MergeKeepsOps(g, p, s, t, r, actor, id);
    MergeKeepsLog(g, p, s, t, r, actor, id);
    MergeKeepsDeps(g, p, s, t, r, actor, id);
    SameSkeleton(g, h);
    hide ApplyMerge, ForestInv, OpsOk, OneOpPerSource, MergedHaveOps, DepsRecorded, DepsSound, ParentsOk, RelationsOk, OneParentRelation, RunsOk;
  }

  /** `h` has the nodes of `g` with the same liveness, project, kind, parent and revision run. */
  ghost predicate Skeleton(g: Graph, h: Graph) {
    && h.nodes.Keys == g.nodes.Keys
    && forall x :: x in g.nodes ==> SkeletonAt(g.nodes[x], h.nodes[x])
  }

  predicate SkeletonAt(n: Node, m: Node) {
    && (n.state == Deleted <==> m.state == Deleted) && n.project == m.project && n.kind == m.kind
    && n.parent == m.parent && n.revision == m.revision
  }

  /** Parents, relations and run authorship do not depend on merge states. */
  lemma SameSkeleton(g: Graph, h: Graph)
    requires Skeleton(g, h) && h.relations == g.relations && h.published == g.published
    requires ParentsOk(g) && RelationsOk(g) && OneParentRelation(g) && RunsOk(g)
    ensures ParentsOk(h) && RelationsOk(h) && OneParentRelation(h) && RunsOk(h)
  {
    forall x | Live(h, x)
      ensures ParentOk(h, x)
    {
      assert ParentOk(g, x) && SkeletonAt(g.nodes[x], h.nodes[x]);
    }
    forall k | Open(h, k)
      ensures Live(h, k.source) && Live(h, k.target) && k.source != k.target
      ensures h.nodes[k.source].project == k.project && h.nodes[k.target].project == k.project
    {
      assert Open(g, k);
      assert SkeletonAt(g.nodes[k.source], h.nodes[k.source]) && SkeletonAt(g.nodes[k.target], h.nodes[k.target]);
    }
    forall k, l | Open(h, k) && Open(h, l) && SameChildAttachment(k, l)
      ensures k == l
    {
      assert Open(g, k) && Open(g, l);
    }
    forall x | x in h.nodes && h.nodes[x].revision.Some? && h.nodes[x].revision.value.run.Some?
      ensures h.nodes[x].revision.value.run.value in h.published
    {
      assert SkeletonAt(g.nodes[x], h.nodes[x]);
    }
  }

  // ----- unmerge -----

  predicate HasDependent(g: Graph, id: OpId) {
    exists o :: o in g.ops && (o, id) in g.deps && g.ops[o].applied
  }

  function RestoredSource(n: Node, original: GraphState, drifted: bool): Node {
    n.(state := original, mergedInto := None, version := n.version + 1, lastActor := User,
       needsAttention := n.needsAttention || drifted)
  }

  function UnmergedGraph(g: Graph, id: OpId): Graph
    requires id in g.ops && g.ops[id].source in g.nodes && g.ops[id].resolved in g.nodes
  {
    var op := g.ops[id];
    g.(nodes := g.nodes[op.source := RestoredSource(g.nodes[op.source], op.originalState,
                                                    g.nodes[op.resolved].version != op.targetVersion)],
       ops := g.ops[id := op.(applied := false)])
  }

  function Unmerge(g: Graph, p: ProjectId, id: OpId): Result<Graph> {
    if id !in g.ops || g.ops[id].project != p then Err(NotFound)
    else if !g.ops[id].applied then Ok(g)
    else if HasDependent(g, id) then Err(DependentMergeFirst)
    else
      var op := g.ops[id];
      var source := GetProjectNode(g, p, op.source);
      if source.Err? then Err(source.error)
      else if g.nodes[op.source].state != Merged || g.nodes[op.source].mergedInto != Some(op.resolved) then Err(SourceMismatch)
      else if g.nodes[op.source].revision.None? then Err(NoRevision)
      else if g.nodes[op.source].revision.value.requiresEvidence && g.nodes[op.source].revision.value.evidence == [] then Err(NoEvidence)
      else
        var target := GetProjectNode(g, p, op.resolved);
        if target.Err? then Err(target.error) else Ok(UnmergedGraph(g, id))
  }

  /** Two APPLIED dependents of one operation are the same operation. */
  lemma AtMostOneDependent(g: Graph, id: OpId, o: OpId, q: OpId)
    requires UndoInv(g)
    requires (o, id) in g.deps && (q, id) in g.deps && Applied(g, o) && Applied(g, q)
    ensures o == q
  {
  }

  /**
   An APPLIED operation without an APPLIED dependent sits directly under a
   current root; with one, its target has itself been merged away or deleted.
   */
  lemma NoDependentMeansRoot(g: Graph, id: OpId)
    requires ForestInv(g) && UndoInv(g) && Applied(g, id)
    requires Live(g, g.ops[id].source)
    ensures var op := g.ops[id];
            && Live(g, op.resolved) && g.nodes[op.source].mergedInto == Some(op.resolved)
            && (!HasDependent(g, id) <==> g.nodes[op.resolved].mergedInto.None?)
  {
  }

  /**
   When an undo of an APPLIED operation is accepted: its source is still live,
   still has a revision, and the target is a root.  The mismatch, missing
   evidence and missing target exits are unreachable.
   */
  lemma UnmergeAcceptedIff(g: Graph, p: ProjectId, id: OpId)
    requires ForestInv(g) && UndoInv(g) && Applied(g, id) && g.ops[id].project == p
    ensures Unmerge(g, p, id).Ok? <==>
            && Live(g, g.ops[id].source) && g.nodes[g.ops[id].source].revision.Some?
            && g.nodes[g.ops[id].resolved].mergedInto.None?
    ensures Unmerge(g, p, id).Err? ==> Unmerge(g, p, id).error in {DependentMergeFirst, OtherProject, NoRevision}
  {
  }

  /** The part of a chain up to and including `s`. */
  ghost function CutAt(c: seq<NodeId>, s: NodeId): seq<NodeId>
    decreases |c|
  {
    if |c| <= 1 || c[0] == s then c[..if |c| == 0 then 0 else 1] else [c[0]] + CutAt(c[1..], s)
  }

  lemma {:induction false} UnmergeChain(g: Graph, h: Graph, s: NodeId, c: seq<NodeId>)
    requires IsChain(g, c) && s in g.nodes && s in h.nodes && h.nodes == g.nodes[s := h.nodes[s]]
    requires Live(h, s) && h.nodes[s].mergedInto.None?
    ensures var d := CutAt(c, s);
            IsChain(h, d) && d[0] == c[0] && d[|d| - 1] == if s in c then s else c[|c| - 1]
    decreases |c|
  {
    if c[0] != s && |c| > 1 {
      var e := CutAt(c[1..], s);
      UnmergeChain(g, h, s, c[1..]);
      var d := [c[0]] + e;
      assert d[1..] == e && c == [c[0]] + c[1..];
      assert Live(h, c[0]) && h.nodes[c[0]].mergedInto == Some(e[0]);
    }
  }

  /** The two ends of an accepted undo: a live source directly under a root. */
  ghost predicate UnmergeEnds(g: Graph, p: ProjectId, id: OpId) {
    && Applied(g, id) && g.ops[id].project == p
    && Live(g, g.ops[id].source) && Live(g, g.ops[id].resolved)
    && g.nodes[g.ops[id].source].mergedInto == Some(g.ops[id].resolved)
    && g.nodes[g.ops[id].resolved].mergedInto.None?
  }

  lemma UnmergeFacts(g: Graph, p: ProjectId, id: OpId)
    requires ForestInv(g) && UndoInv(g) && Applied(g, id) && Unmerge(g, p, id).Ok?
    ensures UnmergeEnds(g, p, id) && Unmerge(g, p, id) == Ok(UnmergedGraph(g, id))
  {
  }

  /**
   The effect of a successful undo: exactly the nodes whose chain passes through
   the source get the source as their root; every other root is unchanged.
   */
  lemma UnmergeRoots(g: Graph, p: ProjectId, id: OpId, x: NodeId)
    requires ForestInv(g) && UnmergeEnds(g, p, id) && Live(g, x)
    requires g.ops[id].originalState != Deleted
    ensures var h := UnmergedGraph(g, id);
            var s := g.ops[id].source;
            && HasChain(g, x) && HasChain(h, x)
            && Root(h, x) == (if s in Chain(g, x) then s else Root(g, x))
            && (s in Chain(g, x) ==> Root(g, x) == g.ops[id].resolved)
  {
    var h := UnmergedGraph(g, id);
    var s := g.ops[id].source;
    var c := Chain(g, x);
    UnmergeChain(g, h, s, c);
    ChainIs(h, CutAt(c, s));
    if s in c {
      var i :| 0 <= i < |c| && c[i] == s;
      ChainMembers(g, c, i);
      ChainMembers(g, c, i + 1);
    }
  }

  lemma UnmergeKeepsForest(g: Graph, p: ProjectId, id: OpId)
    requires ForestInv(g) && UnmergeEnds(g, p, id) && OpOk(g, id)
    ensures ForestInv(UnmergedGraph(g, id))
  {
    var h := UnmergedGraph(g, id);
    var s := g.ops[id].source;
    assert NodeShape(g.nodes[s]);
    forall x | x in h.nodes
      ensures NodeShape(h.nodes[x])
    {
      assert NodeShape(g.nodes[x]);
    }
    forall x | Live(h, x)
      ensures HasChain(h, x) && PointerOk(h, x)
    {
      UnmergeRoots(g, p, id, x);
      assert PointerOk(g, x);
    }
  }

  lemma UnmergeKeepsOps(g: Graph, p: ProjectId, id: OpId)
    requires OpsOk(g) && OneOpPerSource(g) && UnmergeEnds(g, p, id)
    ensures OpsOk(UnmergedGraph(g, id))
  {
  }

  lemma UnmergeKeepsUndo(g: Graph, p: ProjectId, id: OpId)
    requires ShapesOk(g) && UndoInv(g) && UnmergeEnds(g, p, id)
    ensures UndoInv(UnmergedGraph(g, id))
  {
    assert OpOk(g, id);
    UnmergeKeepsOps(g, p, id);
    UnmergeKeepsExplained(g, p, id);
    UnmergeKeepsLog(g, id);
    hide OpsOk, OneOpPerSource, MergedHaveOps, DepsRecorded, DepsSound;
  }

  lemma UnmergeKeepsLog(g: Graph, id: OpId)
    requires Applied(g, id) && g.ops[id].source in g.nodes && g.ops[id].resolved in g.nodes
    requires OneOpPerSource(g) && DepsRecorded(g) && DepsSound(g)
    ensures var h := UnmergedGraph(g, id); OneOpPerSource(h) && DepsRecorded(h) && DepsSound(h)
  {
    var h := UnmergedGraph(g, id);
    assert forall o :: Applied(h, o) ==> Applied(g, o) && h.ops[o] == g.ops[o];
    forall o, q | (o, q) in h.deps
      ensures o in h.ops && q in h.ops && h.ops[q].resolved == h.ops[o].source
    {
      assert (o, q) in g.deps;
    }
  }

  lemma UnmergeKeepsExplained(g: Graph, p: ProjectId, id: OpId)
    requires ShapesOk(g) && MergedHaveOps(g) && UnmergeEnds(g, p, id) && g.ops[id].originalState != Merged
    ensures MergedHaveOps(UnmergedGraph(g, id))
  {
    var h := UnmergedGraph(g, id);
    forall x | Live(h, x) && h.nodes[x].state == Merged
      ensures HasOp(h, x)
    {
      assert x != g.ops[id].source && HasOp(g, x);
      var o :| Applied(g, o) && g.ops[o].source == x;
      assert Applied(h, o);
    }
  }

  lemma UnmergeKeepsInv(g: Graph, p: ProjectId, id: OpId)
    requires Inv(g) && Unmerge(g, p, id).Ok?
    ensures Inv(Unmerge(g, p, id).value)
  {
    if Applied(g, id) {
      UnmergeFacts(g, p, id);
      assert OpOk(g, id);
      UnmergeKeepsForest(g, p, id);
      UnmergeKeepsUndo(g, p, id);
      SameSkeleton(g, UnmergedGraph(g, id));
    }
  }

  /**
   Undoing a merge that was just applied always succeeds and restores the graph:
   the source is back in its original state with the same pointers, only its
   version, last actor and log row differ, and every root is what it was.
   */
  lemma MergeThenUnmerge(g: Graph, p: ProjectId, s: NodeId, t: NodeId, actor: Actor, id: OpId)
    requires Inv(g) && s in g.nodes && t in g.nodes && id !in g.ops
    requires ApplyMerge(g, p, s, t, actor, id).Ok?
    ensures var h := ApplyMerge(g, p, s, t, actor, id).value;
            var u := Unmerge(h, p, id);
            && u.Ok?
            && u.value.nodes == g.nodes[s := g.nodes[s].(version := g.nodes[s].version + 2, lastActor := User)]
            && forall x :: Live(g, x) ==> HasChain(g, x) && HasChain(u.value, x) && Root(u.value, x) == Root(g, x)
  {
    var r := MergeFacts(g, p, s, t, actor, id);
    var h := MergedGraph(g, p, s, t, r, actor, id);
    UndoAccepted(g, p, s, t, actor, id);
    UndoRestores(g, p, s, t, r, actor, id);
  }

  lemma UndoAccepted(g: Graph, p: ProjectId, s: NodeId, t: NodeId, actor: Actor, id: OpId)
    requires Inv(g) && s in g.nodes && t in g.nodes && id !in g.ops
    requires ApplyMerge(g, p, s, t, actor, id).Ok?
    ensures var h := ApplyMerge(g, p, s, t, actor, id).value;
            Applied(h, id) && h.ops[id].source in h.nodes && h.ops[id].resolved in h.nodes
            && Unmerge(h, p, id) == Ok(UnmergedGraph(h, id))
  {
    var r := MergeFacts(g, p, s, t, actor, id);
    MergeKeepsInv(g, p, s, t, actor, id);
    var h := MergedGraph(g, p, s, t, r, actor, id);
    UnmergeAcceptedIff(h, p, id);
  }

  lemma UndoRestores(g: Graph, p: ProjectId, s: NodeId, t: NodeId, r: NodeId, actor: Actor, id: OpId)
    requires ForestInv(g) && MergeEnds(g, p, s, r)
    ensures var u := UnmergedGraph(MergedGraph(g, p, s, t, r, actor, id), id);
            && u.nodes == g.nodes[s := g.nodes[s].(version := g.nodes[s].version + 2, lastActor := User)]
            && forall x :: Live(g, x) ==> HasChain(g, x) && HasChain(u, x) && Root(u, x) == Root(g, x)
  {
    var h := MergedGraph(g, p, s, t, r, actor, id);
    var u := UnmergedGraph(h, id);
    assert KeepsPointers(g, u);
    forall x | Live(g, x)
      ensures HasChain(g, x) && HasChain(u, x) && Root(u, x) == Root(g, x)
    {
      KeepsChains(g, u, x);
    }
  }

  // ----- what merge and undo write, row by row -----

  /** Everything but the operation log and the row of s is as before. */
  ghost predicate OnlyRow(g: Graph, h: Graph, s: NodeId) {
    && h.nodes.Keys == g.nodes.Keys && s in g.nodes
    && (forall x :: x in g.nodes && x != s ==> h.nodes[x] == g.nodes[x])
    && h.relations == g.relations && h.published == g.published
  }

  /**
   An accepted merge redirects the source to the root of the target and keeps its
   text, parent and flags; it logs one APPLIED operation with both requested and
   resolved target and the versions it saw, depending on exactly the APPLIED
   operations that had merged into the source.
   */
  lemma MergeExactly(g: Graph, p: ProjectId, s: NodeId, t: NodeId, actor: Actor, id: OpId)
    requires Inv(g) && s in g.nodes && t in g.nodes && id !in g.ops && ApplyMerge(g, p, s, t, actor, id).Ok?
    ensures HasChain(g, t)
    ensures var h, r := ApplyMerge(g, p, s, t, actor, id).value, Root(g, t);
            && OnlyRow(g, h, s) && r in g.nodes && r != s
            && var n, m := g.nodes[s], h.nodes[s];
            && m.state == Merged && m.mergedInto == Some(r) && m.version == n.version + 1 && m.lastActor == actor
            && m.project == n.project && m.kind == n.kind && m.category == n.category && m.parent == n.parent
            && m.revision == n.revision && m.title == n.title && m.content == n.content && m.needsAttention == n.needsAttention
            && h.ops.Keys == g.ops.Keys + {id} && (forall o :: o in g.ops ==> h.ops[o] == g.ops[o])
            && h.ops[id].applied && h.ops[id].project == p && h.ops[id].source == s
            && h.ops[id].requested == t && h.ops[id].resolved == r && h.ops[id].originalState == n.state
            && h.ops[id].sourceVersion == n.version && h.ops[id].targetVersion == g.nodes[r].version
            && forall o, q :: (o, q) in h.deps <==> (o, q) in g.deps || (o == id && Applied(g, q) && g.ops[q].resolved == s)
  {
    var r := MergeFacts(g, p, s, t, actor, id);
    ResolveOk(g, p, t, Some(g.nodes[s].kind));
    var h := MergedGraph(g, p, s, t, r, actor, id);
    forall q
      ensures q in Incoming(g, p, s) <==> Applied(g, q) && g.ops[q].resolved == s
    {
      assert q in g.ops ==> OpOk(g, q);
    }
    hide Inv, ApplyMerge, Resolve, Incoming;
  }

  /**
   An accepted undo of an APPLIED operation puts its source back: the original
   state, no redirect, one version more, by the user, flagged for attention exactly
   if it already was or the target's version is not the one the merge saw.  Only
   that row and the operation's status change.
   */
  lemma UndoExactly(g: Graph, p: ProjectId, id: OpId)
    requires Inv(g) && Applied(g, id) && Unmerge(g, p, id).Ok?
    ensures g.ops[id].source in g.nodes && g.ops[id].resolved in g.nodes && g.ops[id].project == p
    ensures var h, op := Unmerge(g, p, id).value, g.ops[id];
            && OnlyRow(g, h, op.source) && h.deps == g.deps
            && var n, m := g.nodes[op.source], h.nodes[op.source];
            && m.state == op.originalState && m.mergedInto == None && m.version == n.version + 1 && m.lastActor == User
            && (m.needsAttention <==> n.needsAttention || g.nodes[op.resolved].version != op.targetVersion)
            && m.project == n.project && m.kind == n.kind && m.category == n.category && m.parent == n.parent
            && m.revision == n.revision && m.title == n.title && m.content == n.content
            && h.ops.Keys == g.ops.Keys && (forall o :: o in g.ops && o != id ==> h.ops[o] == g.ops[o])
            && !h.ops[id].applied && h.ops[id].source == op.source && h.ops[id].project == op.project
            && h.ops[id].requested == op.requested && h.ops[id].resolved == op.resolved && h.ops[id].originalState == op.originalState
            && h.ops[id].sourceVersion == op.sourceVersion && h.ops[id].targetVersion == op.targetVersion
  {
    UnmergeFacts(g, p, id);
    assert OpOk(g, id);
    hide Inv, Unmerge;
  }

  /** An operation that is already reverted is undone without effect, by its own project only. */
  lemma UndoOfReverted(g: Graph, p: ProjectId, id: OpId)
    requires !Applied(g, id)
    ensures Unmerge(g, p, id) == if id in g.ops && g.ops[id].project == p then Ok(g) else Err(NotFound)
  {
  }
}

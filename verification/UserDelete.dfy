/**
 The older single-node delete.  It removes a node together with the sources
 merged directly into it, one level only, so unlike the closure delete it can
 leave live rows that refer to deleted ones.
 */
module UserDelete {
  import opened Options
  import opened GraphModel
  import opened GraphDelete
  import opened GraphRelations

  predicate DirectSource(g: Graph, p: ProjectId, x: NodeId, y: NodeId) {
    Live(g, y) && g.nodes[y].project == p && g.nodes[y].state == Merged && g.nodes[y].mergedInto == Some(x)
  }

  function Removed(g: Graph, p: ProjectId, x: NodeId): set<NodeId> {
    {x} + set y | y in g.nodes && DirectSource(g, p, x, y)
  }

  predicate StructuralChild(g: Graph, p: ProjectId, x: NodeId, y: NodeId) {
    Live(g, y) && g.nodes[y].project == p && Canonical(g.nodes[y]) && g.nodes[y].parent == Some(x)
  }

  /** The version steps only from an existing revision; `parent` is what stays on the DELETED row. */
  function DeletedRow(n: Node, parent: Option<NodeId>, actor: string): Node {
    DeletedNode(n, actor).(parent := parent, version := if n.revision.Some? then n.version + 1 else n.version)
  }

  /** The root keeps its parent pointer on its DELETED row; the merged sources lose both pointers. */
  function DeletedOne(g: Graph, p: ProjectId, x: NodeId, actor: string): Graph {
    var d := Removed(g, p, x);
    DeletedGraph(g, p, d, actor).(nodes := map y | y in g.nodes ::
      if y in d then DeletedRow(g.nodes[y], if y == x then g.nodes[y].parent else None, actor) else g.nodes[y])
  }

  function DeleteOne(g: Graph, p: ProjectId, x: NodeId, version: nat, actor: string): Result<Graph> {
    if x !in g.nodes then Err(NotFound)
    else if g.nodes[x].project != p then Err(OtherProject)
    else if g.nodes[x].state == Deleted then Ok(g)
    else if g.nodes[x].version != version then Err(VersionConflict)
    else if g.nodes[x].state == Merged then Err(NotAvailable)
    else if exists y :: y in g.nodes && StructuralChild(g, p, x, y) then Err(HasChildren)
    else Ok(DeletedOne(g, p, x, actor))
  }

  /**
   What a caller can look at beforehand: no source merged into the node is itself
   a merge target or a parent of a live row, and no live MERGED row has the node
   as its parent.
   */
  ghost predicate OneLevelIsEnough(g: Graph, p: ProjectId, x: NodeId) {
    forall y :: Live(g, y) && g.nodes[y].project == p && y != x ==> OneLevelAt(g, p, x, y)
  }

  predicate OneLevelAt(g: Graph, p: ProjectId, x: NodeId, y: NodeId)
    requires y in g.nodes
  {
    && (g.nodes[y].mergedInto.Some? ==> !DirectSource(g, p, x, g.nodes[y].mergedInto.value))
    && (g.nodes[y].parent.Some? ==> g.nodes[y].mergedInto == Some(x) || !DirectSource(g, p, x, g.nodes[y].parent.value))
    && (g.nodes[y].state == Merged && g.nodes[y].parent == Some(x) ==> g.nodes[y].mergedInto == Some(x))
  }

  /** The older delete leaves no dangling reference exactly when one level is enough. */
  lemma DeleteOneDanglesIff(g: Graph, p: ProjectId, x: NodeId, version: nat, actor: string)
    requires ShapesOk(g) && RefsLive(g) && Live(g, x) && DeleteOne(g, p, x, version, actor).Ok?
    ensures RefsLive(DeleteOne(g, p, x, version, actor).value) <==> OneLevelIsEnough(g, p, x)
  {
    var d := Removed(g, p, x);
    var h := DeletedOne(g, p, x, actor);
    assert forall y :: Live(h, y) <==> Live(g, y) && y !in d;
    assert forall y :: Live(h, y) ==> h.nodes[y] == g.nodes[y];
    if OneLevelIsEnough(g, p, x) {
      EnoughIsClean(g, p, x, h);
    } else {
      var y :| Live(g, y) && g.nodes[y].project == p && y != x && !OneLevelAt(g, p, x, y);
      NotEnoughDangles(g, p, x, y, h);
    }
  }

  lemma NotEnoughDangles(g: Graph, p: ProjectId, x: NodeId, y: NodeId, h: Graph)
    requires ShapesOk(g) && !DirectSource(g, p, x, x) && Live(g, y) && g.nodes[y].project == p && y != x && !OneLevelAt(g, p, x, y)
    requires forall z :: Live(h, z) <==> Live(g, z) && z !in Removed(g, p, x)
    requires forall z :: Live(h, z) ==> z in g.nodes && h.nodes[z] == g.nodes[z]
    ensures !RefsLive(h)
  {
    assert NodeShape(g.nodes[y]);
    assert y !in Removed(g, p, x);
    assert !(g.nodes[y].parent.Some? && RefLive(h, g.nodes[y].parent.value, p))
        || !(g.nodes[y].mergedInto.Some? && RefLive(h, g.nodes[y].mergedInto.value, p));
  }

  lemma EnoughIsClean(g: Graph, p: ProjectId, x: NodeId, h: Graph)
    requires ShapesOk(g) && RefsLive(g) && Live(g, x) && g.nodes[x].project == p && g.nodes[x].state != Merged
    requires !exists y :: y in g.nodes && StructuralChild(g, p, x, y)
    requires OneLevelIsEnough(g, p, x)
    requires forall y :: Live(h, y) <==> Live(g, y) && y !in Removed(g, p, x)
    requires forall y :: Live(h, y) ==> h.nodes[y] == g.nodes[y]
    requires forall k :: Open(h, k) ==> Open(g, k) && !Expires(k, p, Removed(g, p, x))
    ensures RefsLive(h)
  {
    forall y | Live(h, y)
      ensures h.nodes[y].parent.Some? ==> RefLive(h, h.nodes[y].parent.value, h.nodes[y].project)
      ensures h.nodes[y].mergedInto.Some? ==> RefLive(h, h.nodes[y].mergedInto.value, h.nodes[y].project)
    {
      assert Live(g, y) && NodeShape(g.nodes[y]) && !StructuralChild(g, p, x, y) && !DirectSource(g, p, x, y);
      assert g.nodes[y].project == p ==> OneLevelAt(g, p, x, y);
    }
    forall k | Open(h, k)
      ensures RefLive(h, k.source, k.project) && RefLive(h, k.target, k.project)
    {
      assert RefLive(g, k.source, k.project) && RefLive(g, k.target, k.project);
    }
  }

  // ----- when one level is enough, the invariant survives -----

  /** Then what is removed is all that refers to it. */
  lemma EnoughIsClosed(g: Graph, p: ProjectId, x: NodeId)
    requires ShapesOk(g) && ParentsOk(g) && PointersOk(g) && Live(g, x) && g.nodes[x].project == p && g.nodes[x].state != Merged
    requires !exists y :: y in g.nodes && StructuralChild(g, p, x, y)
    requires OneLevelIsEnough(g, p, x)
    ensures Closed(g, p, Removed(g, p, x))
  {
    var d := Removed(g, p, x);
    forall y | PointsInto(g, p, y, d)
      ensures y in d
    {
      assert NodeShape(g.nodes[y]) && ParentOk(g, y) && !StructuralChild(g, p, x, y);
      if y != x {
        assert OneLevelAt(g, p, x, y);
      }
    }
  }

  predicate SameButDead(n: Node, m: Node) {
    n == m || (&& n.state == Deleted && m.state == Deleted && m.project == n.project && m.kind == n.kind
               && m.revision == n.revision && m.mergedInto.None? && n.mergedInto.None? && NodeShape(m))
  }

  /** What a DELETED row still says about its parent and version is read by nobody. */
  lemma DeadRowsKeepInv(g: Graph, h: Graph)
    requires Inv(g) && h == g.(nodes := h.nodes) && h.nodes.Keys == g.nodes.Keys
    requires forall y :: y in g.nodes ==> SameButDead(g.nodes[y], h.nodes[y])
    ensures Inv(h)
  {
    assert SameForest(g, h);
    SameForestKeeps(g, h);
    SameForestKeepsUndo(g, h);
    hide UndoInv, Acyclic;
    forall y | y in h.nodes
      ensures NodeShape(h.nodes[y])
    {
      assert SameButDead(g.nodes[y], h.nodes[y]) && NodeShape(g.nodes[y]);
    }
    forall y | Live(h, y)
      ensures ParentOk(h, y)
    {
      assert SameButDead(g.nodes[y], h.nodes[y]) && ParentOk(g, y);
      if g.nodes[y].parent.Some? {
        assert SameButDead(g.nodes[g.nodes[y].parent.value], h.nodes[g.nodes[y].parent.value]);
      }
    }
    DeadRowsKeepRelations(g, h);
  }

  lemma DeadRowsKeepRelations(g: Graph, h: Graph)
    requires RelationsOk(g) && OneParentRelation(g) && RunsOk(g) && h == g.(nodes := h.nodes) && h.nodes.Keys == g.nodes.Keys
    requires forall y :: y in g.nodes ==> SameButDead(g.nodes[y], h.nodes[y])
    ensures RelationsOk(h) && OneParentRelation(h) && RunsOk(h)
  {
    forall k | Open(h, k)
      ensures Live(h, k.source) && Live(h, k.target) && h.nodes[k.source] == g.nodes[k.source] && h.nodes[k.target] == g.nodes[k.target]
    {
      assert Open(g, k);
      assert SameButDead(g.nodes[k.source], h.nodes[k.source]) && SameButDead(g.nodes[k.target], h.nodes[k.target]);
    }
  }

  lemma DeleteOneKeepsInv(g: Graph, p: ProjectId, x: NodeId, version: nat, actor: string)
    requires Inv(g) && DeleteOne(g, p, x, version, actor).Ok?
    requires Live(g, x) ==> OneLevelIsEnough(g, p, x)
    ensures Inv(DeleteOne(g, p, x, version, actor).value)
  {
    if Live(g, x) {
      var d := Removed(g, p, x);
      EnoughIsClosed(g, p, x);
      RemovedRows(g, p, x, actor);
      hide Inv, DeletedGraph, DeletedOne;
      ClosedDeleteKeepsInv(g, p, d, actor);
      DeadRowsKeepInv(DeletedGraph(g, p, d, actor), DeletedOne(g, p, x, actor));
    }
  }

  lemma RemovedRows(g: Graph, p: ProjectId, x: NodeId, actor: string)
    requires ShapesOk(g)
    ensures var m := DeletedGraph(g, p, Removed(g, p, x), actor); var h := DeletedOne(g, p, x, actor);
            && h == m.(nodes := h.nodes) && h.nodes.Keys == m.nodes.Keys
            && forall y :: y in m.nodes ==> SameButDead(m.nodes[y], h.nodes[y])
  {
    var m, h := DeletedGraph(g, p, Removed(g, p, x), actor), DeletedOne(g, p, x, actor);
    forall y | y in m.nodes
      ensures SameButDead(m.nodes[y], h.nodes[y])
    {
      assert NodeShape(g.nodes[y]);
    }
  }

  /**
   What an accepted single delete does to a live node: the node and the sources
   merged directly into it die, the sources without their pointers, the node with
   its parent pointer left behind; a version steps where there was a revision; the
   open relations that touch them close; nothing else changes.
   */
  lemma DeleteOneExactly(g: Graph, p: ProjectId, x: NodeId, version: nat, actor: string)
    requires Inv(g) && Live(g, x) && DeleteOne(g, p, x, version, actor).Ok?
    ensures var h := DeleteOne(g, p, x, version, actor).value;
            && h.nodes.Keys == g.nodes.Keys
            && (forall y :: y in g.nodes && y != x && !DirectSource(g, p, x, y) ==> h.nodes[y] == g.nodes[y])
            && (forall y :: y in g.nodes && (y == x || DirectSource(g, p, x, y)) ==>
                  && DiedAs(g.nodes[y], h.nodes[y], actor)
                  && h.nodes[y].parent == (if y == x then g.nodes[x].parent else None)
                  && h.nodes[y].version == g.nodes[y].version + (if g.nodes[y].revision.Some? then 1 else 0))
            && (forall k :: Open(h, k) <==> Open(g, k) && k.source !in Removed(g, p, x) && k.target !in Removed(g, p, x))
            && h.ops == g.ops && h.deps == g.deps && h.published == g.published
  {
    DeletedOneRelations(g, p, x, actor);
    hide Inv, Removed, Open, Expires, StructuralChild, DirectSource, DiedAs, DeletedOne;
    DeletedOneRows(g, p, x, actor);
  }

  lemma DeletedOneRows(g: Graph, p: ProjectId, x: NodeId, actor: string)
    requires Live(g, x) && g.nodes[x].project == p
    ensures var h := DeletedOne(g, p, x, actor);
            && h.nodes.Keys == g.nodes.Keys && h.ops == g.ops && h.deps == g.deps && h.published == g.published
            && (forall y :: y in g.nodes && y != x && !DirectSource(g, p, x, y) ==> h.nodes[y] == g.nodes[y])
            && (forall y :: y in g.nodes && (y == x || DirectSource(g, p, x, y)) ==>
                  && DiedAs(g.nodes[y], h.nodes[y], actor)
                  && h.nodes[y].parent == (if y == x then g.nodes[x].parent else None)
                  && h.nodes[y].version == g.nodes[y].version + (if g.nodes[y].revision.Some? then 1 else 0))
  {
  }

  lemma DeletedOneRelations(g: Graph, p: ProjectId, x: NodeId, actor: string)
    requires RelationsOk(g) && Live(g, x) && g.nodes[x].project == p
    ensures forall k :: Open(DeletedOne(g, p, x, actor), k) <==> Open(g, k) && k.source !in Removed(g, p, x) && k.target !in Removed(g, p, x)
  {
    var d := Removed(g, p, x);
    assert forall y :: y in d ==> y in g.nodes && g.nodes[y].project == p;
    hide Removed;
    forall k
      ensures Open(DeletedOne(g, p, x, actor), k) <==> Open(g, k) && k.source !in d && k.target !in d
    {
      assert Open(g, k) ==> g.nodes[k.source].project == k.project == g.nodes[k.target].project;
    }
  }

  /** A single delete is refused exactly for an unknown, foreign, stale, merged or parent node; a deleted one is left as it is. */
  lemma DeleteOneAcceptedIff(g: Graph, p: ProjectId, x: NodeId, version: nat, actor: string)
    ensures DeleteOne(g, p, x, version, actor).Ok? <==>
            && x in g.nodes && g.nodes[x].project == p
            && (Live(g, x) ==>
                  && g.nodes[x].version == version && g.nodes[x].state != Merged
                  && !exists y :: Live(g, y) && g.nodes[y].project == p && Canonical(g.nodes[y]) && g.nodes[y].parent == Some(x))
    ensures x in g.nodes && !Live(g, x) && g.nodes[x].project == p ==> DeleteOne(g, p, x, version, actor) == Ok(g)
  {
    if y :| Live(g, y) && g.nodes[y].project == p && Canonical(g.nodes[y]) && g.nodes[y].parent == Some(x) {
      assert StructuralChild(g, p, x, y);
    }
  }
}

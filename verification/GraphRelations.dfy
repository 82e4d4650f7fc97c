/** User edits of relations, and the structural-ancestor walk that guards a new parent. */
module GraphRelations {
  import opened Options
  import opened GraphModel
  import opened GraphResolve
  import opened GraphMerge

  // ----- edits that leave the merge forest alone -----

  predicate SameForestAt(n: Node, m: Node) {
    && n.mergedInto == m.mergedInto && n.project == m.project && n.kind == m.kind
    && (n.state == Deleted <==> m.state == Deleted)
    && (n.state == Merged <==> m.state == Merged)
    && (n.state == Merged ==> n.parent == m.parent)
  }

  /** `h` adds unmerged live nodes to `g` and changes no merge pointer, project, kind or liveness. */
  ghost predicate SameForest(g: Graph, h: Graph) {
    && h.ops == g.ops && h.deps == g.deps
    && g.nodes.Keys <= h.nodes.Keys
    && (forall x :: x in g.nodes ==> SameForestAt(g.nodes[x], h.nodes[x]))
    && (forall x :: x in h.nodes && x !in g.nodes ==> Canonical(h.nodes[x]) && h.nodes[x].mergedInto.None?)
  }

  lemma SameForestChains(g: Graph, h: Graph, x: NodeId)
    requires Acyclic(g) && SameForest(g, h) && Live(h, x)
    ensures HasChain(h, x)
    ensures Live(g, x) ==> HasChain(g, x) && Chain(h, x) == Chain(g, x) && Root(h, x) == Root(g, x)
  {
    if x in g.nodes {
      assert SameForestAt(g.nodes[x], h.nodes[x]);
      assert KeepsPointers(g, h) by {
        forall y | Live(g, y)
          ensures Live(h, y) && h.nodes[y].mergedInto == g.nodes[y].mergedInto
        {
          assert SameForestAt(g.nodes[y], h.nodes[y]);
        }
      }
      KeepsChains(g, h, x);
    } else {
      assert IsChain(h, [x]) && [x][0] == x;
    }
  }

  lemma SameForestKeeps(g: Graph, h: Graph)
    requires PointersOk(g) && Acyclic(g) && SameForest(g, h)
    ensures PointersOk(h) && Acyclic(h)
  {
    forall x | Live(h, x)
      ensures HasChain(h, x) && PointerOk(h, x)
    {
      SameForestChains(g, h, x);
      if x in g.nodes {
        assert SameForestAt(g.nodes[x], h.nodes[x]);
        assert PointerOk(g, x);
        if g.nodes[x].mergedInto.Some? {
          assert SameForestAt(g.nodes[g.nodes[x].mergedInto.value], h.nodes[g.nodes[x].mergedInto.value]);
        }
      }
    }
  }

  lemma SameForestKeepsUndo(g: Graph, h: Graph)
    requires ShapesOk(g) && UndoInv(g) && SameForest(g, h)
    ensures UndoInv(h)
  {
  }

  // ----- the ancestor walk -----

  datatype Ancestry = Ancestry(steps: nat, outcome: Result<NodeId>)

  /** Climb from `a` through canonical parents, refusing a repeat, `child` itself, or another category. */
  function Climb(g: Graph, p: ProjectId, child: NodeId, category: Category, a: NodeId, visited: set<NodeId>): Ancestry
    requires a in g.nodes
    decreases g.nodes.Keys - visited
  {
    if g.nodes[a].parent.None? then Ancestry(0, Ok(a))
    else if a in visited then Ancestry(0, Err(ParentCycle))
    else
      var r := Resolve(g, p, g.nodes[a].parent.value, None);
      if r.Err? then Ancestry(1, r)
      else if r.value !in g.nodes then Ancestry(1, Err(NotFound))
      else if r.value == child || g.nodes[r.value].category != category then Ancestry(1, Err(ParentBoundary))
      else
        var rest := Climb(g, p, child, category, r.value, visited + {a});
        Ancestry(rest.steps + 1, rest.outcome)
  }

  /**
   A live node's parent, read through canonical resolution, has strictly lower
   rank.  So the climb takes at most Rank steps (two, from an Action parent), the
   cycle exit is unreachable, and it can refuse only a category boundary or a
   merge chain past the hop limit.
   */
  lemma {:induction false} ClimbIsShort(g: Graph, p: ProjectId, child: NodeId, category: Category, a: NodeId, visited: set<NodeId>)
    requires ForestInv(g) && ParentsOk(g) && Live(g, a) && g.nodes[a].project == p
    requires forall v :: v in visited ==> v in g.nodes && Rank(g.nodes[v].kind) > Rank(g.nodes[a].kind)
    ensures var c := Climb(g, p, child, category, a, visited);
            && c.steps <= Rank(g.nodes[a].kind)
            && (c.outcome.Err? ==> c.outcome.error in {ParentBoundary, HopLimit})
    decreases Rank(g.nodes[a].kind)
  {
    assert ParentOk(g, a);
    if g.nodes[a].parent.Some? {
      CanonicalParentRank(g, a);
      var x := g.nodes[a].parent.value;
      ResolveExactly(g, p, x, None);
      if Resolve(g, p, x, None).Ok? {
        ClimbIsShort(g, p, child, category, Root(g, x), visited + {a});
      }
    }
  }

  lemma CanonicalParentRank(g: Graph, a: NodeId)
    requires ForestInv(g) && ParentsOk(g) && Live(g, a) && g.nodes[a].parent.Some?
    ensures var x := g.nodes[a].parent.value;
            && Live(g, x) && HasChain(g, x) && Live(g, Root(g, x))
            && Rank(g.nodes[Root(g, x)].kind) < Rank(g.nodes[a].kind)
            && g.nodes[Root(g, x)].project == g.nodes[a].project == g.nodes[x].project
  {
    assert ParentOk(g, a);
    RootFacts(g, g.nodes[a].parent.value);
  }

  // ----- relation edits -----

  function NormalKey(k: RelationKey): RelationKey {
    if k.kind == RelatedTo && k.target < k.source then k.(source := k.target, target := k.source) else k
  }

  function CloseAttachments(rs: map<RelationKey, bool>, p: ProjectId, child: NodeId): map<RelationKey, bool> {
    map k | k in rs :: rs[k] && !(k.project == p && k.source == child && k.kind == AttachedTo)
  }

  function AttachedChild(n: Node, parent: NodeId): Node {
    n.(parent := Some(parent), state := Active, needsAttention := false, version := n.version + 1)
  }

  function ApplyRelation(g: Graph, p: ProjectId, x: NodeId, y: NodeId, kind: RelationType): Result<Graph>
    requires x in g.nodes && y in g.nodes
  {
    var key := NormalKey(RelationKey(p, x, y, kind));
    if x == y then Err(SelfReference)
    else if g.nodes[x].state == Merged || g.nodes[x].state == Deleted then Err(NotAvailable)
    else
      var t := Resolve(g, p, y, None);
      if t.Err? then Err(t.error)
      else if t.value !in g.nodes then Err(NotFound)
      else if kind == AttachedTo then
        if g.nodes[t.value].state != Active || !AllowedParent(g.nodes[x].kind, g.nodes[t.value].kind)
           || g.nodes[t.value].category != g.nodes[x].category || t.value == x then Err(InvalidParent)
        else
          var c := Climb(g, p, x, g.nodes[x].category, t.value, {});
          if c.outcome.Err? then Err(c.outcome.error)
          else Ok(g.(nodes := g.nodes[x := AttachedChild(g.nodes[x], t.value)],
                     relations := CloseAttachments(g.relations, p, x)[key := true]))
      else Ok(g.(relations := g.relations[key := true]))
  }

  function CreateRelation(g: Graph, p: ProjectId, x: NodeId, y: NodeId, kind: RelationType, xVersion: nat, yVersion: nat): Result<Graph> {
    if !Live(g, x) || !Live(g, y) || g.nodes[x].project != p || g.nodes[y].project != p || x == y then Err(NotFound)
    else if g.nodes[x].version != xVersion || g.nodes[y].version != yVersion then Err(VersionConflict)
    else ApplyRelation(g, p, x, y, kind)
  }

  function ReplaceRelation(g: Graph, p: ProjectId, k: RelationKey, y: NodeId, kind: RelationType, xVersion: nat, yVersion: nat): Result<Graph> {
    if k !in g.relations || k.project != p then Err(NotFound)
    else if !Live(g, k.source) || !Live(g, y) || g.nodes[k.source].project != p || g.nodes[y].project != p then Err(NotFound)
    else if g.nodes[k.source].version != xVersion || g.nodes[y].version != yVersion then Err(VersionConflict)
    else ApplyRelation(g.(relations := g.relations[k := false]), p, k.source, y, kind)
  }

  /** Removing an attachment also detaches the child, unless the row constraint on merged nodes refuses the commit. */
  function DeleteRelation(g: Graph, p: ProjectId, k: RelationKey): Result<Graph> {
    if k !in g.relations || k.project != p then Err(NotFound)
    else if !g.relations[k] then Ok(g)
    else
      var closed := g.(relations := g.relations[k := false]);
      if k.kind != AttachedTo then Ok(closed)
      else
        var child := GetProjectNode(g, p, k.source);
        if child.Err? then Err(child.error)
        else if g.nodes[k.source].parent.None? then Ok(closed)
        else if g.nodes[k.source].mergedInto.Some? then Err(ConstraintViolation)
        else Ok(closed.(nodes := g.nodes[k.source := g.nodes[k.source].(parent := None, state := Unattached,
                                          needsAttention := true, version := g.nodes[k.source].version + 1)]))
  }

  /** The new parent of an accepted attachment is legal, live, of the child's category and not the child. */
  lemma AttachFacts(g: Graph, p: ProjectId, x: NodeId, y: NodeId)
    requires ForestInv(g) && ParentsOk(g) && x in g.nodes && y in g.nodes && g.nodes[x].project == p
    requires ApplyRelation(g, p, x, y, AttachedTo).Ok?
    ensures Live(g, y) && HasChain(g, y) && Canonical(g.nodes[x])
    ensures var t := Root(g, y);
            var h := ApplyRelation(g, p, x, y, AttachedTo).value;
            && h == g.(nodes := g.nodes[x := AttachedChild(g.nodes[x], t)],
                       relations := CloseAttachments(g.relations, p, x)[RelationKey(p, x, y, AttachedTo) := true])
            && t != x && Live(g, t) && g.nodes[t].state == Active && g.nodes[t].project == p
            && g.nodes[t].category == g.nodes[x].category && Rank(g.nodes[t].kind) < Rank(g.nodes[x].kind)
  {
    ResolveOk(g, p, y, None);
  }

  /** An attachment is accepted exactly on these inputs. */
  lemma AttachAcceptedIff(g: Graph, p: ProjectId, x: NodeId, y: NodeId)
    requires ForestInv(g) && ParentsOk(g) && Live(g, x) && Live(g, y)
    requires g.nodes[x].project == p && g.nodes[y].project == p
    ensures HasChain(g, y)
    ensures ApplyRelation(g, p, x, y, AttachedTo).Ok? <==>
            && x != y && g.nodes[x].state != Merged && Depth(g, y) <= 127
            && Root(g, y) in g.nodes && g.nodes[Root(g, y)].state == Active
            && AllowedParent(g.nodes[x].kind, g.nodes[Root(g, y)].kind)
            && g.nodes[Root(g, y)].category == g.nodes[x].category
            && GrandparentFits(g, Root(g, y), g.nodes[x].category)
    ensures ApplyRelation(g, p, x, y, AttachedTo).Err? ==> ApplyRelation(g, p, x, y, AttachedTo).error != ParentCycle
  {
    ResolveExactly(g, p, y, None);
    RootFacts(g, y);
    ClimbIsShort(g, p, x, g.nodes[x].category, Root(g, y), {});
    if AllowedParent(g.nodes[x].kind, g.nodes[Root(g, y)].kind) {
      ClimbSucceedsIff(g, p, x, g.nodes[x].category, Root(g, y));
    }
  }

  /** The parent of the new parent, if any, is within the hop limit and of the same category. */
  ghost predicate GrandparentFits(g: Graph, r: NodeId, category: Category) {
    r in g.nodes &&
    (g.nodes[r].parent.Some? ==>
       var q := g.nodes[r].parent.value;
       HasChain(g, q) && Depth(g, q) <= 127 && Root(g, q) in g.nodes && g.nodes[Root(g, q)].category == category)
  }

  /** Above a legal parent there is at most one more node, so the climb reads one merge chain at most. */
  lemma ClimbSucceedsIff(g: Graph, p: ProjectId, x: NodeId, category: Category, r: NodeId)
    requires ForestInv(g) && ParentsOk(g) && Live(g, x) && Live(g, r) && g.nodes[r].project == p
    requires AllowedParent(g.nodes[x].kind, g.nodes[r].kind)
    ensures Climb(g, p, x, category, r, {}).outcome.Ok? <==> GrandparentFits(g, r, category)
  {
    if g.nodes[r].parent.Some? {
      var q := g.nodes[r].parent.value;
      CanonicalParentRank(g, r);
      ResolveExactly(g, p, q, None);
      assert NodeShape(g.nodes[Root(g, q)]) && g.nodes[Root(g, q)].parent.None?;
    }
  }

  lemma AttachKeepsNodes(g: Graph, h: Graph, x: NodeId, t: NodeId)
    requires Inv(g) && Live(g, x) && Canonical(g.nodes[x]) && Live(g, t) && t != x
    requires g.nodes[t].project == g.nodes[x].project && Rank(g.nodes[t].kind) < Rank(g.nodes[x].kind)
    requires h.nodes == g.nodes[x := AttachedChild(g.nodes[x], t)] && h.ops == g.ops && h.deps == g.deps && h.published == g.published
    ensures ForestInv(h) && ParentsOk(h) && UndoInv(h) && RunsOk(h)
  {
    hide UndoInv, Acyclic;
    assert NodeShape(g.nodes[x]);
    assert SameForest(g, h);
    SameForestKeeps(g, h);
    SameForestKeepsUndo(g, h);
    forall z | z in h.nodes
      ensures NodeShape(h.nodes[z])
    {
      assert NodeShape(g.nodes[z]);
    }
    forall z | Live(h, z)
      ensures ParentOk(h, z)
    {
      assert ParentOk(g, z);
    }
  }

  lemma AttachKeepsRelations(g: Graph, p: ProjectId, x: NodeId, y: NodeId, n: Node)
    requires RelationsOk(g) && OneParentRelation(g) && Live(g, x) && Live(g, y) && x != y
    requires g.nodes[x].project == p && g.nodes[y].project == p && n.state != Deleted && n.project == p
    ensures var key := RelationKey(p, x, y, AttachedTo);
            var h := g.(nodes := g.nodes[x := n], relations := CloseAttachments(g.relations, p, x)[key := true]);
            RelationsOk(h) && OneParentRelation(h)
            && forall k :: Open(h, k) && k.kind == AttachedTo && k.source == x ==> k == key
  {
  }

  lemma PlainRelationKeepsInv(g: Graph, k: RelationKey, open: bool)
    requires Inv(g) && (open ==> k.kind != AttachedTo && Live(g, k.source) && Live(g, k.target) && k.source != k.target
                                 && g.nodes[k.source].project == k.project && g.nodes[k.target].project == k.project)
    ensures Inv(g.(relations := g.relations[k := open]))
  {
    var h := g.(relations := g.relations[k := open]);
    assert SameForest(g, h);
    SameForestKeeps(g, h);
    SameForestKeepsUndo(g, h);
    assert forall l :: Open(h, l) && l != k ==> Open(g, l);
    forall x | Live(h, x)
      ensures ParentOk(h, x)
    {
      assert ParentOk(g, x);
    }
  }

  lemma ApplyRelationKeepsInv(g: Graph, p: ProjectId, x: NodeId, y: NodeId, kind: RelationType)
    requires Inv(g) && Live(g, x) && Live(g, y) && g.nodes[x].project == p && g.nodes[y].project == p
    requires ApplyRelation(g, p, x, y, kind).Ok?
    ensures Inv(ApplyRelation(g, p, x, y, kind).value)
  {
    if kind == AttachedTo {
      AttachFacts(g, p, x, y);
      var t := Root(g, y);
      AttachKeepsNodes(g, ApplyRelation(g, p, x, y, kind).value, x, t);
      AttachKeepsRelations(g, p, x, y, AttachedChild(g.nodes[x], t));
    } else {
      PlainRelationKeepsInv(g, NormalKey(RelationKey(p, x, y, kind)), true);
    }
  }

  lemma CreateRelationKeepsInv(g: Graph, p: ProjectId, x: NodeId, y: NodeId, kind: RelationType, xVersion: nat, yVersion: nat)
    requires Inv(g) && CreateRelation(g, p, x, y, kind, xVersion, yVersion).Ok?
    ensures Inv(CreateRelation(g, p, x, y, kind, xVersion, yVersion).value)
  {
    ApplyRelationKeepsInv(g, p, x, y, kind);
  }

  lemma ReplaceRelationKeepsInv(g: Graph, p: ProjectId, k: RelationKey, y: NodeId, kind: RelationType, xVersion: nat, yVersion: nat)
    requires Inv(g) && ReplaceRelation(g, p, k, y, kind, xVersion, yVersion).Ok?
    ensures Inv(ReplaceRelation(g, p, k, y, kind, xVersion, yVersion).value)
  {
    PlainRelationKeepsInv(g, k, false);
    ApplyRelationKeepsInv(g.(relations := g.relations[k := false]), p, k.source, y, kind);
  }

  /**
   Removing an open attachment fails exactly when the child has been merged away
   while keeping its parent: the detach would leave a merge pointer on an
   unmerged row.
   */
  lemma DeleteRelationRefusedIff(g: Graph, p: ProjectId, k: RelationKey)
    requires Inv(g) && Open(g, k) && k.project == p
    ensures DeleteRelation(g, p, k).Err? <==>
            k.kind == AttachedTo && g.nodes[k.source].state == Merged && g.nodes[k.source].parent.Some?
    ensures DeleteRelation(g, p, k).Err? ==> DeleteRelation(g, p, k).error == ConstraintViolation
  {
  }

  lemma DeleteRelationKeepsInv(g: Graph, p: ProjectId, k: RelationKey)
    requires Inv(g) && DeleteRelation(g, p, k).Ok?
    ensures Inv(DeleteRelation(g, p, k).value)
  {
    if Open(g, k) {
      var c := g.(relations := g.relations[k := false]);
      PlainRelationKeepsInv(g, k, false);
      var h := DeleteRelation(g, p, k).value;
      if h != c {
        assert NodeShape(g.nodes[k.source]);
        assert SameForest(c, h);
        SameForestKeeps(c, h);
        SameForestKeepsUndo(c, h);
        DetachKeepsRest(c, h, k.source);
      }
    }
  }

  lemma DetachKeepsRest(g: Graph, h: Graph, x: NodeId)
    requires Inv(g) && Live(g, x) && x in h.nodes && g.nodes[x].mergedInto.None?
    requires h == g.(nodes := g.nodes[x := h.nodes[x]])
    requires h.nodes[x] == g.nodes[x].(parent := None, state := Unattached, needsAttention := true, version := h.nodes[x].version)
    ensures ShapesOk(h) && ParentsOk(h) && RelationsOk(h) && OneParentRelation(h) && RunsOk(h)
  {
    forall z | z in h.nodes
      ensures NodeShape(h.nodes[z])
    {
      assert NodeShape(g.nodes[z]);
    }
    forall z | Live(h, z)
      ensures ParentOk(h, z)
    {
      assert ParentOk(g, z);
    }
    assert forall k :: Open(h, k) ==> Open(g, k);
  }

  // ----- what an accepted edit writes -----

  /** The row of a relation between x and y: RELATED_TO is stored from the smaller id, every other type as given. */
  predicate IsKeyOf(k: RelationKey, p: ProjectId, x: NodeId, y: NodeId, kind: RelationType) {
    && k.project == p && k.kind == kind
    && (if kind == RelatedTo then (k.source == x && k.target == y && x <= y) || (k.source == y && k.target == x && y <= x)
        else k.source == x && k.target == y)
  }

  /** Only relations changed. */
  predicate OnlyRelations(g: Graph, h: Graph) {
    h.nodes == g.nodes && h.ops == g.ops && h.deps == g.deps && h.published == g.published
  }

  /** A relation other than ATTACHED_TO is accepted exactly between a live unmerged source and a target within reach. */
  lemma PlainAcceptedIff(g: Graph, p: ProjectId, x: NodeId, y: NodeId, kind: RelationType)
    requires ForestInv(g) && Live(g, x) && Live(g, y) && g.nodes[x].project == p && g.nodes[y].project == p && kind != AttachedTo
    ensures HasChain(g, y)
    ensures ApplyRelation(g, p, x, y, kind).Ok? <==> x != y && g.nodes[x].state != Merged && Depth(g, y) <= 127
  {
    ResolveExactly(g, p, y, None);
    RootFacts(g, y);
  }

  /** It opens exactly its own row, from the smaller id if it is RELATED_TO, and changes nothing else. */
  lemma PlainExactly(g: Graph, p: ProjectId, x: NodeId, y: NodeId, kind: RelationType)
    requires x in g.nodes && y in g.nodes && kind != AttachedTo && ApplyRelation(g, p, x, y, kind).Ok?
    ensures var h := ApplyRelation(g, p, x, y, kind).value;
            && OnlyRelations(g, h)
            && forall k :: Open(h, k) <==> Open(g, k) || IsKeyOf(k, p, x, y, kind)
  {
    hide Resolve;
  }

  /**
   An accepted attachment puts the child ACTIVE under the root of the target, with
   its flag cleared and one version more, opens the row to the target it was asked
   for and closes every other attachment of the child.
   */
  lemma AttachExactly(g: Graph, p: ProjectId, x: NodeId, y: NodeId)
    requires Inv(g) && x in g.nodes && y in g.nodes && g.nodes[x].project == p && ApplyRelation(g, p, x, y, AttachedTo).Ok?
    ensures HasChain(g, y)
    ensures var h := ApplyRelation(g, p, x, y, AttachedTo).value;
            && OnlyRow(g, h.(relations := g.relations), x) && h.ops == g.ops && h.deps == g.deps
            && AttachedUnder(g.nodes[x], h.nodes[x], Root(g, y))
            && forall k :: Open(h, k) <==> k == RelationKey(p, x, y, AttachedTo) || (Open(g, k) && !(k.kind == AttachedTo && k.source == x))
  {
    AttachFacts(g, p, x, y);
    assert forall k :: Open(g, k) && k.source == x ==> k.project == p;
    hide Inv, ApplyRelation;
  }

  predicate AttachedUnder(n: Node, m: Node, parent: NodeId) {
    && m.parent == Some(parent) && m.state == Active && !m.needsAttention && m.version == n.version + 1
    && m == n.(parent := m.parent, state := m.state, needsAttention := m.needsAttention, version := m.version)
  }

  /** Creating a relation is exactly that edit, behind a check of both nodes and both versions. */
  lemma CreateExactly(g: Graph, p: ProjectId, x: NodeId, y: NodeId, kind: RelationType, xVersion: nat, yVersion: nat)
    ensures CreateRelation(g, p, x, y, kind, xVersion, yVersion).Ok? <==>
            && Live(g, x) && Live(g, y) && g.nodes[x].project == p && g.nodes[y].project == p && x != y
            && g.nodes[x].version == xVersion && g.nodes[y].version == yVersion && ApplyRelation(g, p, x, y, kind).Ok?
    ensures CreateRelation(g, p, x, y, kind, xVersion, yVersion).Ok? ==>
              CreateRelation(g, p, x, y, kind, xVersion, yVersion) == ApplyRelation(g, p, x, y, kind)
  {
    hide ApplyRelation;
  }

  /** Replacing relation k closes it and opens the new row of its source; no other plain relation is touched. */
  lemma ReplaceExactly(g: Graph, p: ProjectId, k: RelationKey, y: NodeId, kind: RelationType, xVersion: nat, yVersion: nat)
    requires Inv(g) && ReplaceRelation(g, p, k, y, kind, xVersion, yVersion).Ok?
    ensures k in g.relations && k.project == p && Live(g, k.source) && Live(g, y) && HasChain(g, y)
    ensures g.nodes[k.source].version == xVersion && g.nodes[y].version == yVersion
    ensures var h := ReplaceRelation(g, p, k, y, kind, xVersion, yVersion).value;
            && h.ops == g.ops && h.deps == g.deps && h.published == g.published
            && if kind != AttachedTo then
                 && h.nodes == g.nodes
                 && forall l :: Open(h, l) <==> IsKeyOf(l, p, k.source, y, kind) || (Open(g, l) && l != k)
               else
                 && OnlyRow(g, h.(relations := g.relations), k.source)
                 && AttachedUnder(g.nodes[k.source], h.nodes[k.source], Root(g, y))
                 && forall l :: Open(h, l) <==>
                      l == RelationKey(p, k.source, y, AttachedTo) || (Open(g, l) && l != k && !(l.kind == AttachedTo && l.source == k.source))
  {
    var c := g.(relations := g.relations[k := false]);
    PlainRelationKeepsInv(g, k, false);
    RootFacts(g, y);
    KeepsChains(g, c, y);
    assert forall l :: Open(c, l) <==> Open(g, l) && l != k;
    if kind != AttachedTo {
      PlainExactly(c, p, k.source, y, kind);
    } else {
      AttachExactly(c, p, k.source, y);
    }
    hide Inv, ApplyRelation;
  }

  /** An accepted removal closes exactly the given row; closing an attachment also leaves the child UNATTACHED and flagged, if it had a parent. */
  lemma DetachExactly(g: Graph, p: ProjectId, k: RelationKey)
    requires Inv(g) && DeleteRelation(g, p, k).Ok?
    ensures k in g.relations && k.project == p
    ensures var h := DeleteRelation(g, p, k).value;
            && (forall l :: Open(h, l) <==> Open(g, l) && l != k)
            && h.ops == g.ops && h.deps == g.deps && h.published == g.published
            && if Open(g, k) && k.kind == AttachedTo && g.nodes[k.source].parent.Some? then
                 && OnlyRow(g, h.(relations := g.relations), k.source)
                 && var n, m := g.nodes[k.source], h.nodes[k.source];
                 && m.parent.None? && m.state == Unattached && m.needsAttention && m.version == n.version + 1
                 && m == n.(parent := m.parent, state := m.state, needsAttention := m.needsAttention, version := m.version)
               else h.nodes == g.nodes
  {
    if Open(g, k) {
      assert Live(g, k.source);
    }
    hide Inv;
  }
}

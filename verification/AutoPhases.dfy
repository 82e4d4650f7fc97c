/** Inserting, activating, attaching and relating planned nodes: each keeps what `AutoApply` keeps. */
module AutoPhases {
  import opened Options
  import opened GraphModel
  import opened GraphRelations
  import opened AutoPlan
  import opened AutoApply

  // ----- phase 0: insert -----

  /** A fresh unmerged, parentless row that respects its shape keeps the graph invariant. */
  lemma InsertOneKeepsInv(g: Graph, x: NodeId, n: Node)
    requires Inv(g) && x !in g.nodes && NodeShape(n) && Canonical(n) && n.parent.None?
    requires n.revision.Some? && n.revision.value.run.Some? ==> n.revision.value.run.value in g.published
    ensures Inv(g.(nodes := g.nodes[x := n]))
  {
    var h := g.(nodes := g.nodes[x := n]);
    assert SameForest(g, h);
    SameForestKeeps(g, h);
    SameForestKeepsUndo(g, h);
    forall y | y in h.nodes
      ensures NodeShape(h.nodes[y])
    {
      assert y in g.nodes ==> NodeShape(g.nodes[y]);
    }
    forall y | Live(h, y)
      ensures ParentOk(h, y)
    {
      assert y in g.nodes ==> ParentOk(g, y);
    }
    assert forall k :: Open(h, k) ==> Open(g, k);
  }

  ghost predicate Inserted(plan: Plan, g: Graph, h: Graph, n: nat) {
    && n <= |plan.items|
    && h == g.(nodes := h.nodes) && g.nodes.Keys <= h.nodes.Keys
    && (forall x :: x in g.nodes ==> h.nodes[x] == g.nodes[x])
    && (forall x :: x in h.nodes && x !in g.nodes ==> Planned(plan, x))
    && (forall i :: 0 <= i < n ==>
          && plan.items[i].source.id !in g.nodes && plan.items[i].source.id in h.nodes
          && h.nodes[plan.items[i].source.id] == NewNode(plan, plan.items[i].source))
    && (forall i, j :: 0 <= i < j < n ==> plan.items[i].source.id != plan.items[j].source.id)
  }

  lemma {:induction false} InsertKeepsInv(plan: Plan, g: Graph, n: nat)
    requires n <= |plan.items| && Inv(g) && plan.run in g.published && InsertPhase(plan, g, n).Ok?
    ensures InsertPhase(plan, g, n).value.published == g.published
    ensures Inv(InsertPhase(plan, g, n).value)
  {
    if n > 0 {
      InsertKeepsInv(plan, g, n - 1);
      InsertOneKeepsInv(InsertPhase(plan, g, n - 1).value, plan.items[n - 1].source.id, NewNode(plan, plan.items[n - 1].source));
    }
  }

  lemma InsertNext(plan: Plan, g: Graph, h: Graph, m: nat)
    requires m < |plan.items| && Inserted(plan, g, h, m) && plan.items[m].source.id !in h.nodes
    ensures Inserted(plan, g, h.(nodes := h.nodes[plan.items[m].source.id := NewNode(plan, plan.items[m].source)]), m + 1)
  {
  }

  lemma {:induction false} InsertFacts(plan: Plan, g: Graph, n: nat)
    requires n <= |plan.items| && InsertPhase(plan, g, n).Ok?
    ensures Inserted(plan, g, InsertPhase(plan, g, n).value, n)
  {
    if n > 0 {
      var m := n - 1;
      InsertFacts(plan, g, m);
      InsertNext(plan, g, InsertPhase(plan, g, m).value, m);
    }
  }

  ghost predicate AllWaiting(plan: Plan, g: Graph) {
    forall i :: 0 <= i < |plan.items| ==> Waiting(plan, g, i)
  }

  /** After the inserts every planned node waits, and the stored graph is untouched. */
  lemma InsertGood(plan: Plan, g: Graph)
    requires Inv(g) && plan.run !in g.published && OpsFresh(plan, g) && Insert(plan, g).Ok?
    ensures var b := Insert(plan, g).value;
            && Good(b, plan, b) && ParentsStored(b, plan) && AllWaiting(plan, b)
            && Inserted(plan, g.(published := g.published + {plan.run}), b, |plan.items|)
  {
    var g1 := g.(published := g.published + {plan.run});
    PublishKeepsInv(g, plan.run);
    InsertKeepsInv(plan, g1, |plan.items|);
    InsertFacts(plan, g1, |plan.items|);
    var b := Insert(plan, g).value;
    InsertedApart(plan, g, g1, b);
    hide Inv;
    assert PlannedOk(plan, b) && AllWaiting(plan, b) by {
      forall i | 0 <= i < |plan.items|
        ensures PlannedNode(plan, b, i) && Waiting(plan, b, i)
      {
        InsertedPlanned(plan, g, g1, b, i);
      }
    }
    hide PlannedOk, AllWaiting;
    assert EvidenceOk(b, plan, b) by {
      forall t | t in b.nodes
        ensures EvidenceAt(b, plan, b, t)
      {
        InsertedEvidence(plan, g, g1, b, t);
      }
    }
    hide EvidenceOk, StrayOk, ParentsStored;
  }

  /** Planned ids are new: no stored row refers to one. */
  lemma InsertedApart(plan: Plan, g: Graph, g1: Graph, b: Graph)
    requires Inv(g) && g1 == g.(published := g1.published) && Inserted(plan, g1, b, |plan.items|)
    ensures StrayOk(plan, b) && ParentsStored(b, plan)
  {
    forall k | Open(b, k)
      ensures !Planned(plan, k.source)
    {
      assert Open(g, k);
    }
    forall x | Live(b, x) && !Planned(plan, x) && b.nodes[x].parent.Some?
      ensures !Planned(plan, b.nodes[x].parent.value)
    {
      assert Live(g, x) && ParentOk(g, x);
    }
  }

  lemma InsertedPlanned(plan: Plan, g: Graph, g1: Graph, b: Graph, i: nat)
    requires i < |plan.items| && OpsFresh(plan, g) && g1 == g.(published := g1.published) && Inserted(plan, g1, b, |plan.items|)
    ensures PlannedNode(plan, b, i) && Waiting(plan, b, i)
  {
    assert OpFree(plan, g, i);
  }

  lemma InsertedEvidence(plan: Plan, g: Graph, g1: Graph, b: Graph, t: NodeId)
    requires g1 == g.(published := g1.published) && Inserted(plan, g1, b, |plan.items|) && t in b.nodes
    ensures EvidenceAt(b, plan, b, t)
  {
  }

  lemma PublishKeepsInv(g: Graph, run: RunId)
    requires Inv(g)
    ensures Inv(g.(published := g.published + {run}))
  {
    var h := g.(published := g.published + {run});
    assert SameForest(g, h);
    SameForestKeeps(g, h);
    SameForestKeepsUndo(g, h);
    forall x | Live(h, x)
      ensures ParentOk(h, x)
    {
      assert ParentOk(g, x);
    }
    assert forall k :: Open(h, k) ==> Open(g, k);
  }

  // ----- placing a node: activation and attachment -----

  /** `h` differs from `g` in that planned node i became ACTIVE, perhaps under a parent. */
  ghost predicate Places(plan: Plan, g: Graph, i: nat, h: Graph) {
    && i < |plan.items| && plan.items[i].source.id in g.nodes && plan.items[i].source.id in h.nodes
    && var s := plan.items[i].source.id;
    && (g.nodes[s].state == Unattached || g.nodes[s].state == Active)
    && h.nodes == g.nodes[s := g.nodes[s].(state := Active, parent := h.nodes[s].parent)]
    && h.ops == g.ops && h.deps == g.deps && h.published == g.published
  }

  lemma PlaceKeepsRest(b: Graph, plan: Plan, g: Graph, i: nat, h: Graph)
    requires DistinctIds(plan) && Frame(b, plan, g) && PlannedOk(plan, g) && EvidenceOk(b, plan, g) && Places(plan, g, i, h)
    requires PlannedNode(plan, h, i)
    ensures Frame(b, plan, h) && PlannedOk(plan, h) && EvidenceOk(b, plan, h) && OnlyMoves(plan, g, h, i)
  {
    hide PlannedNode, EvidenceAt;
    assert Planned(plan, plan.items[i].source.id);
    assert PlannedOk(plan, h) && OnlyMoves(plan, g, h, i) by {
      forall j | 0 <= j < |plan.items|
        ensures PlannedNode(plan, h, j)
        ensures j != i ==> plan.items[j].source.id != plan.items[i].source.id
      {
        assert PlannedNode(plan, g, j);
        PlaceKeepsPlanned(plan, g, i, h, j);
      }
    }
    hide PlannedOk, OnlyMoves, DistinctIds;
    forall t | t in b.nodes && t in h.nodes
      ensures EvidenceAt(b, plan, h, t)
    {
      assert EvidenceAt(b, plan, g, t);
      PlaceKeepsEvidence(b, plan, g, i, h, t);
    }
  }

  lemma PlaceKeepsEvidence(b: Graph, plan: Plan, g: Graph, i: nat, h: Graph, t: NodeId)
    requires Places(plan, g, i, h) && t in b.nodes && t in g.nodes && EvidenceAt(b, plan, g, t)
    ensures EvidenceAt(b, plan, h, t)
  {
    hide EvidenceAt;
    EvidenceElsewhere(b, plan, g, h, t);
  }

  lemma PlaceKeepsPlanned(plan: Plan, g: Graph, i: nat, h: Graph, j: nat)
    requires DistinctIds(plan) && Places(plan, g, i, h) && j < |plan.items| && PlannedNode(plan, g, j) && PlannedNode(plan, h, i)
    ensures PlannedNode(plan, h, j)
    ensures j != i ==> plan.items[j].source.id in g.nodes && plan.items[j].source.id in h.nodes
                       && h.nodes[plan.items[j].source.id] == g.nodes[plan.items[j].source.id]
  {
  }

  lemma PlaceKeepsForest(g: Graph, x: NodeId, h: Graph)
    requires Inv(g) && x in g.nodes && Canonical(g.nodes[x]) && x in h.nodes
    requires h.nodes == g.nodes[x := g.nodes[x].(state := Active, parent := h.nodes[x].parent)]
    requires h.ops == g.ops && h.deps == g.deps && h.published == g.published
    requires g.nodes[x].kind == Decision <==> h.nodes[x].parent.None?
    requires h.nodes[x].parent.Some? ==>
               var q := h.nodes[x].parent.value;
               Live(g, q) && q != x && g.nodes[q].project == g.nodes[x].project && Rank(g.nodes[q].kind) < Rank(g.nodes[x].kind)
    ensures ForestInv(h) && ParentsOk(h) && UndoInv(h) && RunsOk(h)
  {
    hide UndoInv, Acyclic;
    assert SameForest(g, h);
    SameForestKeeps(g, h);
    SameForestKeepsUndo(g, h);
    forall y | y in h.nodes
      ensures NodeShape(h.nodes[y])
    {
      assert NodeShape(g.nodes[y]);
    }
    forall y | Live(h, y)
      ensures ParentOk(h, y)
    {
      assert ParentOk(g, y);
    }
  }

  lemma ActivateKeepsGood(b: Graph, plan: Plan, g: Graph, i: nat)
    requires Good(b, plan, g) && i < |plan.items| && plan.items[i].source.kind == Decision
    requires plan.items[i].source.id in g.nodes && Canonical(g.nodes[plan.items[i].source.id])
    ensures var s := plan.items[i].source.id;
            var h := g.(nodes := g.nodes[s := g.nodes[s].(state := Active)]);
            Good(b, plan, h) && OnlyMoves(plan, g, h, i)
  {
    var s := plan.items[i].source.id;
    var h := g.(nodes := g.nodes[s := g.nodes[s].(state := Active)]);
    PlannedAt(b, plan, g, i);
    PlaceKeepsForest(g, s, h);
    assert Places(plan, g, i, h);
    PlaceKeepsRest(b, plan, g, i, h);
    ActivateRelations(plan, g, i, h);
  }

  lemma ActivateRelations(plan: Plan, g: Graph, i: nat, h: Graph)
    requires RelationsOk(g) && OneParentRelation(g) && StrayOk(plan, g) && Places(plan, g, i, h) && h.relations == g.relations
    ensures RelationsOk(h) && OneParentRelation(h) && StrayOk(plan, h)
  {
  }

  lemma AttachPlannedKeepsGood(b: Graph, plan: Plan, g: Graph, i: nat, t: NodeId, r: NodeId)
    requires Good(b, plan, g) && Waiting(plan, g, i)
    requires var src := plan.items[i].source;
             && Live(g, r) && g.nodes[r].state == Active && g.nodes[r].category == src.category && g.nodes[r].project == plan.project
             && AllowedParent(src.kind, g.nodes[r].kind) && r != src.id
             && Live(g, t) && g.nodes[t].project == plan.project && t != src.id
    ensures var s := plan.items[i].source.id;
            var h := g.(nodes := g.nodes[s := g.nodes[s].(parent := Some(r), state := Active)],
                        relations := g.relations[RelationKey(plan.project, s, t, AttachedTo) := true]);
            Good(b, plan, h) && OnlyMoves(plan, g, h, i)
  {
    var s := plan.items[i].source.id;
    var key := RelationKey(plan.project, s, t, AttachedTo);
    var h := g.(nodes := g.nodes[s := g.nodes[s].(parent := Some(r), state := Active)], relations := g.relations[key := true]);
    assert PlannedNode(plan, g, i) && NodeShape(g.nodes[s]);
    assert Planned(plan, s);
    PlaceKeepsForest(g, s, h);
    assert Places(plan, g, i, h);
    PlaceKeepsRest(b, plan, g, i, h);
    AttachPlannedRelations(plan, g, i, t, h);
  }

  lemma AttachPlannedRelations(plan: Plan, g: Graph, i: nat, t: NodeId, h: Graph)
    requires RelationsOk(g) && OneParentRelation(g) && StrayOk(plan, g) && Waiting(plan, g, i) && Places(plan, g, i, h)
    requires Live(g, t) && g.nodes[t].project == plan.project && t != plan.items[i].source.id
    requires g.nodes[plan.items[i].source.id].project == plan.project
    requires h.relations == g.relations[RelationKey(plan.project, plan.items[i].source.id, t, AttachedTo) := true]
    ensures RelationsOk(h) && OneParentRelation(h) && StrayOk(plan, h)
  {
  }

  lemma RelateKeepsGood(b: Graph, plan: Plan, g: Graph, i: nat, t: NodeId, kind: RelationType)
    requires Good(b, plan, g) && i < |plan.items| && kind != AttachedTo
    requires Live(g, t) && g.nodes[t].project == plan.project && t != plan.items[i].source.id
    ensures var h := g.(relations := g.relations[NormalKey(RelationKey(plan.project, plan.items[i].source.id, t, kind)) := true]);
            Good(b, plan, h)
  {
    var key := NormalKey(RelationKey(plan.project, plan.items[i].source.id, t, kind));
    var h := g.(relations := g.relations[key := true]);
    assert PlannedNode(plan, g, i);
    PlainRelationKeepsInv(g, key, true);
    forall j | 0 <= j < |plan.items|
      ensures PlannedNode(plan, h, j)
    {
      assert PlannedNode(plan, g, j);
    }
    forall k | Open(h, k) && k.kind == AttachedTo
      ensures Open(g, k)
    {
    }
    forall x | x in b.nodes && x in h.nodes
      ensures EvidenceAt(b, plan, h, x)
    {
      assert EvidenceAt(b, plan, g, x);
      EvidenceElsewhere(b, plan, g, h, x);
    }
  }
}

/** What every step of the automatic plan application keeps, and what one planned merge does. */
module AutoApply {
  import opened Options
  import opened GraphModel
  import opened GraphResolve
  import opened GraphMerge
  import opened GraphRelations
  import opened Evidence
  import opened AutoPlan

  ghost predicate DistinctIds(plan: Plan) {
    forall i, j :: 0 <= i < j < |plan.items| ==> plan.items[i].source.id != plan.items[j].source.id
  }

  ghost predicate OpsFresh(plan: Plan, g: Graph) {
    forall i :: 0 <= i < |plan.items| ==> OpFree(plan, g, i)
  }

  predicate OpFree(plan: Plan, g: Graph, i: int) {
    0 <= i ==> plan.opBase + i !in g.ops
  }

  /** A stored node may only be revised: its place in the graph stays, and user text is never rewritten. */
  predicate Frozen(n: Node, m: Node) {
    && m == n.(version := m.version, revision := m.revision, lastActor := m.lastActor, title := m.title, content := m.content)
    && (n.lastActor == User ==> m.lastActor == User && m.title == n.title && m.content == n.content)
  }

  ghost predicate Frame(b: Graph, plan: Plan, g: Graph) {
    && g.nodes.Keys == b.nodes.Keys
    && (forall x :: x in b.nodes && !Planned(plan, x) ==> Frozen(b.nodes[x], g.nodes[x]))
  }

  predicate ActiveHome(g: Graph, q: NodeId, n: Node) {
    q in g.nodes && g.nodes[q].state == Active && g.nodes[q].category == n.category && g.nodes[q].project == n.project
  }

  /** Where planned item i stands: waiting, placed, or merged into an ACTIVE node of its kind and category. */
  predicate PlannedNode(plan: Plan, g: Graph, i: nat)
    requires i < |plan.items|
  {
    match plan.items[i].source
    case Source(id, kind, category, _, _, evidence, _, _, _) =>
      && id in g.nodes
      && var n := g.nodes[id];
      && n.project == plan.project && n.kind == kind && n.category == category && n.revision.Some?
      && match n.state
         case Unattached => n.parent.None? && CurrentEvidence(n) == evidence && OpFree(plan, g, i)
         case Active =>
           if kind == Decision then n.parent.None?
           else n.parent.Some? && ActiveHome(g, n.parent.value, n) && AllowedParent(kind, g.nodes[n.parent.value].kind)
         case Merged =>
           && n.parent.None? && CurrentEvidence(n) == evidence
           && n.mergedInto.Some? && ActiveHome(g, n.mergedInto.value, n) && g.nodes[n.mergedInto.value].kind == kind
         case Deleted => false
  }

  ghost predicate PlannedOk(plan: Plan, g: Graph) {
    forall i :: 0 <= i < |plan.items| ==> PlannedNode(plan, g, i)
  }

  /** Only placed planned nodes have an open attachment. */
  ghost predicate StrayOk(plan: Plan, g: Graph) {
    forall k :: Open(g, k) && k.kind == AttachedTo && Planned(plan, k.source) ==>
      k.source in g.nodes && g.nodes[k.source].state == Active
  }

  predicate MergedTo(plan: Plan, g: Graph, i: int, t: NodeId) {
    0 <= i < |plan.items| && plan.items[i].source.id in g.nodes && g.nodes[plan.items[i].source.id].mergedInto == Some(t)
  }

  ghost predicate Absorbed(plan: Plan, g: Graph, t: NodeId, key: nat) {
    exists i :: MergedTo(plan, g, i, t) && key in Keys(plan.items[i].source.evidence)
  }

  /** The evidence keys of t are its own and those of everything merged into it, without repeats once it has absorbed. */
  ghost predicate EvidenceAt(b: Graph, plan: Plan, g: Graph, t: NodeId)
    requires t in b.nodes && t in g.nodes
  {
    && (forall key :: key in Keys(CurrentEvidence(g.nodes[t])) <==>
                      key in Keys(CurrentEvidence(b.nodes[t])) || Absorbed(plan, g, t, key))
    && ((exists i :: MergedTo(plan, g, i, t)) ==> NoRepeats(CurrentEvidence(g.nodes[t])))
  }

  ghost predicate EvidenceOk(b: Graph, plan: Plan, g: Graph) {
    forall t :: t in b.nodes && t in g.nodes ==> EvidenceAt(b, plan, g, t)
  }

  ghost predicate Good(b: Graph, plan: Plan, g: Graph) {
    && Inv(g) && plan.run in g.published && DistinctIds(plan)
    && Frame(b, plan, g) && PlannedOk(plan, g) && StrayOk(plan, g) && EvidenceOk(b, plan, g)
  }

  predicate Waiting(plan: Plan, g: Graph, i: nat) {
    i < |plan.items| && plan.items[i].source.id in g.nodes && g.nodes[plan.items[i].source.id].state == Unattached
  }

  lemma PlannedAt(b: Graph, plan: Plan, g: Graph, i: nat)
    requires Good(b, plan, g) && i < |plan.items|
    ensures PlannedNode(plan, g, i) && NodeShape(g.nodes[plan.items[i].source.id])
  {
  }

  lemma SameRows(b: Graph, plan: Plan, g: Graph)
    requires Good(b, plan, g)
    ensures g.nodes.Keys == b.nodes.Keys
  {
  }

  ghost predicate OnlyMoves(plan: Plan, g: Graph, h: Graph, i: nat) {
    forall j :: 0 <= j < |plan.items| && j != i && plan.items[j].source.id in g.nodes ==>
      && plan.items[j].source.id in h.nodes
      && h.nodes[plan.items[j].source.id].state == g.nodes[plan.items[j].source.id].state
      && h.nodes[plan.items[j].source.id].mergedInto == g.nodes[plan.items[j].source.id].mergedInto
  }

  // ----- revising a target -----

  /** Appending a revision by the running pipeline changes nothing the graph invariant reads. */
  lemma ReviseKeepsInv(g: Graph, r: NodeId, m: Node)
    requires Inv(g) && r in g.nodes && m.revision.Some?
    requires m == g.nodes[r].(version := m.version, revision := m.revision, lastActor := m.lastActor, title := m.title, content := m.content)
    requires m.revision.value.requiresEvidence ==> m.revision.value.evidence != []
    requires m.revision.value.run.Some? ==> m.revision.value.run.value in g.published
    ensures Inv(g.(nodes := g.nodes[r := m]))
  {
    var h := g.(nodes := g.nodes[r := m]);
    assert SameForest(g, h);
    SameForestKeeps(g, h);
    SameForestKeepsUndo(g, h);
    forall x | x in h.nodes
      ensures NodeShape(h.nodes[x])
    {
      assert NodeShape(g.nodes[x]);
    }
    forall x | Live(h, x)
      ensures ParentOk(h, x)
    {
      assert ParentOk(g, x);
    }
    assert forall k :: Open(h, k) ==> Open(g, k);
  }

  // ----- one merge -----

  /** Stored parents are stored nodes. */
  ghost predicate ParentsStored(b: Graph, plan: Plan) {
    forall x :: Live(b, x) && !Planned(plan, x) && b.nodes[x].parent.Some? ==> !Planned(plan, b.nodes[x].parent.value)
  }

  /** No live node has a waiting planned node as its parent. */
  lemma WaitingHasNoChild(b: Graph, plan: Plan, g: Graph, i: nat)
    requires Frame(b, plan, g) && PlannedOk(plan, g) && ParentsStored(b, plan) && Waiting(plan, g, i)
    ensures !HasLiveChild(g, plan.project, plan.items[i].source.id)
  {
    var s := plan.items[i].source.id;
    assert Planned(plan, s);
    forall x | Live(g, x)
      ensures g.nodes[x].parent != Some(s)
    {
      if Planned(plan, x) {
        var j :| 0 <= j < |plan.items| && plan.items[j].source.id == x;
        assert PlannedNode(plan, g, j);
      } else {
        assert Frozen(b.nodes[x], g.nodes[x]) && Live(b, x);
      }
    }
  }

  ghost predicate Merges(plan: Plan, g: Graph, i: nat, t: NodeId, r: NodeId, h: Graph)
    requires i < |plan.items|
  {
    var src := plan.items[i].source;
    && src.id in g.nodes && r in g.nodes && src.id != r && src.suggestion.Some? && src.suggestion.value.title != "" && t in src.retrieved
    && Resolve(g, plan.project, t, Some(src.kind)) == Ok(r)
    && ActiveHome(g, r, g.nodes[src.id]) && g.nodes[r].kind == src.kind
    && var m := Absorb(plan, g.nodes[r], g.nodes[src.id], src.suggestion.value);
       && m.revision.value.evidence != []
       && h == MergedGraph(g.(nodes := g.nodes[r := m]), plan.project, src.id, r, r, System, plan.opBase + i)
  }

  /**
   A planned merge of a waiting node never trips the leaf or children guard, and
   when it succeeds it revises exactly the resolved target and redirects exactly
   the source.
   */
  lemma LogicalMergeFacts(plan: Plan, g: Graph, i: nat, t: NodeId)
    requires Inv(g) && plan.run in g.published && Waiting(plan, g, i) && PlannedNode(plan, g, i)
    requires !HasLiveChild(g, plan.project, plan.items[i].source.id)
    ensures var res := LogicalMerge(plan, g, i, t);
            && (res.Err? ==> res.error != NotUnattachedLeaf && res.error != HasChildren)
            && (res.Ok? ==> exists r :: Merges(plan, g, i, t, r, res.value))
  {
    var src := plan.items[i].source;
    ResolveExactly(g, plan.project, t, Some(src.kind));
    var rr := Resolve(g, plan.project, t, Some(src.kind));
    if rr.Ok? && src.suggestion.Some? {
      ResolveOk(g, plan.project, t, Some(src.kind));
      FoldIntoFacts(plan, g, i, t, rr.value);
      assert LogicalMerge(plan, g, i, t) == FoldInto(plan, g, i, t, rr.value);
      if LogicalMerge(plan, g, i, t).Ok? {
        assert Merges(plan, g, i, t, rr.value, LogicalMerge(plan, g, i, t).value);
      }
    }
  }

  lemma FoldIntoFacts(plan: Plan, g: Graph, i: nat, t: NodeId, r: NodeId)
    requires Inv(g) && plan.run in g.published && Waiting(plan, g, i) && PlannedNode(plan, g, i)
    requires Live(g, r) && g.nodes[r].mergedInto.None? && g.nodes[r].project == plan.project
    requires g.nodes[r].kind == plan.items[i].source.kind && plan.items[i].source.suggestion.Some?
    ensures var src := plan.items[i].source;
            var res := FoldInto(plan, g, i, t, r);
            && (res.Err? ==> res.error != NotUnattachedLeaf && res.error != HasChildren)
            && (res.Ok? ==>
                  var m := Absorb(plan, g.nodes[r], g.nodes[src.id], src.suggestion.value);
                  && src.id != r && src.suggestion.value.title != "" && t in src.retrieved && ActiveHome(g, r, g.nodes[src.id]) && m.revision.value.evidence != []
                  && res.value == MergedGraph(g.(nodes := g.nodes[r := m]), plan.project, src.id, r, r, System, plan.opBase + i))
  {
  }

  lemma MergeAfterRevision(plan: Plan, g: Graph, i: nat, r: NodeId, m: Node)
    requires Inv(g) && plan.run in g.published && i < |plan.items|
    requires var src := plan.items[i].source;
             && src.id in g.nodes && Live(g, r) && g.nodes[r].state == Active && g.nodes[r].mergedInto.None?
             && g.nodes[src.id].state == Unattached && g.nodes[src.id].revision.Some? && OpFree(plan, g, i)
             && g.nodes[src.id].kind == g.nodes[r].kind
             && g.nodes[src.id].project == plan.project == g.nodes[r].project
             && src.suggestion.Some? && m == Absorb(plan, g.nodes[r], g.nodes[src.id], src.suggestion.value)
    ensures var s := plan.items[i].source.id;
            var g1 := g.(nodes := g.nodes[r := m]);
            m.revision.value.evidence != [] ==>
              var res := ApplyMerge(g1, plan.project, s, r, System, plan.opBase + i);
              && (res.Err? ==> res.error !in {NotUnattachedLeaf, HasChildren})
              && (res.Ok? ==> res.value == MergedGraph(g1, plan.project, s, r, r, System, plan.opBase + i))
    ensures var s := plan.items[i].source.id;
            m.revision.value.evidence != [] && s != r ==>
              Inv(MergedGraph(g.(nodes := g.nodes[r := m]), plan.project, s, r, r, System, plan.opBase + i))
  {
    hide Inv, Resolve, MergedGraph, Dedup, ApplyMerge;
    if m.revision.value.evidence != [] {
      RevisedShape(plan, g.nodes[r], g.nodes[plan.items[i].source.id], plan.items[i].source.suggestion.value);
      RedirectAfterText(g, plan.run, plan.project, plan.items[i].source.id, r, m, plan.opBase + i);
    }
  }

  /** A fold rewrites only the text, the revision, the version and the author of its target. */
  lemma RevisedShape(plan: Plan, target: Node, source: Node, s: Suggestion)
    ensures TextOf(target, Absorb(plan, target, source, s), plan.run)
  {
    hide Dedup;
  }

  ghost predicate TextOf(n: Node, m: Node, run: RunId) {
    && m.revision.Some? && m.revision.value.run == Some(run)
    && m == n.(version := m.version, revision := m.revision, lastActor := m.lastActor, title := m.title, content := m.content)
  }

  lemma RedirectAfterText(g: Graph, run: RunId, p: ProjectId, s: NodeId, r: NodeId, m: Node, id: OpId)
    requires Inv(g) && run in g.published && Live(g, r) && g.nodes[r].state == Active && g.nodes[r].mergedInto.None?
    requires TextOf(g.nodes[r], m, run) && m.revision.value.evidence != []
    requires s in g.nodes && g.nodes[s].state == Unattached && g.nodes[s].revision.Some? && id !in g.ops
    requires g.nodes[s].kind == g.nodes[r].kind && g.nodes[s].project == p == g.nodes[r].project
    ensures var g1 := g.(nodes := g.nodes[r := m]);
            var res := ApplyMerge(g1, p, s, r, System, id);
            && s != r
            && (res.Err? ==> res.error !in {NotUnattachedLeaf, HasChildren})
            && (res.Ok? ==> res.value == MergedGraph(g1, p, s, r, r, System, id))
            && Inv(MergedGraph(g1, p, s, r, r, System, id))
  {
    var g1 := g.(nodes := g.nodes[r := m]);
    ReviseKeepsInv(g, r, m);
    UnattachedIsRoot(g, s);
    hide Inv, Resolve, MergedGraph, ApplyMerge;
    ResolveRoot(g1, p, r);
    RedirectAfterRevision(g1, p, s, r, id);
  }

  lemma UnattachedIsRoot(g: Graph, s: NodeId)
    requires Inv(g) && s in g.nodes && g.nodes[s].state == Unattached
    ensures g.nodes[s].mergedInto.None?
  {
    assert NodeShape(g.nodes[s]);
  }

  /** Redirecting s to the root r: accepted if they differ, and then the redirect and nothing else. */
  lemma RedirectAfterRevision(g: Graph, p: ProjectId, s: NodeId, r: NodeId, id: OpId)
    requires Inv(g) && s in g.nodes && r in g.nodes && id !in g.ops && Resolve(g, p, r, Some(g.nodes[r].kind)) == Ok(r)
    requires g.nodes[s].state == Unattached && g.nodes[s].mergedInto.None? && g.nodes[s].revision.Some? && g.nodes[r].revision.Some?
    requires g.nodes[s].kind == g.nodes[r].kind && g.nodes[s].project == p == g.nodes[r].project
    ensures var res := ApplyMerge(g, p, s, r, System, id);
            && (res.Err? ==> res.error !in {NotUnattachedLeaf, HasChildren})
            && (res.Ok? <==> s != r)
            && (res.Ok? ==> res.value == MergedGraph(g, p, s, r, r, System, id) && Inv(res.value))
  {
    hide Inv, Resolve, MergedGraph;
    if s != r {
      MergeKeepsInv(g, p, s, r, System, id);
    }
  }

  /** A node that is not merged resolves to itself. */
  lemma ResolveRoot(g: Graph, p: ProjectId, r: NodeId)
    requires Inv(g) && Live(g, r) && g.nodes[r].mergedInto.None? && g.nodes[r].project == p
    ensures Resolve(g, p, r, Some(g.nodes[r].kind)) == Ok(r)
  {
  }

  lemma MergesKeepsInv(plan: Plan, g: Graph, i: nat, t: NodeId, r: NodeId, h: Graph)
    requires i < |plan.items| && Inv(g) && plan.run in g.published && Waiting(plan, g, i) && PlannedNode(plan, g, i)
    requires Merges(plan, g, i, t, r, h)
    ensures Inv(h)
  {
    var src := plan.items[i].source;
    assert NodeShape(g.nodes[r]) && NodeShape(g.nodes[src.id]);
    MergeAfterRevision(plan, g, i, r, Absorb(plan, g.nodes[r], g.nodes[src.id], src.suggestion.value));
  }

  /** The rows a planned merge writes, spelled out. */
  lemma MergesWrites(plan: Plan, g: Graph, i: nat, t: NodeId, r: NodeId, h: Graph)
    requires i < |plan.items| && Merges(plan, g, i, t, r, h)
    ensures var src := plan.items[i].source;
            var m := Absorb(plan, g.nodes[r], g.nodes[src.id], src.suggestion.value);
            && h.nodes == g.nodes[r := m][src.id := MergedSource(g.nodes[src.id], r, System)]
            && h.relations == g.relations && h.published == g.published
            && h.ops.Keys == g.ops.Keys + {plan.opBase + i}
            && Frozen(g.nodes[r], m)
  {
  }

  lemma MergeKeepsPlannedAt(plan: Plan, g: Graph, i: nat, t: NodeId, r: NodeId, h: Graph, j: nat)
    requires i < |plan.items| && j < |plan.items| && DistinctIds(plan)
    requires PlannedNode(plan, g, i) && PlannedNode(plan, g, j) && Waiting(plan, g, i) && Merges(plan, g, i, t, r, h)
    ensures PlannedNode(plan, h, j)
    ensures j != i ==> h.nodes[plan.items[j].source.id].state == g.nodes[plan.items[j].source.id].state
    ensures j != i ==> h.nodes[plan.items[j].source.id].mergedInto == g.nodes[plan.items[j].source.id].mergedInto
  {
  }

  lemma MergeKeepsPlanned(b: Graph, plan: Plan, g: Graph, i: nat, t: NodeId, r: NodeId, h: Graph)
    requires DistinctIds(plan) && PlannedOk(plan, g) && StrayOk(plan, g) && Frame(b, plan, g)
    requires Waiting(plan, g, i) && Merges(plan, g, i, t, r, h)
    ensures PlannedOk(plan, h) && StrayOk(plan, h) && Frame(b, plan, h) && OnlyMoves(plan, g, h, i)
    ensures MergedTo(plan, h, i, r) && h.nodes[plan.items[i].source.id].state == Merged
  {
    MergesWrites(plan, g, i, t, r, h);
    assert Planned(plan, plan.items[i].source.id);
    forall j | 0 <= j < |plan.items|
      ensures PlannedNode(plan, h, j)
      ensures j != i ==> h.nodes[plan.items[j].source.id].state == g.nodes[plan.items[j].source.id].state
      ensures j != i ==> h.nodes[plan.items[j].source.id].mergedInto == g.nodes[plan.items[j].source.id].mergedInto
    {
      assert PlannedNode(plan, g, j) && PlannedNode(plan, g, i);
      MergeKeepsPlannedAt(plan, g, i, t, r, h, j);
    }
    forall k | Open(h, k) && k.kind == AttachedTo && Planned(plan, k.source)
      ensures k.source in h.nodes && h.nodes[k.source].state == Active
    {
      assert Open(g, k);
    }
    forall x | x in b.nodes && !Planned(plan, x)
      ensures Frozen(b.nodes[x], h.nodes[x])
    {
      assert Frozen(b.nodes[x], g.nodes[x]);
    }
  }

  /** A merge of item i changes no other item's redirect. */
  lemma MergeMovesOne(plan: Plan, g: Graph, i: nat, t: NodeId, r: NodeId, h: Graph)
    requires i < |plan.items| && DistinctIds(plan) && Merges(plan, g, i, t, r, h)
    requires g.nodes[plan.items[i].source.id].mergedInto.None?
    ensures forall j, x :: MergedTo(plan, h, j, x) <==> MergedTo(plan, g, j, x) || (j == i && x == r)
  {
  }

  lemma EvidenceElsewhere(b: Graph, plan: Plan, g: Graph, h: Graph, x: NodeId)
    requires x in b.nodes && x in g.nodes && x in h.nodes && EvidenceAt(b, plan, g, x)
    requires CurrentEvidence(h.nodes[x]) == CurrentEvidence(g.nodes[x])
    requires forall j :: MergedTo(plan, h, j, x) <==> MergedTo(plan, g, j, x)
    ensures EvidenceAt(b, plan, h, x)
  {
  }

  lemma MergeKeepsEvidence(b: Graph, plan: Plan, g: Graph, i: nat, t: NodeId, r: NodeId, h: Graph)
    requires i < |plan.items| && DistinctIds(plan) && EvidenceOk(b, plan, g) && Frame(b, plan, g)
    requires Merges(plan, g, i, t, r, h) && PlannedNode(plan, g, i) && Waiting(plan, g, i)
    requires g.nodes[plan.items[i].source.id].mergedInto.None?
    ensures EvidenceOk(b, plan, h)
  {
    MergesWrites(plan, g, i, t, r, h);
    MergeMovesOne(plan, g, i, t, r, h);
    forall x | x in b.nodes && x in h.nodes
      ensures EvidenceAt(b, plan, h, x)
    {
      assert EvidenceAt(b, plan, g, x);
      if x == r {
        AbsorbedByMerge(b, plan, g, i, r, h);
      } else {
        EvidenceElsewhere(b, plan, g, h, x);
      }
    }
  }

  lemma KeysConcat(e: seq<EvidenceSpec>, f: seq<EvidenceSpec>)
    ensures Keys(e + f) == Keys(e) + Keys(f)
  {
    var c := e + f;
    forall key | key in Keys(e) + Keys(f)
      ensures key in Keys(c)
    {
      if key in Keys(e) {
        var i :| 0 <= i < |e| && e[i].key == key;
        assert c[i].key == key;
      } else {
        var i :| 0 <= i < |f| && f[i].key == key;
        assert c[|e| + i].key == key;
      }
    }
  }

  lemma AbsorbedByMerge(b: Graph, plan: Plan, g: Graph, i: nat, r: NodeId, h: Graph)
    requires i < |plan.items| && r in b.nodes && r in g.nodes && r in h.nodes && plan.items[i].source.id in g.nodes
    requires EvidenceAt(b, plan, g, r) && plan.items[i].source.suggestion.Some?
    requires h.nodes[r] == Absorb(plan, g.nodes[r], g.nodes[plan.items[i].source.id], plan.items[i].source.suggestion.value)
    requires CurrentEvidence(g.nodes[plan.items[i].source.id]) == plan.items[i].source.evidence
    requires forall j :: MergedTo(plan, h, j, r) <==> MergedTo(plan, g, j, r) || j == i
    ensures EvidenceAt(b, plan, h, r)
  {
    var e := CurrentEvidence(g.nodes[r]);
    var f := plan.items[i].source.evidence;
    DedupKeys(e + f);
    KeysConcat(e, f);
    forall key
      ensures Absorbed(plan, h, r, key) <==> Absorbed(plan, g, r, key) || key in Keys(f)
    {
      if Absorbed(plan, h, r, key) && key !in Keys(f) {
        var j :| MergedTo(plan, h, j, r) && key in Keys(plan.items[j].source.evidence);
        assert MergedTo(plan, g, j, r);
      }
      if Absorbed(plan, g, r, key) {
        var j :| MergedTo(plan, g, j, r) && key in Keys(plan.items[j].source.evidence);
        assert MergedTo(plan, h, j, r);
      }
      assert MergedTo(plan, h, i, r);
    }
  }

  /** What a planned merge changes: the source moves to r, r is revised, nothing else. */
  ghost predicate MergeEffect(plan: Plan, g: Graph, i: nat, t: NodeId, r: NodeId, h: Graph)
    requires i < |plan.items|
  {
    var src := plan.items[i].source;
    && src.id in g.nodes && src.id in h.nodes && r in g.nodes && src.id != r && t in src.retrieved
    && Resolve(g, plan.project, t, Some(src.kind)) == Ok(r)
    && g.nodes[r].kind == src.kind
    && h.nodes[src.id].state == Merged && h.nodes[src.id].mergedInto == Some(r)
    && (forall x :: x in g.nodes && x != src.id && x != r ==> x in h.nodes && h.nodes[x] == g.nodes[x])
  }

  lemma MergeKeepsGood(b: Graph, plan: Plan, g: Graph, i: nat, t: NodeId) returns (r: NodeId)
    requires Good(b, plan, g) && ParentsStored(b, plan) && Waiting(plan, g, i)
    requires LogicalMerge(plan, g, i, t).Ok?
    ensures var h := LogicalMerge(plan, g, i, t).value;
            Good(b, plan, h) && OnlyMoves(plan, g, h, i) && MergeEffect(plan, g, i, t, r, h)
  {
    hide Inv, PlannedOk, StrayOk, Frame, EvidenceOk, DistinctIds, LogicalMerge;
    var h := LogicalMerge(plan, g, i, t).value;
    PlannedAt(b, plan, g, i);
    WaitingHasNoChild(b, plan, g, i);
    LogicalMergeFacts(plan, g, i, t);
    r :| Merges(plan, g, i, t, r, h);
    MergesKeepsInv(plan, g, i, t, r, h);
    MergesWrites(plan, g, i, t, r, h);
    MergeKeepsPlanned(b, plan, g, i, t, r, h);
    MergeKeepsEvidence(b, plan, g, i, t, r, h);
  }
}

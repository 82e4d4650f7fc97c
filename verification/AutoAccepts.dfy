/** A plan whose targets are as the planner saw them is applied: nothing makes the transaction fail. */
module AutoAccepts {
  import opened Options
  import opened GraphModel
  import opened GraphResolve
  import opened GraphMerge
  import opened Evidence
  import opened AutoPlan
  import opened AutoApply
  import opened AutoPhases
  import opened AutoTheorems
  import opened AutoCommit
  import opened AutoLedger
  import opened AutoDecisions
  import opened AutoLinks
  import opened AutoFolds
  import opened AutoExact

  // ----- inserting -----

  predicate Insertable(plan: Plan, g: Graph, i: int) {
    0 <= i < |plan.items| ==>
      && plan.items[i].source.id !in g.nodes && plan.items[i].source.title != "" && plan.items[i].source.evidence != []
  }

  lemma {:induction false} InsertPhaseAccepts(plan: Plan, g: Graph, n: nat)
    requires n <= |plan.items|
    ensures InsertPhase(plan, g, n).Ok? <==>
            && (forall i :: 0 <= i < n ==> Insertable(plan, g, i))
            && forall i, j :: 0 <= i < j < n ==> plan.items[i].source.id != plan.items[j].source.id
  {
    if n > 0 {
      var m := n - 1;
      InsertPhaseAccepts(plan, g, m);
      if InsertPhase(plan, g, m).Ok? {
        InsertFacts(plan, g, m);
        InsertedIds(plan, g, InsertPhase(plan, g, m).value, m);
      }
      InsertAcceptsNext(plan, g, m);
    }
  }

  lemma InsertedIds(plan: Plan, g: Graph, h: Graph, m: nat)
    requires m < |plan.items| && Inserted(plan, g, h, m) && InsertPhase(plan, g, m) == Ok(h)
    ensures plan.items[m].source.id in h.nodes <==>
            plan.items[m].source.id in g.nodes || exists i :: 0 <= i < m && plan.items[i].source.id == plan.items[m].source.id
  {
    InsertedKeys(plan, g, m);
  }

  lemma {:induction false} InsertedKeys(plan: Plan, g: Graph, n: nat)
    requires n <= |plan.items| && InsertPhase(plan, g, n).Ok?
    ensures forall x :: x in InsertPhase(plan, g, n).value.nodes <==> x in g.nodes || exists i :: 0 <= i < n && plan.items[i].source.id == x
  {
    if n > 0 {
      InsertedKeys(plan, g, n - 1);
    }
  }

  lemma InsertAcceptsNext(plan: Plan, g: Graph, m: nat)
    requires m < |plan.items|
    requires InsertPhase(plan, g, m).Ok? <==>
             && (forall i :: 0 <= i < m ==> Insertable(plan, g, i))
             && forall i, j :: 0 <= i < j < m ==> plan.items[i].source.id != plan.items[j].source.id
    requires InsertPhase(plan, g, m).Ok? ==>
               (plan.items[m].source.id in InsertPhase(plan, g, m).value.nodes <==>
                plan.items[m].source.id in g.nodes || exists i :: 0 <= i < m && plan.items[i].source.id == plan.items[m].source.id)
    ensures var n := m + 1;
            InsertPhase(plan, g, n).Ok? <==>
            && (forall i :: 0 <= i < n ==> Insertable(plan, g, i))
            && forall i, j :: 0 <= i < j < n ==> plan.items[i].source.id != plan.items[j].source.id
  {
    var n := m + 1;
    assert (forall i :: 0 <= i < n ==> Insertable(plan, g, i)) <==> (forall i :: 0 <= i < m ==> Insertable(plan, g, i)) && Insertable(plan, g, m);
  }

  /** The inserts succeed exactly when every id is new and used once, and every candidate has a title and evidence. */
  lemma InsertAcceptedIff(plan: Plan, g: Graph)
    ensures Insert(plan, g).Ok? <==> (forall i :: 0 <= i < |plan.items| ==> Insertable(plan, g, i)) && DistinctIds(plan)
  {
    var g1 := g.(published := g.published + {plan.run});
    InsertPhaseAccepts(plan, g1, |plan.items|);
    assert forall i :: Insertable(plan, g, i) <==> Insertable(plan, g1, i);
  }

  // ----- one planned merge -----

  /** What a merge needs to be applied once its gates have passed. */
  ghost predicate Mergeable(plan: Plan, g0: Graph, i: nat) {
    && i < |plan.items| && plan.items[i].directive.target.Some?
    && var src, t := plan.items[i].source, plan.items[i].directive.target.value;
    && Live(g0, t) && g0.nodes[t].project == plan.project && g0.nodes[t].kind == src.kind
    && HasChain(g0, t) && Depth(g0, t) <= 127 && Root(g0, t) in g0.nodes && g0.nodes[Root(g0, t)].title != ""
    && t in src.retrieved && src.suggestion.Some? && src.suggestion.value.title != "" && src.evidence != []
  }

  lemma DedupNonEmpty(e: seq<EvidenceSpec>, f: seq<EvidenceSpec>)
    requires f != []
    ensures Dedup(e + f) != []
  {
    DedupKeys(e + f);
    assert (e + f)[|e|] == f[0];
    assert f[0].key in Keys(e + f);
  }

  lemma FoldAccepted(plan: Plan, g: Graph, i: nat, t: NodeId, r: NodeId)
    requires Inv(g) && plan.run in g.published && Waiting(plan, g, i) && PlannedNode(plan, g, i)
    requires Live(g, r) && g.nodes[r].mergedInto.None? && g.nodes[r].project == plan.project && g.nodes[r].kind == plan.items[i].source.kind
    requires g.nodes[r].state == Active && g.nodes[r].category == plan.items[i].source.category
    requires t in plan.items[i].source.retrieved && plan.items[i].source.suggestion.Some? && plan.items[i].source.suggestion.value.title != ""
    requires plan.items[i].source.evidence != [] && (g.nodes[r].lastActor == User ==> g.nodes[r].title != "")
    ensures FoldInto(plan, g, i, t, r).Ok?
  {
    var src := plan.items[i].source;
    var m := Absorb(plan, g.nodes[r], g.nodes[src.id], src.suggestion.value);
    DedupNonEmpty(CurrentEvidence(g.nodes[r]), CurrentEvidence(g.nodes[src.id]));
    var g1 := g.(nodes := g.nodes[r := m]);
    ReviseKeepsInv(g, r, m);
    ResolveRoot(g1, plan.project, r);
    assert NodeShape(g.nodes[src.id]);
    hide Inv, Resolve, Dedup, MergedGraph;
  }

  /** Which planned merges of a waiting item are applied, in closed form. */
  ghost predicate MergeFits(plan: Plan, g: Graph, i: nat, t: NodeId) {
    && i < |plan.items|
    && var src := plan.items[i].source;
    && src.suggestion.Some? && src.suggestion.value.title != "" && t in src.retrieved
    && Live(g, t) && g.nodes[t].project == plan.project && g.nodes[t].kind == src.kind && HasChain(g, t) && Depth(g, t) <= 127
    && Root(g, t) in g.nodes
    && var r := g.nodes[Root(g, t)];
    && r.state == Active && r.category == src.category && (r.lastActor == User ==> r.title != "")
  }

  lemma FoldRefused(plan: Plan, g: Graph, i: nat, t: NodeId, r: NodeId)
    requires i < |plan.items| && plan.items[i].source.id in g.nodes && r in g.nodes && plan.items[i].source.suggestion.Some?
    requires g.nodes[plan.items[i].source.id].category == plan.items[i].source.category && FoldInto(plan, g, i, t, r).Ok?
    ensures plan.items[i].source.suggestion.value.title != "" && t in plan.items[i].source.retrieved
    ensures g.nodes[r].state == Active && g.nodes[r].category == plan.items[i].source.category && (g.nodes[r].lastActor == User ==> g.nodes[r].title != "")
  {
  }

  /** A planned merge of a waiting item is applied exactly when it fits; an ACTIVE root of the category is required here, not by the gates before. */
  lemma PlannedMergeAcceptedIff(plan: Plan, g: Graph, i: nat, t: NodeId)
    requires Inv(g) && plan.run in g.published && Waiting(plan, g, i) && PlannedNode(plan, g, i) && plan.items[i].source.evidence != []
    requires !HasLiveChild(g, plan.project, plan.items[i].source.id)
    ensures LogicalMerge(plan, g, i, t).Ok? <==> MergeFits(plan, g, i, t)
  {
    var src := plan.items[i].source;
    ResolveExactly(g, plan.project, t, Some(src.kind));
    if Live(g, t) {
      RootFacts(g, t);
    }
    assert NodeShape(g.nodes[src.id]);
    hide Inv, HasLiveChild, FoldInto, Resolve;
    if MergeFits(plan, g, i, t) {
      FoldAccepted(plan, g, i, t, Root(g, t));
    }
    if LogicalMerge(plan, g, i, t).Ok? {
      FoldRefused(plan, g, i, t, Resolve(g, plan.project, t, Some(src.kind)).value);
    }
  }

  lemma UserTitleKept(g0: Graph, b: Graph, plan: Plan, g: Graph, r: NodeId)
    requires Base(g0, plan, b) && Ledger(g0, b, plan, g) && r in g0.nodes && r in g.nodes && g0.nodes[r].title != ""
    ensures g.nodes[r].lastActor == User ==> g.nodes[r].title != ""
  {
    StoredIsNotPlanned(g0, plan, b, r);
    assert TextLedger(g0, b, plan, g, r);
    hide Base, Ledger, Latest;
  }

  /** A waiting item with a mergeable target is merged once the target's root is ACTIVE and of its category. */
  lemma MergeAccepted(g0: Graph, b: Graph, plan: Plan, g: Graph, i: nat, t: NodeId)
    requires Base(g0, plan, b) && Good(b, plan, g) && ParentsStored(b, plan) && Waiting(plan, g, i) && Ledger(g0, b, plan, g)
    requires Mergeable(plan, g0, i) && plan.items[i].directive.target == Some(t)
    requires HasChain(g, t) && Root(g, t) in g.nodes
    requires g.nodes[Root(g, t)].state == Active && g.nodes[Root(g, t)].category == plan.items[i].source.category
    ensures LogicalMerge(plan, g, i, t).Ok?
  {
    GoodParts(b, plan, g);
    PlannedAt(b, plan, g, i);
    WaitingHasNoChild(b, plan, g, i);
    ReachesRoot(g0, b, plan, g, i, t);
    var r := Root(g, t);
    UserTitleKept(g0, b, plan, g, r);
    GoodInv(b, plan, g);
    hide Good, Base, Ledger, Inv, FoldInto, HasLiveChild, ForestInv;
    FoldAccepted(plan, g, i, t, r);
  }

  lemma GoodInv(b: Graph, plan: Plan, g: Graph)
    requires Good(b, plan, g)
    ensures Inv(g) && plan.run in g.published
  {
  }

  /** A stored target within reach resolves to the root it had before the apply. */
  lemma ReachesRoot(g0: Graph, b: Graph, plan: Plan, g: Graph, i: nat, t: NodeId)
    requires Base(g0, plan, b) && Good(b, plan, g) && Mergeable(plan, g0, i) && plan.items[i].directive.target == Some(t)
    ensures HasChain(g, t) && Root(g, t) == Root(g0, t) && Root(g, t) in g.nodes
    ensures Resolve(g, plan.project, t, Some(plan.items[i].source.kind)) == Ok(Root(g, t))
    ensures var r := Root(g, t);
            && Live(g, r) && g.nodes[r].mergedInto.None? && g.nodes[r].project == plan.project && g.nodes[r].kind == plan.items[i].source.kind
  {
    GoodParts(b, plan, g);
    StoredIsNotPlanned(g0, plan, b, t);
    assert Frozen(b.nodes[t], g.nodes[t]);
    StoredRoots(g0, plan, b, g, t);
    StoredDepth(g0, plan, b, g, t);
    RootFacts(g, t);
    ResolveExactly(g, plan.project, t, Some(plan.items[i].source.kind));
  }

  // ----- the phases -----

  /** A LINK target that can be resolved at its turn. */
  ghost predicate Linkable(plan: Plan, g0: Graph, i: nat) {
    && i < |plan.items| && plan.items[i].directive.target.Some?
    && var t := plan.items[i].directive.target.value;
    && t != plan.items[i].source.id && (t in g0.nodes ==> HasChain(g0, t) && Depth(g0, t) <= 127)
  }

  /** A dependent merge into a root that is ACTIVE and of the item's category. */
  ghost predicate Foldable(plan: Plan, g0: Graph, i: nat) {
    && Mergeable(plan, g0, i)
    && var r := Root(g0, plan.items[i].directive.target.value);
    && g0.nodes[r].state == Active && g0.nodes[r].category == plan.items[i].source.category
  }

  ghost predicate ItemSound(plan: Plan, g0: Graph, i: nat)
    requires i < |plan.items|
  {
    plan.items[i].directive.target.Some? ==>
      match plan.items[i].directive.action
      case CreateNew => true
      case Link => Linkable(plan, g0, i)
      case Merge => if IsDecision(plan, i) then Mergeable(plan, g0, i) else Foldable(plan, g0, i)
  }

  /** The plan fits the graph: new ids, titled and evidenced candidates, live targets within reach, merges that retrieval and suggestion back. */
  ghost predicate Sound(plan: Plan, g0: Graph) {
    && TargetsPresent(plan, g0) && DistinctIds(plan)
    && (forall i :: 0 <= i < |plan.items| ==> Insertable(plan, g0, i))
    && (forall i :: 0 <= i < |plan.items| ==> ItemSound(plan, g0, i))
  }

  lemma DecisionStepAccepted(g0: Graph, b: Graph, plan: Plan, locked: set<NodeId>, p: Progress, i: nat)
    requires i < |plan.items| == |p.ds| && Base(g0, plan, b) && Decided(b, plan, p, i) && Ledger(g0, b, plan, p.g) && ItemSound(plan, g0, i)
    ensures DecisionStep(plan, locked, p, i).Ok?
  {
    hide Good, Base, Ledger, LogicalMerge, Resolve;
    if IsDecision(plan, i) {
      assert Waiting(plan, p.g, i) && p.ds[i] == plan.items[i].directive;
      var d := plan.items[i].directive;
      if d.action == Merge && d.target.Some? {
        var t := d.target.value;
        ReachesRoot(g0, b, plan, p.g, i, t);
        var r := Root(p.g, t);
        if p.g.nodes[r].state == Active && p.g.nodes[r].category == plan.items[i].source.category {
          MergeAccepted(g0, b, plan, p.g, i, t);
        }
      }
    } else {
    }
  }

  lemma {:induction false} DecisionPhaseAccepted(g0: Graph, b: Graph, plan: Plan, locked: set<NodeId>, p: Progress, n: nat)
    requires n <= |plan.items| == |p.ds| && Base(g0, plan, b) && Decided(b, plan, p, 0) && TargetsKnown(plan, locked, b) && FreshRows(b, plan)
    requires Trail(g0, b, plan, p) && forall i :: 0 <= i < |plan.items| ==> ItemSound(plan, g0, i)
    ensures DecisionPhase(plan, locked, p, n).Ok?
  {
    hide Base, Decided, DecisionStep, Trail, TargetsKnown, FreshRows, ItemSound;
    if n > 0 {
      var m := n - 1;
      DecisionPhaseAccepted(g0, b, plan, locked, p, m);
      DecisionPhaseTrail(g0, b, plan, locked, p, m);
      TrailParts(g0, b, plan, DecisionPhase(plan, locked, p, m).value);
      DecisionStepAccepted(g0, b, plan, locked, DecisionPhase(plan, locked, p, m).value, m);
    }
  }

  lemma LinkResolves(g0: Graph, b: Graph, plan: Plan, g: Graph, i: nat, t: NodeId)
    requires Base(g0, plan, b) && Good(b, plan, g) && Linkable(plan, g0, i) && plan.items[i].directive.target == Some(t) && Live(g, t)
    requires t in g0.nodes ==> g0.nodes[t].project == plan.project
    ensures Resolve(g, plan.project, t, None).Ok? && Resolve(g, plan.project, t, None).value in g.nodes
  {
    GoodParts(b, plan, g);
    hide Good;
    StoredOrPlanned(g0, b, plan, g, t);
    if t in g0.nodes {
      StoredIsNotPlanned(g0, plan, b, t);
      assert Frozen(b.nodes[t], g.nodes[t]);
      StoredHome(g0, b, plan, g, g, t);
      StoredDepth(g0, plan, b, g, t);
    } else {
      var j :| 0 <= j < |plan.items| && plan.items[j].source.id == t;
      PlannedReach(b, plan, g, j);
    }
    ResolveExactly(g, plan.project, t, None);
    RootFacts(g, t);
  }

  lemma PlannedReach(b: Graph, plan: Plan, g: Graph, j: nat)
    requires Good(b, plan, g) && j < |plan.items|
    ensures var t := plan.items[j].source.id; Live(g, t) && g.nodes[t].project == plan.project && HasChain(g, t) && Depth(g, t) <= 1
  {
    PlannedHome(b, plan, g, j);
    PlannedAt(b, plan, g, j);
    var t := plan.items[j].source.id;
    if g.nodes[t].mergedInto.None? {
      assert IsChain(g, [t]);
      ChainIs(g, [t]);
    } else {
      var m := g.nodes[t].mergedInto.value;
      assert NodeShape(g.nodes[m]);
      assert [t, m][1..] == [m];
      assert IsChain(g, [m]);
      ChainIs(g, [t, m]);
    }
  }

  lemma LinkStepAccepted(g0: Graph, b: Graph, plan: Plan, locked: set<NodeId>, p: Progress, i: nat)
    requires i < |plan.items| == |p.ds| && Base(g0, plan, b) && Linked(b, plan, p, i) && LinksPlanned(plan, p, i)
    requires TargetsKnown(plan, locked, b) && TargetsPresent(plan, g0) && ItemSound(plan, g0, i)
    ensures LinkStep(plan, locked, p, i).Ok?
  {
    LinkedParts(b, plan, p, i);
    LinkDirectiveAt(plan, p, i);
    hide Good, Base, Linked, Resolve, LinksPlanned, TargetsKnown;
    if p.ds[i].action == Link && p.ds[i].target.Some? {
      var t := p.ds[i].target.value;
      TargetsLive(b, plan, locked, p.g, i);
      StoredOrPlanned2(g0, b, plan, p.g, t);
      StoredTargetFits(plan, g0, i, t);
      hide TargetsPresent, ExistingTargets, Planned;
      assert Linkable(plan, g0, i);
      LinkResolves(g0, b, plan, p.g, i, t);
      hide LinkStep;
      LinkStepCommits(plan, locked, p, i, t);
    } else {
      hide Linkable, LinkStatus;
    }
  }

  lemma LinkStepCommits(plan: Plan, locked: set<NodeId>, p: Progress, i: nat, t: NodeId)
    requires i < |plan.items| == |p.ds| && p.ds[i].target == Some(t) && plan.items[i].source.id in p.g.nodes && t != plan.items[i].source.id
    requires Resolve(p.g, plan.project, t, None).Ok? && Resolve(p.g, plan.project, t, None).value in p.g.nodes
    ensures LinkStep(plan, locked, p, i).Ok?
  {
    hide Resolve, Planned;
  }

  lemma StoredTargetFits(plan: Plan, g0: Graph, i: nat, t: NodeId)
    requires TargetsPresent(plan, g0) && i < |plan.items| && plan.items[i].directive.target == Some(t)
    ensures !Planned(plan, t) ==> t in g0.nodes && g0.nodes[t].project == plan.project
  {
    assert !Planned(plan, t) ==> t in ExistingTargets(plan);
  }

  lemma StoredOrPlanned2(g0: Graph, b: Graph, plan: Plan, g: Graph, t: NodeId)
    requires Base(g0, plan, b) && Good(b, plan, g) && t in g.nodes
    ensures t in b.nodes && (t in g0.nodes <==> !Planned(plan, t))
  {
    GoodParts(b, plan, g);
    StoredOrPlanned(g0, b, plan, g, t);
  }

  lemma {:induction false} LinkPhaseAccepted(g0: Graph, b: Graph, plan: Plan, locked: set<NodeId>, p: Progress, n: nat)
    requires n <= |plan.items| == |p.ds| && Base(g0, plan, b) && Linked(b, plan, p, 0) && TargetsKnown(plan, locked, b) && TargetsPresent(plan, g0)
    requires LinksPlanned(plan, p, 0) && forall i :: 0 <= i < |plan.items| ==> ItemSound(plan, g0, i)
    ensures LinkPhase(plan, locked, p, n).Ok?
  {
    hide Base, Linked, LinkStep, LinksPlanned, TargetsKnown, TargetsPresent, ItemSound;
    if n > 0 {
      var m := n - 1;
      LinkPhaseAccepted(g0, b, plan, locked, p, m);
      LinkPhaseKeeps(b, plan, locked, p, m);
      LinkPhasePlanned(b, plan, locked, p, m);
      LinkStepAccepted(g0, b, plan, locked, LinkPhase(plan, locked, p, m).value, m);
    }
  }

  // ----- folding -----

  /** Every prepared member is foldable. */
  ghost predicate AllFoldable(plan: Plan, g0: Graph, ms: seq<Member>) {
    forall m :: m in ms ==> Foldable(plan, g0, m.index)
  }

  lemma FoldOneAccepted(g0: Graph, plan: Plan, b: Graph, gl: Graph, q: Prepared, g: Graph, m: Member, taken: set<nat>)
    requires Groups(g0, plan, b, gl, q) && m in q.members && FoldState(g0, plan, b, gl, g, taken) && Waiting(plan, g, m.index)
    requires Foldable(plan, g0, m.index)
    ensures m.index < |plan.items| == |q.ds| && q.ds[m.index].target.Some? && LogicalMerge(plan, g, m.index, q.ds[m.index].target.value).Ok?
  {
    assert Ready(plan, gl, q.ds, m);
    var t := plan.items[m.index].directive.target.value;
    FoldStateParts(g0, plan, b, gl, g, taken);
    GroupsParts(g0, plan, b, gl, q);
    hide Groups, FoldState, Good, Base, LogicalMerge, Ledger;
    ReachesRoot(g0, b, plan, g, m.index, t);
    RootFrozen(g0, b, plan, g, Root(g0, t));
    MergeAccepted(g0, b, plan, g, m.index, t);
  }

  lemma FoldStateParts(g0: Graph, plan: Plan, b: Graph, gl: Graph, g: Graph, taken: set<nat>)
    requires FoldState(g0, plan, b, gl, g, taken)
    ensures Good(b, plan, g) && ParentsStored(b, plan) && Ledger(g0, b, plan, g) && Folding(g0, plan, b, gl, g)
  {
  }

  lemma RootFrozen(g0: Graph, b: Graph, plan: Plan, g: Graph, r: NodeId)
    requires Base(g0, plan, b) && Good(b, plan, g) && r in g0.nodes
    ensures r in g.nodes && g.nodes[r].state == g0.nodes[r].state && g.nodes[r].category == g0.nodes[r].category
  {
    GoodParts(b, plan, g);
    StoredIsNotPlanned(g0, plan, b, r);
    assert Frozen(b.nodes[r], g.nodes[r]);
  }

  lemma {:induction false} FoldMembersAccepted(g0: Graph, plan: Plan, b: Graph, gl: Graph, q: Prepared, g: Graph,
                                               ms: seq<Member>, n: nat, target: NodeId, done: set<NodeId>, taken: set<nat>)
    requires FoldReady(g0, plan, b, gl, q, g, ms, target, done, taken) && n <= |ms| && |q.ds| == |plan.items| && MembersInPlan(plan, ms)
    requires AllFoldable(plan, g0, ms)
    ensures FoldMembers(plan, q.ds, g, ms, n).Ok?
  {
    hide FoldReady, LogicalMerge;
    if n > 0 {
      var k := n - 1;
      FoldMembersAccepted(g0, plan, b, gl, q, g, ms, k, target, done, taken);
      FoldNextAccepted(g0, plan, b, gl, q, g, ms, k, target, done, taken);
    }
  }

  lemma FoldNextAccepted(g0: Graph, plan: Plan, b: Graph, gl: Graph, q: Prepared, g: Graph,
                         ms: seq<Member>, k: nat, target: NodeId, done: set<NodeId>, taken: set<nat>)
    requires FoldReady(g0, plan, b, gl, q, g, ms, target, done, taken) && k < |ms| && |q.ds| == |plan.items| && MembersInPlan(plan, ms)
    requires AllFoldable(plan, g0, ms) && FoldMembers(plan, q.ds, g, ms, k).Ok?
    ensures q.ds[ms[k].index].target.Some?
    ensures LogicalMerge(plan, FoldMembers(plan, q.ds, g, ms, k).value, ms[k].index, q.ds[ms[k].index].target.value).Ok?
  {
    hide Groups, FoldState, FoldMembers, LogicalMerge, OneGroup, EarlierGroups, FreshRows, Pending, WaitingFrom, DistinctMembers, Indices, Foldable;
    FoldMembersExactly(g0, plan, b, gl, q, g, ms, k, target, done, taken);
    FoldReadyKeeps(g0, plan, b, gl, q, g, ms, k, target, done, taken);
    var h := FoldMembers(plan, q.ds, g, ms, k).value;
    NextWaits(plan, h, ms, k);
    assert ms[k] in ms;
    FoldOneAccepted(g0, plan, b, gl, q, h, ms[k], taken + Indices(ms, k));
  }

  lemma GroupStepAccepted(g0: Graph, plan: Plan, b: Graph, gl: Graph, q: Prepared, g: Graph, t: NodeId, done: set<NodeId>)
    requires Setup(g0, plan, b, gl, q) && Reaches(g0, plan, b, gl, q, g, done) && NextGroup(plan, q, g, t, done) && AllFoldable(plan, g0, q.members)
    ensures var ms := Accepted(plan, g, q.ds, q.members, t);
            MembersInPlan(plan, ms) && FoldMembers(plan, q.ds, g, ms, |ms|).Ok?
  {
    hide Setup, Reaches, FoldState, AllTaken, FoldMembers, Foldable;
    NextIsReady(g0, plan, b, gl, q, g, t, done);
    var ms := Accepted(plan, g, q.ds, q.members, t);
    assert MembersInPlan(plan, ms);
    hide Accepted, FoldReady;
    FoldMembersAccepted(g0, plan, b, gl, q, g, ms, |ms|, t, done + {t}, AllTaken(plan, gl, q.members, done));
  }

  lemma {:induction false} GroupPhaseAccepted(g0: Graph, plan: Plan, b: Graph, gl: Graph, q: Prepared, targets: seq<NodeId>, n: nat)
    requires Setup(g0, plan, b, gl, q) && |q.ds| == |plan.items| && MembersInPlan(plan, q.members) && n <= |targets|
    requires forall k, l :: 0 <= k < l < |targets| ==> targets[k] < targets[l]
    requires forall k :: 0 <= k < |targets| ==> targets[k] in gl.nodes
    requires FoldState(g0, plan, b, gl, gl, {}) && Pending(plan, gl, q.members, {}) && AllFoldable(plan, g0, q.members)
    ensures GroupPhase(plan, gl, q, targets, n).Ok?
  {
    hide Setup, FoldMembers, Accepted, FoldState, Reached, AllTaken, Pending, AllFoldable;
    if n > 0 {
      var k := n - 1;
      GroupPhaseAccepted(g0, plan, b, gl, q, targets, k);
      GroupNextAccepted(g0, plan, b, gl, q, targets, k);
    }
  }

  lemma GroupNextAccepted(g0: Graph, plan: Plan, b: Graph, gl: Graph, q: Prepared, targets: seq<NodeId>, k: nat)
    requires Setup(g0, plan, b, gl, q) && |q.ds| == |plan.items| && MembersInPlan(plan, q.members) && k < |targets|
    requires forall k, l :: 0 <= k < l < |targets| ==> targets[k] < targets[l]
    requires targets[k] in gl.nodes && GroupPhase(plan, gl, q, targets, k).Ok?
    requires FoldState(g0, plan, b, gl, gl, {}) && Pending(plan, gl, q.members, {}) && AllFoldable(plan, g0, q.members)
    ensures var g := GroupPhase(plan, gl, q, targets, k).value;
            && targets[k] in g.nodes
            && var ms := Accepted(plan, g, q.ds, q.members, targets[k]);
            MembersInPlan(plan, ms) && FoldMembers(plan, q.ds, g, ms, |ms|).Ok?
  {
    hide Setup, FoldMembers, Accepted, FoldState, Reached, AllTaken, Pending, AllFoldable, GroupPhase;
    GroupPhaseExactly(g0, plan, b, gl, q, targets, k);
    FoldStateFolding(g0, plan, b, gl, gl, {});
    PendingAt(g0, plan, b, gl, q, targets, k);
    var g := GroupPhase(plan, gl, q, targets, k).value;
    FoldStateFolding(g0, plan, b, gl, g, AllTaken(plan, gl, q.members, Reached(targets, k)));
    ReachedBelow(targets, k);
    GroupStepAccepted(g0, plan, b, gl, q, g, targets[k], Reached(targets, k));
  }

  lemma TargetsInGraph(plan: Plan, g: Graph, ms: seq<Member>)
    requires MembersRooted(plan, g, ms)
    ensures forall k :: 0 <= k < |GroupTargets(ms)| ==> GroupTargets(ms)[k] in g.nodes
  {
    var targets := GroupTargets(ms);
    forall k | 0 <= k < |targets|
      ensures targets[k] in g.nodes
    {
      assert targets[k] in targets;
      assert targets[k] in (set k | 0 <= k < |ms| :: ms[k].target);
      var l :| 0 <= l < |ms| && ms[l].target == targets[k];
      assert PreparesAt(plan, g, ms[l].index);
    }
  }

  lemma MembersFoldable(g0: Graph, plan: Plan, g: Graph, q: Prepared)
    requires AllReady(plan, g, q) && forall i :: 0 <= i < |plan.items| ==> ItemSound(plan, g0, i)
    ensures AllFoldable(plan, g0, q.members)
  {
    hide Foldable, Waiting, VersionValid, Resolve;
    forall m | m in q.members
      ensures Foldable(plan, g0, m.index)
    {
      var k :| 0 <= k < |q.members| && q.members[k] == m;
      assert Ready(plan, g, q.ds, q.members[k]);
      assert ItemSound(plan, g0, m.index);
    }
  }

  lemma SetupReady(g0: Graph, plan: Plan, b: Graph, gl: Graph, q: Prepared)
    requires Setup(g0, plan, b, gl, q)
    ensures AllReady(plan, gl, q) && |q.ds| == |plan.items| && MembersInPlan(plan, q.members)
  {
    hide AllReady, FreshRows, MembersSorted, Grouped;
  }

  lemma DependentsAccepted(g0: Graph, b: Graph, plan: Plan, locked: set<NodeId>, p: Progress)
    requires Base(g0, plan, b) && Linked(b, plan, p, |plan.items|) && FreshRows(b, plan) && TargetsKnown(plan, locked, b)
    requires Ledger(g0, b, plan, p.g) && |p.ds| == |plan.items| && forall i :: 0 <= i < |plan.items| ==> ItemSound(plan, g0, i)
    ensures Dependents(plan, locked, p).Ok?
  {
    hide Base, Linked, FreshRows, TargetsKnown, Ledger, Setup, Pending, GroupPhase, FoldState, AllFoldable, ItemSound, AllReady;
    var q, order := SetupHolds(g0, b, plan, locked, p);
    FoldStarts(g0, plan, b, p);
    SetupReady(g0, plan, b, p.g, q);
    MembersFoldable(g0, plan, p.g, q);
    var targets := GroupTargets(q.members);
    TargetsInGraph(plan, p.g, q.members);
    AscendingRises(set k | 0 <= k < |q.members| :: q.members[k].target);
    GroupPhaseAccepted(g0, plan, b, p.g, q, targets, |targets|);
  }

  /** Every plan that fits the graph commits. */
  lemma SoundPlanCommits(plan: Plan, g0: Graph)
    requires Inv(g0) && OpsFresh(plan, g0) && plan.run !in g0.published && Sound(plan, g0)
    ensures Apply(plan, g0).Ok?
  {
    hide Inv, Good, DecisionPhase, LinkPhase, Dependents, Linked, Decided, Trail, FreshRows, TargetsKnown, ItemSound, LinkTrail, MergesPlanned, LinksPlanned, Ledger;
    var locked, n := ExistingTargets(plan), |plan.items|;
    InsertAcceptedIff(plan, g0);
    var b := Insert(plan, g0).value;
    InsertGood(plan, g0);
    InsertedRows(plan, g0, b);
    var p0 := Progress(b, Directives(plan));
    StartsDecided(plan, b);
    StartTrail(plan, g0, b);
    DecisionPhaseAccepted(g0, b, plan, locked, p0, n);
    DecisionPhaseTrail(g0, b, plan, locked, p0, n);
    var p1 := DecisionPhase(plan, locked, p0, n).value;
    DecidedIsLinked(b, plan, p1);
    DecidedMergesPlanned(b, plan, p1, n);
    TrailParts(g0, b, plan, p1);
    LinkPhaseAccepted(g0, b, plan, locked, p1, n);
    LinkPhaseTrail(g0, b, plan, locked, p1, n);
    var p2 := LinkPhase(plan, locked, p1, n).value;
    LinkTrailParts(g0, b, plan, locked, p1, p2, n);
    DependentsAccepted(g0, b, plan, locked, p2);
  }
}

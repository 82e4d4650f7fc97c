/**
 The committed graph of an automatic apply, exactly: what becomes of every item,
 which relations open, and what every row holds.
 */
module AutoExact {
  import opened Options
  import opened GraphModel
  import opened GraphResolve
  import opened GraphMerge
  import opened Evidence
  import opened AutoPlan
  import opened AutoApply
  import opened AutoPhases
  import opened AutoTheorems
  import opened AutoCommit
  import opened AutoLedger
  import opened AutoDecisions
  import opened AutoLinks
  import opened AutoFolds

  /** A plan that is applied for the first time and commits. */
  ghost predicate Commits(plan: Plan, g0: Graph) {
    Inv(g0) && OpsFresh(plan, g0) && plan.run !in g0.published && Apply(plan, g0).Ok?
  }

  // ----- the stages -----

  /** The stages of one apply: inserted, decided, linked, folded. */
  ghost predicate Stages(plan: Plan, g0: Graph, b: Graph, p0: Progress, p1: Progress, p2: Progress, h: Graph) {
    var locked, n := ExistingTargets(plan), |plan.items|;
    && Base(g0, plan, b) && FreshRows(b, plan) && TargetsKnown(plan, locked, b)
    && p0 == Progress(b, Directives(plan)) && |p0.ds| == n && Decided(b, plan, p0, 0) && Trail(g0, b, plan, p0)
    && DecisionPhase(plan, locked, p0, n) == Ok(p1) && |p1.ds| == n && Decided(b, plan, p1, n) && Trail(g0, b, plan, p1)
    && Linked(b, plan, p1, 0) && MergesPlanned(plan, p1)
    && LinkPhase(plan, locked, p1, n) == Ok(p2) && |p2.ds| == n && Linked(b, plan, p2, n) && LinkTrail(g0, b, plan, locked, p1, p2, n)
    && FoldedExactly(g0, plan, b, p2.g, h)
  }

  lemma InsertedRows(plan: Plan, g0: Graph, b: Graph)
    requires Base(g0, plan, b) && TargetsPresent(plan, g0)
    ensures FreshRows(b, plan) && TargetsKnown(plan, ExistingTargets(plan), b)
  {
    forall i | 0 <= i < |plan.items| && plan.items[i].directive.target.Some?
      ensures TargetKnown(plan, ExistingTargets(plan), b, plan.items[i].directive.target.value)
    {
      var t := plan.items[i].directive.target.value;
      if Planned(plan, t) {
        var j :| 0 <= j < |plan.items| && plan.items[j].source.id == t;
        assert b.nodes[t] == NewNode(plan, plan.items[j].source);
      } else {
        assert t in ExistingTargets(plan);
      }
    }
  }

  lemma StartTrail(plan: Plan, g0: Graph, b: Graph)
    requires Base(g0, plan, b) && Good(b, plan, b) && AllWaiting(plan, b)
    ensures Trail(g0, b, plan, Progress(b, Directives(plan)))
  {
    NothingMergedYet(b, plan);
    hide Good, Base, AllWaiting, MergedTo;
    forall x | x in b.nodes
      ensures VersionLedger(b, plan, b, x) && TextLedger(g0, b, plan, b, x)
    {
      assert Absorbers(plan, b, x, |plan.items|) == {};
    }
  }

  lemma NothingMergedYet(b: Graph, plan: Plan)
    requires Good(b, plan, b) && AllWaiting(plan, b)
    ensures forall j, x :: !MergedTo(plan, b, j, x)
  {
    forall j, x
      ensures !MergedTo(plan, b, j, x)
    {
      if 0 <= j < |plan.items| {
        PlannedAt(b, plan, b, j);
        assert Waiting(plan, b, j);
      }
    }
  }

  lemma DecidedMergesPlanned(b: Graph, plan: Plan, p: Progress, n: nat)
    requires Decided(b, plan, p, n)
    ensures MergesPlanned(plan, p)
  {
  }

  lemma StagesExist(plan: Plan, g0: Graph) returns (b: Graph, p0: Progress, p1: Progress, p2: Progress)
    requires Commits(plan, g0)
    ensures Stages(plan, g0, b, p0, p1, p2, Apply(plan, g0).value)
  {
    hide Inv, Good, DecisionPhase, LinkPhase, Dependents, Linked, Decided, Trail, FoldedExactly, FreshRows, TargetsKnown, LinkTrail, MergesPlanned;
    var locked, n := ExistingTargets(plan), |plan.items|;
    b := Insert(plan, g0).value;
    InsertGood(plan, g0);
    InsertedRows(plan, g0, b);
    p0 := Progress(b, Directives(plan));
    StartsDecided(plan, b);
    StartTrail(plan, g0, b);
    p1 := DecisionPhase(plan, locked, p0, n).value;
    DecisionPhaseTrail(g0, b, plan, locked, p0, n);
    DecidedIsLinked(b, plan, p1);
    DecidedMergesPlanned(b, plan, p1, n);
    TrailParts(g0, b, plan, p1);
    p2 := LinkPhase(plan, locked, p1, n).value;
    LinkPhaseTrail(g0, b, plan, locked, p1, n);
    LinkTrailParts(g0, b, plan, locked, p1, p2, n);
    DependentsExactly(g0, b, plan, locked, p2);
  }

  lemma TrailParts(g0: Graph, b: Graph, plan: Plan, p: Progress)
    requires Trail(g0, b, plan, p)
    ensures Ledger(g0, b, plan, p.g) && LinksPlanned(plan, p, 0)
  {
  }

  lemma LinkTrailParts(g0: Graph, b: Graph, plan: Plan, locked: set<NodeId>, p: Progress, q: Progress, n: nat)
    requires LinkTrail(g0, b, plan, locked, p, q, n)
    ensures Ledger(g0, b, plan, q.g) && MergesPlanned(plan, q) && |q.ds| == |plan.items|
  {
  }

  // ----- Decisions -----

  lemma StageParts(plan: Plan, g0: Graph, b: Graph, p0: Progress, p1: Progress, p2: Progress, h: Graph)
    requires Stages(plan, g0, b, p0, p1, p2, h)
    ensures Base(g0, plan, b) && FreshRows(b, plan) && TargetsKnown(plan, ExistingTargets(plan), b) && |p0.ds| == |plan.items|
    ensures Decided(b, plan, p0, 0) && Trail(g0, b, plan, p0)
    ensures DecisionPhase(plan, ExistingTargets(plan), p0, |plan.items|) == Ok(p1) && Decided(b, plan, p1, |plan.items|)
    ensures FoldedExactly(g0, plan, b, p2.g, h)
  {
    hide Base, FreshRows, TargetsKnown, Decided, Trail, DecisionPhase, FoldedExactly, Linked, LinkTrail, MergesPlanned, LinkPhase;
  }

  lemma LinkStageParts(plan: Plan, g0: Graph, b: Graph, p0: Progress, p1: Progress, p2: Progress, h: Graph)
    requires Stages(plan, g0, b, p0, p1, p2, h)
    ensures |p1.ds| == |plan.items| == |p2.ds| && Trail(g0, b, plan, p1) && Linked(b, plan, p1, 0) && MergesPlanned(plan, p1)
    ensures LinkPhase(plan, ExistingTargets(plan), p1, |plan.items|) == Ok(p2) && Linked(b, plan, p2, |plan.items|)
    ensures LinkTrail(g0, b, plan, ExistingTargets(plan), p1, p2, |plan.items|)
  {
    hide Base, FreshRows, TargetsKnown, Decided, Trail, DecisionPhase, FoldedExactly, Linked, LinkTrail, MergesPlanned, LinkPhase;
  }

  lemma FoldedParts(g0: Graph, plan: Plan, b: Graph, gl: Graph, h: Graph)
    requires FoldedExactly(g0, plan, b, gl, h)
    ensures Good(b, plan, h) && FoldsTo(gl, h) && Ledger(g0, b, plan, h)
  {
    hide Good, FoldsTo, Ledger;
  }

  lemma LinkTrailPlaced(g0: Graph, b: Graph, plan: Plan, locked: set<NodeId>, p: Progress, q: Progress, n: nat)
    requires LinkTrail(g0, b, plan, locked, p, q, n)
    ensures |p.ds| == |plan.items| && PlacedOnly(plan, p.g, q.g) && OpenedByLinks(plan, locked, p, q.g, n)
  {
    hide PlacedOnly, Ledger, OpenedByLinks;
  }

  ghost predicate DecisionsKept(g: Graph, h: Graph) {
    forall x :: x in g.nodes && g.nodes[x].kind == Decision ==> x in h.nodes && h.nodes[x] == g.nodes[x]
  }

  lemma DecisionsPlaced(plan: Plan, g: Graph, h: Graph)
    requires PlacedOnly(plan, g, h)
    ensures DecisionsKept(g, h)
  {
  }

  lemma DecisionsKeptFolding(g: Graph, h: Graph)
    requires FoldsTo(g, h)
    ensures DecisionsKept(g, h)
  {
    DecisionsFolded(g, h);
  }

  lemma DecisionsKeptChain(g: Graph, h: Graph, k: Graph)
    requires DecisionsKept(g, h) && DecisionsKept(h, k)
    ensures DecisionsKept(g, k)
  {
  }

  /** After the Decision phase no Decision row changes. */
  lemma DecisionsStay(plan: Plan, g0: Graph, b: Graph, p0: Progress, p1: Progress, p2: Progress, h: Graph)
    requires Stages(plan, g0, b, p0, p1, p2, h)
    ensures DecisionsKept(p1.g, h) && DecisionsKept(p2.g, h) && DecisionsKept(p1.g, p2.g)
    ensures Good(b, plan, h) && FoldsTo(p2.g, h) && PlacedOnly(plan, p1.g, p2.g)
  {
    hide Stages, FoldedExactly, Good, FoldsTo, Ledger, LinkTrail, PlacedOnly, DecisionsKept;
    StageParts(plan, g0, b, p0, p1, p2, h);
    LinkStageParts(plan, g0, b, p0, p1, p2, h);
    FoldedParts(g0, plan, b, p2.g, h);
    LinkTrailPlaced(g0, b, plan, ExistingTargets(plan), p1, p2, |plan.items|);
    DecisionsPlaced(plan, p1.g, p2.g);
    DecisionsKeptFolding(p2.g, h);
    DecisionsKeptChain(p1.g, p2.g, h);
  }

  lemma SettledToCommit(b: Graph, plan: Plan, f: Graph, g: Graph, h: Graph, n: nat)
    requires Settled(plan, f, g, n) && Good(b, plan, g)
    requires DecisionsKept(g, h)
    ensures Settled(plan, f, h, n)
  {
    hide Good;
    forall j | 0 <= j < n && IsDecision(plan, j)
      ensures SettledAt(plan, f, h, j)
    {
      assert SettledAt(plan, f, g, j);
      PlannedAt(b, plan, g, j);
    }
  }

  /** Decision i at its turn and at commit. */
  lemma DecisionTurns(plan: Plan, g0: Graph, b: Graph, p0: Progress, p1: Progress, p2: Progress, h: Graph, i: nat)
    returns (p: Progress, q: Progress)
    requires Stages(plan, g0, b, p0, p1, p2, h) && IsDecision(plan, i)
    ensures Decided(b, plan, p, i) && Ledger(g0, b, plan, p.g) && DecisionTurn(plan, p.g, q.g, i)
    ensures Settled(plan, p.g, h, i) && Settled(plan, q.g, h, i + 1)
  {
    var locked, n := ExistingTargets(plan), |plan.items|;
    hide DecisionStep, Decided, Ledger, Good, Settled, DecisionTurn, FoldedExactly, LinkTrail, Linked, FreshRows, TargetsKnown, MergesPlanned, Base, Stages, Trail, DecisionsKept, PlacedOnly, FoldsTo, DecisionPhase;
    StageParts(plan, g0, b, p0, p1, p2, h);
    DecisionsStay(plan, g0, b, p0, p1, p2, h);
    DecidedGood(b, plan, p1, n);
    DecisionPrefix(plan, locked, p0, i, n);
    DecisionPrefix(plan, locked, p0, i + 1, n);
    p := DecisionPhase(plan, locked, p0, i).value;
    q := DecisionPhase(plan, locked, p0, i + 1).value;
    DecisionPhaseTrail(g0, b, plan, locked, p0, i);
    PhaseSettles(b, plan, locked, p0, i, n);
    PhaseSettles(b, plan, locked, p0, i + 1, n);
    SettledToCommit(b, plan, p.g, p1.g, h, i);
    SettledToCommit(b, plan, q.g, p1.g, h, i + 1);
    TrailParts(g0, b, plan, p);
    NextDecision(plan, locked, p0, i);
    DecisionStepExactly(b, plan, locked, p, i);
  }

  lemma NextDecision(plan: Plan, locked: set<NodeId>, p: Progress, i: nat)
    requires i < |plan.items| == |p.ds| && DecisionPhase(plan, locked, p, i + 1).Ok?
    ensures DecisionPhase(plan, locked, p, i).Ok?
    ensures DecisionPhase(plan, locked, p, i + 1) == DecisionStep(plan, locked, DecisionPhase(plan, locked, p, i).value, i)
  {
    hide DecisionStep;
  }

  /**
   A planned Decision ends MERGED exactly when every merge gate passes, and then
   redirects to the root of its target; one that asks to merge without a target
   stays UNATTACHED; every other one is ACTIVE.
   */
  lemma DecisionsExactly(plan: Plan, g0: Graph, i: nat)
    requires Commits(plan, g0) && IsDecision(plan, i)
    ensures var h, s := Apply(plan, g0).value, plan.items[i].source.id;
            && s in h.nodes
            && h.nodes[s].state == (if DecisionMerges(plan, g0, h, i) then Merged else if Untargeted(plan, i) then Unattached else Active)
            && (DecisionMerges(plan, g0, h, i) ==> h.nodes[s].mergedInto == Some(Root(h, plan.items[i].directive.target.value)))
  {
    var b, p0, p1, p2 := StagesExist(plan, g0);
    var h := Apply(plan, g0).value;
    var p, q := DecisionTurns(plan, g0, b, p0, p1, p2, h, i);
    DecisionsStay(plan, g0, b, p0, p1, p2, h);
    StageParts(plan, g0, b, p0, p1, p2, h);
    hide Apply, Stages, Base, Decided, Ledger, Good, DecisionMerges, MergesAt, FoldsTo, PlacedOnly, Trail, FreshRows, TargetsKnown, DecisionPhase, FoldedExactly, DecisionsKept;
    assert SettledAt(plan, q.g, h, i);
    hide Settled;
    TurnGates(g0, b, plan, p, h, i);
  }

  // ----- links -----

  lemma TargetsLive(b: Graph, plan: Plan, locked: set<NodeId>, g: Graph, i: nat)
    requires Good(b, plan, g) && TargetsKnown(plan, locked, b) && i < |plan.items| && plan.items[i].directive.target.Some?
    ensures Live(g, plan.items[i].directive.target.value)
  {
    var t := plan.items[i].directive.target.value;
    assert TargetKnown(plan, locked, b, t);
    SameRows(b, plan, g);
    if Planned(plan, t) {
      var j :| 0 <= j < |plan.items| && plan.items[j].source.id == t;
      PlannedAt(b, plan, g, j);
    } else {
      assert Frozen(b.nodes[t], g.nodes[t]);
    }
  }

  lemma CarriedOver(plan: Plan, f: Graph, g: Graph, k: Graph, h: Graph, i: nat)
    requires PlacedOnly(plan, f, g) && DecisionsKept(f, h) && SameItems(plan, g, k, i) && FoldsTo(k, h)
    ensures Carried(plan, g, h, i)
  {
    forall j | 0 <= j < i && j < |plan.items| && !IsDecision(plan, j)
      ensures StandsActive(plan, g, j) <==> StandsActive(plan, h, j)
    {
      assert SameItem(plan, g, k, j);
      assert FoldedAt(k.nodes[plan.items[j].source.id], h.nodes[plan.items[j].source.id]);
    }
  }

  lemma NextLink(plan: Plan, locked: set<NodeId>, p: Progress, i: nat)
    requires i < |plan.items| == |p.ds| && LinkPhase(plan, locked, p, i + 1).Ok?
    ensures LinkPhase(plan, locked, p, i).Ok?
    ensures LinkPhase(plan, locked, p, i + 1) == LinkStep(plan, locked, LinkPhase(plan, locked, p, i).value, i)
  {
    hide LinkStep;
  }

  /** Item i at its link turn and at commit. */
  ghost predicate LinkTurned(plan: Plan, g0: Graph, b: Graph, p1: Progress, p2: Progress, h: Graph, i: nat, p: Progress, q: Progress) {
    && i < |plan.items| && |p1.ds| == |plan.items| && LinkPhase(plan, ExistingTargets(plan), p1, i) == Ok(p)
    && Linked(b, plan, p, i) && LinkTurn(plan, p.g, q.g, i) && SameItem(plan, q.g, p2.g, i)
    && Carried(plan, p.g, h, i) && (Links(plan, i) ==> Live(p.g, plan.items[i].directive.target.value))
  }

  lemma LinkTurns(plan: Plan, g0: Graph, b: Graph, p0: Progress, p1: Progress, p2: Progress, h: Graph, i: nat)
    returns (p: Progress, q: Progress)
    requires Stages(plan, g0, b, p0, p1, p2, h) && i < |plan.items|
    ensures LinkTurned(plan, g0, b, p1, p2, h, i, p, q)
  {
    var locked, n := ExistingTargets(plan), |plan.items|;
    hide LinkStep, Ledger, Good, LinkTurn, FoldedExactly, Linked, FreshRows, TargetsKnown, MergesPlanned, Base, Stages, Trail, DecisionsKept,
      PlacedOnly, FoldsTo, LinkPhase, SameItems, Carried, LinksPlanned, OpenedByLinks, Decided;
    StageParts(plan, g0, b, p0, p1, p2, h);
    LinkStageParts(plan, g0, b, p0, p1, p2, h);
    TrailParts(g0, b, plan, p1);
    DecisionsStay(plan, g0, b, p0, p1, p2, h);
    LinkPrefix(plan, locked, p1, i, n);
    LinkPrefix(plan, locked, p1, i + 1, n);
    p := LinkPhase(plan, locked, p1, i).value;
    q := LinkPhase(plan, locked, p1, i + 1).value;
    LinkPhaseTrail(g0, b, plan, locked, p1, i);
    LinkPhaseSettles(b, plan, locked, p1, i, n);
    LinkPhaseSettles(b, plan, locked, p1, i + 1, n);
    SameItemOf(plan, q.g, p2.g, i);
    NextLink(plan, locked, p1, i);
    LinkStepExactly(b, plan, locked, p, i);
    CarriedOver(plan, p1.g, p.g, p2.g, h, i);
    LinkedGood(b, plan, p, i);
    if Links(plan, i) {
      TargetsLive(b, plan, locked, p.g, i);
    }
  }

  lemma SameItemOf(plan: Plan, g: Graph, h: Graph, i: nat)
    requires SameItems(plan, g, h, i + 1) && i < |plan.items|
    ensures SameItem(plan, g, h, i)
  {
  }

  /** At commit exactly these relations are open: the ones open before and one for each link whose gates passed. */
  lemma RelationsExactly(plan: Plan, g0: Graph, k: RelationKey)
    requires Commits(plan, g0)
    ensures var h := Apply(plan, g0).value;
            Open(h, k) <==> Open(g0, k) || exists i: nat :: Opens(plan, g0, h, i) && k == LinkKey(plan, i)
  {
    var b, p0, p1, p2 := StagesExist(plan, g0);
    var h := Apply(plan, g0).value;
    StageParts(plan, g0, b, p0, p1, p2, h);
    LinkStageParts(plan, g0, b, p0, p1, p2, h);
    RelationsThrough(plan, g0, b, p1, p2, h);
    hide Apply, Base, FreshRows, TargetsKnown, Decided, Trail, DecisionPhase, FoldedExactly, Linked, LinkTrail, MergesPlanned, LinkPhase, TurnOpens, Opens, LinkKey, Stages;
    forall i: nat | i < |plan.items|
      ensures TurnOpens(plan, ExistingTargets(plan), p1, i, k) <==> Opens(plan, g0, h, i) && k == LinkKey(plan, i)
    {
      TurnOpensIff(plan, g0, b, p0, p1, p2, h, i, k);
    }
    OpensInPlan(plan, g0, h);
  }

  lemma OpensInPlan(plan: Plan, g0: Graph, h: Graph)
    ensures forall i: nat :: Opens(plan, g0, h, i) ==> i < |plan.items| && Links(plan, i)
  {
  }

  lemma RelationsThrough(plan: Plan, g0: Graph, b: Graph, p1: Progress, p2: Progress, h: Graph)
    requires Base(g0, plan, b) && Trail(g0, b, plan, p1) && |p1.ds| == |plan.items| && FoldedExactly(g0, plan, b, p2.g, h)
    requires LinkTrail(g0, b, plan, ExistingTargets(plan), p1, p2, |plan.items|)
    ensures forall k :: Open(h, k) <==> Open(g0, k) || exists i: nat :: i < |plan.items| && TurnOpens(plan, ExistingTargets(plan), p1, i, k)
  {
    hide Ledger, Good, PlacedOnly, TurnOpens;
    assert h.relations == p2.g.relations && p1.g.relations == g0.relations;
    assert forall k :: (Open(h, k) <==> Open(p2.g, k)) && (Open(p1.g, k) <==> Open(g0, k));
  }

  lemma TurnOpensIff(plan: Plan, g0: Graph, b: Graph, p0: Progress, p1: Progress, p2: Progress, h: Graph, i: nat, k: RelationKey)
    requires Stages(plan, g0, b, p0, p1, p2, h) && i < |plan.items| && |p1.ds| == |plan.items|
    ensures TurnOpens(plan, ExistingTargets(plan), p1, i, k) <==> Opens(plan, g0, h, i) && k == LinkKey(plan, i)
  {
    var p, q := LinkTurns(plan, g0, b, p0, p1, p2, h, i);
    StageParts(plan, g0, b, p0, p1, p2, h);
    DecisionsStay(plan, g0, b, p0, p1, p2, h);
    hide Stages, Base, Linked, Good, Carried, LinkPhase, OpensAt, LinkTurn, FoldsTo, PlacedOnly, FoldedExactly, Decided, Trail, DecisionsKept, FreshRows, TargetsKnown;
    LinkGates(g0, b, plan, p, h, i);
    hide LinkVersionOk, Adopts, LinkKey;
  }

  // ----- Actions and Issues -----

  /** The version gate of a dependent merge: the stored root as it was, or no newer than the planned node's first version. */
  ghost predicate FoldVersionOk(plan: Plan, g0: Graph, t: NodeId, expected: Option<nat>) {
    expected.Some? ==>
      if t in g0.nodes then HasChain(g0, t) && Root(g0, t) in g0.nodes && g0.nodes[Root(g0, t)].version == expected.value
      else expected.value <= 1
  }

  /** The target is another live node of the kind, within reach and at the planned version. */
  ghost predicate FoldPasses(plan: Plan, g0: Graph, h: Graph, i: nat) {
    && i < |plan.items| && plan.items[i].directive.target.Some?
    && var t := plan.items[i].directive.target.value;
    && t != plan.items[i].source.id && Live(h, t) && h.nodes[t].kind == plan.items[i].source.kind && h.nodes[t].project == plan.project
    && (t in g0.nodes ==> HasChain(g0, t) && Depth(g0, t) <= 127)
    && FoldVersionOk(plan, g0, t, plan.items[i].directive.version)
  }

  /**
   Whether planned Action or Issue i is merged away, in terms of the committed
   graph: it asks to, its target passes, and for an Action its planned Decision
   parent is the target's.
   */
  ghost predicate DependentMerges(plan: Plan, g0: Graph, h: Graph, i: nat) {
    && FoldPasses(plan, g0, h, i) && plan.items[i].directive.action == Merge
    && GateAt(plan, h, i, GroupOf(plan, g0, i))
  }

  lemma StoredDepth(g0: Graph, plan: Plan, b: Graph, g: Graph, x: NodeId)
    requires Base(g0, plan, b) && Frame(b, plan, g) && Live(g0, x)
    ensures HasChain(g0, x) && HasChain(g, x) && Depth(g, x) == Depth(g0, x)
  {
    RootFacts(g0, x);
    forall y | Live(g0, y)
      ensures Live(g, y) && g.nodes[y].mergedInto == g0.nodes[y].mergedInto
    {
      StoredIsNotPlanned(g0, plan, b, y);
      assert Frozen(b.nodes[y], g.nodes[y]);
    }
    KeepsChains(g0, g, x);
  }

  /** What the fold gates read of a target, at the end of the link phase. */
  ghost predicate TargetReads(plan: Plan, g0: Graph, g: Graph, t: NodeId, expected: Option<nat>) {
    && HasChain(g, t) && Root(g, t) in g.nodes
    && (forall i :: 0 <= i < |plan.items| && plan.items[i].source.id == Root(g, t) ==> t == Root(g, t))
    && (Depth(g, t) <= 127 <==> (t in g0.nodes ==> HasChain(g0, t) && Depth(g0, t) <= 127))
    && (VersionValid(plan, g.nodes[Root(g, t)], expected) <==> FoldVersionOk(plan, g0, t, expected))
  }

  lemma StoredReads(plan: Plan, g0: Graph, b: Graph, g: Graph, t: NodeId, expected: Option<nat>)
    requires Base(g0, plan, b) && Frame(b, plan, g) && StoredDependentsUntouched(b, plan, g) && t in g0.nodes && Live(g, t) && g.nodes[t].kind != Decision
    ensures TargetReads(plan, g0, g, t, expected)
  {
    StoredHome(g0, b, plan, g, g, t);
    StoredRoots(g0, plan, b, g, t);
    StoredDepth(g0, plan, b, g, t);
    var r := Root(g0, t);
    StoredIsNotPlanned(g0, plan, b, t);
    StoredIsNotPlanned(g0, plan, b, r);
    assert Frozen(b.nodes[t], g.nodes[t]);
    assert g.nodes[r] == g0.nodes[r];
    assert RunsOk(g0);
    if VersionValid(plan, g0.nodes[r], expected) {
      StoredVersion(g0, plan, r, expected);
    }
  }

  lemma PlannedReads(plan: Plan, g0: Graph, b: Graph, p: Progress, j: nat, expected: Option<nat>)
    requires Base(g0, plan, b) && Linked(b, plan, p, |plan.items|) && Ledger(g0, b, plan, p.g) && j < |plan.items| && !IsDecision(plan, j)
    ensures TargetReads(plan, g0, p.g, plan.items[j].source.id, expected)
  {
    var t := plan.items[j].source.id;
    LinkedGood(b, plan, p, |plan.items|);
    NothingMerged(b, plan, p);
    PlannedHome(b, plan, p.g, j);
    assert LinkStatus(plan, p, |plan.items|, j);
    SameRows(b, plan, p.g);
    assert VersionLedger(b, plan, p.g, t) && TextLedger(g0, b, plan, p.g, t);
    assert t !in g0.nodes && b.nodes[t] == NewNode(plan, plan.items[j].source);
    NoAbsorbers(b, plan, p, j);
    hide Good, Linked, Base, Ledger;
    assert IsChain(p.g, [t]);
    ChainIs(p.g, [t]);
  }

  lemma NoAbsorbers(b: Graph, plan: Plan, p: Progress, j: nat)
    requires Linked(b, plan, p, |plan.items|) && j < |plan.items| && !IsDecision(plan, j)
    ensures !HasAbsorbed(plan, p.g, plan.items[j].source.id)
    ensures Absorbers(plan, p.g, plan.items[j].source.id, |plan.items|) == {}
  {
    var t := plan.items[j].source.id;
    LinkedGood(b, plan, p, |plan.items|);
    NothingMerged(b, plan, p);
    PlannedHome(b, plan, p.g, j);
    hide Good, Linked;
    forall k
      ensures !MergedTo(plan, p.g, k, t)
    {
      if MergedTo(plan, p.g, k, t) {
        RootItselfKind(b, plan, p.g, k, t);
        assert false;
      }
    }
  }

  lemma ReadsOf(plan: Plan, g0: Graph, b: Graph, p: Progress, t: NodeId, expected: Option<nat>)
    requires Base(g0, plan, b) && Linked(b, plan, p, |plan.items|) && Ledger(g0, b, plan, p.g) && Live(p.g, t) && p.g.nodes[t].kind != Decision
    ensures TargetReads(plan, g0, p.g, t, expected)
  {
    LinkedGood(b, plan, p, |plan.items|);
    GoodParts(b, plan, p.g);
    hide Base, Linked, Good, Ledger, ForestInv, TargetReads;
    StoredOrPlanned(g0, b, plan, p.g, t);
    if t in g0.nodes {
      StoredReads(plan, g0, b, p.g, t, expected);
    } else {
      var j :| 0 <= j < |plan.items| && plan.items[j].source.id == t;
      PlannedHome(b, plan, p.g, j);
      PlannedReads(plan, g0, b, p, j, expected);
    }
  }

  lemma NotPrepared(plan: Plan, g0: Graph, g: Graph, h: Graph, i: nat, t: NodeId)
    requires FoldsTo(g, h) && i < |plan.items| && plan.items[i].directive.target == Some(t)
    requires !(Live(g, t) && g.nodes[t].kind == plan.items[i].source.kind)
    ensures !PreparesAt(plan, g, i) && !FoldPasses(plan, g0, h, i)
  {
    hide VersionValid, FoldVersionOk;
    assert t in g.nodes ==> FoldedAt(g.nodes[t], h.nodes[t]);
  }

  lemma SelfRoot(b: Graph, plan: Plan, p: Progress, i: nat)
    requires Linked(b, plan, p, |plan.items|) && i < |plan.items| && !IsDecision(plan, i)
    ensures HasChain(p.g, plan.items[i].source.id) && Root(p.g, plan.items[i].source.id) == plan.items[i].source.id
  {
    LinkedGood(b, plan, p, |plan.items|);
    PlannedHome(b, plan, p.g, i);
    hide Good, Linked;
    assert LinkStatus(plan, p, |plan.items|, i);
  }

  lemma PreparesIff(plan: Plan, g0: Graph, b: Graph, p: Progress, h: Graph, i: nat)
    requires Base(g0, plan, b) && Linked(b, plan, p, |plan.items|) && FoldsTo(p.g, h) && Ledger(g0, b, plan, p.g)
    requires i < |plan.items| && !IsDecision(plan, i)
    ensures PreparesAt(plan, p.g, i) <==> FoldPasses(plan, g0, h, i)
  {
    if plan.items[i].directive.target.Some? {
      var t := plan.items[i].directive.target.value;
      if Live(p.g, t) && p.g.nodes[t].kind == plan.items[i].source.kind {
        assert t in h.nodes && FoldedAt(p.g.nodes[t], h.nodes[t]);
        hide Base, Linked, Ledger, FoldsTo, PreparesAt, FoldPasses, TargetReads, FoldedAt;
        ReadsOf(plan, g0, b, p, t, plan.items[i].directive.version);
        SelfRoot(b, plan, p, i);
        PassesFromReads(plan, g0, p.g, h, i, t);
      } else {
        hide Base, Linked, Ledger, FoldsTo, PreparesAt, FoldPasses;
        NotPrepared(plan, g0, p.g, h, i, t);
      }
    }
  }

  lemma PassesFromReads(plan: Plan, g0: Graph, g: Graph, h: Graph, i: nat, t: NodeId)
    requires i < |plan.items| && plan.items[i].directive.target == Some(t) && Live(g, t) && g.nodes[t].kind == plan.items[i].source.kind
    requires TargetReads(plan, g0, g, t, plan.items[i].directive.version) && t in h.nodes && FoldedAt(g.nodes[t], h.nodes[t])
    requires plan.items[i].source.id == t ==> Root(g, t) == t
    ensures PreparesAt(plan, g, i) <==> FoldPasses(plan, g0, h, i)
  {
    hide VersionValid, FoldVersionOk;
  }

  lemma FoldGates(plan: Plan, g0: Graph, b: Graph, p: Progress, h: Graph, i: nat)
    requires Base(g0, plan, b) && Linked(b, plan, p, |plan.items|) && FoldsTo(p.g, h) && Good(b, plan, h) && Ledger(g0, b, plan, p.g)
    requires i < |plan.items| && !IsDecision(plan, i)
    ensures FoldsAt(plan, p.g, i) <==> DependentMerges(plan, g0, h, i)
  {
    LinkedGood(b, plan, p, |plan.items|);
    GoodParts(b, plan, p.g);
    GoodParts(b, plan, h);
    hide Base, Linked, FoldsTo, Good, Ledger, GateAt, ForestInv, PreparesAt, FoldPasses, GroupOf;
    PreparesIff(plan, g0, b, p, h, i);
    if PreparesAt(plan, p.g, i) {
      TargetIsGroup(g0, b, plan, p, i);
      GatesSame(plan, p.g, h, i, GroupOf(plan, g0, i));
    }
  }

  /** A merged item's pointer is the root its target has at commit. */
  lemma HomeIsRoot(g0: Graph, b: Graph, plan: Plan, h: Graph, i: nat)
    requires Base(g0, plan, b) && Good(b, plan, h) && PointsHome(plan, g0, h, i) && StateOf(plan, h, i) == Merged
    ensures var t := plan.items[i].directive.target.value;
            HasChain(h, t) && h.nodes[plan.items[i].source.id].mergedInto == Some(Root(h, t))
  {
    var t, r := plan.items[i].directive.target.value, h.nodes[plan.items[i].source.id].mergedInto.value;
    PlannedAt(b, plan, h, i);
    GoodParts(b, plan, h);
    assert NodeShape(h.nodes[r]);
    if r == t {
      RootItself(h, t);
    } else if Live(g0, t) && HasChain(g0, t) && r == Root(g0, t) {
      StoredRoots(g0, plan, b, h, t);
    } else {
      RootOneStep(h, t, r);
    }
  }

  ghost predicate PlacedAs(plan: Plan, g0: Graph, h: Graph, i: nat)
    requires i < |plan.items|
  {
    var s, t := plan.items[i].source.id, plan.items[i].directive.target;
    && s in h.nodes
    && h.nodes[s].state == (if Opens(plan, g0, h, i) && Attaches(plan, i) then Active
                            else if DependentMerges(plan, g0, h, i) then Merged else Unattached)
    && (h.nodes[s].state != Unattached ==> t.Some? && HasChain(h, t.value))
    && (h.nodes[s].state == Active ==> h.nodes[s].parent == Some(Root(h, t.value)))
    && (h.nodes[s].state == Merged ==> h.nodes[s].mergedInto == Some(Root(h, t.value)))
  }

  lemma WaitsForLink(b: Graph, plan: Plan, p: Progress, i: nat)
    requires Linked(b, plan, p, i) && i < |plan.items| && !IsDecision(plan, i)
    ensures Waiting(plan, p.g, i)
  {
    hide Good;
    assert LinkStatus(plan, p, i, i);
  }

  /** From link turn to commit, for one item. */
  lemma LinkedToCommit(plan: Plan, g0: Graph, b: Graph, p: Progress, q: Graph, gl: Graph, h: Graph, i: nat)
    requires Base(g0, plan, b) && i < |plan.items| && !IsDecision(plan, i) && Waiting(plan, p.g, i) && LinkTurn(plan, p.g, q, i) && SameItem(plan, q, gl, i)
    requires FoldsTo(gl, h) && (OpensAt(plan, p.g, i) <==> Opens(plan, g0, h, i))
    requires OpensAt(plan, p.g, i) && Attaches(plan, i) ==>
               var t := plan.items[i].directive.target.value; HasChain(h, t) && Root(p.g, t) == Root(h, t)
    requires plan.items[i].source.id in h.nodes && (StateOf(plan, h, i) == Merged <==> DependentMerges(plan, g0, h, i))
    requires StateOf(plan, h, i) == Merged ==>
               var t := plan.items[i].directive.target.value; HasChain(h, t) && h.nodes[plan.items[i].source.id].mergedInto == Some(Root(h, t))
    ensures PlacedAs(plan, g0, h, i)
  {
    hide OpensAt, LinkVersionOk, Adopts, Base, GateAt;
    var s := plan.items[i].source.id;
    assert FoldedAt(gl.nodes[s], h.nodes[s]);
  }

  lemma PlacedOf(plan: Plan, g0: Graph, b: Graph, p0: Progress, p1: Progress, p2: Progress, h: Graph, i: nat)
    requires Stages(plan, g0, b, p0, p1, p2, h) && i < |plan.items| && !IsDecision(plan, i)
    ensures PlacedAs(plan, g0, h, i)
  {
    var p, q := LinkTurns(plan, g0, b, p0, p1, p2, h, i);
    hide Base, Linked, FoldsTo, Good, Ledger, FreshRows, TargetsKnown, Decided, Trail, DecisionPhase, LinkTrail, MergesPlanned, LinkPhase,
      OpensAt, Opens, LinkTurn, DependentMerges, PointsHome, FoldsAt, Carried, DecisionsKept, PlacedOnly, PlacedAs, Stages;
    StageParts(plan, g0, b, p0, p1, p2, h);
    LinkStageParts(plan, g0, b, p0, p1, p2, h);
    FoldedParts(g0, plan, b, p2.g, h);
    LinkTrailParts(g0, b, plan, ExistingTargets(plan), p1, p2, |plan.items|);
    LinkGates(g0, b, plan, p, h, i);
    FoldGates(plan, g0, b, p2, h, i);
    WaitsForLink(b, plan, p, i);
    assert StateOf(plan, h, i) == Merged <==> FoldsAt(plan, p2.g, i);
    if StateOf(plan, h, i) == Merged {
      HomeIsRoot(g0, b, plan, h, i);
    }
    LinkedToCommit(plan, g0, b, p, q.g, p2.g, h, i);
  }

  /**
   A planned Action or Issue is ACTIVE exactly when its ATTACHED_TO link passed,
   and then under the root of the link's target; MERGED exactly when its merge
   passed, and then redirected to the root of its target; otherwise UNATTACHED.
   */
  lemma DependentsExactlyPlaced(plan: Plan, g0: Graph, i: nat)
    requires Commits(plan, g0) && i < |plan.items| && !IsDecision(plan, i)
    ensures PlacedAs(plan, g0, Apply(plan, g0).value, i)
  {
    var b, p0, p1, p2 := StagesExist(plan, g0);
    var h := Apply(plan, g0).value;
    hide Apply, PlacedAs, Stages;
    PlacedOf(plan, g0, b, p0, p1, p2, h, i);
  }

  // ----- rows -----

  /** After any merge the last one wrote the text; a row last written by a user keeps it. */
  ghost predicate TextAfter(plan: Plan, g0: Graph, h: Graph, x: NodeId, byUser: bool, title: string, content: string)
    requires x in h.nodes
  {
    if byUser then h.nodes[x].title == title && h.nodes[x].content == content && h.nodes[x].lastActor == User
    else exists i: nat :: Latest(plan, g0, h, i, x) && Wrote(plan, i, h.nodes[x])
  }

  /**
   A stored row at commit: its place is the same; its version moved by one for
   each planned node merged into it, the first revision of a row without one being
   free; with none it is the same row, and otherwise this run authored its
   revision, over its own evidence first, and the last merge its text, unless a
   user had written it last.
   */
  lemma StoredRowsExactly(plan: Plan, g0: Graph, x: NodeId)
    requires Commits(plan, g0) && x in g0.nodes
    ensures var h := Apply(plan, g0).value;
            && x in h.nodes
            && var n, m, c := g0.nodes[x], h.nodes[x], |Absorbers(plan, h, x, |plan.items|)|;
            && m.state == n.state && m.parent == n.parent && m.mergedInto == n.mergedInto && m.needsAttention == n.needsAttention
            && m.kind == n.kind && m.category == n.category && m.project == n.project
            && m.version == n.version + c - (if c > 0 && n.revision.None? then 1 else 0)
            && (c == 0 ==> m == n)
            && (c > 0 ==> Authored(plan, m) && Dedup(CurrentEvidence(n)) <= CurrentEvidence(m) && TextAfter(plan, g0, h, x, n.lastActor == User, n.title, n.content))
  {
    var b, p0, p1, p2 := StagesExist(plan, g0);
    var h := Apply(plan, g0).value;
    hide Apply, Stages;
    StageParts(plan, g0, b, p0, p1, p2, h);
    FoldedParts(g0, plan, b, p2.g, h);
    hide Base, FreshRows, TargetsKnown, Decided, Trail, DecisionPhase, FoldedExactly, Good, FoldsTo, Ledger, Inv, OpsFresh;
    StoredRowOf(plan, g0, b, h, x);
  }

  lemma StoredRowOf(plan: Plan, g0: Graph, b: Graph, h: Graph, x: NodeId)
    requires Base(g0, plan, b) && Good(b, plan, h) && Ledger(g0, b, plan, h) && x in g0.nodes
    ensures x in h.nodes
    ensures var n, m, c := g0.nodes[x], h.nodes[x], |Absorbers(plan, h, x, |plan.items|)|;
            && m.state == n.state && m.parent == n.parent && m.mergedInto == n.mergedInto && m.needsAttention == n.needsAttention
            && m.kind == n.kind && m.category == n.category && m.project == n.project
            && m.version == n.version + c - (if c > 0 && n.revision.None? then 1 else 0)
            && (c == 0 ==> m == n)
            && (c > 0 ==> Authored(plan, m) && Dedup(CurrentEvidence(n)) <= CurrentEvidence(m) && TextAfter(plan, g0, h, x, n.lastActor == User, n.title, n.content))
  {
    GoodParts(b, plan, h);
    StoredIsNotPlanned(g0, plan, b, x);
    hide Base, Good, ForestInv;
    assert Frozen(b.nodes[x], h.nodes[x]) && VersionLedger(b, plan, h, x) && TextLedger(g0, b, plan, h, x);
    AbsorbersAre(plan, h, x);
    hide Frame, Ledger, MergedTo, Latest;
  }

  lemma AbsorbersAre(plan: Plan, h: Graph, x: NodeId)
    ensures HasAbsorbed(plan, h, x) <==> |Absorbers(plan, h, x, |plan.items|)| > 0
  {
    var a := Absorbers(plan, h, x, |plan.items|);
    if HasAbsorbed(plan, h, x) {
      var j :| MergedTo(plan, h, j, x);
      assert j in a;
    }
    if |a| > 0 {
      var j :| j in a;
      assert MergedTo(plan, h, j, x);
    }
  }

  /**
   A planned row at commit: version 1, one more for each node merged into it and
   one more if it was itself merged; the candidate's text, or that of the last
   merge into it; a revision authored by this run.
   */
  lemma PlannedRowsExactly(plan: Plan, g0: Graph, i: nat)
    requires Commits(plan, g0) && i < |plan.items|
    ensures var h, src := Apply(plan, g0).value, plan.items[i].source;
            && src.id in h.nodes
            && var m, c := h.nodes[src.id], |Absorbers(plan, h, src.id, |plan.items|)|;
            && m.kind == src.kind && m.category == src.category && m.project == plan.project && !m.needsAttention
            && m.version == 1 + c + (if m.state == Merged then 1 else 0)
            && m.lastActor == System && Authored(plan, m)
            && (c == 0 ==> m.title == src.title && m.content == src.content && CurrentEvidence(m) == src.evidence)
            && (c > 0 ==> Dedup(src.evidence) <= CurrentEvidence(m) && TextAfter(plan, g0, h, src.id, false, "", ""))
  {
    var b, p0, p1, p2 := StagesExist(plan, g0);
    var h := Apply(plan, g0).value;
    hide Apply, Stages;
    StageParts(plan, g0, b, p0, p1, p2, h);
    FoldedParts(g0, plan, b, p2.g, h);
    hide Base, FreshRows, TargetsKnown, Decided, Trail, DecisionPhase, FoldedExactly, Good, FoldsTo, Ledger, Inv, OpsFresh;
    PlannedRowOf(plan, g0, b, h, i);
  }

  lemma PlannedRowOf(plan: Plan, g0: Graph, b: Graph, h: Graph, i: nat)
    requires Base(g0, plan, b) && Good(b, plan, h) && Ledger(g0, b, plan, h) && i < |plan.items|
    ensures var src := plan.items[i].source;
            && src.id in h.nodes
            && var m, c := h.nodes[src.id], |Absorbers(plan, h, src.id, |plan.items|)|;
            && m.kind == src.kind && m.category == src.category && m.project == plan.project && !m.needsAttention
            && m.version == 1 + c + (if m.state == Merged then 1 else 0)
            && m.lastActor == System && Authored(plan, m)
            && (c == 0 ==> m.title == src.title && m.content == src.content && CurrentEvidence(m) == src.evidence)
            && (c > 0 ==> Dedup(src.evidence) <= CurrentEvidence(m) && TextAfter(plan, g0, h, src.id, false, "", ""))
  {
    var t := plan.items[i].source.id;
    PlannedHome(b, plan, h, i);
    PlannedAt(b, plan, h, i);
    SameRows(b, plan, h);
    assert b.nodes[t] == NewNode(plan, plan.items[i].source);
    hide Base, Good;
    assert VersionLedger(b, plan, h, t) && TextLedger(g0, b, plan, h, t);
    AbsorbersAre(plan, h, t);
    hide Ledger, MergedTo, Latest;
  }

  /** No row appears or disappears but the planned ones. */
  lemma RowsAreStoredOrPlanned(plan: Plan, g0: Graph, x: NodeId)
    requires Commits(plan, g0)
    ensures x in Apply(plan, g0).value.nodes <==> x in g0.nodes || Planned(plan, x)
    ensures x in g0.nodes ==> !Planned(plan, x)
  {
    var b, p0, p1, p2 := StagesExist(plan, g0);
    var h := Apply(plan, g0).value;
    hide Apply, Stages;
    StageParts(plan, g0, b, p0, p1, p2, h);
    FoldedParts(g0, plan, b, p2.g, h);
    SameRows(b, plan, h);
    hide FreshRows, TargetsKnown, Decided, Trail, DecisionPhase, FoldedExactly, Good, FoldsTo;
    if Planned(plan, x) {
      var i :| 0 <= i < |plan.items| && plan.items[i].source.id == x;
      assert x in b.nodes;
    }
  }

  /** No apply changes or loses an operation that was in the log. */
  lemma ApplyKeepsLogged(plan: Plan, g0: Graph)
    requires Commits(plan, g0)
    ensures KeepsOps(g0, Apply(plan, g0).value)
  {
    var b, p0, p1, p2 := StagesExist(plan, g0);
    var h := Apply(plan, g0).value;
    hide Apply, Stages;
    StageParts(plan, g0, b, p0, p1, p2, h);
    LinkStageParts(plan, g0, b, p0, p1, p2, h);
    FoldedParts(g0, plan, b, p2.g, h);
    assert b.ops == g0.ops;
    hide Base, FreshRows, TargetsKnown, Decided, DecisionPhase, FoldedExactly, Good, Ledger, OpenedByLinks, PlacedOnly, Linked, LinkPhase;
    assert KeepsOps(b, p1.g) && p2.g.ops == p1.g.ops && KeepsOps(p2.g, h);
  }
}

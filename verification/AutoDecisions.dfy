/** Which planned Decisions are merged away, and into what: the Decision phase read at its end. */
module AutoDecisions {
  import opened Options
  import opened GraphModel
  import opened GraphResolve
  import opened GraphMerge
  import opened AutoPlan
  import opened AutoApply
  import opened AutoPhases
  import opened AutoTheorems
  import opened AutoCommit
  import opened AutoLedger

  /** Every planned target is in the plan or locked, and every locked target is stored and live. */
  ghost predicate TargetsKnown(plan: Plan, locked: set<NodeId>, b: Graph) {
    forall i :: 0 <= i < |plan.items| && plan.items[i].directive.target.Some? ==> TargetKnown(plan, locked, b, plan.items[i].directive.target.value)
  }

  predicate TargetKnown(plan: Plan, locked: set<NodeId>, b: Graph, t: NodeId) {
    (Planned(plan, t) || t in locked) && Live(b, t)
  }

  /** The gates of a Decision merge, read on the graph of its turn. */
  ghost predicate MergesAt(plan: Plan, g: Graph, i: nat) {
    && i < |plan.items| && plan.items[i].directive.action == Merge && plan.items[i].directive.target.Some?
    && var t := plan.items[i].directive.target.value;
    && Live(g, t) && HasChain(g, t) && Root(g, t) in g.nodes
    && VersionValid(plan, g.nodes[t], plan.items[i].directive.version)
    && g.nodes[Root(g, t)].state == Active && g.nodes[Root(g, t)].category == plan.items[i].source.category
  }

  /** What the turn of Decision i does to its row. */
  ghost predicate DecisionTurn(plan: Plan, g: Graph, h: Graph, i: nat) {
    && i < |plan.items| && plan.items[i].source.id in h.nodes
    && if MergesAt(plan, g, i) then
         var t := plan.items[i].directive.target.value;
         && StateOf(plan, h, i) == Merged && MergedTo(plan, h, i, Root(g, t))
         && g.nodes[Root(g, t)].kind == Decision && Merges(plan, g, i, t, Root(g, t), h)
       else
         && StateOf(plan, h, i) == (if Untargeted(plan, i) then Unattached else Active)
         && OnlyPlaced(g, h, plan.items[i].source.id) && h.relations == g.relations && h.ops == g.ops
  }

  /** Nothing differs but state and parent of s. */
  predicate OnlyPlaced(g: Graph, h: Graph, s: NodeId) {
    && s in g.nodes && s in h.nodes && h.nodes == g.nodes[s := h.nodes[s]]
    && h.nodes[s] == g.nodes[s].(state := h.nodes[s].state, parent := h.nodes[s].parent)
  }

  lemma DecisionStepExactly(b: Graph, plan: Plan, locked: set<NodeId>, p: Progress, i: nat)
    requires i < |plan.items| == |p.ds| && Decided(b, plan, p, i) && IsDecision(plan, i) && TargetsKnown(plan, locked, b)
    requires DecisionStep(plan, locked, p, i).Ok?
    ensures DecisionTurn(plan, p.g, DecisionStep(plan, locked, p, i).value.g, i)
  {
    hide Good, LogicalMerge, Resolve, OnlyPlaced;
    var d := plan.items[i].directive;
    var s := plan.items[i].source.id;
    var q := DecisionStep(plan, locked, p, i).value;
    assert Waiting(plan, p.g, i) && p.ds[i] == d;
    ActivatePlaces(p.g, s);
    if d.action == Merge && d.target.Some? {
      var t := d.target.value;
      SameRows(b, plan, p.g);
      assert TargetKnown(plan, locked, b, t);
      DecisionGate(b, plan, p.g, i, t);
      if LogicalMerge(plan, p.g, i, t).Ok? {
        MergeTurn(b, plan, p.g, i, t);
      }
    }
  }

  lemma ActivatePlaces(g: Graph, s: NodeId)
    requires s in g.nodes
    ensures OnlyPlaced(g, g, s) && OnlyPlaced(g, g.(nodes := g.nodes[s := g.nodes[s].(state := Active)]), s)
  {
  }

  lemma DecisionGate(b: Graph, plan: Plan, g: Graph, i: nat, t: NodeId)
    requires Good(b, plan, g) && i < |plan.items|
    ensures var r := Resolve(g, plan.project, t, Some(plan.items[i].source.kind));
            r.Ok? ==> Live(g, t) && HasChain(g, t) && r.value == Root(g, t) && Root(g, t) in g.nodes
                      && g.nodes[Root(g, t)].kind == plan.items[i].source.kind
  {
    if Resolve(g, plan.project, t, Some(plan.items[i].source.kind)).Ok? {
      ResolveOk(g, plan.project, t, Some(plan.items[i].source.kind));
    }
  }

  lemma MergeTurn(b: Graph, plan: Plan, g: Graph, i: nat, t: NodeId)
    requires Good(b, plan, g) && ParentsStored(b, plan) && Waiting(plan, g, i) && LogicalMerge(plan, g, i, t).Ok?
    ensures var h := LogicalMerge(plan, g, i, t).value;
            && HasChain(g, t) && plan.items[i].source.id in h.nodes && StateOf(plan, h, i) == Merged && MergedTo(plan, h, i, Root(g, t))
            && Merges(plan, g, i, t, Root(g, t), h)
  {
    hide LogicalMerge;
    PlannedAt(b, plan, g, i);
    WaitingHasNoChild(b, plan, g, i);
    LogicalMergeFacts(plan, g, i, t);
    var h := LogicalMerge(plan, g, i, t).value;
    var r :| Merges(plan, g, i, t, r, h);
    ResolveOk(g, plan.project, t, Some(plan.items[i].source.kind));
    MergesWrites(plan, g, i, t, r, h);
  }

  // ----- over the whole phase -----

  lemma {:induction false} DecisionPrefix(plan: Plan, locked: set<NodeId>, p: Progress, m: nat, n: nat)
    requires m <= n <= |plan.items| == |p.ds| && DecisionPhase(plan, locked, p, n).Ok?
    ensures DecisionPhase(plan, locked, p, m).Ok?
    decreases n
  {
    if m < n {
      DecisionPrefix(plan, locked, p, m, n - 1);
    }
  }

  /** What every prefix of the phase keeps besides `Decided`. */
  ghost predicate Trail(g0: Graph, b: Graph, plan: Plan, p: Progress) {
    && Ledger(g0, b, plan, p.g) && p.g.relations == b.relations && LinksPlanned(plan, p, 0) && KeepsOps(b, p.g)
  }

  /** From item n on, a LINK directive is the planned one. */
  ghost predicate LinksPlanned(plan: Plan, p: Progress, n: nat) {
    |p.ds| == |plan.items| &&
    forall j :: n <= j < |p.ds| && (p.ds[j].action == Link || plan.items[j].directive.action == Link)
      ==> p.ds[j] == plan.items[j].directive
  }

  lemma PlacedKeepsLedger(g0: Graph, b: Graph, plan: Plan, g: Graph, h: Graph, s: NodeId)
    requires Ledger(g0, b, plan, g) && OnlyPlaced(g, h, s)
    ensures Ledger(g0, b, plan, h)
  {
    assert forall j, x :: MergedTo(plan, h, j, x) <==> MergedTo(plan, g, j, x);
    hide MergedTo, Before, Authored;
    forall x | x in b.nodes && x in h.nodes
      ensures VersionLedger(b, plan, h, x) && TextLedger(g0, b, plan, h, x)
    {
      assert VersionLedger(b, plan, g, x) && TextLedger(g0, b, plan, g, x);
      assert Absorbers(plan, h, x, |plan.items|) == Absorbers(plan, g, x, |plan.items|);
      assert HasAbsorbed(plan, h, x) <==> HasAbsorbed(plan, g, x);
      if HasAbsorbed(plan, g, x) && b.nodes[x].lastActor != User {
        var k: nat :| Latest(plan, g0, g, k, x) && Wrote(plan, k, g.nodes[x]);
        assert Latest(plan, g0, h, k, x) && Wrote(plan, k, h.nodes[x]);
      }
    }
  }

  lemma MergedAreEarlier(g0: Graph, b: Graph, plan: Plan, p: Progress, i: nat)
    requires Decided(b, plan, p, i)
    ensures forall j, x :: MergedTo(plan, p.g, j, x) ==> j < i && IsDecision(plan, j)
  {
    forall j, x | MergedTo(plan, p.g, j, x)
      ensures j < i && IsDecision(plan, j)
    {
      PlannedAt(b, plan, p.g, j);
    }
  }

  lemma DecisionStepTrail(g0: Graph, b: Graph, plan: Plan, locked: set<NodeId>, p: Progress, i: nat)
    requires i < |plan.items| == |p.ds| && Decided(b, plan, p, i) && TargetsKnown(plan, locked, b) && FreshRows(b, plan)
    requires Trail(g0, b, plan, p) && DecisionStep(plan, locked, p, i).Ok?
    ensures Trail(g0, b, plan, DecisionStep(plan, locked, p, i).value)
  {
    var q := DecisionStep(plan, locked, p, i).value;
    DecisionDirectives(plan, locked, p, i);
    if IsDecision(plan, i) {
      DecisionStepExactly(b, plan, locked, p, i);
      MergedAreEarlier(g0, b, plan, p, i);
      PlannedAt(b, plan, p.g, i);
      assert Waiting(plan, p.g, i);
      hide DecisionStep, Ledger, MergesAt, Good;
      if MergesAt(plan, p.g, i) {
        MergeTrail(g0, b, plan, p.g, i, plan.items[i].directive.target.value, q.g);
        KeepsOpsChain(b, p.g, q.g);
      } else {
        PlacedKeepsLedger(g0, b, plan, p.g, q.g, plan.items[i].source.id);
      }
    }
  }

  lemma MergeTrail(g0: Graph, b: Graph, plan: Plan, g: Graph, i: nat, t: NodeId, h: Graph)
    requires Good(b, plan, g) && IsDecision(plan, i) && FreshRows(b, plan) && HasChain(g, t) && Merges(plan, g, i, t, Root(g, t), h)
    requires forall j, x :: MergedTo(plan, g, j, x) ==> j < i && IsDecision(plan, j)
    requires Ledger(g0, b, plan, g) && Waiting(plan, g, i)
    ensures Ledger(g0, b, plan, h) && h.relations == g.relations && KeepsOps(g, h)
  {
    PlannedAt(b, plan, g, i);
    MergeKeepsLogged(plan, g, i, t, Root(g, t), h);
    hide KeepsOps, Merges, Inv, PlannedOk, StrayOk, EvidenceOk;
    MergesWrites(plan, g, i, t, Root(g, t), h);
    MergeKeepsLedger(g0, b, plan, g, i, t, Root(g, t), h);
  }

  lemma DecisionDirectives(plan: Plan, locked: set<NodeId>, p: Progress, i: nat)
    requires i < |plan.items| == |p.ds| && LinksPlanned(plan, p, 0) && DecisionStep(plan, locked, p, i).Ok?
    requires IsDecision(plan, i) ==> p.ds[i] == plan.items[i].directive
    ensures LinksPlanned(plan, DecisionStep(plan, locked, p, i).value, 0)
  {
  }

  lemma {:induction false} DecisionPhaseTrail(g0: Graph, b: Graph, plan: Plan, locked: set<NodeId>, p: Progress, n: nat)
    requires n <= |plan.items| == |p.ds| && Decided(b, plan, p, 0) && TargetsKnown(plan, locked, b) && FreshRows(b, plan)
    requires Trail(g0, b, plan, p) && DecisionPhase(plan, locked, p, n).Ok?
    ensures Trail(g0, b, plan, DecisionPhase(plan, locked, p, n).value)
    ensures Decided(b, plan, DecisionPhase(plan, locked, p, n).value, n)
  {
    hide Decided, DecisionStep, Trail;
    DecisionPhaseKeeps(b, plan, locked, p, n);
    if n > 0 {
      DecisionPhaseTrail(g0, b, plan, locked, p, n - 1);
      DecisionStepTrail(g0, b, plan, locked, DecisionPhase(plan, locked, p, n - 1).value, n - 1);
    }
  }

  // ----- settled Decisions -----

  /** Decision items before n stand in h as they stand in g. */
  ghost predicate Settled(plan: Plan, g: Graph, h: Graph, n: nat) {
    forall j :: 0 <= j < n && IsDecision(plan, j) ==> SettledAt(plan, g, h, j)
  }

  predicate SettledAt(plan: Plan, g: Graph, h: Graph, j: int) {
    && 0 <= j < |plan.items| && plan.items[j].source.id in g.nodes && plan.items[j].source.id in h.nodes
    && h.nodes[plan.items[j].source.id].state == g.nodes[plan.items[j].source.id].state
    && h.nodes[plan.items[j].source.id].mergedInto == g.nodes[plan.items[j].source.id].mergedInto
  }

  lemma StepSettles(b: Graph, plan: Plan, locked: set<NodeId>, p: Progress, i: nat)
    requires i < |plan.items| == |p.ds| && Decided(b, plan, p, i) && TargetsKnown(plan, locked, b)
    requires DecisionStep(plan, locked, p, i).Ok?
    ensures Settled(plan, p.g, DecisionStep(plan, locked, p, i).value.g, i)
  {
    hide Inv, EvidenceOk, StrayOk, Decided;
    var q := DecisionStep(plan, locked, p, i).value;
    DecidedParts(b, plan, p, i);
    if IsDecision(plan, i) {
      DecisionStepExactly(b, plan, locked, p, i);
      if MergesAt(plan, p.g, i) {
        var t := plan.items[i].directive.target.value;
        MergesWrites(plan, p.g, i, t, Root(p.g, t), q.g);
      }
    }
    hide DecisionStep, MergesAt, Merges;
  }

  lemma DecidedParts(b: Graph, plan: Plan, p: Progress, n: nat)
    requires Decided(b, plan, p, n)
    ensures |p.ds| == |plan.items| && n <= |plan.items| && DistinctIds(plan) && Inv(p.g) && Frame(b, plan, p.g)
    ensures forall j :: 0 <= j < |plan.items| ==> plan.items[j].source.id in p.g.nodes
  {
    forall j | 0 <= j < |plan.items|
      ensures plan.items[j].source.id in p.g.nodes
    {
      PlannedAt(b, plan, p.g, j);
    }
  }

  lemma SettledChain(plan: Plan, f: Graph, g: Graph, h: Graph, i: nat, m: nat)
    requires i <= m && Settled(plan, f, g, i) && Settled(plan, g, h, m)
    ensures Settled(plan, f, h, i)
  {
    hide IsDecision;
    forall j | 0 <= j < i && IsDecision(plan, j)
      ensures SettledAt(plan, f, h, j)
    {
      assert SettledAt(plan, f, g, j) && SettledAt(plan, g, h, j);
    }
  }

  lemma SettledStart(b: Graph, plan: Plan, p: Progress, n: nat)
    requires Decided(b, plan, p, n)
    ensures Settled(plan, p.g, p.g, n)
  {
    DecidedParts(b, plan, p, n);
    hide Decided;
  }

  lemma {:induction false} PhaseSettles(b: Graph, plan: Plan, locked: set<NodeId>, p: Progress, i: nat, n: nat)
    requires i <= n <= |plan.items| == |p.ds| && Decided(b, plan, p, 0) && TargetsKnown(plan, locked, b)
    requires DecisionPhase(plan, locked, p, i).Ok? && DecisionPhase(plan, locked, p, n).Ok?
    ensures Settled(plan, DecisionPhase(plan, locked, p, i).value.g, DecisionPhase(plan, locked, p, n).value.g, i)
    decreases n
  {
    hide Decided, DecisionStep, Settled, TargetsKnown;
    DecisionPhaseKeeps(b, plan, locked, p, n);
    if i < n {
      var m := n - 1;
      DecisionPrefix(plan, locked, p, m, n);
      PhaseSettles(b, plan, locked, p, i, m);
      DecisionPhaseKeeps(b, plan, locked, p, m);
      StepSettles(b, plan, locked, DecisionPhase(plan, locked, p, m).value, m);
      SettledChain(plan, DecisionPhase(plan, locked, p, i).value.g, DecisionPhase(plan, locked, p, m).value.g,
                   DecisionPhase(plan, locked, p, n).value.g, i, m);
    } else {
      SettledStart(b, plan, DecisionPhase(plan, locked, p, n).value, n);
    }
  }

  // ----- the gates in closed form -----

  /** The version a Decision target has when item i is decided. */
  ghost function TurnVersion(plan: Plan, g0: Graph, h: Graph, t: NodeId, i: nat): int {
    var c := |Absorbers(plan, h, t, i)|;
    if t in g0.nodes then g0.nodes[t].version + c - (if c > 0 && g0.nodes[t].revision.None? then 1 else 0)
    else 1 + c + (if t in h.nodes && h.nodes[t].mergedInto.Some? then 1 else 0)
  }

  /** The expected version, or an older one once this very run has written the target. */
  ghost predicate TurnVersionOk(plan: Plan, g0: Graph, h: Graph, t: NodeId, expected: Option<nat>, i: nat) {
    || expected.None?
    || TurnVersion(plan, g0, h, t, i) == expected.value
    || (TurnVersion(plan, g0, h, t, i) > expected.value && (t !in g0.nodes || Absorbers(plan, h, t, i) != {}))
  }

  /**
   Whether Decision i is merged, in terms of the committed graph: it asks to, the
   target's version admits it, the target is stored or an earlier Decision of the
   plan, and its root is an ACTIVE Decision of the same category.
   */
  ghost predicate DecisionMerges(plan: Plan, g0: Graph, h: Graph, i: nat) {
    && i < |plan.items| && plan.items[i].directive.action == Merge && plan.items[i].directive.target.Some?
    && var t := plan.items[i].directive.target.value;
    && TurnVersionOk(plan, g0, h, t, plan.items[i].directive.version, i)
    && Live(h, t) && h.nodes[t].kind == Decision
    && (forall j :: 0 <= j < |plan.items| && plan.items[j].source.id == t ==> j < i)
    && HasChain(h, t) && Root(h, t) in h.nodes
    && h.nodes[Root(h, t)].state == Active && h.nodes[Root(h, t)].category == plan.items[i].source.category
  }

  lemma TurnAbsorbed(g0: Graph, b: Graph, plan: Plan, p: Progress, h: Graph, i: nat, t: NodeId, j: int)
    requires Decided(b, plan, p, i) && Good(b, plan, h) && Settled(plan, p.g, h, i) && t in h.nodes && h.nodes[t].kind == Decision
    ensures MergedTo(plan, p.g, j, t) <==> j < i && MergedTo(plan, h, j, t)
  {
    MergedAreEarlier(g0, b, plan, p, i);
    hide Decided;
    if 0 <= j < |plan.items| {
      PlannedAt(b, plan, h, j);
      hide Good;
      assert IsDecision(plan, j) && j < i ==> SettledAt(plan, p.g, h, j);
    }
  }

  /** The absorbers known at the turn of item i are the ones before i at commit. */
  lemma TurnAbsorbers(g0: Graph, b: Graph, plan: Plan, p: Progress, h: Graph, i: nat, t: NodeId)
    requires Decided(b, plan, p, i) && Good(b, plan, h) && Settled(plan, p.g, h, i) && t in h.nodes && h.nodes[t].kind == Decision
    ensures Absorbers(plan, p.g, t, |plan.items|) == Absorbers(plan, h, t, i)
    ensures HasAbsorbed(plan, p.g, t) <==> Absorbers(plan, h, t, i) != {}
  {
    hide Good;
    assert i <= |plan.items|;
    hide Decided, Settled;
    forall j: int
      ensures MergedTo(plan, p.g, j, t) <==> j < i && MergedTo(plan, h, j, t)
    {
      TurnAbsorbed(g0, b, plan, p, h, i, t, j);
    }
    assert forall j :: MergedTo(plan, h, j, t) ==> 0 <= j < |plan.items|;
    hide MergedTo;
    if HasAbsorbed(plan, p.g, t) {
      var j :| MergedTo(plan, p.g, j, t);
      assert j in Absorbers(plan, h, t, i);
    }
    if Absorbers(plan, h, t, i) != {} {
      var j :| j in Absorbers(plan, h, t, i);
      assert MergedTo(plan, p.g, j, t);
    }
  }

  lemma StoredTurnVersion(g0: Graph, b: Graph, plan: Plan, g: Graph, h: Graph, i: nat, t: NodeId, expected: Option<nat>)
    requires Base(g0, plan, b) && Frame(b, plan, g) && t in g0.nodes && t in g.nodes && i <= |plan.items|
    requires t in b.nodes && VersionLedger(b, plan, g, t) && TextLedger(g0, b, plan, g, t)
    requires Absorbers(plan, g, t, |plan.items|) == Absorbers(plan, h, t, i)
    requires HasAbsorbed(plan, g, t) <==> Absorbers(plan, h, t, i) != {}
    ensures VersionValid(plan, g.nodes[t], expected) <==> TurnVersionOk(plan, g0, h, t, expected, i)
  {
    StoredIsNotPlanned(g0, plan, b, t);
    assert Frozen(b.nodes[t], g.nodes[t]);
    assert RunsOk(g0);
    hide Base, Frame, HasAbsorbed, Absorbers, Latest, RunsOk;
  }

  lemma PlannedTurnVersion(g0: Graph, b: Graph, plan: Plan, g: Graph, h: Graph, i: nat, j: nat, expected: Option<nat>)
    requires Base(g0, plan, b) && j < |plan.items| && i <= |plan.items|
    requires var t := plan.items[j].source.id;
             && t in g.nodes && t in b.nodes && t in h.nodes && h.nodes[t].mergedInto == g.nodes[t].mergedInto
             && VersionLedger(b, plan, g, t) && TextLedger(g0, b, plan, g, t)
             && Absorbers(plan, g, t, |plan.items|) == Absorbers(plan, h, t, i)
    ensures var t := plan.items[j].source.id;
            VersionValid(plan, g.nodes[t], expected) <==> TurnVersionOk(plan, g0, h, t, expected, i)
  {
    var t := plan.items[j].source.id;
    assert t !in g0.nodes && b.nodes[t] == NewNode(plan, plan.items[j].source);
    hide Base, HasAbsorbed, Absorbers, Latest;
  }

  /** A node redirected to a node without a redirect has it as its root. */
  lemma RootOneStep(g: Graph, x: NodeId, m: NodeId)
    requires Live(g, x) && Live(g, m) && g.nodes[x].mergedInto == Some(m) && g.nodes[m].mergedInto.None?
    ensures HasChain(g, x) && Root(g, x) == m
  {
    assert [x, m][1..] == [m];
    assert IsChain(g, [m]);
    ChainIs(g, [x, m]);
  }

  lemma RootItself(g: Graph, x: NodeId)
    requires Live(g, x) && g.nodes[x].mergedInto.None?
    ensures HasChain(g, x) && Root(g, x) == x
  {
    ChainIs(g, [x]);
  }

  /** The target's root and where it stands, at the turn and at commit. */
  ghost predicate SameHome(g: Graph, h: Graph, t: NodeId) {
    && Live(g, t) && Live(h, t) && g.nodes[t].kind == h.nodes[t].kind
    && HasChain(g, t) && HasChain(h, t) && Root(g, t) == Root(h, t) && Root(g, t) in g.nodes && Root(g, t) in h.nodes
    && g.nodes[Root(g, t)].state == h.nodes[Root(g, t)].state
    && g.nodes[Root(g, t)].category == h.nodes[Root(g, t)].category && g.nodes[Root(g, t)].kind == h.nodes[Root(g, t)].kind
  }

  lemma StoredHome(g0: Graph, b: Graph, plan: Plan, g: Graph, h: Graph, t: NodeId)
    requires Base(g0, plan, b) && Frame(b, plan, g) && Frame(b, plan, h) && t in g0.nodes && (Live(g, t) || Live(h, t))
    ensures SameHome(g, h, t) && Live(g0, t)
  {
    StoredIsNotPlanned(g0, plan, b, t);
    assert Frozen(b.nodes[t], g.nodes[t]) && Frozen(b.nodes[t], h.nodes[t]);
    StoredRoots(g0, plan, b, g, t);
    StoredRoots(g0, plan, b, h, t);
    var r := Root(g0, t);
    StoredIsNotPlanned(g0, plan, b, r);
    assert Frozen(b.nodes[r], g.nodes[r]) && Frozen(b.nodes[r], h.nodes[r]);
  }

  /** A planned node either is its own root or was merged into an ACTIVE node. */
  lemma PlannedHome(b: Graph, plan: Plan, g: Graph, j: nat)
    requires Good(b, plan, g) && j < |plan.items|
    ensures var t := plan.items[j].source.id;
            && Live(g, t) && g.nodes[t].kind == plan.items[j].source.kind && g.nodes[t].category == plan.items[j].source.category
            && HasChain(g, t)
            && (if g.nodes[t].mergedInto.None? then g.nodes[t].state != Merged && Root(g, t) == t
                else && g.nodes[t].mergedInto == Some(Root(g, t)) && Root(g, t) in g.nodes && g.nodes[t].state == Merged
                     && g.nodes[Root(g, t)].state == Active && g.nodes[Root(g, t)].kind == plan.items[j].source.kind
                     && g.nodes[Root(g, t)].category == plan.items[j].source.category)
  {
    PlannedAt(b, plan, g, j);
    var t := plan.items[j].source.id;
    if g.nodes[t].mergedInto.None? {
      RootItself(g, t);
    } else {
      var m := g.nodes[t].mergedInto.value;
      assert NodeShape(g.nodes[m]);
      RootOneStep(g, t, m);
    }
  }

  lemma SettledHome(b: Graph, plan: Plan, g: Graph, h: Graph, j: nat)
    requires Good(b, plan, g) && Good(b, plan, h) && j < |plan.items| && SettledAt(plan, g, h, j)
    ensures SameHome(g, h, plan.items[j].source.id)
  {
    hide Good;
    PlannedHome(b, plan, g, j);
    PlannedHome(b, plan, h, j);
  }

  lemma StoredOrPlanned(g0: Graph, b: Graph, plan: Plan, g: Graph, t: NodeId)
    requires Base(g0, plan, b) && Frame(b, plan, g) && t in g.nodes
    ensures t in b.nodes && (t in g0.nodes <==> !Planned(plan, t))
  {
    if t in g0.nodes {
      StoredIsNotPlanned(g0, plan, b, t);
    }
  }

  lemma TurnVersionMeans(g0: Graph, b: Graph, plan: Plan, p: Progress, h: Graph, i: nat, t: NodeId, expected: Option<nat>)
    requires Base(g0, plan, b) && Decided(b, plan, p, i) && Ledger(g0, b, plan, p.g)
    requires Good(b, plan, h) && Settled(plan, p.g, h, i) && t in h.nodes && h.nodes[t].kind == Decision && t in p.g.nodes
    requires forall j :: 0 <= j < |plan.items| && plan.items[j].source.id == t ==> j < i && SettledAt(plan, p.g, h, j)
    ensures VersionValid(plan, p.g.nodes[t], expected) <==> TurnVersionOk(plan, g0, h, t, expected, i)
  {
    DecidedParts(b, plan, p, i);
    TurnAbsorbers(g0, b, plan, p, h, i, t);
    StoredOrPlanned(g0, b, plan, p.g, t);
    hide Base, Good, Decided, Settled, VersionValid, TurnVersionOk, Inv, VersionLedger, TextLedger;
    if t in g0.nodes {
      StoredTurnVersion(g0, b, plan, p.g, h, i, t, expected);
    } else {
      var j :| 0 <= j < |plan.items| && plan.items[j].source.id == t;
      PlannedTurnVersion(g0, b, plan, p.g, h, i, j, expected);
    }
  }

  /** An ACTIVE root at the turn means a stored target or an earlier, settled Decision. */
  lemma ActiveTurnTarget(b: Graph, plan: Plan, p: Progress, h: Graph, i: nat, j: nat)
    requires Decided(b, plan, p, i) && j < |plan.items| && Settled(plan, p.g, h, i)
    requires var t := plan.items[j].source.id; HasChain(p.g, t) && Root(p.g, t) in p.g.nodes && p.g.nodes[Root(p.g, t)].state == Active
    ensures j < i && SettledAt(plan, p.g, h, j)
  {
    hide Good;
    assert !IsDecision(plan, j) || i <= j ==> Waiting(plan, p.g, j);
    PlannedHome(b, plan, p.g, j);
  }

  lemma SettledForAll(plan: Plan, g: Graph, h: Graph, i: nat, t: NodeId)
    requires Settled(plan, g, h, i) && t in h.nodes && h.nodes[t].kind == Decision
    requires forall j :: 0 <= j < |plan.items| && plan.items[j].source.id == t ==> j < i && IsDecision(plan, j)
    ensures forall j :: 0 <= j < |plan.items| && plan.items[j].source.id == t ==> j < i && SettledAt(plan, g, h, j)
  {
    hide SettledAt, IsDecision;
  }

  lemma TurnGatesHold(g0: Graph, b: Graph, plan: Plan, p: Progress, h: Graph, i: nat)
    requires Base(g0, plan, b) && Decided(b, plan, p, i) && Ledger(g0, b, plan, p.g) && i < |plan.items|
    requires Good(b, plan, h) && Settled(plan, p.g, h, i) && MergesAt(plan, p.g, i)
    requires p.g.nodes[Root(p.g, plan.items[i].directive.target.value)].kind == Decision
    ensures DecisionMerges(plan, g0, h, i) && SameHome(p.g, h, plan.items[i].directive.target.value)
  {
    var t := plan.items[i].directive.target.value;
    DecidedParts(b, plan, p, i);
    GoodParts(b, plan, h);
    RootFacts(p.g, t);
    hide Ledger, Inv, VersionValid, TurnVersionOk, Decided, Base, Good;
    StoredOrPlanned(g0, b, plan, p.g, t);
    forall j | 0 <= j < |plan.items| && plan.items[j].source.id == t
      ensures j < i && SettledAt(plan, p.g, h, j)
    {
      ActiveTurnTarget(b, plan, p, h, i, j);
    }
    if t in g0.nodes {
      StoredHome(g0, b, plan, p.g, h, t);
    } else {
      var j :| 0 <= j < |plan.items| && plan.items[j].source.id == t;
      DecidedGood(b, plan, p, i);
      SettledHome(b, plan, p.g, h, j);
    }
    TurnVersionMeans(g0, b, plan, p, h, i, t, plan.items[i].directive.version);
  }

  lemma DecidedGood(b: Graph, plan: Plan, p: Progress, n: nat)
    requires Decided(b, plan, p, n)
    ensures Good(b, plan, p.g)
  {
  }

  lemma CommitGatesHold(g0: Graph, b: Graph, plan: Plan, p: Progress, h: Graph, i: nat)
    requires Base(g0, plan, b) && Decided(b, plan, p, i) && Ledger(g0, b, plan, p.g) && i < |plan.items|
    requires Good(b, plan, h) && Settled(plan, p.g, h, i) && DecisionMerges(plan, g0, h, i)
    ensures MergesAt(plan, p.g, i)
  {
    var t := plan.items[i].directive.target.value;
    DecidedParts(b, plan, p, i);
    GoodParts(b, plan, h);
    hide Ledger, Inv, VersionValid, TurnVersionOk, Decided, Base, Good;
    StoredOrPlanned(g0, b, plan, h, t);
    forall j | 0 <= j < |plan.items| && plan.items[j].source.id == t
      ensures j < i && IsDecision(plan, j)
    {
      PlannedHome(b, plan, h, j);
    }
    SettledForAll(plan, p.g, h, i, t);
    if t in g0.nodes {
      StoredHome(g0, b, plan, p.g, h, t);
    } else {
      var j :| 0 <= j < |plan.items| && plan.items[j].source.id == t;
      DecidedGood(b, plan, p, i);
      SettledHome(b, plan, p.g, h, j);
    }
    TurnVersionMeans(g0, b, plan, p, h, i, t, plan.items[i].directive.version);
  }

  /** The gates at the turn of Decision i are the closed form at commit. */
  lemma TurnGates(g0: Graph, b: Graph, plan: Plan, p: Progress, h: Graph, i: nat)
    requires Base(g0, plan, b) && Decided(b, plan, p, i) && Ledger(g0, b, plan, p.g) && i < |plan.items|
    requires Good(b, plan, h) && Settled(plan, p.g, h, i)
    requires MergesAt(plan, p.g, i) ==> p.g.nodes[Root(p.g, plan.items[i].directive.target.value)].kind == Decision
    ensures MergesAt(plan, p.g, i) <==> DecisionMerges(plan, g0, h, i)
    ensures MergesAt(plan, p.g, i) ==> SameHome(p.g, h, plan.items[i].directive.target.value)
  {
    hide Good, Decided, MergesAt, DecisionMerges, Base, Ledger, Settled;
    if MergesAt(plan, p.g, i) {
      TurnGatesHold(g0, b, plan, p, h, i);
    }
    if DecisionMerges(plan, g0, h, i) {
      CommitGatesHold(g0, b, plan, p, h, i);
    }
  }
}

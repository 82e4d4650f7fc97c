/** Which planned links open a relation, and which of them place their node: the link phase read at commit. */
module AutoLinks {
  import opened Options
  import opened GraphModel
  import opened GraphResolve
  import opened GraphMerge
  import opened GraphRelations
  import opened AutoPlan
  import opened AutoApply
  import opened AutoPhases
  import opened AutoTheorems
  import opened AutoCommit
  import opened AutoLedger
  import opened AutoDecisions

  predicate Attaches(plan: Plan, i: nat) {
    i < |plan.items| && plan.items[i].directive.relation == Some(AttachedTo)
  }

  predicate Links(plan: Plan, i: nat) {
    i < |plan.items| && plan.items[i].directive.action == Link && plan.items[i].directive.target.Some?
  }

  /** The relation row of a link: from the item to the original target, not its root; RELATED_TO, the default, from the smaller id. */
  function LinkKey(plan: Plan, i: nat): RelationKey
    requires Links(plan, i)
  {
    var s, t, relation := plan.items[i].source.id, plan.items[i].directive.target.value, plan.items[i].directive.relation;
    if relation.None? || relation == Some(RelatedTo) then RelationKey(plan.project, if t < s then t else s, if t < s then s else t, RelatedTo)
    else RelationKey(plan.project, s, t, relation.value)
  }

  // ----- one link -----

  /** The gates of a link, read on the graph of its turn. */
  ghost predicate OpensAt(plan: Plan, g: Graph, i: nat) {
    && Links(plan, i)
    && var d, src := plan.items[i].directive, plan.items[i].source;
    && var t := d.target.value;
    && Live(g, t) && HasChain(g, t) && Root(g, t) in g.nodes
    && (d.version.Some? && !Planned(plan, t) ==> g.nodes[t].version == d.version.value)
    && (Attaches(plan, i) ==>
          && g.nodes[Root(g, t)].state == Active && AllowedParent(src.kind, g.nodes[Root(g, t)].kind)
          && g.nodes[Root(g, t)].category == src.category)
  }

  /** What the turn of link i does to rows and relations. */
  ghost predicate LinkTurn(plan: Plan, g: Graph, h: Graph, i: nat) {
    && i < |plan.items| && plan.items[i].source.id in g.nodes && plan.items[i].source.id in h.nodes
    && OnlyPlaced(g, h, plan.items[i].source.id) && h.ops == g.ops
    && if OpensAt(plan, g, i) then
         && h.relations == g.relations[LinkKey(plan, i) := true]
         && (if Attaches(plan, i) then
               && plan.items[i].source.kind != Decision && StateOf(plan, h, i) == Active
               && h.nodes[plan.items[i].source.id].parent == Some(Root(g, plan.items[i].directive.target.value))
             else h.nodes == g.nodes)
       else h.nodes == g.nodes && h.relations == g.relations
  }

  lemma LinkStepExactly(b: Graph, plan: Plan, locked: set<NodeId>, p: Progress, i: nat)
    requires i < |plan.items| == |p.ds| && Linked(b, plan, p, i) && LinksPlanned(plan, p, i) && TargetsKnown(plan, locked, b)
    requires LinkStep(plan, locked, p, i).Ok?
    ensures LinkTurn(plan, p.g, LinkStep(plan, locked, p, i).value.g, i)
    ensures LinksPlanned(plan, LinkStep(plan, locked, p, i).value, i + 1)
  {
    LinkedParts(b, plan, p, i);
    var d, s := plan.items[i].directive, plan.items[i].source.id;
    if p.ds[i].action == Link && d.target.Some? {
      var t := d.target.value;
      SameRows(b, plan, p.g);
      assert TargetKnown(plan, locked, b, t);
      hide Linked, Good, Resolve, OnlyPlaced, TargetsKnown, LinkTurn;
      LinkGate(b, plan, p.g, t);
      LinkTargetStep(b, plan, locked, p, i, t);
    } else {
      hide Linked, Good, Resolve, OnlyPlaced, TargetsKnown;
      ActivatePlaces(p.g, s);
    }
  }

  lemma LinkTargetStep(b: Graph, plan: Plan, locked: set<NodeId>, p: Progress, i: nat, t: NodeId)
    requires i < |plan.items| == |p.ds| && LinksPlanned(plan, p, i) && Links(plan, i) && plan.items[i].directive.target == Some(t)
    requires TargetKnown(plan, locked, p.g, t) || ((Planned(plan, t) || t in locked) && t in p.g.nodes)
    requires plan.items[i].source.id in p.g.nodes && p.g.nodes[plan.items[i].source.id].kind == plan.items[i].source.kind
    requires var r := Resolve(p.g, plan.project, t, None);
             r.Ok? ==> Live(p.g, t) && HasChain(p.g, t) && r.value == Root(p.g, t) && Root(p.g, t) in p.g.nodes
    requires LinkStep(plan, locked, p, i).Ok?
    requires plan.items[i].source.kind == Decision ==> p.g.nodes[plan.items[i].source.id].state == Active
    ensures LinkTurn(plan, p.g, LinkStep(plan, locked, p, i).value.g, i)
    ensures LinksPlanned(plan, LinkStep(plan, locked, p, i).value, i + 1)
  {
    hide Resolve;
    var s := plan.items[i].source.id;
    if Resolve(p.g, plan.project, t, None).Ok? && s != t {
      assert AllowedParent(plan.items[i].source.kind, p.g.nodes[Root(p.g, t)].kind) ==> Root(p.g, t) != s;
    }
  }

  lemma LinkedParts(b: Graph, plan: Plan, p: Progress, i: nat)
    requires Linked(b, plan, p, i) && i < |plan.items|
    ensures |p.ds| == |plan.items| && Good(b, plan, p.g) && plan.items[i].source.id in p.g.nodes && LinkStatus(plan, p, i, i)
    ensures p.g.nodes[plan.items[i].source.id].kind == plan.items[i].source.kind
  {
    assert PlannedNode(plan, p.g, i);
  }

  lemma LinkGate(b: Graph, plan: Plan, g: Graph, t: NodeId)
    requires Good(b, plan, g)
    ensures var r := Resolve(g, plan.project, t, None);
            r.Ok? ==> Live(g, t) && HasChain(g, t) && r.value == Root(g, t) && Root(g, t) in g.nodes
  {
    if Resolve(g, plan.project, t, None).Ok? {
      ResolveOk(g, plan.project, t, None);
    }
  }

  // ----- over the whole phase -----

  lemma {:induction false} LinkPrefix(plan: Plan, locked: set<NodeId>, p: Progress, m: nat, n: nat)
    requires m <= n <= |plan.items| == |p.ds| && LinkPhase(plan, locked, p, n).Ok?
    ensures LinkPhase(plan, locked, p, m).Ok?
    decreases n
  {
    if m < n {
      LinkPrefix(plan, locked, p, m, n - 1);
    }
  }

  /** From `g` to `h` only planned Actions and Issues were placed. */
  ghost predicate PlacedOnly(plan: Plan, g: Graph, h: Graph) {
    && h.nodes.Keys == g.nodes.Keys
    && forall x :: x in g.nodes ==>
         && h.nodes[x] == g.nodes[x].(state := h.nodes[x].state, parent := h.nodes[x].parent)
         && (g.nodes[x].kind == Decision || !Planned(plan, x) ==> h.nodes[x] == g.nodes[x])
  }

  /** Rows of items before n are the same. */
  ghost predicate SameItems(plan: Plan, g: Graph, h: Graph, n: nat) {
    forall j :: 0 <= j < n && j < |plan.items| ==> SameItem(plan, g, h, j)
  }

  predicate SameItem(plan: Plan, g: Graph, h: Graph, j: int) {
    && 0 <= j < |plan.items| && plan.items[j].source.id in g.nodes && plan.items[j].source.id in h.nodes
    && h.nodes[plan.items[j].source.id] == g.nodes[plan.items[j].source.id]
  }

  /** The relation that link i opens at its turn. */
  ghost predicate TurnOpens(plan: Plan, locked: set<NodeId>, p: Progress, i: nat, k: RelationKey)
    requires |p.ds| == |plan.items|
  {
    && Links(plan, i) && k == LinkKey(plan, i)
    && LinkPhase(plan, locked, p, i).Ok? && OpensAt(plan, LinkPhase(plan, locked, p, i).value.g, i)
  }

  /** Everything open after n links was open before the phase or opened at the turn of one of them. */
  ghost predicate OpenedByLinks(plan: Plan, locked: set<NodeId>, p: Progress, h: Graph, n: nat)
    requires |p.ds| == |plan.items|
  {
    forall k :: Open(h, k) <==> Open(p.g, k) || exists i: nat :: i < n && TurnOpens(plan, locked, p, i, k)
  }

  lemma LinkTurnKeeps(g0: Graph, b: Graph, plan: Plan, g: Graph, h: Graph, i: nat)
    requires DistinctIds(plan) && LinkTurn(plan, g, h, i) && Ledger(g0, b, plan, g)
    requires g.nodes[plan.items[i].source.id].kind == plan.items[i].source.kind
    ensures Ledger(g0, b, plan, h) && PlacedOnly(plan, g, h) && h.ops == g.ops
    ensures forall j :: 0 <= j < |plan.items| && j != i && plan.items[j].source.id in g.nodes ==> SameItem(plan, g, h, j)
  {
    PlacedKeepsLedger(g0, b, plan, g, h, plan.items[i].source.id);
    assert Planned(plan, plan.items[i].source.id);
    hide Ledger;
  }

  lemma LinkTurnOpens(plan: Plan, locked: set<NodeId>, p: Progress, n: nat)
    requires n < |plan.items| == |p.ds|
    requires LinkPhase(plan, locked, p, n).Ok? && LinkPhase(plan, locked, p, n + 1).Ok?
    requires OpenedByLinks(plan, locked, p, LinkPhase(plan, locked, p, n).value.g, n)
    requires LinkTurn(plan, LinkPhase(plan, locked, p, n).value.g, LinkPhase(plan, locked, p, n + 1).value.g, n)
    ensures OpenedByLinks(plan, locked, p, LinkPhase(plan, locked, p, n + 1).value.g, n + 1)
  {
    assert OpensAt(plan, LinkPhase(plan, locked, p, n).value.g, n) ==> Links(plan, n);
    hide LinkPhase, OnlyPlaced, OpensAt, LinkKey;
    var g, h := LinkPhase(plan, locked, p, n).value.g, LinkPhase(plan, locked, p, n + 1).value.g;
    var m := n + 1;
    forall k
      ensures Open(h, k) <==> Open(p.g, k) || exists i: nat :: i < m && TurnOpens(plan, locked, p, i, k)
    {
      assert Open(h, k) <==> Open(g, k) || TurnOpens(plan, locked, p, n, k);
    }
  }

  /** What every prefix of the phase keeps besides `Linked`. */
  ghost predicate LinkTrail(g0: Graph, b: Graph, plan: Plan, locked: set<NodeId>, p: Progress, q: Progress, n: nat) {
    && |p.ds| == |plan.items| == |q.ds|
    && Ledger(g0, b, plan, q.g) && PlacedOnly(plan, p.g, q.g) && LinksPlanned(plan, q, n)
    && OpenedByLinks(plan, locked, p, q.g, n) && MergesPlanned(plan, q) && q.g.ops == p.g.ops
  }

  /** The directive of an Action or Issue that is not to be linked is the planned one. */
  ghost predicate MergesPlanned(plan: Plan, p: Progress) {
    |p.ds| == |plan.items| &&
    forall j :: 0 <= j < |p.ds| && !IsDecision(plan, j) && plan.items[j].directive.action != Link ==> p.ds[j] == plan.items[j].directive
  }

  lemma LinkStepDirectives(plan: Plan, locked: set<NodeId>, p: Progress, i: nat)
    requires i < |plan.items| == |p.ds| && MergesPlanned(plan, p) && LinkStep(plan, locked, p, i).Ok?
    requires plan.items[i].directive.action == Link || p.ds[i].action == Link ==> p.ds[i] == plan.items[i].directive
    ensures MergesPlanned(plan, LinkStep(plan, locked, p, i).value)
  {
    hide Resolve;
  }

  lemma PlacedOnlyChains(plan: Plan, g: Graph, h: Graph, k: Graph)
    requires PlacedOnly(plan, g, h) && PlacedOnly(plan, h, k)
    ensures PlacedOnly(plan, g, k)
  {
  }

  lemma {:induction false} LinkPhaseTrail(g0: Graph, b: Graph, plan: Plan, locked: set<NodeId>, p: Progress, n: nat)
    requires n <= |plan.items| == |p.ds| && Linked(b, plan, p, 0) && TargetsKnown(plan, locked, b)
    requires Ledger(g0, b, plan, p.g) && LinksPlanned(plan, p, 0) && MergesPlanned(plan, p) && LinkPhase(plan, locked, p, n).Ok?
    ensures Linked(b, plan, LinkPhase(plan, locked, p, n).value, n)
    ensures LinkTrail(g0, b, plan, locked, p, LinkPhase(plan, locked, p, n).value, n)
  {
    hide Linked, LinkStep, Ledger, LinksPlanned, OpenedByLinks, PlacedOnly, MergesPlanned;
    LinkPhaseKeeps(b, plan, locked, p, n);
    if n > 0 {
      var m := n - 1;
      LinkPhaseTrail(g0, b, plan, locked, p, m);
      var q := LinkPhase(plan, locked, p, m).value;
      LinkStepExactly(b, plan, locked, q, m);
      LinkedParts(b, plan, q, m);
      GoodDistinct(b, plan, q.g);
      LinkDirectiveAt(plan, q, m);
      LinkStepDirectives(plan, locked, q, m);
      LinkTurnKeeps(g0, b, plan, q.g, LinkPhase(plan, locked, p, n).value.g, m);
      PlacedOnlyChains(plan, p.g, q.g, LinkPhase(plan, locked, p, n).value.g);
      LinkTurnOpens(plan, locked, p, m);
    } else {
      LinkPhaseStarts(plan, locked, p);
    }
  }

  lemma LinkDirectiveAt(plan: Plan, p: Progress, i: nat)
    requires LinksPlanned(plan, p, i) && i < |plan.items|
    ensures |p.ds| == |plan.items|
    ensures plan.items[i].directive.action == Link || p.ds[i].action == Link ==> p.ds[i] == plan.items[i].directive
  {
  }

  lemma GoodDistinct(b: Graph, plan: Plan, g: Graph)
    requires Good(b, plan, g)
    ensures DistinctIds(plan)
  {
  }

  lemma LinkPhaseStarts(plan: Plan, locked: set<NodeId>, p: Progress)
    requires |p.ds| == |plan.items|
    ensures PlacedOnly(plan, p.g, p.g) && OpenedByLinks(plan, locked, p, p.g, 0)
  {
  }

  lemma LinkStepSettles(b: Graph, plan: Plan, locked: set<NodeId>, p: Progress, m: nat, f: Graph, i: nat)
    requires i <= m < |plan.items| == |p.ds| && Linked(b, plan, p, m) && TargetsKnown(plan, locked, b) && LinksPlanned(plan, p, m)
    requires LinkStep(plan, locked, p, m).Ok? && SameItems(plan, f, p.g, i)
    ensures SameItems(plan, f, LinkStep(plan, locked, p, m).value.g, i) && LinksPlanned(plan, LinkStep(plan, locked, p, m).value, m + 1)
  {
    hide Linked, LinkStep, LinksPlanned, Good, SameItems, LinkTurn, TargetsKnown;
    LinkStepExactly(b, plan, locked, p, m);
    LinkedParts(b, plan, p, m);
    GoodDistinct(b, plan, p.g);
    ItemsElsewhere(plan, f, p.g, LinkStep(plan, locked, p, m).value.g, m, i);
  }

  lemma {:induction false} LinkPhasePlanned(b: Graph, plan: Plan, locked: set<NodeId>, p: Progress, n: nat)
    requires n <= |plan.items| == |p.ds| && Linked(b, plan, p, 0) && TargetsKnown(plan, locked, b)
    requires LinksPlanned(plan, p, 0) && LinkPhase(plan, locked, p, n).Ok?
    ensures LinksPlanned(plan, LinkPhase(plan, locked, p, n).value, n)
  {
    hide Linked, LinkStep, LinksPlanned, TargetsKnown, LinkTurn;
    if n > 0 {
      var m := n - 1;
      LinkPhasePlanned(b, plan, locked, p, m);
      LinkPhaseKeeps(b, plan, locked, p, m);
      LinkStepExactly(b, plan, locked, LinkPhase(plan, locked, p, m).value, m);
    }
  }

  /** After its own turn an item's row stays as it is until the phase ends. */
  lemma {:induction false} LinkPhaseSettles(b: Graph, plan: Plan, locked: set<NodeId>, p: Progress, i: nat, n: nat)
    requires i <= n <= |plan.items| == |p.ds| && Linked(b, plan, p, 0) && TargetsKnown(plan, locked, b)
    requires LinksPlanned(plan, p, 0) && LinkPhase(plan, locked, p, i).Ok? && LinkPhase(plan, locked, p, n).Ok?
    ensures SameItems(plan, LinkPhase(plan, locked, p, i).value.g, LinkPhase(plan, locked, p, n).value.g, i)
    decreases n
  {
    hide Linked, LinkStep, LinksPlanned, SameItems, TargetsKnown;
    if i < n {
      var m := n - 1;
      LinkPrefix(plan, locked, p, m, n);
      LinkPhaseSettles(b, plan, locked, p, i, m);
      LinkPhaseKeeps(b, plan, locked, p, m);
      LinkPhasePlanned(b, plan, locked, p, m);
      LinkStepSettles(b, plan, locked, LinkPhase(plan, locked, p, m).value, m, LinkPhase(plan, locked, p, i).value.g, i);
    } else {
      LinkPhaseKeeps(b, plan, locked, p, n);
      LinkedItems(b, plan, LinkPhase(plan, locked, p, n).value, n);
    }
  }

  lemma LinkedItems(b: Graph, plan: Plan, p: Progress, n: nat)
    requires Linked(b, plan, p, n)
    ensures SameItems(plan, p.g, p.g, n)
  {
    hide Good;
    forall j | 0 <= j < n && j < |plan.items|
      ensures SameItem(plan, p.g, p.g, j)
    {
      assert LinkStatus(plan, p, n, j);
    }
  }

  lemma ItemsElsewhere(plan: Plan, f: Graph, g: Graph, h: Graph, m: nat, i: nat)
    requires DistinctIds(plan) && i <= m && LinkTurn(plan, g, h, m) && SameItems(plan, f, g, i)
    ensures SameItems(plan, f, h, i)
  {
    hide OpensAt, LinkKey;
    forall j | 0 <= j < i && j < |plan.items|
      ensures SameItem(plan, f, h, j)
    {
      assert SameItem(plan, f, g, j);
    }
  }

  // ----- the gates in closed form -----

  /** A stored target must be at the planned version: a Decision after the Decision merges, any other row as it was stored. */
  ghost predicate LinkVersionOk(plan: Plan, g0: Graph, h: Graph, i: nat)
    requires Links(plan, i)
  {
    var t, expected := plan.items[i].directive.target.value, plan.items[i].directive.version;
    expected.Some? && t in g0.nodes ==>
      if g0.nodes[t].kind == Decision then t in h.nodes && h.nodes[t].version == expected.value
      else g0.nodes[t].version == expected.value
  }

  /** The target stands for a legal parent: its root is ACTIVE, of a parent kind and of the category; a planned one was placed earlier. */
  ghost predicate Adopts(plan: Plan, h: Graph, i: nat)
    requires Links(plan, i)
  {
    var t, src := plan.items[i].directive.target.value, plan.items[i].source;
    && HasChain(h, t) && Root(h, t) in h.nodes
    && h.nodes[Root(h, t)].state == Active && Rank(h.nodes[Root(h, t)].kind) < Rank(src.kind)
    && h.nodes[Root(h, t)].category == src.category
    && (forall j :: 0 <= j < |plan.items| && plan.items[j].source.id == t && !IsDecision(plan, j) ==> j < i && StandsActive(plan, h, j))
  }

  predicate StandsActive(plan: Plan, h: Graph, j: int) {
    0 <= j < |plan.items| && plan.items[j].source.id in h.nodes && h.nodes[plan.items[j].source.id].state == Active
  }

  /** Whether planned item i ends with an open relation to its target, in terms of the committed graph. */
  ghost predicate Opens(plan: Plan, g0: Graph, h: Graph, i: nat) {
    Links(plan, i) && LinkVersionOk(plan, g0, h, i) && (Attaches(plan, i) ==> Adopts(plan, h, i))
  }

  /** From the turn of link i to commit: Decisions stay as they are, and placed items stay placed. */
  ghost predicate Carried(plan: Plan, g: Graph, h: Graph, i: nat) {
    && (forall x :: x in g.nodes && g.nodes[x].kind == Decision ==> x in h.nodes && h.nodes[x] == g.nodes[x])
    && (forall j :: 0 <= j < i && j < |plan.items| && !IsDecision(plan, j) ==> (StandsActive(plan, g, j) <==> StandsActive(plan, h, j)))
  }

  lemma TargetIsSeen(g0: Graph, b: Graph, plan: Plan, p: Progress, h: Graph, i: nat, t: NodeId)
    requires Base(g0, plan, b) && Linked(b, plan, p, i) && Good(b, plan, h) && Carried(plan, p.g, h, i) && t in p.g.nodes
    requires Live(p.g, t) || Live(h, t)
    ensures t in g0.nodes ==> SameHome(p.g, h, t)
    ensures forall j :: 0 <= j < |plan.items| && plan.items[j].source.id == t ==>
              if IsDecision(plan, j) then SameHome(p.g, h, t) else PlacedTarget(plan, p.g, h, i, j)
  {
    LinkedGood(b, plan, p, i);
    GoodParts(b, plan, p.g);
    GoodParts(b, plan, h);
    hide Good, Linked, Base, ForestInv;
    if t in g0.nodes {
      StoredHome(g0, b, plan, p.g, h, t);
    }
    forall j | 0 <= j < |plan.items| && plan.items[j].source.id == t
      ensures if IsDecision(plan, j) then SameHome(p.g, h, t) else PlacedTarget(plan, p.g, h, i, j)
    {
      PlannedHome(b, plan, p.g, j);
      if IsDecision(plan, j) {
        SettledHome(b, plan, p.g, h, j);
      } else {
        PlacedTargetAt(b, plan, p, h, i, j);
      }
    }
  }

  lemma LinkedGood(b: Graph, plan: Plan, p: Progress, i: nat)
    requires Linked(b, plan, p, i)
    ensures |p.ds| == |plan.items| && i <= |plan.items| && Good(b, plan, p.g) && AllLinkStatus(plan, p, i) && StoredDependentsUntouched(b, plan, p.g)
  {
  }

  /** A planned Action or Issue as a link target: its own root at the turn, ACTIVE then exactly if it was placed earlier and stays placed. */
  ghost predicate PlacedTarget(plan: Plan, g: Graph, h: Graph, i: nat, j: nat) {
    && j < |plan.items| && var t := plan.items[j].source.id;
    && Live(g, t) && Live(h, t) && HasChain(g, t) && HasChain(h, t) && Root(g, t) == t
    && g.nodes[t].kind == h.nodes[t].kind == plan.items[j].source.kind
    && g.nodes[t].category == h.nodes[t].category == plan.items[j].source.category
    && (StandsActive(plan, g, j) <==> j < i && StandsActive(plan, h, j))
    && (StandsActive(plan, h, j) ==> Root(h, t) == t)
  }

  lemma PlacedTargetAt(b: Graph, plan: Plan, p: Progress, h: Graph, i: nat, j: nat)
    requires Linked(b, plan, p, i) && Good(b, plan, h) && Carried(plan, p.g, h, i) && j < |plan.items| && !IsDecision(plan, j)
    ensures PlacedTarget(plan, p.g, h, i, j)
  {
    LinkedGood(b, plan, p, i);
    assert LinkStatus(plan, p, i, j);
    hide Good, Linked;
    PlannedHome(b, plan, p.g, j);
    PlannedHome(b, plan, h, j);
  }

  lemma LinkVersionMeans(g0: Graph, b: Graph, plan: Plan, p: Progress, h: Graph, i: nat)
    requires Base(g0, plan, b) && Linked(b, plan, p, i) && Carried(plan, p.g, h, i) && Links(plan, i)
    requires plan.items[i].directive.target.value in p.g.nodes
    ensures var t, expected := plan.items[i].directive.target.value, plan.items[i].directive.version;
            (expected.Some? && !Planned(plan, t) ==> p.g.nodes[t].version == expected.value) <==> LinkVersionOk(plan, g0, h, i)
  {
    LinkedGood(b, plan, p, i);
    GoodParts(b, plan, p.g);
    hide Good, Linked, ForestInv;
    var t := plan.items[i].directive.target.value;
    StoredOrPlanned(g0, b, plan, p.g, t);
    if t in g0.nodes {
      StoredIsNotPlanned(g0, plan, b, t);
      assert Frozen(b.nodes[t], p.g.nodes[t]);
    }
  }

  /** The gates at the turn of link i are the closed form at commit. */
  lemma LinkGates(g0: Graph, b: Graph, plan: Plan, p: Progress, h: Graph, i: nat)
    requires Base(g0, plan, b) && Linked(b, plan, p, i) && Good(b, plan, h) && Carried(plan, p.g, h, i) && i < |plan.items|
    requires Links(plan, i) ==> Live(p.g, plan.items[i].directive.target.value)
    ensures OpensAt(plan, p.g, i) <==> Opens(plan, g0, h, i)
    ensures OpensAt(plan, p.g, i) && Attaches(plan, i) ==>
              var t := plan.items[i].directive.target.value; HasChain(h, t) && Root(p.g, t) == Root(h, t)
  {
    if Links(plan, i) {
      LinkVersionMeans(g0, b, plan, p, h, i);
      var t := plan.items[i].directive.target.value;
      LinkedGood(b, plan, p, i);
      GoodParts(b, plan, p.g);
      RootFacts(p.g, t);
      TargetIsSeen(g0, b, plan, p, h, i, t);
      StoredOrPlanned(g0, b, plan, p.g, t);
      hide Good, Linked, ForestInv, Base, Carried, LinkVersionOk;
      AdoptsAtTurn(g0, plan, p.g, h, i);
    }
  }

  lemma AdoptsAtTurn(g0: Graph, plan: Plan, g: Graph, h: Graph, i: nat)
    requires Links(plan, i)
    requires var t := plan.items[i].directive.target.value;
             && HasChain(g, t) && Root(g, t) in g.nodes && (t in g0.nodes <==> !Planned(plan, t))
             && (t in g0.nodes ==> SameHome(g, h, t))
             && (forall j :: 0 <= j < |plan.items| && plan.items[j].source.id == t ==>
                   if IsDecision(plan, j) then SameHome(g, h, t) else PlacedTarget(plan, g, h, i, j))
    ensures var t, src := plan.items[i].directive.target.value, plan.items[i].source;
            && (Adopts(plan, h, i) <==>
                  && g.nodes[Root(g, t)].state == Active && AllowedParent(src.kind, g.nodes[Root(g, t)].kind)
                  && g.nodes[Root(g, t)].category == src.category)
            && (Adopts(plan, h, i) ==> Root(g, t) == Root(h, t))
  {
    var t := plan.items[i].directive.target.value;
    if t !in g0.nodes {
      var j :| 0 <= j < |plan.items| && plan.items[j].source.id == t;
      if !IsDecision(plan, j) {
        assert PlacedTarget(plan, g, h, i, j);
      }
    }
  }
}

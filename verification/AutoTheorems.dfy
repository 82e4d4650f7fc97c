/** What holds after the Decision phase and after the link phase, and which guards cannot fire in them. */
module AutoTheorems {
  import opened Options
  import opened GraphModel
  import opened GraphResolve
  import opened GraphMerge
  import opened GraphRelations
  import opened Evidence
  import opened AutoPlan
  import opened AutoApply
  import opened AutoPhases

  /** The runtime guards that no plan can trip. */
  predicate DeadGuard(e: Error) {
    e == NotUnattachedLeaf || e == HasChildren || e == PartialMerge
    || e == MergeCycle || e == StrayMergePointer || e == MissingMergeTarget
    || e == CrossesProject || e == DanglingMergePointer
  }

  /** The planned state of a Decision that asks to merge but names no target. */
  predicate Untargeted(plan: Plan, i: nat) {
    i < |plan.items| && plan.items[i].directive.action == Merge && plan.items[i].directive.target.None?
  }

  function StateOf(plan: Plan, g: Graph, i: nat): GraphState
    requires i < |plan.items| && plan.items[i].source.id in g.nodes
  {
    g.nodes[plan.items[i].source.id].state
  }

  predicate IsDecision(plan: Plan, i: int) {
    0 <= i < |plan.items| && plan.items[i].source.kind == Decision
  }

  // ----- phase 1 -----

  ghost predicate DecisionDone(plan: Plan, p: Progress, j: nat)
    requires |p.ds| == |plan.items|
  {
    && j < |plan.items| && plan.items[j].source.id in p.g.nodes
    && if Untargeted(plan, j) then StateOf(plan, p.g, j) == Unattached && p.ds[j].action == Merge
       else if p.ds[j].action == Merge then StateOf(plan, p.g, j) == Merged
       else StateOf(plan, p.g, j) == Active
  }

  ghost predicate Decided(b: Graph, plan: Plan, p: Progress, n: nat) {
    && |p.ds| == |plan.items| && n <= |plan.items|
    && Good(b, plan, p.g) && ParentsStored(b, plan)
    && (forall j :: 0 <= j < |plan.items| && (!IsDecision(plan, j) || n <= j) ==>
          Waiting(plan, p.g, j) && p.ds[j] == plan.items[j].directive)
    && (forall j :: 0 <= j < n && IsDecision(plan, j) ==> DecisionDone(plan, p, j))
    && DependentsUntouched(b, p.g)
  }

  /** No Action or Issue row has changed since the inserts. */
  ghost predicate DependentsUntouched(b: Graph, g: Graph) {
    forall x :: x in b.nodes && b.nodes[x].kind != Decision && x in g.nodes ==> g.nodes[x] == b.nodes[x]
  }

  /** Errors the canonical walk can produce on an invariant graph. */
  lemma ResolveErrors(g: Graph, p: ProjectId, x: NodeId, k: Option<Kind>)
    requires ForestInv(g)
    ensures Resolve(g, p, x, k).Err? ==> !DeadGuard(Resolve(g, p, x, k).error)
  {
    ResolveExactly(g, p, x, k);
  }

  lemma MergeErrors(b: Graph, plan: Plan, g: Graph, i: nat, t: NodeId)
    requires Good(b, plan, g) && ParentsStored(b, plan) && Waiting(plan, g, i)
    ensures LogicalMerge(plan, g, i, t).Err? ==> !DeadGuard(LogicalMerge(plan, g, i, t).error)
  {
    WaitingHasNoChild(b, plan, g, i);
    PlannedAt(b, plan, g, i);
    MergeErrorsCore(plan, g, i, t);
  }

  lemma MergeErrorsCore(plan: Plan, g: Graph, i: nat, t: NodeId)
    requires Inv(g) && plan.run in g.published && Waiting(plan, g, i) && PlannedNode(plan, g, i)
    requires !HasLiveChild(g, plan.project, plan.items[i].source.id)
    ensures LogicalMerge(plan, g, i, t).Err? ==> !DeadGuard(LogicalMerge(plan, g, i, t).error)
  {
    hide FoldInto;
    var src := plan.items[i].source;
    ResolveErrors(g, plan.project, t, Some(src.kind));
    hide Inv, Resolve, HasLiveChild;
    var rr := Resolve(g, plan.project, t, Some(src.kind));
    if rr.Ok? && rr.value in g.nodes && src.suggestion.Some? {
      FoldErrors(plan, g, i, t, rr.value);
    }
  }

  lemma FoldErrors(plan: Plan, g: Graph, i: nat, t: NodeId, r: NodeId)
    requires Inv(g) && plan.run in g.published && i < |plan.items| && plan.items[i].source.id in g.nodes && r in g.nodes
    requires plan.items[i].source.suggestion.Some?
    ensures FoldInto(plan, g, i, t, r).Err? ==> !DeadGuard(FoldInto(plan, g, i, t, r).error)
  {
    hide Inv, ApplyMerge, Dedup;
    var src := plan.items[i].source;
    var m := Absorb(plan, g.nodes[r], g.nodes[src.id], src.suggestion.value);
    if m.revision.value.evidence != [] {
      ReviseKeepsInv(g, r, m);
      ApplyMergeErrors(g.(nodes := g.nodes[r := m]), plan.project, src.id, r, plan.opBase + i);
    }
  }

  lemma ApplyMergeErrors(g: Graph, p: ProjectId, s: NodeId, t: NodeId, id: OpId)
    requires Inv(g) && s in g.nodes && t in g.nodes
    ensures ApplyMerge(g, p, s, t, System, id).Err? ==> !DeadGuard(ApplyMerge(g, p, s, t, System, id).error)
  {
    ResolveErrors(g, p, t, Some(g.nodes[s].kind));
    hide Resolve, Inv;
  }

  lemma DecisionStepKeeps(b: Graph, plan: Plan, locked: set<NodeId>, p: Progress, i: nat)
    requires i < |plan.items| == |p.ds| && Decided(b, plan, p, i)
    ensures var r := DecisionStep(plan, locked, p, i);
            && (r.Ok? ==> |r.value.ds| == |p.ds| && Decided(b, plan, r.value, i + 1))
            && (r.Err? ==> !DeadGuard(r.error))
  {
    hide Good;
    var d := p.ds[i];
    if IsDecision(plan, i) {
      assert Waiting(plan, p.g, i) && d == plan.items[i].directive;
      if d.action != Merge {
        assert p.ds[i := d] == p.ds;
        DecisionActivateStep(b, plan, p, p.ds, i);
      } else if d.target.None? {
        UntargetedStep(b, plan, p, i);
      } else {
        DecisionMergeCase(b, plan, locked, p, i);
      }
    } else {
      NonDecisionStep(b, plan, p, i);
    }
  }

  lemma DecisionMergeCase(b: Graph, plan: Plan, locked: set<NodeId>, p: Progress, i: nat)
    requires i < |plan.items| == |p.ds| && Decided(b, plan, p, i) && IsDecision(plan, i) && Waiting(plan, p.g, i)
    requires p.ds[i].action == Merge && p.ds[i].target.Some? && p.ds[i] == plan.items[i].directive
    ensures var r := DecisionStep(plan, locked, p, i);
            && (r.Ok? ==> |r.value.ds| == |p.ds| && Decided(b, plan, r.value, i + 1))
            && (r.Err? ==> !DeadGuard(r.error))
  {
    hide Good;
    var t := p.ds[i].target.value;
    DecisionStepErrors(b, plan, p, i, t);
    DecisionActivateStep(b, plan, p, p.ds[i := Downgraded(p.ds[i])], i);
    if LogicalMerge(plan, p.g, i, t).Ok? {
      DecisionMergeStep(b, plan, p, i, t);
    }
  }

  lemma DecisionStepErrors(b: Graph, plan: Plan, p: Progress, i: nat, t: NodeId)
    requires Decided(b, plan, p, i) && Waiting(plan, p.g, i)
    ensures var rr := Resolve(p.g, plan.project, t, Some(plan.items[i].source.kind));
            && (rr.Err? ==> !DeadGuard(rr.error))
            && (rr.Ok? ==> rr.value in p.g.nodes)
    ensures LogicalMerge(plan, p.g, i, t).Err? ==> !DeadGuard(LogicalMerge(plan, p.g, i, t).error)
  {
    hide LogicalMerge;
    ResolveErrors(p.g, plan.project, t, Some(plan.items[i].source.kind));
    if Resolve(p.g, plan.project, t, Some(plan.items[i].source.kind)).Ok? {
      ResolveOk(p.g, plan.project, t, Some(plan.items[i].source.kind));
    }
    MergeErrors(b, plan, p.g, i, t);
  }

  lemma NonDecisionStep(b: Graph, plan: Plan, p: Progress, i: nat)
    requires i < |plan.items| && Decided(b, plan, p, i) && !IsDecision(plan, i)
    ensures Decided(b, plan, p, i + 1)
  {
  }

  lemma UntargetedStep(b: Graph, plan: Plan, p: Progress, i: nat)
    requires i < |plan.items| && Decided(b, plan, p, i) && IsDecision(plan, i) && Untargeted(plan, i)
    ensures Decided(b, plan, p, i + 1)
  {
  }

  lemma DecisionActivateStep(b: Graph, plan: Plan, p: Progress, ds: seq<Directive>, i: nat)
    requires i < |plan.items| && Decided(b, plan, p, i) && IsDecision(plan, i)
    requires |ds| == |p.ds| == |plan.items| && ds == p.ds[i := ds[i]] && ds[i].action != Merge && !Untargeted(plan, i)
    requires plan.items[i].source.id in p.g.nodes
    ensures Decided(b, plan, Activate(Progress(p.g, ds), plan.items[i].source.id), i + 1)
  {
    hide Good;
    var q := Activate(Progress(p.g, ds), plan.items[i].source.id);
    assert Decided(b, plan, p, i);
    assert Waiting(plan, p.g, i);
    ActivateKeepsGood(b, plan, p.g, i);
    KeepOthers(b, plan, p, q, i);
    PlannedAt(b, plan, p.g, i);
    SameKindInFrame(b, plan, p.g);
  }

  lemma DecisionMergeStep(b: Graph, plan: Plan, p: Progress, i: nat, t: NodeId)
    requires i < |plan.items| && Decided(b, plan, p, i) && IsDecision(plan, i)
    requires plan.items[i].directive.action == Merge && !Untargeted(plan, i)
    requires LogicalMerge(plan, p.g, i, t).Ok?
    ensures Decided(b, plan, p.(g := LogicalMerge(plan, p.g, i, t).value), i + 1)
  {
    hide Good;
    var h := LogicalMerge(plan, p.g, i, t).value;
    var q := p.(g := h);
    assert Decided(b, plan, p, i);
    assert Waiting(plan, p.g, i);
    var r := MergeKeepsGood(b, plan, p.g, i, t);
    KeepOthers(b, plan, p, q, i);
    PlannedAt(b, plan, p.g, i);
    SameRows(b, plan, p.g);
    SameRows(b, plan, h);
    MergeKeepsUntouched(b, plan, p.g, i, t, r, h);
  }

  lemma MergeKeepsUntouched(b: Graph, plan: Plan, g: Graph, i: nat, t: NodeId, r: NodeId, h: Graph)
    requires i < |plan.items| && DependentsUntouched(b, g) && MergeEffect(plan, g, i, t, r, h) && IsDecision(plan, i)
    requires b.nodes.Keys == g.nodes.Keys == h.nodes.Keys && g.nodes[plan.items[i].source.id].kind == Decision
    ensures DependentsUntouched(b, h)
  {
  }

  /** No step changes the kind of a row. */
  lemma SameKindInFrame(b: Graph, plan: Plan, g: Graph)
    requires Good(b, plan, g)
    ensures forall x :: x in b.nodes && !Planned(plan, x) ==> x in g.nodes && g.nodes[x].kind == b.nodes[x].kind
  {
  }

  /** A step on item i leaves the status of the other items alone. */
  lemma KeepOthers(b: Graph, plan: Plan, p: Progress, q: Progress, i: nat)
    requires i < |plan.items| && Decided(b, plan, p, i) && IsDecision(plan, i) && |q.ds| == |p.ds| == |plan.items|
    requires q.ds == p.ds[i := q.ds[i]] && OnlyMoves(plan, p.g, q.g, i)
    ensures forall j :: 0 <= j < |plan.items| && (!IsDecision(plan, j) || i + 1 <= j) ==>
              Waiting(plan, q.g, j) && q.ds[j] == plan.items[j].directive
    ensures forall j :: 0 <= j < i && IsDecision(plan, j) ==> DecisionDone(plan, q, j)
  {
  }

  lemma {:induction false} DecisionPhaseKeeps(b: Graph, plan: Plan, locked: set<NodeId>, p: Progress, n: nat)
    requires n <= |plan.items| == |p.ds| && Decided(b, plan, p, 0)
    ensures var r := DecisionPhase(plan, locked, p, n);
            && (r.Ok? ==> Decided(b, plan, r.value, n))
            && (r.Err? ==> !DeadGuard(r.error))
  {
    hide Decided, DecisionStep;
    if n > 0 {
      DecisionPhaseKeeps(b, plan, locked, p, n - 1);
      var before := DecisionPhase(plan, locked, p, n - 1);
      if before.Ok? {
        DecisionStepKeeps(b, plan, locked, before.value, n - 1);
      }
    }
  }

  // ----- phase 2 -----

  ghost predicate LinkStatus(plan: Plan, p: Progress, n: nat, j: nat)
    requires |p.ds| == |plan.items|
  {
    && j < |plan.items| && plan.items[j].source.id in p.g.nodes
    && if IsDecision(plan, j) then
         if Untargeted(plan, j) then StateOf(plan, p.g, j) == Unattached && p.ds[j].action == Merge
         else if p.ds[j].action == Merge then StateOf(plan, p.g, j) == Merged
         else StateOf(plan, p.g, j) == Active
       else
         && (StateOf(plan, p.g, j) == Active || StateOf(plan, p.g, j) == Unattached)
         && (p.ds[j].action == Merge || n <= j ==> StateOf(plan, p.g, j) == Unattached && p.ds[j] == plan.items[j].directive)
  }

  ghost predicate AllLinkStatus(plan: Plan, p: Progress, n: nat)
    requires |p.ds| == |plan.items|
  {
    forall j :: 0 <= j < |plan.items| ==> LinkStatus(plan, p, n, j)
  }

  ghost predicate Linked(b: Graph, plan: Plan, p: Progress, n: nat) {
    && |p.ds| == |plan.items| && n <= |plan.items|
    && Good(b, plan, p.g) && ParentsStored(b, plan)
    && AllLinkStatus(plan, p, n)
    && StoredDependentsUntouched(b, plan, p.g)
  }

  /** No stored Action or Issue row has changed since the transaction began. */
  ghost predicate StoredDependentsUntouched(b: Graph, plan: Plan, g: Graph) {
    forall x :: x in b.nodes && b.nodes[x].kind != Decision && !Planned(plan, x) && x in g.nodes ==> g.nodes[x] == b.nodes[x]
  }

  lemma DecidedIsLinked(b: Graph, plan: Plan, p: Progress)
    requires Decided(b, plan, p, |plan.items|)
    ensures Linked(b, plan, p, 0)
  {
  }

  /** A step that touches at most item i's own row, its directive and the relations. */
  lemma LinkOthers(b: Graph, plan: Plan, p: Progress, q: Progress, i: nat)
    requires i < |plan.items| == |p.ds| == |q.ds| && AllLinkStatus(plan, p, i)
    requires StoredDependentsUntouched(b, plan, p.g) && plan.items[i].source.id in q.g.nodes && plan.items[i].source.id in p.g.nodes
    requires q.ds == p.ds[i := q.ds[i]] && p.ds[i].action != Merge && q.ds[i].action != Merge
    requires OnlyMoves(plan, p.g, q.g, i)
    requires forall x :: x in p.g.nodes && x != plan.items[i].source.id ==> x in q.g.nodes && q.g.nodes[x] == p.g.nodes[x]
    requires q.g.nodes.Keys == p.g.nodes.Keys
    requires StateOf(plan, q.g, i) == Active || StateOf(plan, q.g, i) == StateOf(plan, p.g, i)
    ensures AllLinkStatus(plan, q, i + 1)
    ensures StoredDependentsUntouched(b, plan, q.g)
  {
    assert Planned(plan, plan.items[i].source.id);
    var n := i + 1;
    forall j | 0 <= j < |plan.items|
      ensures LinkStatus(plan, q, n, j)
    {
      assert LinkStatus(plan, p, i, j);
    }
  }

  lemma LinkDowngrade(b: Graph, plan: Plan, p: Progress, ds: seq<Directive>, i: nat)
    requires i < |plan.items| && Linked(b, plan, p, i) && |ds| == |p.ds|
    requires ds == p.ds[i := ds[i]] && p.ds[i].action != Merge && ds[i].action != Merge
    ensures Linked(b, plan, Progress(p.g, ds), i + 1)
  {
    hide Good;
    assert LinkStatus(plan, p, i, i);
    LinkOthers(b, plan, p, Progress(p.g, ds), i);
  }

  lemma LinkSkip(b: Graph, plan: Plan, p: Progress, i: nat)
    requires i < |plan.items| && Linked(b, plan, p, i) && (p.ds[i].action != Link || p.ds[i].target.None?)
    ensures Linked(b, plan, p, i + 1)
  {
    hide Good;
    var n := i + 1;
    forall j | 0 <= j < |plan.items|
      ensures LinkStatus(plan, p, n, j)
    {
      assert LinkStatus(plan, p, i, j);
    }
  }

  lemma LinkAttach(b: Graph, plan: Plan, p: Progress, i: nat, t: NodeId, r: NodeId)
    requires i < |plan.items| && Linked(b, plan, p, i) && p.ds[i].action == Link
    requires var src := plan.items[i].source;
             && Live(p.g, r) && p.g.nodes[r].state == Active && p.g.nodes[r].category == src.category
             && p.g.nodes[r].project == plan.project && AllowedParent(src.kind, p.g.nodes[r].kind) && r != src.id
             && Live(p.g, t) && p.g.nodes[t].project == plan.project && t != src.id && src.id in p.g.nodes
    ensures var s := plan.items[i].source.id;
            Linked(b, plan, p.(g := p.g.(
              nodes := p.g.nodes[s := p.g.nodes[s].(parent := Some(r), state := Active)],
              relations := p.g.relations[RelationKey(plan.project, s, t, AttachedTo) := true])), i + 1)
  {
    hide Good;
    var s := plan.items[i].source.id;
    var h := p.g.(nodes := p.g.nodes[s := p.g.nodes[s].(parent := Some(r), state := Active)],
                  relations := p.g.relations[RelationKey(plan.project, s, t, AttachedTo) := true]);
    assert LinkStatus(plan, p, i, i);
    assert Waiting(plan, p.g, i);
    AttachPlannedKeepsGood(b, plan, p.g, i, t, r);
    assert p.ds[i := p.ds[i]] == p.ds;
    LinkOthers(b, plan, p, p.(g := h), i);
  }

  lemma LinkRelate(b: Graph, plan: Plan, p: Progress, i: nat, t: NodeId, kind: RelationType)
    requires i < |plan.items| && Linked(b, plan, p, i) && p.ds[i].action == Link && kind != AttachedTo
    requires Live(p.g, t) && p.g.nodes[t].project == plan.project && t != plan.items[i].source.id
    requires plan.items[i].source.id in p.g.nodes
    ensures var q := p.(g := p.g.(relations := p.g.relations[NormalKey(RelationKey(plan.project, plan.items[i].source.id, t, kind)) := true]));
            Linked(b, plan, if IsDecision(plan, i) then Activate(q, plan.items[i].source.id) else q, i + 1)
  {
    hide Good;
    var s := plan.items[i].source.id;
    var q := p.(g := p.g.(relations := p.g.relations[NormalKey(RelationKey(plan.project, s, t, kind)) := true]));
    assert LinkStatus(plan, p, i, i);
    RelateKeepsGood(b, plan, p.g, i, t, kind);
    assert p.ds[i := p.ds[i]] == p.ds;
    if IsDecision(plan, i) {
      ActivateKeepsGood(b, plan, q.g, i);
      LinkOthers(b, plan, p, Activate(q, s), i);
    } else {
      LinkOthers(b, plan, p, q, i);
    }
  }

  lemma LinkStepKeeps(b: Graph, plan: Plan, locked: set<NodeId>, p: Progress, i: nat)
    requires i < |plan.items| == |p.ds| && Linked(b, plan, p, i)
    ensures var r := LinkStep(plan, locked, p, i);
            && (r.Ok? ==> |r.value.ds| == |p.ds| && Linked(b, plan, r.value, i + 1))
            && (r.Err? ==> !DeadGuard(r.error))
  {
    hide Good, Linked, Resolve;
    var src := plan.items[i].source;
    var d := p.ds[i];
    if d.action != Link || d.target.None? {
      LinkSkip(b, plan, p, i);
    } else {
      LinkResolve(b, plan, p, i, d.target.value);
      LinkDowngrade(b, plan, p, p.ds[i := Downgraded(d).(relation := None)], i);
      LinkDowngrade(b, plan, p, p.ds[i := d.(action := CreateNew)], i);
      var rr := Resolve(p.g, plan.project, d.target.value, None);
      if rr.Ok? && src.id != d.target.value && src.id in p.g.nodes {
        if d.relation != Some(AttachedTo) {
          LinkRelate(b, plan, p, i, d.target.value, if d.relation.Some? then d.relation.value else RelatedTo);
        } else if p.g.nodes[rr.value].state == Active && AllowedParent(src.kind, p.g.nodes[rr.value].kind)
                  && p.g.nodes[rr.value].category == src.category && rr.value != src.id {
          LinkAttach(b, plan, p, i, d.target.value, rr.value);
        }
      }
    }
  }

  lemma LinkResolve(b: Graph, plan: Plan, p: Progress, i: nat, t: NodeId)
    requires Linked(b, plan, p, i)
    ensures var rr := Resolve(p.g, plan.project, t, None);
            && (rr.Err? ==> !DeadGuard(rr.error))
            && (rr.Ok? ==> Live(p.g, rr.value) && Live(p.g, t) && p.g.nodes[t].project == plan.project
                           && p.g.nodes[rr.value].project == plan.project)
  {
    ResolveErrors(p.g, plan.project, t, None);
    if Resolve(p.g, plan.project, t, None).Ok? {
      ResolveOk(p.g, plan.project, t, None);
    }
  }

  lemma {:induction false} LinkPhaseKeeps(b: Graph, plan: Plan, locked: set<NodeId>, p: Progress, n: nat)
    requires n <= |plan.items| == |p.ds| && Linked(b, plan, p, 0)
    ensures var r := LinkPhase(plan, locked, p, n);
            && (r.Ok? ==> Linked(b, plan, r.value, n))
            && (r.Err? ==> !DeadGuard(r.error))
  {
    hide Linked, LinkStep;
    if n > 0 {
      LinkPhaseKeeps(b, plan, locked, p, n - 1);
      var before := LinkPhase(plan, locked, p, n - 1);
      if before.Ok? {
        LinkStepKeeps(b, plan, locked, before.value, n - 1);
      }
    }
  }
}

/** The dependent-merge phase and the theorems about a committed automatic apply. */
module AutoCommit {
  import opened Options
  import opened GraphModel
  import opened GraphResolve
  import opened GraphMerge
  import opened Evidence
  import opened AutoPlan
  import opened AutoApply
  import opened AutoPhases
  import opened AutoTheorems

  // ----- preparing groups -----

  /** A prepared member: a waiting Action or Issue whose target resolved and passed the version gate. */
  ghost predicate Ready(plan: Plan, g: Graph, ds: seq<Directive>, m: Member) {
    && m.index < |plan.items| == |ds| && !IsDecision(plan, m.index) && Waiting(plan, g, m.index)
    && ds[m.index] == plan.items[m.index].directive
    && var d := plan.items[m.index].directive;
    && d.action == Merge && d.target.Some? && m.target in g.nodes
    && Resolve(g, plan.project, d.target.value, Some(plan.items[m.index].source.kind)) == Ok(m.target)
    && VersionValid(plan, g.nodes[m.target], d.version)
  }

  ghost predicate AllReady(plan: Plan, g: Graph, q: Prepared) {
    forall k :: 0 <= k < |q.members| ==> Ready(plan, g, q.ds, q.members[k])
  }

  ghost predicate DistinctMembers(ms: seq<Member>) {
    forall k, l :: 0 <= k < l < |ms| ==> ms[k].index != ms[l].index
  }

  ghost predicate TakenFrom(ms: seq<Member>, order: seq<nat>, n: nat)
    requires n <= |order|
  {
    forall k :: 0 <= k < |ms| ==> ms[k].index in order[..n]
  }

  /** Everything the order lists is a waiting dependent merge with its original directive. */
  ghost predicate WaitingOrder(plan: Plan, g: Graph, ds: seq<Directive>, order: seq<nat>) {
    && |ds| == |plan.items| && Distinct(order)
    && (forall k :: 0 <= k < |order| ==>
          && order[k] < |plan.items| && !IsDecision(plan, order[k]) && Waiting(plan, g, order[k])
          && ds[order[k]] == plan.items[order[k]].directive && ds[order[k]].action == Merge && ds[order[k]].target.Some?)
  }

  lemma {:induction false} PrepareKeeps(plan: Plan, locked: set<NodeId>, g: Graph, ds: seq<Directive>, order: seq<nat>, n: nat)
    requires n <= |order| && WaitingOrder(plan, g, ds, order)
    ensures var r := PreparePhase(plan, locked, g, ds, order, n);
            && (r.Ok? ==> AllReady(plan, g, r.value) && DistinctMembers(r.value.members) && TakenFrom(r.value.members, order, n))
            && (r.Err? ==> r.error == NotFound)
  {
    hide Resolve;
    if n > 0 {
      PrepareKeeps(plan, locked, g, ds, order, n - 1);
      var before := PreparePhase(plan, locked, g, ds, order, n - 1);
      if before.Ok? {
        PrepareStepKeeps(plan, locked, g, ds, before.value, order, n);
      }
    }
  }

  lemma PrepareStepKeeps(plan: Plan, locked: set<NodeId>, g: Graph, ds: seq<Directive>, q: Prepared, order: seq<nat>, n: nat)
    requires 0 < n <= |order| && WaitingOrder(plan, g, ds, order) && |q.ds| == |ds| && q.ds[order[n - 1]] == ds[order[n - 1]]
    requires AllReady(plan, g, q) && DistinctMembers(q.members) && TakenFrom(q.members, order, n - 1)
    ensures var r := PrepareStep(plan, locked, g, q, order[n - 1]);
            && (r.Ok? ==> AllReady(plan, g, r.value) && DistinctMembers(r.value.members) && TakenFrom(r.value.members, order, n))
            && (r.Err? ==> r.error == NotFound)
  {
  }

  lemma LinkedOrder(b: Graph, plan: Plan, p: Progress)
    requires Linked(b, plan, p, |plan.items|)
    ensures WaitingOrder(plan, p.g, p.ds, MergeOrder(plan, p.ds, |plan.items|))
  {
    hide Good;
    var order := MergeOrder(plan, p.ds, |plan.items|);
    forall k | 0 <= k < |order|
      ensures Waiting(plan, p.g, order[k]) && p.ds[order[k]] == plan.items[order[k]].directive && !IsDecision(plan, order[k])
    {
      assert LinkStatus(plan, p, |plan.items|, order[k]);
    }
  }

  // ----- what was stored before the transaction -----

  /** `b` is the stored graph `g0` plus the planned rows. */
  ghost predicate Base(g0: Graph, plan: Plan, b: Graph) {
    && Inv(g0) && plan.run !in g0.published
    && Inserted(plan, g0.(published := g0.published + {plan.run}), b, |plan.items|)
  }

  lemma StoredIsNotPlanned(g0: Graph, plan: Plan, b: Graph, x: NodeId)
    requires Base(g0, plan, b) && x in g0.nodes
    ensures !Planned(plan, x) && x in b.nodes && b.nodes[x] == g0.nodes[x]
  {
  }

  /** Roots of stored nodes are the same throughout the transaction. */
  lemma StoredRoots(g0: Graph, plan: Plan, b: Graph, g: Graph, x: NodeId)
    requires Base(g0, plan, b) && Frame(b, plan, g) && Live(g0, x)
    ensures HasChain(g0, x) && HasChain(g, x) && Root(g, x) == Root(g0, x) && Root(g0, x) in g0.nodes
    ensures g0.nodes[Root(g0, x)].kind == g0.nodes[x].kind
  {
    RootFacts(g0, x);
    forall y | Live(g0, y)
      ensures Live(g, y) && g.nodes[y].mergedInto == g0.nodes[y].mergedInto
    {
      StoredIsNotPlanned(g0, plan, b, y);
      assert Frozen(b.nodes[y], g.nodes[y]);
    }
    KeepsChains(g0, g, x);
  }

  /** The same-run exception cannot admit a stored row: no stored revision is by this run. */
  lemma StoredVersion(g0: Graph, plan: Plan, x: NodeId, expected: Option<nat>)
    requires RunsOk(g0) && plan.run !in g0.published && x in g0.nodes && VersionValid(plan, g0.nodes[x], expected)
    ensures expected.Some? ==> g0.nodes[x].version == expected.value
  {
  }

  /**
   A merged Action or Issue was planned as a merge into a node its retrieval had
   found; when that was a stored node, it now points at that target's root, whose version at transaction start
   was the planned one.
   */
  ghost predicate Vouched(g0: Graph, plan: Plan, g: Graph, i: nat) {
    && i < |plan.items| && plan.items[i].source.id in g.nodes
    && var d := plan.items[i].directive;
    && d.action == Merge && d.target.Some? && d.target.value in plan.items[i].source.retrieved
    && (d.target.value in g0.nodes ==>
          && HasChain(g0, d.target.value) && Root(g0, d.target.value) in g0.nodes
          && g.nodes[plan.items[i].source.id].mergedInto == Some(Root(g0, d.target.value))
          && (d.version.Some? ==> g0.nodes[Root(g0, d.target.value)].version == d.version.value))
  }

  lemma FoldVouches(g0: Graph, plan: Plan, b: Graph, gl: Graph, ds: seq<Directive>, m: Member, g: Graph, r: NodeId, h: Graph)
    requires Base(g0, plan, b) && Ready(plan, gl, ds, m) && Frame(b, plan, gl) && Frame(b, plan, g)
    requires ForestInv(gl) && ForestInv(g) && StoredDependentsUntouched(b, plan, gl)
    requires MergeEffect(plan, g, m.index, plan.items[m.index].directive.target.value, r, h)
    ensures Vouched(g0, plan, h, m.index)
  {
    var d := plan.items[m.index].directive;
    var t := d.target.value;
    var k := Some(plan.items[m.index].source.kind);
    if t in g0.nodes {
      StoredIsNotPlanned(g0, plan, b, t);
      assert Frozen(b.nodes[t], gl.nodes[t]);
      ResolveOk(gl, plan.project, t, k);
      ResolveOk(g, plan.project, t, k);
      StoredRoots(g0, plan, b, gl, t);
      StoredRoots(g0, plan, b, g, t);
      StoredIsNotPlanned(g0, plan, b, m.target);
      assert gl.nodes[m.target] == g0.nodes[m.target];
      StoredVersion(g0, plan, m.target, d.version);
    }
  }

  // ----- folding groups -----

  /** Where item j stands while groups are folded, relative to the end of the link phase. */
  ghost predicate FoldStatus(g0: Graph, plan: Plan, gl: Graph, g: Graph, j: nat) {
    && j < |plan.items| && plan.items[j].source.id in gl.nodes && plan.items[j].source.id in g.nodes
    && if IsDecision(plan, j) || StateOf(plan, g, j) != Merged
       then StateOf(plan, g, j) == StateOf(plan, gl, j)
       else Vouched(g0, plan, g, j)
  }

  ghost predicate Folding(g0: Graph, plan: Plan, b: Graph, gl: Graph, g: Graph) {
    && Good(b, plan, g) && ParentsStored(b, plan)
    && forall j :: 0 <= j < |plan.items| ==> FoldStatus(g0, plan, gl, g, j)
  }

  /** Members of groups not yet reached are still waiting. */
  ghost predicate Pending(plan: Plan, g: Graph, ms: seq<Member>, done: set<NodeId>) {
    forall k :: 0 <= k < |ms| && ms[k].target !in done ==> Waiting(plan, g, ms[k].index)
  }

  ghost predicate WaitingFrom(plan: Plan, g: Graph, ms: seq<Member>, n: nat) {
    forall k :: n <= k < |ms| ==> Waiting(plan, g, ms[k].index)
  }

  /** The facts about the prepared groups that folding relies on. */
  ghost predicate Groups(g0: Graph, plan: Plan, b: Graph, gl: Graph, q: Prepared) {
    && Base(g0, plan, b) && Good(b, plan, gl) && StoredDependentsUntouched(b, plan, gl)
    && AllReady(plan, gl, q) && DistinctMembers(q.members) && |q.ds| == |plan.items|
  }

  lemma FoldOne(g0: Graph, plan: Plan, b: Graph, gl: Graph, q: Prepared, g: Graph, m: Member)
    requires Groups(g0, plan, b, gl, q) && m in q.members && Folding(g0, plan, b, gl, g) && Waiting(plan, g, m.index)
    ensures m.index < |plan.items| == |q.ds| && q.ds[m.index].target.Some?
    ensures var r := LogicalMerge(plan, g, m.index, q.ds[m.index].target.value);
            && (r.Err? ==> !DeadGuard(r.error))
            && (r.Ok? ==> Folding(g0, plan, b, gl, r.value) && OnlyMoves(plan, g, r.value, m.index))
  {
    hide Good, Base, Vouched, LogicalMerge;
    assert Ready(plan, gl, q.ds, m);
    var t := q.ds[m.index].target.value;
    MergeErrors(b, plan, g, m.index, t);
    if LogicalMerge(plan, g, m.index, t).Ok? {
      var h := LogicalMerge(plan, g, m.index, t).value;
      var r := MergeKeepsGood(b, plan, g, m.index, t);
      GoodParts(b, plan, gl);
      GoodParts(b, plan, g);
      FoldVouches(g0, plan, b, gl, q.ds, m, g, r, h);
      FoldKeepsStatus(g0, plan, gl, g, h, m.index);
    }
  }

  lemma GoodParts(b: Graph, plan: Plan, g: Graph)
    requires Good(b, plan, g)
    ensures Frame(b, plan, g) && ForestInv(g)
  {
  }

  lemma FoldKeepsStatus(g0: Graph, plan: Plan, gl: Graph, g: Graph, h: Graph, i: nat)
    requires i < |plan.items| && !IsDecision(plan, i) && OnlyMoves(plan, g, h, i)
    requires forall j :: 0 <= j < |plan.items| ==> FoldStatus(g0, plan, gl, g, j)
    requires plan.items[i].source.id in h.nodes && StateOf(plan, h, i) == Merged && Vouched(g0, plan, h, i)
    ensures forall j :: 0 <= j < |plan.items| ==> FoldStatus(g0, plan, gl, h, j)
  {
    forall j | 0 <= j < |plan.items|
      ensures FoldStatus(g0, plan, gl, h, j)
    {
      assert FoldStatus(g0, plan, gl, g, j);
    }
  }

  lemma {:induction false} FoldMembersKeeps(g0: Graph, plan: Plan, b: Graph, gl: Graph, q: Prepared, g: Graph,
                                            ms: seq<Member>, n: nat, target: NodeId, done: set<NodeId>)
    requires Groups(g0, plan, b, gl, q) && |q.ds| == |plan.items| && n <= |ms| && DistinctMembers(ms) && target in done
    requires forall m :: m in ms ==> m in q.members && m.target == target
    requires forall k :: 0 <= k < |ms| ==> ms[k].index < |plan.items|
    requires Folding(g0, plan, b, gl, g) && Pending(plan, g, q.members, done) && WaitingFrom(plan, g, ms, 0)
    ensures var r := FoldMembers(plan, q.ds, g, ms, n);
            && (r.Err? ==> !DeadGuard(r.error))
            && (r.Ok? ==> Folding(g0, plan, b, gl, r.value) && Pending(plan, r.value, q.members, done) && WaitingFrom(plan, r.value, ms, n))
  {
    hide Groups, Folding, LogicalMerge;
    if n > 0 {
      FoldMembersKeeps(g0, plan, b, gl, q, g, ms, n - 1, target, done);
      var before := FoldMembers(plan, q.ds, g, ms, n - 1);
      if before.Ok? {
        var m := ms[n - 1];
        FoldOne(g0, plan, b, gl, q, before.value, m);
        var r := LogicalMerge(plan, before.value, m.index, q.ds[m.index].target.value);
        if r.Ok? {
          FoldLeavesPending(g0, plan, b, gl, q, before.value, r.value, m, done);
        }
      }
    }
  }

  lemma FoldLeavesPending(g0: Graph, plan: Plan, b: Graph, gl: Graph, q: Prepared, g: Graph, h: Graph, m: Member, done: set<NodeId>)
    requires Groups(g0, plan, b, gl, q) && m in q.members && m.target in done
    requires Pending(plan, g, q.members, done) && OnlyMoves(plan, g, h, m.index)
    ensures Pending(plan, h, q.members, done)
  {
  }

  lemma {:induction false} AcceptedDistinct(plan: Plan, g: Graph, ds: seq<Directive>, ms: seq<Member>, target: NodeId)
    requires target in g.nodes && |plan.items| == |ds| && DistinctMembers(ms)
    requires forall k :: 0 <= k < |ms| ==> ms[k].index < |plan.items|
    ensures DistinctMembers(Accepted(plan, g, ds, ms, target))
    decreases |ms|
  {
    if ms != [] {
      AcceptedDistinct(plan, g, ds, ms[1..], target);
      var rest := Accepted(plan, g, ds, ms[1..], target);
      forall k | 0 <= k < |rest|
        ensures rest[k].index != ms[0].index
      {
        assert rest[k] in ms[1..];
        var l :| 0 <= l < |ms[1..]| && ms[1..][l] == rest[k];
        assert ms[l + 1] == rest[k];
      }
    }
  }

  lemma {:induction false} GroupPhaseKeeps(g0: Graph, plan: Plan, b: Graph, gl: Graph, q: Prepared, targets: seq<NodeId>, n: nat)
    requires Groups(g0, plan, b, gl, q) && |q.ds| == |plan.items| && DistinctMembers(q.members)
    requires MembersInPlan(plan, q.members) && n <= |targets|
    requires forall k, l :: 0 <= k < l < |targets| ==> targets[k] != targets[l]
    requires Folding(g0, plan, b, gl, gl) && Pending(plan, gl, q.members, {})
    ensures var r := GroupPhase(plan, gl, q, targets, n);
            && (r.Err? ==> !DeadGuard(r.error))
            && (r.Ok? ==> Folding(g0, plan, b, gl, r.value)
                          && Pending(plan, r.value, q.members, set k | 0 <= k < n :: targets[k]))
  {
    hide Folding, FoldMembers, Groups, Accepted;
    if n > 0 {
      GroupPhaseKeeps(g0, plan, b, gl, q, targets, n - 1);
      var before := GroupPhase(plan, gl, q, targets, n - 1);
      if before.Ok? && targets[n - 1] in before.value.nodes {
        var t := targets[n - 1];
        var earlier, done := (set k | 0 <= k < n - 1 :: targets[k]), (set k | 0 <= k < n :: targets[k]);
        var ms := Accepted(plan, before.value, q.ds, q.members, t);
        AcceptedDistinct(plan, before.value, q.ds, q.members, t);
        assert t !in earlier && earlier <= done && t in done;
        AcceptedWaits(plan, before.value, q.members, earlier, ms, t);
        FoldMembersKeeps(g0, plan, b, gl, q, before.value, ms, |ms|, t, done);
      }
    }
  }

  lemma AcceptedWaits(plan: Plan, g: Graph, members: seq<Member>, done: set<NodeId>, ms: seq<Member>, t: NodeId)
    requires Pending(plan, g, members, done) && t !in done && forall m :: m in ms ==> m in members && m.target == t
    ensures WaitingFrom(plan, g, ms, 0)
  {
  }

  // ----- from plan to commit -----

  lemma DependentsKeeps(g0: Graph, plan: Plan, b: Graph, locked: set<NodeId>, p: Progress)
    requires Base(g0, plan, b) && Linked(b, plan, p, |plan.items|)
    ensures var r := Dependents(plan, locked, p);
            && (r.Err? ==> !DeadGuard(r.error))
            && (r.Ok? ==> Folding(g0, plan, b, p.g, r.value))
  {
    hide Base, Good, GroupPhase, PreparePhase;
    LinkedOrder(b, plan, p);
    var order := MergeOrder(plan, p.ds, |plan.items|);
    PrepareKeeps(plan, locked, p.g, p.ds, order, |order|);
    var q := PreparePhase(plan, locked, p.g, p.ds, order, |order|);
    if q.Ok? {
      PreparedInPlan(plan, locked, p.g, p.ds, order, |order|);
      LinkedFolds(g0, b, plan, p);
      AllReadyPending(plan, p.g, q.value);
      GroupPhaseKeeps(g0, plan, b, p.g, q.value, GroupTargets(q.value.members), |GroupTargets(q.value.members)|);
    }
  }

  lemma LinkedFolds(g0: Graph, b: Graph, plan: Plan, p: Progress)
    requires Linked(b, plan, p, |plan.items|)
    ensures Folding(g0, plan, b, p.g, p.g)
  {
    hide Good;
    forall j | 0 <= j < |plan.items|
      ensures FoldStatus(g0, plan, p.g, p.g, j)
    {
      assert LinkStatus(plan, p, |plan.items|, j);
    }
  }

  lemma AllReadyPending(plan: Plan, g: Graph, q: Prepared)
    requires AllReady(plan, g, q)
    ensures Pending(plan, g, q.members, {})
  {
  }

  /** The end of a committed apply, seen from the stored graph `g0` and the inserted graph `b`. */
  ghost predicate Committed(g0: Graph, plan: Plan, b: Graph, h: Graph) {
    && Base(g0, plan, b) && Good(b, plan, h)
    && exists p: Progress :: Linked(b, plan, p, |plan.items|) && Folding(g0, plan, b, p.g, h)
  }

  lemma ApplyReaches(plan: Plan, g0: Graph)
    requires Inv(g0) && OpsFresh(plan, g0) && plan.run !in g0.published
    ensures var r := Apply(plan, g0);
            && (r.Err? ==> !DeadGuard(r.error))
            && (r.Ok? ==> Insert(plan, g0).Ok? && Committed(g0, plan, Insert(plan, g0).value, r.value))
  {
    hide Inv, Good, DecisionPhase, LinkPhase, Dependents, Linked, Folding;
    InsertErrors(plan, g0);
    if Insert(plan, g0).Ok? {
      var b := Insert(plan, g0).value;
      InsertGood(plan, g0);
      var locked := ExistingTargets(plan);
      var p0 := Progress(b, Directives(plan));
      StartsDecided(plan, b);
      DecisionPhaseKeeps(b, plan, locked, p0, |plan.items|);
      var p1 := DecisionPhase(plan, locked, p0, |plan.items|);
      if p1.Ok? {
        DecidedIsLinked(b, plan, p1.value);
        LinkPhaseKeeps(b, plan, locked, p1.value, |plan.items|);
        var p2 := LinkPhase(plan, locked, p1.value, |plan.items|);
        if p2.Ok? {
          DependentsKeeps(g0, plan, b, locked, p2.value);
          var r := Dependents(plan, locked, p2.value);
          if r.Ok? {
            FoldingGood(g0, plan, b, p2.value.g, r.value);
            assert Linked(b, plan, p2.value, |plan.items|) && Folding(g0, plan, b, p2.value.g, r.value);
          }
        }
      }
    }
  }

  lemma FoldingGood(g0: Graph, plan: Plan, b: Graph, gl: Graph, h: Graph)
    requires Folding(g0, plan, b, gl, h)
    ensures Good(b, plan, h)
  {
  }

  lemma StartsDecided(plan: Plan, b: Graph)
    requires Good(b, plan, b) && ParentsStored(b, plan) && AllWaiting(plan, b)
    ensures Decided(b, plan, Progress(b, Directives(plan)), 0)
  {
  }

  lemma {:induction false} InsertPhaseErrors(plan: Plan, g: Graph, n: nat)
    requires n <= |plan.items|
    ensures InsertPhase(plan, g, n).Err? ==> InsertPhase(plan, g, n).error in {ConstraintViolation, BlankTitle, NoEvidence}
  {
    if n > 0 {
      InsertPhaseErrors(plan, g, n - 1);
    }
  }

  lemma InsertErrors(plan: Plan, g: Graph)
    ensures Insert(plan, g).Err? ==> !DeadGuard(Insert(plan, g).error)
  {
    InsertPhaseErrors(plan, g.(published := g.published + {plan.run}), |plan.items|);
  }

  // ----- the commit theorems -----

  /** Applying any plan keeps the graph invariant; a replay changes nothing. */
  lemma ApplyKeepsInv(plan: Plan, g0: Graph)
    requires Inv(g0) && OpsFresh(plan, g0) && Apply(plan, g0).Ok?
    ensures Inv(Apply(plan, g0).value)
    ensures plan.run in g0.published ==> Apply(plan, g0).value == g0
    ensures plan.run !in g0.published ==> plan.run in Apply(plan, g0).value.published
  {
    hide Inv;
    if plan.run !in g0.published {
      hide Apply;
      ApplyReaches(plan, g0);
    }
  }

  /**
   On no plan can the "UNATTACHED leaf", "must not have children", partial-merge
   or merge-chain corruption guards fire.
   */
  lemma GuardsAreDead(plan: Plan, g0: Graph)
    requires Inv(g0) && OpsFresh(plan, g0)
    ensures Apply(plan, g0).Err? ==> !DeadGuard(Apply(plan, g0).error)
  {
    hide Inv, Insert, DecisionPhase, LinkPhase, Dependents;
    if plan.run !in g0.published {
      hide Apply;
      ApplyReaches(plan, g0);
    }
  }

  /** The final place of a planned node. */
  ghost predicate Outcome(plan: Plan, h: Graph, i: nat) {
    && i < |plan.items| && plan.items[i].source.id in h.nodes
    && var src := plan.items[i].source;
    && var n := h.nodes[src.id];
    && n.kind == src.kind && n.category == src.category && n.project == plan.project
    && match n.state
       case Unattached => n.parent.None? && n.mergedInto.None? && (src.kind == Decision ==> Untargeted(plan, i))
       case Active =>
         && n.mergedInto.None?
         && if src.kind == Decision then n.parent.None? && !Untargeted(plan, i)
            else n.parent.Some? && ActiveHome(h, n.parent.value, n) && AllowedParent(src.kind, h.nodes[n.parent.value].kind)
       case Merged =>
         && n.parent.None? && n.mergedInto.Some? && ActiveHome(h, n.mergedInto.value, n)
         && h.nodes[n.mergedInto.value].kind == src.kind && (src.kind == Decision ==> !Untargeted(plan, i))
       case Deleted => false
  }

  /**
   At commit every planned Decision is ACTIVE or MERGED, except one that asked to
   merge without a target; every planned Action or Issue is ACTIVE under an ACTIVE
   legal parent of its category, MERGED into an ACTIVE node of its kind and
   category, or UNATTACHED without a parent.
   */
  lemma ApplyOutcomes(plan: Plan, g0: Graph, i: nat)
    requires Inv(g0) && OpsFresh(plan, g0) && plan.run !in g0.published && Apply(plan, g0).Ok? && i < |plan.items|
    ensures Outcome(plan, Apply(plan, g0).value, i)
  {
    hide Apply;
    ApplyReaches(plan, g0);
    var h := Apply(plan, g0).value;
    var b := Insert(plan, g0).value;
    OutcomeOf(g0, plan, b, h, i);
  }

  lemma OutcomeOf(g0: Graph, plan: Plan, b: Graph, h: Graph, i: nat)
    requires Committed(g0, plan, b, h) && i < |plan.items|
    ensures Outcome(plan, h, i)
  {
    hide Good, Base;
    var p: Progress :| Linked(b, plan, p, |plan.items|) && Folding(g0, plan, b, p.g, h);
    PlannedAt(b, plan, h, i);
    assert FoldStatus(g0, plan, p.g, h, i);
    assert LinkStatus(plan, p, |plan.items|, i);
  }

  /** One Decision that asks to merge and names no target. */
  function UntargetedPlan(): Plan {
    var source := Source(5, Decision, 0, "t", "c", [EvidenceSpec(1, 1)], 0, None, {});
    Plan(0, 7, [Item(source, Directive(Merge, None, None, None, None))], 0)
  }

  /** Such a plan does commit, and leaves its Decision UNATTACHED. */
  lemma UntargetedDecisionStays()
    ensures var r := Apply(UntargetedPlan(), EMPTY_GRAPH);
            r.Ok? && 5 in r.value.nodes && r.value.nodes[5].state == Unattached
  {
    var plan := UntargetedPlan();
    var g := EMPTY_GRAPH.(published := {7});
    assert EMPTY_GRAPH.published + {plan.run} == {7};
    var b := g.(nodes := map[5 := NewNode(plan, plan.items[0].source)]);
    assert InsertPhase(plan, g, 0) == Ok(g);
    assert InsertPhase(plan, g, 1) == Ok(b);
    var locked := ExistingTargets(plan);
    var p := Progress(b, Directives(plan));
    assert DecisionPhase(plan, locked, p, 0) == Ok(p);
    assert DecisionPhase(plan, locked, p, 1) == Ok(p);
    assert LinkPhase(plan, locked, p, 0) == Ok(p);
    assert LinkPhase(plan, locked, p, 1) == Ok(p);
    assert MergeOrder(plan, p.ds, 0) == [];
    assert MergeOrder(plan, p.ds, 1) == [];
    assert GroupTargets([]) == [];
  }

  /** The version gate on every applied Action or Issue merge is the one taken at transaction start. */
  lemma ApplyVersions(plan: Plan, g0: Graph, i: nat)
    requires Inv(g0) && OpsFresh(plan, g0) && plan.run !in g0.published && Apply(plan, g0).Ok? && i < |plan.items|
    requires plan.items[i].source.kind != Decision
    ensures var h := Apply(plan, g0).value;
            plan.items[i].source.id in h.nodes && (h.nodes[plan.items[i].source.id].state == Merged ==> Vouched(g0, plan, h, i))
  {
    hide Apply;
    ApplyReaches(plan, g0);
    var h := Apply(plan, g0).value;
    var b := Insert(plan, g0).value;
    VouchedOf(g0, plan, b, h, i);
  }

  /** Retrieval searched stored nodes only. */
  ghost predicate RetrievedStored(plan: Plan, g0: Graph) {
    forall i, t :: 0 <= i < |plan.items| && t in plan.items[i].source.retrieved ==> t in g0.nodes
  }

  /**
   When retrieval found stored nodes only, no applied dependent merge escapes: each
   points at the root its target had at transaction start, at the planned version.
   */
  lemma ApplyVersionsAll(plan: Plan, g0: Graph, i: nat)
    requires Inv(g0) && OpsFresh(plan, g0) && plan.run !in g0.published && Apply(plan, g0).Ok? && i < |plan.items|
    requires plan.items[i].source.kind != Decision && RetrievedStored(plan, g0)
    requires plan.items[i].source.id in Apply(plan, g0).value.nodes && Apply(plan, g0).value.nodes[plan.items[i].source.id].state == Merged
    ensures var d := plan.items[i].directive;
            && d.action == Merge && d.target.Some? && d.target.value in g0.nodes
            && HasChain(g0, d.target.value) && Root(g0, d.target.value) in g0.nodes
            && Apply(plan, g0).value.nodes[plan.items[i].source.id].mergedInto == Some(Root(g0, d.target.value))
            && (d.version.Some? ==> g0.nodes[Root(g0, d.target.value)].version == d.version.value)
  {
    hide Apply, Inv;
    ApplyVersions(plan, g0, i);
    assert Vouched(g0, plan, Apply(plan, g0).value, i);
    assert plan.items[i].directive.target.value in plan.items[i].source.retrieved;
  }

  lemma VouchedOf(g0: Graph, plan: Plan, b: Graph, h: Graph, i: nat)
    requires Committed(g0, plan, b, h) && i < |plan.items| && plan.items[i].source.kind != Decision
    ensures plan.items[i].source.id in h.nodes && (h.nodes[plan.items[i].source.id].state == Merged ==> Vouched(g0, plan, h, i))
  {
    hide Good, Base;
    var p: Progress :| Linked(b, plan, p, |plan.items|) && Folding(g0, plan, b, p.g, h);
    assert FoldStatus(g0, plan, p.g, h, i);
  }

  /** The evidence a row starts the transaction with: stored, or brought by its candidate. */
  ghost function StartEvidence(plan: Plan, g0: Graph, t: NodeId): seq<EvidenceSpec> {
    if t in g0.nodes then CurrentEvidence(g0.nodes[t])
    else if exists i :: 0 <= i < |plan.items| && plan.items[i].source.id == t then
      var i :| 0 <= i < |plan.items| && plan.items[i].source.id == t;
      plan.items[i].source.evidence
    else []
  }

  /**
   Folding conserves evidence: after commit the keys of every row are its own and
   those of every planned node merged into it, each once if it absorbed any; and a
   stored row keeps its place, and its text if a user wrote it last.
   */
  lemma ApplyConserves(plan: Plan, g0: Graph, t: NodeId)
    requires Inv(g0) && OpsFresh(plan, g0) && plan.run !in g0.published && Apply(plan, g0).Ok?
    requires t in Apply(plan, g0).value.nodes
    ensures var h := Apply(plan, g0).value;
            && (forall key :: key in Keys(CurrentEvidence(h.nodes[t])) <==>
                              key in Keys(StartEvidence(plan, g0, t)) || Absorbed(plan, h, t, key))
            && ((exists i :: MergedTo(plan, h, i, t)) ==> NoRepeats(CurrentEvidence(h.nodes[t])))
            && (t in g0.nodes ==> Frozen(g0.nodes[t], h.nodes[t]))
  {
    hide Apply;
    ApplyReaches(plan, g0);
    var h := Apply(plan, g0).value;
    var b := Insert(plan, g0).value;
    ConservedOf(g0, plan, b, h, t);
  }

  lemma ConservedOf(g0: Graph, plan: Plan, b: Graph, h: Graph, t: NodeId)
    requires Committed(g0, plan, b, h) && t in h.nodes
    ensures (forall key :: key in Keys(CurrentEvidence(h.nodes[t])) <==>
                           key in Keys(StartEvidence(plan, g0, t)) || Absorbed(plan, h, t, key))
    ensures (exists i :: MergedTo(plan, h, i, t)) ==> NoRepeats(CurrentEvidence(h.nodes[t]))
    ensures t in g0.nodes ==> Frozen(g0.nodes[t], h.nodes[t])
  {
    hide Inv, PlannedOk, StrayOk, Linked, Folding;
    assert EvidenceAt(b, plan, h, t);
    if t in g0.nodes {
      StoredIsNotPlanned(g0, plan, b, t);
    } else {
      assert Planned(plan, t);
      var i :| 0 <= i < |plan.items| && plan.items[i].source.id == t && StartEvidence(plan, g0, t) == plan.items[i].source.evidence;
    }
  }
}

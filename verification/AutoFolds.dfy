/** Which planned Actions and Issues are merged away, and into what: the dependent phase read at commit. */
module AutoFolds {
  import opened Options
  import opened GraphModel
  import opened GraphResolve
  import opened GraphMerge
  import opened AutoPlan
  import opened AutoApply
  import opened AutoPhases
  import opened AutoTheorems
  import opened AutoCommit
  import opened AutoLedger
  import opened AutoDecisions
  import opened AutoLinks

  // ----- what folding leaves alone -----

  /** A row is revised in place, or a waiting Action or Issue is merged away where it stands; Decisions do not change. */
  predicate FoldedAt(n: Node, m: Node) {
    && (n.kind == Decision ==> m == n)
    && m.kind == n.kind && m.category == n.category && m.project == n.project && m.parent == n.parent
    && (if n.state == Unattached then m.state == Unattached || m.state == Merged else m.state == n.state && m.mergedInto == n.mergedInto)
  }

  ghost predicate FoldsTo(g: Graph, h: Graph) {
    && h.nodes.Keys == g.nodes.Keys && h.relations == g.relations && KeepsOps(g, h)
    && forall x :: x in g.nodes ==> FoldedAt(g.nodes[x], h.nodes[x])
  }

  lemma FoldsToChains(g: Graph, h: Graph, k: Graph)
    requires FoldsTo(g, h) && FoldsTo(h, k)
    ensures FoldsTo(g, k)
  {
    KeepsOpsChain(g, h, k);
    forall x | x in g.nodes
      ensures FoldedAt(g.nodes[x], k.nodes[x])
    {
      assert FoldedAt(g.nodes[x], h.nodes[x]) && FoldedAt(h.nodes[x], k.nodes[x]);
    }
  }

  lemma MergeFolds(plan: Plan, g: Graph, i: nat, t: NodeId, r: NodeId, h: Graph)
    requires i < |plan.items| && !IsDecision(plan, i) && Merges(plan, g, i, t, r, h) && Waiting(plan, g, i)
    requires g.nodes[plan.items[i].source.id].kind == plan.items[i].source.kind && OpFree(plan, g, i)
    ensures FoldsTo(g, h)
  {
    MergesWrites(plan, g, i, t, r, h);
    MergeKeepsLogged(plan, g, i, t, r, h);
    hide KeepsOps;
    var src := plan.items[i].source;
    assert h.nodes[src.id] == MergedSource(g.nodes[src.id], r, System);
    assert g.nodes[r].kind == src.kind;
    hide Merges, Absorb;
  }

  // ----- Decision parents, in closed form -----

  /** x is the ACTIVE Decision of the category that the parent stands for. */
  ghost predicate HomeOf(g: Graph, p: ProjectId, category: Category, parent: Option<NodeId>, x: NodeId) {
    && parent.Some? && Live(g, parent.value) && g.nodes[parent.value].project == p && g.nodes[parent.value].kind == Decision
    && HasChain(g, parent.value) && Depth(g, parent.value) <= 127 && Root(g, parent.value) == x
    && x in g.nodes && g.nodes[x].state == Active && g.nodes[x].category == category
  }

  lemma DecisionParentIs(g: Graph, p: ProjectId, category: Category, parent: Option<NodeId>, x: NodeId)
    requires ForestInv(g)
    ensures DecisionParent(g, p, category, parent) == Some(x) <==> HomeOf(g, p, category, parent, x)
  {
    if parent.Some? {
      ResolveExactly(g, p, parent.value, Some(Decision));
      if Live(g, parent.value) {
        RootFacts(g, parent.value);
      }
    }
  }

  /** The chain of a Decision consists of Decisions, so it is the same wherever Decisions are. */
  lemma DecisionChain(g: Graph, h: Graph, q: NodeId)
    requires PointersOk(g) && HasChain(g, q) && g.nodes[q].kind == Decision
    requires forall x :: x in g.nodes && g.nodes[x].kind == Decision ==> x in h.nodes && h.nodes[x] == g.nodes[x]
    ensures HasChain(h, q) && Root(h, q) == Root(g, q) && Depth(h, q) == Depth(g, q)
    ensures Root(g, q) in g.nodes && Root(h, q) in h.nodes && h.nodes[Root(h, q)] == g.nodes[Root(g, q)]
  {
    var c := Chain(g, q);
    forall i | 0 <= i < |c|
      ensures Live(h, c[i]) && c[i] in g.nodes && h.nodes[c[i]].mergedInto == g.nodes[c[i]].mergedInto && h.nodes[c[i]] == g.nodes[c[i]]
    {
      ChainHomogeneous(g, c, i);
    }
    ChainTransfer(g, h, c);
    ChainIs(h, c);
  }

  lemma HomesSame(g: Graph, h: Graph, p: ProjectId, category: Category, parent: Option<NodeId>, x: NodeId)
    requires ForestInv(g) && ForestInv(h) && FoldsTo(g, h)
    ensures HomeOf(g, p, category, parent, x) <==> HomeOf(h, p, category, parent, x)
  {
    DecisionsFolded(g, h);
    if parent.Some? && parent.value in g.nodes && g.nodes[parent.value].kind == Decision && Live(g, parent.value) {
      DecisionChain(g, h, parent.value);
    }
  }

  lemma DecisionsFolded(g: Graph, h: Graph)
    requires FoldsTo(g, h)
    ensures forall x :: x in g.nodes && g.nodes[x].kind == Decision ==> x in h.nodes && h.nodes[x] == g.nodes[x]
    ensures forall x :: x in h.nodes && h.nodes[x].kind == Decision ==> x in g.nodes && h.nodes[x] == g.nodes[x]
  {
    forall x | x in g.nodes
      ensures h.nodes[x].kind == g.nodes[x].kind && (g.nodes[x].kind == Decision ==> h.nodes[x] == g.nodes[x])
    {
      assert FoldedAt(g.nodes[x], h.nodes[x]);
    }
  }

  /** Only Actions are gated: the planned Decision parent must be the target's. */
  ghost predicate GateAt(plan: Plan, g: Graph, i: nat, r: NodeId) {
    && i < |plan.items| && r in g.nodes
    && (g.nodes[r].kind == Action ==> exists x ::
          && HomeOf(g, plan.project, plan.items[i].source.category, plan.items[i].directive.parent, x)
          && HomeOf(g, plan.project, g.nodes[r].category, g.nodes[r].parent, x))
  }

  lemma GatesSame(plan: Plan, g: Graph, h: Graph, i: nat, r: NodeId)
    requires ForestInv(g) && ForestInv(h) && FoldsTo(g, h)
    ensures GateAt(plan, g, i, r) <==> GateAt(plan, h, i, r)
  {
    if i < |plan.items| && r in g.nodes {
      assert FoldedAt(g.nodes[r], h.nodes[r]);
      hide FoldedAt, FoldsTo, HomeOf, ForestInv;
      forall x
        ensures HomeOf(g, plan.project, plan.items[i].source.category, plan.items[i].directive.parent, x)
           <==> HomeOf(h, plan.project, plan.items[i].source.category, plan.items[i].directive.parent, x)
        ensures HomeOf(g, plan.project, g.nodes[r].category, g.nodes[r].parent, x)
           <==> HomeOf(h, plan.project, g.nodes[r].category, g.nodes[r].parent, x)
      {
        HomesSame(g, h, plan.project, plan.items[i].source.category, plan.items[i].directive.parent, x);
        HomesSame(g, h, plan.project, g.nodes[r].category, g.nodes[r].parent, x);
      }
    }
  }

  // ----- orders -----

  /** Transcript order, ties as planned. */
  predicate Sooner(plan: Plan, j: nat, i: nat) {
    && j < |plan.items| && i < |plan.items|
    && (plan.items[j].source.order < plan.items[i].source.order || (plan.items[j].source.order == plan.items[i].source.order && j < i))
  }

  ghost predicate Sorted(plan: Plan, order: seq<nat>) {
    forall k, l :: 0 <= k < l < |order| ==> Sooner(plan, order[k], order[l])
  }

  lemma {:induction false} InsertSorted(plan: Plan, order: seq<nat>, i: nat)
    requires i < |plan.items| && Sorted(plan, order) && forall k :: 0 <= k < |order| ==> order[k] < i
    ensures Sorted(plan, InsertByOrder(plan, order, i))
    decreases order
  {
    var r := InsertByOrder(plan, order, i);
    if order == [] || plan.items[i].source.order < plan.items[order[0]].source.order {
      assert forall l :: 0 < l < |order| ==> Sooner(plan, order[0], order[l]);
      forall k, l | 0 <= k < l < |r|
        ensures Sooner(plan, r[k], r[l])
      {
        assert r[l] == order[l - 1];
      }
    } else {
      var rest := InsertByOrder(plan, order[1..], i);
      InsertSorted(plan, order[1..], i);
      forall k, l | 0 <= k < l < |r|
        ensures Sooner(plan, r[k], r[l])
      {
        assert r[l] == rest[l - 1];
        if k == 0 {
          if rest[l - 1] != i {
            var m :| 0 <= m < |order[1..]| && order[1..][m] == rest[l - 1];
            assert order[m + 1] == rest[l - 1];
          }
        } else {
          assert r[k] == rest[k - 1];
        }
      }
    }
  }

  lemma {:induction false} MergeOrderSorted(plan: Plan, ds: seq<Directive>, n: nat)
    requires n <= |plan.items| == |ds|
    ensures Sorted(plan, MergeOrder(plan, ds, n))
  {
    hide DependentMerge, Sorted, Distinct, InTranscriptOrder, InsertByOrder;
    if n > 0 {
      MergeOrderSorted(plan, ds, n - 1);
      if DependentMerge(plan, ds, n - 1) {
        InsertSorted(plan, MergeOrder(plan, ds, n - 1), n - 1);
      }
    } else {
      assert MergeOrder(plan, ds, 0) == [];
      SortedNone(plan);
    }
  }

  lemma SortedNone(plan: Plan)
    ensures Sorted(plan, [])
  {
  }

  lemma {:induction false} AscendingRises(s: set<NodeId>)
    ensures forall k, l :: 0 <= k < l < |Ascending(s)| ==> Ascending(s)[k] < Ascending(s)[l]
    decreases |s|
  {
    if s != {} {
      MinExists(s);
      var r := Ascending(s);
      var m := r[0];
      assert m in s && forall x :: x in s ==> m <= x;
      assert r == [m] + Ascending(s - {m});
      AscendingRises(s - {m});
    }
  }

  // ----- preparing, exactly -----

  /** The gates of a dependent merge, read before the first fold. */
  ghost predicate PreparesAt(plan: Plan, g: Graph, i: nat) {
    && i < |plan.items| && plan.items[i].directive.target.Some?
    && var t := plan.items[i].directive.target.value;
    && Live(g, t) && g.nodes[t].project == plan.project && g.nodes[t].kind == plan.items[i].source.kind
    && HasChain(g, t) && Depth(g, t) <= 127 && Root(g, t) in g.nodes && Root(g, t) != plan.items[i].source.id
    && VersionValid(plan, g.nodes[Root(g, t)], plan.items[i].directive.version)
  }

  ghost function TargetRoot(plan: Plan, g: Graph, i: nat): NodeId
    requires PreparesAt(plan, g, i)
  {
    Root(g, plan.items[i].directive.target.value)
  }

  lemma PrepareStepExactly(plan: Plan, locked: set<NodeId>, g: Graph, q: Prepared, i: nat)
    requires ForestInv(g) && Waiting(plan, g, i) && |q.ds| == |plan.items| && q.ds[i] == plan.items[i].directive && q.ds[i].target.Some?
    requires (Planned(plan, q.ds[i].target.value) || q.ds[i].target.value in locked)
    ensures PrepareStep(plan, locked, g, q, i).Ok?
    ensures var r := PrepareStep(plan, locked, g, q, i).value;
            && |r.ds| == |q.ds|
            && r.members == if PreparesAt(plan, g, i) then q.members + [Member(i, TargetRoot(plan, g, i))] else q.members
  {
    var t := q.ds[i].target.value;
    ResolveExactly(g, plan.project, t, Some(plan.items[i].source.kind));
    if Live(g, t) {
      RootFacts(g, t);
    }
    hide Resolve, ForestInv;
  }

  ghost predicate MemberOf(ms: seq<Member>, i: nat) {
    exists k :: 0 <= k < |ms| && ms[k].index == i
  }

  ghost predicate MembersRooted(plan: Plan, g: Graph, ms: seq<Member>) {
    forall k :: 0 <= k < |ms| ==> PreparesAt(plan, g, ms[k].index) && ms[k].target == TargetRoot(plan, g, ms[k].index)
  }

  ghost predicate ListedBefore(order: seq<nat>, n: nat, i: nat) {
    exists l :: 0 <= l < n && l < |order| && order[l] == i
  }

  ghost predicate MembersListed(ms: seq<Member>, order: seq<nat>, n: nat) {
    forall k :: 0 <= k < |ms| ==> ListedBefore(order, n, ms[k].index)
  }

  ghost predicate MembersComplete(plan: Plan, g: Graph, ms: seq<Member>, order: seq<nat>, n: nat) {
    forall i :: ListedBefore(order, n, i) && PreparesAt(plan, g, i) ==> MemberOf(ms, i)
  }

  ghost predicate MembersSorted(plan: Plan, ms: seq<Member>) {
    forall k, l :: 0 <= k < l < |ms| ==> Sooner(plan, ms[k].index, ms[l].index)
  }

  /** The prepared members are exactly the listed merges whose gates pass, in order, each with its target's root. */
  ghost predicate PreparedExactly(plan: Plan, g: Graph, ms: seq<Member>, order: seq<nat>, n: nat) {
    MembersRooted(plan, g, ms) && MembersListed(ms, order, n) && MembersComplete(plan, g, ms, order, n) && MembersSorted(plan, ms)
  }

  lemma ListedNext(order: seq<nat>, n: nat, i: nat)
    requires n < |order|
    ensures ListedBefore(order, n + 1, i) <==> ListedBefore(order, n, i) || order[n] == i
  {
  }

  lemma MemberNext(ms: seq<Member>, m: Member, i: nat)
    ensures MemberOf(ms + [m], i) <==> MemberOf(ms, i) || m.index == i
  {
    var next := ms + [m];
    if MemberOf(ms, i) {
      var k :| 0 <= k < |ms| && ms[k].index == i;
      assert next[k].index == i;
    }
    assert next[|ms|] == m;
  }

  lemma SortedNext(plan: Plan, ms: seq<Member>, order: seq<nat>, n: nat, m: Member)
    requires n < |order| && Sorted(plan, order) && MembersListed(ms, order, n) && MembersSorted(plan, ms) && m.index == order[n]
    ensures MembersSorted(plan, ms + [m])
  {
    hide Sooner;
    var next := ms + [m];
    forall k, l | 0 <= k < l < |next|
      ensures Sooner(plan, next[k].index, next[l].index)
    {
      assert ListedBefore(order, n, ms[k].index);
    }
  }

  lemma PreparedGrows(plan: Plan, g: Graph, ms: seq<Member>, order: seq<nat>, n: nat, next: seq<Member>)
    requires n < |order| && Sorted(plan, order) && PreparedExactly(plan, g, ms, order, n)
    requires next == if PreparesAt(plan, g, order[n]) then ms + [Member(order[n], TargetRoot(plan, g, order[n]))] else ms
    ensures PreparedExactly(plan, g, next, order, n + 1)
  {
    hide Sooner, Sorted, ListedBefore, MemberOf;
    var m := n + 1;
    if PreparesAt(plan, g, order[n]) {
      SortedNext(plan, ms, order, n, Member(order[n], TargetRoot(plan, g, order[n])));
      assert MembersRooted(plan, g, next);
    }
    hide PreparesAt, MembersSorted, MembersRooted;
    forall i
      ensures ListedBefore(order, m, i) <==> ListedBefore(order, n, i) || order[n] == i
      ensures next != ms ==> (MemberOf(next, i) <==> MemberOf(ms, i) || order[n] == i)
    {
      ListedNext(order, n, i);
      if next != ms {
        MemberNext(ms, Member(order[n], TargetRoot(plan, g, order[n])), i);
      }
    }
  }

  /** Everything the order lists has a target in the plan or locked. */
  ghost predicate OrderKnown(plan: Plan, locked: set<NodeId>, order: seq<nat>) {
    forall k :: 0 <= k < |order| ==>
      && order[k] < |plan.items| && plan.items[order[k]].directive.target.Some?
      && (Planned(plan, plan.items[order[k]].directive.target.value) || plan.items[order[k]].directive.target.value in locked)
  }

  lemma {:induction false} PreparePhaseExactly(plan: Plan, locked: set<NodeId>, g: Graph, ds: seq<Directive>, order: seq<nat>, n: nat)
    requires n <= |order| && WaitingOrder(plan, g, ds, order) && Sorted(plan, order) && ForestInv(g) && OrderKnown(plan, locked, order)
    ensures PreparePhase(plan, locked, g, ds, order, n).Ok?
    ensures PreparedExactly(plan, g, PreparePhase(plan, locked, g, ds, order, n).value.members, order, n)
  {
    hide ForestInv, PreparedExactly, Sorted, Planned, Waiting, PrepareStep, PreparesAt;
    if n > 0 {
      var m := n - 1;
      PreparePhaseExactly(plan, locked, g, ds, order, m);
      var q := PreparePhase(plan, locked, g, ds, order, m).value;
      assert Waiting(plan, g, order[m]) && q.ds[order[m]] == ds[order[m]];
      PrepareStepExactly(plan, locked, g, q, order[m]);
      PreparedGrows(plan, g, q.members, order, m, PreparePhase(plan, locked, g, ds, order, n).value.members);
    } else {
      PreparedNone(plan, g, order);
    }
  }

  lemma PreparedNone(plan: Plan, g: Graph, order: seq<nat>)
    ensures PreparedExactly(plan, g, [], order, 0)
  {
  }

  // ----- the gate loop, exactly -----

  /** Accepted keeps exactly the members of the target that pass the gate, in order. */
  lemma {:induction false} AcceptedExactly(plan: Plan, g: Graph, ds: seq<Directive>, ms: seq<Member>, target: NodeId)
    requires target in g.nodes && |plan.items| == |ds| && ForestInv(g)
    requires forall k :: 0 <= k < |ms| ==> ms[k].index < |plan.items| && ds[ms[k].index].parent == plan.items[ms[k].index].directive.parent
    ensures forall m :: m in Accepted(plan, g, ds, ms, target) <==> m in ms && m.target == target && GateAt(plan, g, m.index, target)
    decreases |ms|
  {
    hide ForestInv, GateAt, DecisionParent;
    if ms != [] {
      AcceptedExactly(plan, g, ds, ms[1..], target);
      GateMeans(plan, g, ds, ms[0], target);
      assert ms == [ms[0]] + ms[1..];
    }
  }

  lemma GateMeans(plan: Plan, g: Graph, ds: seq<Directive>, m: Member, target: NodeId)
    requires target in g.nodes && |plan.items| == |ds| && ForestInv(g) && m.index < |plan.items|
    requires ds[m.index].parent == plan.items[m.index].directive.parent
    ensures var intended := DecisionParent(g, plan.project, plan.items[m.index].source.category, ds[m.index].parent);
            var actual := DecisionParent(g, plan.project, g.nodes[target].category, g.nodes[target].parent);
            GateAt(plan, g, m.index, target) <==> (g.nodes[target].kind == Action ==> intended.Some? && intended == actual)
  {
    var intended := DecisionParent(g, plan.project, plan.items[m.index].source.category, ds[m.index].parent);
    var actual := DecisionParent(g, plan.project, g.nodes[target].category, g.nodes[target].parent);
    hide ForestInv, HomeOf, DecisionParent;
    forall x: NodeId
      ensures intended == Some(x) <==> HomeOf(g, plan.project, plan.items[m.index].source.category, plan.items[m.index].directive.parent, x)
      ensures actual == Some(x) <==> HomeOf(g, plan.project, g.nodes[target].category, g.nodes[target].parent, x)
    {
      DecisionParentIs(g, plan.project, plan.items[m.index].source.category, plan.items[m.index].directive.parent, x);
      DecisionParentIs(g, plan.project, g.nodes[target].category, g.nodes[target].parent, x);
    }
    if intended.Some? && intended == actual {
      assert HomeOf(g, plan.project, g.nodes[target].category, g.nodes[target].parent, intended.value);
    }
  }

  lemma ConsSorted(plan: Plan, ms: seq<Member>, rest: seq<Member>)
    requires ms != [] && MembersSorted(plan, ms) && MembersSorted(plan, rest) && forall m :: m in rest ==> m in ms[1..]
    ensures MembersSorted(plan, [ms[0]] + rest)
  {
    hide Sooner;
    var r := [ms[0]] + rest;
    forall k, l | 0 <= k < l < |r|
      ensures Sooner(plan, r[k].index, r[l].index)
    {
      assert r[l] == rest[l - 1];
      if k == 0 {
        assert rest[l - 1] in ms[1..];
        var m :| 0 <= m < |ms[1..]| && ms[1..][m] == rest[l - 1];
        assert ms[m + 1] == rest[l - 1];
      } else {
        assert r[k] == rest[k - 1];
      }
    }
  }

  lemma {:induction false} AcceptedSorted(plan: Plan, g: Graph, ds: seq<Directive>, ms: seq<Member>, target: NodeId)
    requires target in g.nodes && |plan.items| == |ds|
    requires forall k :: 0 <= k < |ms| ==> ms[k].index < |plan.items|
    requires MembersSorted(plan, ms)
    ensures MembersSorted(plan, Accepted(plan, g, ds, ms, target))
    decreases |ms|
  {
    hide DecisionParent, Sooner;
    if ms != [] {
      assert MembersSorted(plan, ms[1..]);
      AcceptedSorted(plan, g, ds, ms[1..], target);
      ConsSorted(plan, ms, Accepted(plan, g, ds, ms[1..], target));
    }
  }

  // ----- folding, exactly -----

  /** The dependent merges applied so far are exactly the taken items. */
  ghost predicate Progressed(plan: Plan, g: Graph, taken: set<nat>) {
    forall j :: 0 <= j < |plan.items| && !IsDecision(plan, j) ==>
      plan.items[j].source.id in g.nodes && (StateOf(plan, g, j) == Merged <==> j in taken)
  }

  /** A merged item points where its target leads: at the target, at its stored root, or along its redirect. */
  ghost predicate PointsHome(plan: Plan, g0: Graph, g: Graph, j: int) {
    && 0 <= j < |plan.items| && !IsDecision(plan, j) && plan.items[j].source.id in g.nodes && plan.items[j].directive.target.Some?
    && var r, t := g.nodes[plan.items[j].source.id].mergedInto, plan.items[j].directive.target.value;
    && r.Some? && (r == Some(t) || (Live(g0, t) && HasChain(g0, t) && r == Some(Root(g0, t))) || (t in g.nodes && g.nodes[t].state == Merged && g.nodes[t].mergedInto == r))
  }

  ghost predicate AllPointHome(plan: Plan, g0: Graph, g: Graph, taken: set<nat>) {
    forall j :: j in taken ==> PointsHome(plan, g0, g, j)
  }

  ghost predicate FoldState(g0: Graph, plan: Plan, b: Graph, gl: Graph, g: Graph, taken: set<nat>) {
    && Folding(g0, plan, b, gl, g) && FoldsTo(gl, g) && Ledger(g0, b, plan, g)
    && Progressed(plan, g, taken) && AllPointHome(plan, g0, g, taken)
  }

  lemma TakenBefore(b: Graph, plan: Plan, g0: Graph, g: Graph, taken: set<nat>, i: nat, r: NodeId)
    requires Good(b, plan, g) && Progressed(plan, g, taken) && r in g.nodes && g.nodes[r].kind != Decision
    requires forall j :: j in taken ==> Before(plan, g0, j, i)
    ensures AllBefore(plan, g0, g, r, i)
  {
    forall j | MergedTo(plan, g, j, r)
      ensures Before(plan, g0, j, i)
    {
      PlannedHome(b, plan, g, j);
      RootItselfKind(b, plan, g, j, r);
    }
  }

  lemma RootItselfKind(b: Graph, plan: Plan, g: Graph, j: nat, r: NodeId)
    requires Good(b, plan, g) && MergedTo(plan, g, j, r) && r in g.nodes && g.nodes[r].kind != Decision
    ensures !IsDecision(plan, j) && StateOf(plan, g, j) == Merged
  {
    hide Good;
    PlannedAt(b, plan, g, j);
  }

  lemma StaysHome(plan: Plan, g0: Graph, g: Graph, h: Graph, j: int)
    requires FoldsTo(g, h) && PointsHome(plan, g0, g, j) && g.nodes[plan.items[j].source.id].state == Merged
    ensures PointsHome(plan, g0, h, j)
  {
    var s, t := plan.items[j].source.id, plan.items[j].directive.target.value;
    assert FoldedAt(g.nodes[s], h.nodes[s]);
    assert t in g.nodes ==> FoldedAt(g.nodes[t], h.nodes[t]);
  }

  /** Wherever a fold finds its target's root, the merged item points home. */
  lemma FoldPointsHome(g0: Graph, b: Graph, plan: Plan, g: Graph, h: Graph, i: nat, t: NodeId)
    requires Base(g0, plan, b) && Good(b, plan, g) && FoldsTo(g, h) && i < |plan.items| && plan.items[i].directive.target == Some(t)
    requires !IsDecision(plan, i) && Live(g, t) && HasChain(g, t) && MergedTo(plan, h, i, Root(g, t))
    ensures PointsHome(plan, g0, h, i)
  {
    GoodParts(b, plan, g);
    hide Good, ForestInv;
    StoredOrPlanned(g0, b, plan, g, t);
    if t in g0.nodes {
      StoredHome(g0, b, plan, g, g, t);
      StoredRoots(g0, plan, b, g, t);
    } else {
      var j :| 0 <= j < |plan.items| && plan.items[j].source.id == t;
      PlannedHome(b, plan, g, j);
      assert FoldedAt(g.nodes[t], h.nodes[t]);
    }
  }

  lemma FoldOneExactly(g0: Graph, plan: Plan, b: Graph, gl: Graph, q: Prepared, g: Graph, m: Member, taken: set<nat>)
    requires Groups(g0, plan, b, gl, q) && m in q.members && FoldState(g0, plan, b, gl, g, taken) && Waiting(plan, g, m.index)
    requires FreshRows(b, plan) && forall j :: j in taken ==> Before(plan, g0, j, m.index)
    ensures m.index < |plan.items| == |q.ds| && q.ds[m.index].target.Some?
    ensures var r := LogicalMerge(plan, g, m.index, q.ds[m.index].target.value);
            r.Ok? ==> FoldState(g0, plan, b, gl, r.value, taken + {m.index})
  {
    hide LogicalMerge, Good, Base, Vouched, Ledger, PointsHome, Before, FoldStatus;
    FoldOne(g0, plan, b, gl, q, g, m);
    assert Ready(plan, gl, q.ds, m);
    var i, t := m.index, q.ds[m.index].target.value;
    var res := LogicalMerge(plan, g, i, t);
    if res.Ok? {
      MergeTurn(b, plan, g, i, t);
      FoldWrites(g0, plan, b, g, res.value, i, t, taken);
      FoldsToChains(gl, g, res.value);
    }
  }

  lemma FoldWrites(g0: Graph, plan: Plan, b: Graph, g: Graph, h: Graph, i: nat, t: NodeId, taken: set<nat>)
    requires Base(g0, plan, b) && Good(b, plan, g) && i < |plan.items| && !IsDecision(plan, i) && Waiting(plan, g, i)
    requires plan.items[i].directive.target == Some(t) && FreshRows(b, plan)
    requires HasChain(g, t) && Merges(plan, g, i, t, Root(g, t), h) && OnlyMoves(plan, g, h, i)
    requires Ledger(g0, b, plan, g) && Progressed(plan, g, taken) && AllPointHome(plan, g0, g, taken)
    requires forall j :: j in taken ==> Before(plan, g0, j, i)
    ensures FoldsTo(g, h) && Ledger(g0, b, plan, h) && Progressed(plan, h, taken + {i}) && AllPointHome(plan, g0, h, taken + {i})
  {
    var r := Root(g, t);
    hide Good, Base, Merges, Before, Ledger, PointsHome, Progressed, AllPointHome, FoldsTo, OnlyMoves;
    PlannedAt(b, plan, g, i);
    FoldEnds(b, plan, g, i, t, h);
    TakenBefore(b, plan, g0, g, taken, i, r);
    MergeFolds(plan, g, i, t, r, h);
    LedgerFold(g0, b, plan, g, i, t, r, h);
    FoldPointsHome(g0, b, plan, g, h, i, t);
    FoldProgress(plan, g, h, i, taken);
    HomesStay(plan, g0, g, h, i, taken);
  }

  lemma FoldEnds(b: Graph, plan: Plan, g: Graph, i: nat, t: NodeId, h: Graph)
    requires Good(b, plan, g) && i < |plan.items| && !IsDecision(plan, i) && HasChain(g, t) && Merges(plan, g, i, t, Root(g, t), h)
    ensures Root(g, t) in g.nodes && g.nodes[Root(g, t)].kind != Decision && Live(g, t) && MergedTo(plan, h, i, Root(g, t))
    ensures plan.items[i].source.id in h.nodes && StateOf(plan, h, i) == Merged
  {
    ResolveOk(g, plan.project, t, Some(plan.items[i].source.kind));
    MergesWrites(plan, g, i, t, Root(g, t), h);
  }

  lemma FoldProgress(plan: Plan, g: Graph, h: Graph, i: nat, taken: set<nat>)
    requires Progressed(plan, g, taken) && OnlyMoves(plan, g, h, i) && i < |plan.items|
    requires plan.items[i].source.id in h.nodes && StateOf(plan, h, i) == Merged
    ensures Progressed(plan, h, taken + {i})
  {
  }

  lemma HomesStay(plan: Plan, g0: Graph, g: Graph, h: Graph, i: nat, taken: set<nat>)
    requires FoldsTo(g, h) && Progressed(plan, g, taken) && AllPointHome(plan, g0, g, taken) && PointsHome(plan, g0, h, i)
    ensures AllPointHome(plan, g0, h, taken + {i})
  {
    hide FoldsTo;
    forall j | j in taken
      ensures PointsHome(plan, g0, h, j)
    {
      assert PointsHome(plan, g0, g, j);
      StaysHome(plan, g0, g, h, j);
    }
  }

  lemma LedgerFold(g0: Graph, b: Graph, plan: Plan, g: Graph, i: nat, t: NodeId, r: NodeId, h: Graph)
    requires Good(b, plan, g) && i < |plan.items| && Merges(plan, g, i, t, r, h) && FreshRows(b, plan) && Waiting(plan, g, i)
    requires Ledger(g0, b, plan, g) && AllBefore(plan, g0, g, r, i)
    ensures Ledger(g0, b, plan, h)
  {
    PlannedAt(b, plan, g, i);
    hide Inv, PlannedOk, StrayOk, EvidenceOk, Merges, Ledger, AllBefore;
    MergeKeepsLedger(g0, b, plan, g, i, t, r, h);
  }

  ghost function Indices(ms: seq<Member>, n: nat): set<nat>
    requires n <= |ms|
  {
    set k | 0 <= k < n :: ms[k].index
  }

  /** Everything taken before belongs to an earlier group. */
  ghost predicate EarlierGroups(plan: Plan, g0: Graph, taken: set<nat>, target: NodeId) {
    forall j :: j in taken ==> j < |plan.items| && GroupOf(plan, g0, j) < target
  }

  /** The accepted members of one group, in order. */
  ghost predicate OneGroup(plan: Plan, g0: Graph, ms: seq<Member>, target: NodeId) {
    && MembersSorted(plan, ms)
    && forall k :: 0 <= k < |ms| ==>
         ms[k].index < |plan.items| && !IsDecision(plan, ms[k].index) && GroupOf(plan, g0, ms[k].index) == target
  }

  lemma EarlierAreBefore(plan: Plan, g0: Graph, ms: seq<Member>, n: nat, target: NodeId, taken: set<nat>)
    requires OneGroup(plan, g0, ms, target) && EarlierGroups(plan, g0, taken, target) && n < |ms|
    ensures forall j :: j in taken + Indices(ms, n) ==> Before(plan, g0, j, ms[n].index)
  {
    forall j | j in taken + Indices(ms, n)
      ensures Before(plan, g0, j, ms[n].index)
    {
      if j !in taken {
        var k :| 0 <= k < n && ms[k].index == j;
        assert Sooner(plan, ms[k].index, ms[n].index);
      }
    }
  }

  lemma IndicesNext(ms: seq<Member>, n: nat, taken: set<nat>)
    requires 0 < n <= |ms|
    ensures taken + Indices(ms, n) == (taken + Indices(ms, n - 1)) + {ms[n - 1].index}
  {
  }

  /** The fold loop of one group is about to start. */
  ghost predicate FoldReady(g0: Graph, plan: Plan, b: Graph, gl: Graph, q: Prepared, g: Graph, ms: seq<Member>, target: NodeId,
                            done: set<NodeId>, taken: set<nat>) {
    && Groups(g0, plan, b, gl, q) && |q.ds| == |plan.items| && DistinctMembers(ms) && target in done
    && (forall m :: m in ms ==> m in q.members && m.target == target)
    && MembersInPlan(plan, ms)
    && FoldState(g0, plan, b, gl, g, taken) && Pending(plan, g, q.members, done) && WaitingFrom(plan, g, ms, 0)
    && FreshRows(b, plan) && OneGroup(plan, g0, ms, target) && EarlierGroups(plan, g0, taken, target)
  }

  lemma FoldReadyKeeps(g0: Graph, plan: Plan, b: Graph, gl: Graph, q: Prepared, g: Graph, ms: seq<Member>, k: nat, target: NodeId,
                       done: set<NodeId>, taken: set<nat>)
    requires FoldReady(g0, plan, b, gl, q, g, ms, target, done, taken) && k <= |ms| && |q.ds| == |plan.items| && MembersInPlan(plan, ms)
    requires FoldMembers(plan, q.ds, g, ms, k).Ok?
    ensures WaitingFrom(plan, FoldMembers(plan, q.ds, g, ms, k).value, ms, k)
  {
    hide Groups, Folding, FoldMembers, FoldsTo, Ledger, Progressed, AllPointHome, Pending, WaitingFrom, DistinctMembers, OneGroup, EarlierGroups, FreshRows;
    FoldMembersKeeps(g0, plan, b, gl, q, g, ms, k, target, done);
  }

  lemma {:induction false} FoldMembersExactly(g0: Graph, plan: Plan, b: Graph, gl: Graph, q: Prepared, g: Graph,
                                              ms: seq<Member>, n: nat, target: NodeId, done: set<NodeId>, taken: set<nat>)
    requires FoldReady(g0, plan, b, gl, q, g, ms, target, done, taken) && n <= |ms| && |q.ds| == |plan.items| && MembersInPlan(plan, ms)
    requires FoldMembers(plan, q.ds, g, ms, n).Ok?
    ensures FoldState(g0, plan, b, gl, FoldMembers(plan, q.ds, g, ms, n).value, taken + Indices(ms, n))
  {
    hide FoldReady, FoldState, Indices, WaitingFrom, LogicalMerge;
    if n > 0 {
      var k := n - 1;
      FoldMembersExactly(g0, plan, b, gl, q, g, ms, k, target, done, taken);
      FoldReadyKeeps(g0, plan, b, gl, q, g, ms, k, target, done, taken);
      FoldNextExactly(g0, plan, b, gl, q, g, FoldMembers(plan, q.ds, g, ms, k).value, ms, k, target, done, taken);
    } else {
      IndicesNone(ms);
      assert taken + Indices(ms, 0) == taken;
      FoldReadyStart(g0, plan, b, gl, q, g, ms, target, done, taken);
    }
  }

  lemma FoldReadyStart(g0: Graph, plan: Plan, b: Graph, gl: Graph, q: Prepared, g: Graph, ms: seq<Member>, target: NodeId,
                       done: set<NodeId>, taken: set<nat>)
    requires FoldReady(g0, plan, b, gl, q, g, ms, target, done, taken)
    ensures FoldState(g0, plan, b, gl, g, taken)
  {
  }

  lemma FoldNextExactly(g0: Graph, plan: Plan, b: Graph, gl: Graph, q: Prepared, g: Graph, h: Graph, ms: seq<Member>, k: nat,
                        target: NodeId, done: set<NodeId>, taken: set<nat>)
    requires FoldReady(g0, plan, b, gl, q, g, ms, target, done, taken) && k < |ms| && WaitingFrom(plan, h, ms, k)
    requires FoldState(g0, plan, b, gl, h, taken + Indices(ms, k))
    ensures |q.ds| == |plan.items| && ms[k].index < |plan.items| && q.ds[ms[k].index].target.Some?
    ensures var r := LogicalMerge(plan, h, ms[k].index, q.ds[ms[k].index].target.value);
            r.Ok? ==> FoldState(g0, plan, b, gl, r.value, taken + Indices(ms, k + 1))
  {
    hide Groups, LogicalMerge, FoldState, OneGroup, EarlierGroups, FreshRows, Before, Indices, WaitingFrom, Pending, DistinctMembers;
    assert ms[k] in ms;
    EarlierAreBefore(plan, g0, ms, k, target, taken);
    IndicesNext(ms, k + 1, taken);
    NextWaits(plan, h, ms, k);
    FoldOneExactly(g0, plan, b, gl, q, h, ms[k], taken + Indices(ms, k));
  }

  lemma NextWaits(plan: Plan, g: Graph, ms: seq<Member>, k: nat)
    requires WaitingFrom(plan, g, ms, k) && k < |ms|
    ensures Waiting(plan, g, ms[k].index)
  {
  }

  lemma IndicesNone(ms: seq<Member>)
    ensures Indices(ms, 0) == {}
  {
  }

  lemma FoldStateFolding(g0: Graph, plan: Plan, b: Graph, gl: Graph, g: Graph, taken: set<nat>)
    requires FoldState(g0, plan, b, gl, g, taken)
    ensures Folding(g0, plan, b, gl, g) && FoldsTo(gl, g)
  {
  }

  // ----- all groups -----

  /** Members of the reached groups that pass their gate. */
  ghost predicate Taken(plan: Plan, gl: Graph, ms: seq<Member>, done: set<NodeId>, i: nat) {
    exists m :: m in ms && m.index == i && m.target in done && GateAt(plan, gl, i, m.target)
  }

  ghost function AllTaken(plan: Plan, gl: Graph, ms: seq<Member>, done: set<NodeId>): set<nat> {
    set i: nat | i < |plan.items| && Taken(plan, gl, ms, done, i)
  }

  lemma TakenNext(plan: Plan, gl: Graph, ms: seq<Member>, earlier: set<NodeId>, t: NodeId, accepted: seq<Member>)
    requires MembersInPlan(plan, ms) && forall m :: m in accepted <==> m in ms && m.target == t && GateAt(plan, gl, m.index, t)
    ensures AllTaken(plan, gl, ms, earlier + {t}) == AllTaken(plan, gl, ms, earlier) + Indices(accepted, |accepted|)
  {
    hide GateAt;
    var done := earlier + {t};
    forall i: nat
      ensures i in AllTaken(plan, gl, ms, done) <==> i in AllTaken(plan, gl, ms, earlier) || i in Indices(accepted, |accepted|)
    {
      if i in AllTaken(plan, gl, ms, done) {
        var m :| m in ms && m.index == i && m.target in done && GateAt(plan, gl, i, m.target);
        if m.target !in earlier {
          assert m in accepted;
        }
      }
      if i in Indices(accepted, |accepted|) {
        var k :| 0 <= k < |accepted| && accepted[k].index == i;
        assert accepted[k] in ms;
      }
    }
  }

  lemma TakenIsEarlier(plan: Plan, g0: Graph, gl: Graph, ms: seq<Member>, done: set<NodeId>, t: NodeId)
    requires forall m :: m in ms ==> m.index < |plan.items| && GroupOf(plan, g0, m.index) == m.target
    requires forall x :: x in done ==> x < t
    ensures EarlierGroups(plan, g0, AllTaken(plan, gl, ms, done), t)
  {
  }

  /** Each prepared member's target is its group. */
  ghost predicate Grouped(plan: Plan, g0: Graph, ms: seq<Member>) {
    forall m :: m in ms ==> m.index < |plan.items| && !IsDecision(plan, m.index) && GroupOf(plan, g0, m.index) == m.target
  }

  lemma AcceptedIsOneGroup(g0: Graph, plan: Plan, b: Graph, gl: Graph, q: Prepared, g: Graph, t: NodeId)
    requires Groups(g0, plan, b, gl, q) && Folding(g0, plan, b, gl, g) && FoldsTo(gl, g) && t in g.nodes && |q.ds| == |plan.items|
    requires MembersSorted(plan, q.members) && Grouped(plan, g0, q.members) && MembersInPlan(plan, q.members)
    ensures var ms := Accepted(plan, g, q.ds, q.members, t);
            && OneGroup(plan, g0, ms, t)
            && forall m :: m in ms <==> m in q.members && m.target == t && GateAt(plan, gl, m.index, t)
  {
    GroupsParts(g0, plan, b, gl, q);
    FoldingGood(g0, plan, b, gl, g);
    GoodParts(b, plan, g);
    GoodParts(b, plan, gl);
    hide Groups, Folding, Good, ForestInv, FoldsTo, GateAt, DecisionParent, MembersSorted, Grouped, OneGroup, Base, DistinctMembers, Accepted;
    AcceptedSorted(plan, g, q.ds, q.members, t);
    AcceptedExactly(plan, g, q.ds, q.members, t);
    forall m: Member
      ensures GateAt(plan, gl, m.index, t) <==> GateAt(plan, g, m.index, t)
    {
      GatesSame(plan, gl, g, m.index, t);
    }
    FormsOneGroup(plan, g0, q.members, Accepted(plan, g, q.ds, q.members, t), t);
  }

  lemma FormsOneGroup(plan: Plan, g0: Graph, members: seq<Member>, ms: seq<Member>, t: NodeId)
    requires Grouped(plan, g0, members) && MembersSorted(plan, ms) && forall m :: m in ms ==> m in members && m.target == t
    ensures OneGroup(plan, g0, ms, t)
  {
    hide Sooner, GroupOf;
  }

  lemma GroupsParts(g0: Graph, plan: Plan, b: Graph, gl: Graph, q: Prepared)
    requires Groups(g0, plan, b, gl, q)
    ensures Good(b, plan, gl) && Base(g0, plan, b) && DistinctMembers(q.members)
    ensures forall k :: 0 <= k < |q.members| ==>
              q.members[k].index < |plan.items| == |q.ds| && q.ds[q.members[k].index].parent == plan.items[q.members[k].index].directive.parent
  {
    forall k | 0 <= k < |q.members|
      ensures q.members[k].index < |plan.items| == |q.ds| && q.ds[q.members[k].index].parent == plan.items[q.members[k].index].directive.parent
    {
      assert Ready(plan, gl, q.ds, q.members[k]);
    }
  }

  ghost function Reached(targets: seq<NodeId>, n: nat): set<NodeId>
    requires n <= |targets|
  {
    set k | 0 <= k < n :: targets[k]
  }

  /** The prepared groups, before the first fold. */
  ghost predicate Setup(g0: Graph, plan: Plan, b: Graph, gl: Graph, q: Prepared) {
    && Groups(g0, plan, b, gl, q) && |q.ds| == |plan.items| && FreshRows(b, plan) && MembersInPlan(plan, q.members)
    && MembersSorted(plan, q.members) && Grouped(plan, g0, q.members)
  }

  /** The groups of `done` have been folded. */
  ghost predicate Reaches(g0: Graph, plan: Plan, b: Graph, gl: Graph, q: Prepared, g: Graph, done: set<NodeId>) {
    FoldState(g0, plan, b, gl, g, AllTaken(plan, gl, q.members, done)) && Pending(plan, g, q.members, done)
  }

  /** The group that is folded next. */
  ghost predicate NextGroup(plan: Plan, q: Prepared, g: Graph, t: NodeId, done: set<NodeId>) {
    t in g.nodes && |q.ds| == |plan.items| && MembersInPlan(plan, q.members) && forall x :: x in done ==> x < t
  }

  lemma NextMembers(g0: Graph, plan: Plan, b: Graph, gl: Graph, q: Prepared, g: Graph, t: NodeId, done: set<NodeId>)
    requires Setup(g0, plan, b, gl, q) && Reaches(g0, plan, b, gl, q, g, done) && NextGroup(plan, q, g, t, done)
    ensures var ms := Accepted(plan, g, q.ds, q.members, t);
            && OneGroup(plan, g0, ms, t) && DistinctMembers(ms)
            && forall m :: m in ms <==> m in q.members && m.target == t && GateAt(plan, gl, m.index, t)
  {
    hide Folding, Groups, FoldState, MembersSorted, FreshRows, FoldsTo, AllTaken, Accepted, GateAt, DistinctMembers, OneGroup, Pending, Grouped;
    FoldStateFolding(g0, plan, b, gl, g, AllTaken(plan, gl, q.members, done));
    GroupsParts(g0, plan, b, gl, q);
    AcceptedIsOneGroup(g0, plan, b, gl, q, g, t);
    AcceptedDistinct(plan, g, q.ds, q.members, t);
  }

  lemma NextIsReady(g0: Graph, plan: Plan, b: Graph, gl: Graph, q: Prepared, g: Graph, t: NodeId, done: set<NodeId>)
    requires Setup(g0, plan, b, gl, q) && Reaches(g0, plan, b, gl, q, g, done) && NextGroup(plan, q, g, t, done)
    ensures FoldReady(g0, plan, b, gl, q, g, Accepted(plan, g, q.ds, q.members, t), t, done + {t}, AllTaken(plan, gl, q.members, done))
  {
    hide Folding, Groups, FoldState, MembersSorted, FreshRows, FoldsTo, AllTaken, Accepted, GateAt, DistinctMembers, OneGroup, Pending,
      WaitingFrom, EarlierGroups;
    NextMembers(g0, plan, b, gl, q, g, t, done);
    var ms := Accepted(plan, g, q.ds, q.members, t);
    TakenIsEarlier(plan, g0, gl, q.members, done, t);
    hide Grouped;
    AcceptedWaits(plan, g, q.members, done, ms, t);
    PendingMore(plan, g, q.members, done, t);
    assert MembersInPlan(plan, ms);
  }

  lemma GroupStepExactly(g0: Graph, plan: Plan, b: Graph, gl: Graph, q: Prepared, g: Graph, t: NodeId, done: set<NodeId>)
    requires Setup(g0, plan, b, gl, q) && Reaches(g0, plan, b, gl, q, g, done) && NextGroup(plan, q, g, t, done)
    ensures var ms := Accepted(plan, g, q.ds, q.members, t);
            MembersInPlan(plan, ms) &&
            var r := FoldMembers(plan, q.ds, g, ms, |ms|);
            r.Ok? ==> FoldState(g0, plan, b, gl, r.value, AllTaken(plan, gl, q.members, done + {t}))
  {
    NextIsReady(g0, plan, b, gl, q, g, t, done);
    NextMembers(g0, plan, b, gl, q, g, t, done);
    hide Setup, Reaches, FoldState, AllTaken, Accepted, FoldMembers, Indices, OneGroup, DistinctMembers;
    var ms := Accepted(plan, g, q.ds, q.members, t);
    assert MembersInPlan(plan, ms);
    hide FoldReady;
    TakenNext(plan, gl, q.members, done, t, ms);
    if FoldMembers(plan, q.ds, g, ms, |ms|).Ok? {
      FoldMembersExactly(g0, plan, b, gl, q, g, ms, |ms|, t, done + {t}, AllTaken(plan, gl, q.members, done));
    }
  }

  lemma PendingMore(plan: Plan, g: Graph, ms: seq<Member>, done: set<NodeId>, t: NodeId)
    requires Pending(plan, g, ms, done)
    ensures Pending(plan, g, ms, done + {t})
  {
  }

  lemma ReachedNext(targets: seq<NodeId>, k: nat)
    requires k < |targets|
    ensures Reached(targets, k + 1) == Reached(targets, k) + {targets[k]}
  {
  }

  lemma PendingAt(g0: Graph, plan: Plan, b: Graph, gl: Graph, q: Prepared, targets: seq<NodeId>, k: nat)
    requires Setup(g0, plan, b, gl, q) && |q.ds| == |plan.items| && MembersInPlan(plan, q.members) && k <= |targets|
    requires forall k, l :: 0 <= k < l < |targets| ==> targets[k] < targets[l]
    requires Folding(g0, plan, b, gl, gl) && Pending(plan, gl, q.members, {}) && GroupPhase(plan, gl, q, targets, k).Ok?
    ensures Pending(plan, GroupPhase(plan, gl, q, targets, k).value, q.members, Reached(targets, k))
  {
    hide Groups, Folding, GroupPhase, Pending;
    GroupsParts(g0, plan, b, gl, q);
    GroupPhaseKeeps(g0, plan, b, gl, q, targets, k);
  }

  lemma {:induction false} GroupPhaseExactly(g0: Graph, plan: Plan, b: Graph, gl: Graph, q: Prepared, targets: seq<NodeId>, n: nat)
    requires Setup(g0, plan, b, gl, q) && |q.ds| == |plan.items| && MembersInPlan(plan, q.members) && n <= |targets|
    requires forall k, l :: 0 <= k < l < |targets| ==> targets[k] < targets[l]
    requires FoldState(g0, plan, b, gl, gl, {}) && Pending(plan, gl, q.members, {})
    requires GroupPhase(plan, gl, q, targets, n).Ok?
    ensures FoldState(g0, plan, b, gl, GroupPhase(plan, gl, q, targets, n).value, AllTaken(plan, gl, q.members, Reached(targets, n)))
  {
    hide Setup, FoldMembers, Accepted, FoldState, Reached, AllTaken, Pending;
    if n > 0 {
      var k := n - 1;
      GroupPhaseExactly(g0, plan, b, gl, q, targets, k);
      FoldStateFolding(g0, plan, b, gl, gl, {});
      PendingAt(g0, plan, b, gl, q, targets, k);
      ReachedNext(targets, k);
      ReachedBelow(targets, k);
      GroupStepExactly(g0, plan, b, gl, q, GroupPhase(plan, gl, q, targets, k).value, targets[k], Reached(targets, k));
    } else {
      NothingTaken(plan, gl, q.members, targets);
    }
  }

  lemma ReachedBelow(targets: seq<NodeId>, k: nat)
    requires k < |targets| && forall k, l :: 0 <= k < l < |targets| ==> targets[k] < targets[l]
    ensures forall x :: x in Reached(targets, k) ==> x < targets[k]
  {
  }

  lemma NothingTaken(plan: Plan, gl: Graph, ms: seq<Member>, targets: seq<NodeId>)
    ensures AllTaken(plan, gl, ms, Reached(targets, 0)) == {}
  {
  }

  // ----- the whole dependent phase -----

  /** Whether item i is merged away, read on the graph before the first fold. */
  ghost predicate FoldsAt(plan: Plan, g: Graph, i: nat) {
    && i < |plan.items| && plan.items[i].directive.action == Merge
    && PreparesAt(plan, g, i) && GateAt(plan, g, i, TargetRoot(plan, g, i))
  }

  lemma TargetIsGroup(g0: Graph, b: Graph, plan: Plan, p: Progress, i: nat)
    requires Base(g0, plan, b) && Linked(b, plan, p, |plan.items|) && i < |plan.items| && !IsDecision(plan, i) && PreparesAt(plan, p.g, i)
    ensures GroupOf(plan, g0, i) == TargetRoot(plan, p.g, i)
  {
    var t := plan.items[i].directive.target.value;
    LinkedGood(b, plan, p, |plan.items|);
    GoodParts(b, plan, p.g);
    hide Good, ForestInv, Linked;
    StoredOrPlanned(g0, b, plan, p.g, t);
    if t in g0.nodes {
      StoredHome(g0, b, plan, p.g, p.g, t);
      StoredRoots(g0, plan, b, p.g, t);
    } else {
      var j :| 0 <= j < |plan.items| && plan.items[j].source.id == t;
      PlannedHome(b, plan, p.g, j);
      assert LinkStatus(plan, p, |plan.items|, j);
    }
  }

  lemma NothingMerged(b: Graph, plan: Plan, p: Progress)
    requires Linked(b, plan, p, |plan.items|)
    ensures Progressed(plan, p.g, {}) && FoldsTo(p.g, p.g)
  {
    hide Good;
    forall j | 0 <= j < |plan.items| && !IsDecision(plan, j)
      ensures plan.items[j].source.id in p.g.nodes && StateOf(plan, p.g, j) != Merged
    {
      assert LinkStatus(plan, p, |plan.items|, j);
    }
  }

  lemma FoldStarts(g0: Graph, plan: Plan, b: Graph, p: Progress)
    requires Linked(b, plan, p, |plan.items|) && Ledger(g0, b, plan, p.g)
    ensures FoldState(g0, plan, b, p.g, p.g, {})
  {
    hide Folding, Linked, Ledger, Progressed, FoldsTo;
    LinkedFolds(g0, b, plan, p);
    NothingMerged(b, plan, p);
  }

  lemma OrderIsKnown(b: Graph, plan: Plan, locked: set<NodeId>, g: Graph, ds: seq<Directive>, order: seq<nat>)
    requires WaitingOrder(plan, g, ds, order) && TargetsKnown(plan, locked, b)
    ensures OrderKnown(plan, locked, order)
  {
    hide Planned, Waiting;
    forall k | 0 <= k < |order|
      ensures order[k] < |plan.items| && plan.items[order[k]].directive.target.Some?
      ensures Planned(plan, plan.items[order[k]].directive.target.value) || plan.items[order[k]].directive.target.value in locked
    {
      assert TargetKnown(plan, locked, b, plan.items[order[k]].directive.target.value);
    }
  }

  lemma MembersGrouped(g0: Graph, b: Graph, plan: Plan, p: Progress, q: Prepared)
    requires Base(g0, plan, b) && Linked(b, plan, p, |plan.items|) && AllReady(plan, p.g, q) && MembersRooted(plan, p.g, q.members)
    ensures Grouped(plan, g0, q.members)
  {
    hide Linked, Base, GroupOf;
    forall m | m in q.members
      ensures m.index < |plan.items| && !IsDecision(plan, m.index) && GroupOf(plan, g0, m.index) == m.target
    {
      var k :| 0 <= k < |q.members| && q.members[k] == m;
      assert Ready(plan, p.g, q.ds, q.members[k]) && PreparesAt(plan, p.g, q.members[k].index);
      TargetIsGroup(g0, b, plan, p, m.index);
    }
  }

  /** The prepared groups of a finished link phase. */
  lemma SetupHolds(g0: Graph, b: Graph, plan: Plan, locked: set<NodeId>, p: Progress) returns (q: Prepared, order: seq<nat>)
    requires Base(g0, plan, b) && Linked(b, plan, p, |plan.items|) && FreshRows(b, plan) && TargetsKnown(plan, locked, b)
    ensures |p.ds| == |plan.items| && order == MergeOrder(plan, p.ds, |plan.items|)
    ensures PreparePhase(plan, locked, p.g, p.ds, order, |order|) == Ok(q)
    ensures Setup(g0, plan, b, p.g, q) && PreparedExactly(plan, p.g, q.members, order, |order|) && Pending(plan, p.g, q.members, {})
  {
    LinkedOrder(b, plan, p);
    LinkedGood(b, plan, p, |plan.items|);
    GoodParts(b, plan, p.g);
    hide Good, Linked, Base, ForestInv, FreshRows, WaitingOrder, PreparesAt;
    order := MergeOrder(plan, p.ds, |plan.items|);
    MergeOrderSorted(plan, p.ds, |plan.items|);
    OrderIsKnown(b, plan, locked, p.g, p.ds, order);
    PreparePhaseExactly(plan, locked, p.g, p.ds, order, |order|);
    PrepareKeeps(plan, locked, p.g, p.ds, order, |order|);
    PreparedFromOrder(plan, locked, p, order);
    q := PreparePhase(plan, locked, p.g, p.ds, order, |order|).value;
    MembersGrouped(g0, b, plan, p, q);
    AllReadyPending(plan, p.g, q);
  }

  lemma PreparedFromOrder(plan: Plan, locked: set<NodeId>, p: Progress, order: seq<nat>)
    requires |p.ds| == |plan.items| && order == MergeOrder(plan, p.ds, |plan.items|)
    requires PreparePhase(plan, locked, p.g, p.ds, order, |order|).Ok?
    ensures MembersInPlan(plan, PreparePhase(plan, locked, p.g, p.ds, order, |order|).value.members)
  {
    PreparedInPlan(plan, locked, p.g, p.ds, order, |order|);
  }

  /** With every group reached, the taken items are those whose gates passed. */
  lemma AllReached(plan: Plan, p: Progress, q: Prepared, order: seq<nat>, i: nat)
    requires |p.ds| == |plan.items| && order == MergeOrder(plan, p.ds, |plan.items|) && MergesPlanned(plan, p)
    requires PreparedExactly(plan, p.g, q.members, order, |order|) && i < |plan.items| && !IsDecision(plan, i)
    requires p.ds[i].action == Merge ==> p.ds[i] == plan.items[i].directive
    ensures var targets := GroupTargets(q.members);
            i in AllTaken(plan, p.g, q.members, Reached(targets, |targets|)) <==> FoldsAt(plan, p.g, i)
  {
    var targets := GroupTargets(q.members);
    var done := Reached(targets, |targets|);
    AllTargetsReached(q.members);
    hide PreparesAt, GateAt, MembersSorted, GroupTargets, Reached, MergeOrder, AllTaken, MembersListed, MembersComplete, MembersRooted, FoldsAt;
    if i in AllTaken(plan, p.g, q.members, done) {
      TakenFolds(plan, p, q.members, order, done, i);
    }
    if FoldsAt(plan, p.g, i) {
      MergeIsListed(plan, p, q.members, order, i);
      FoldsTaken(plan, p.g, q.members, done, i);
    }
  }

  lemma TakenFolds(plan: Plan, p: Progress, ms: seq<Member>, order: seq<nat>, done: set<NodeId>, i: nat)
    requires |p.ds| == |plan.items| && order == MergeOrder(plan, p.ds, |plan.items|) && MembersRooted(plan, p.g, ms)
    requires MembersListed(ms, order, |order|) && i in AllTaken(plan, p.g, ms, done)
    requires p.ds[i].action == Merge ==> p.ds[i] == plan.items[i].directive
    ensures FoldsAt(plan, p.g, i)
  {
    hide PreparesAt, GateAt, MembersListed, MergeOrder;
    var m :| m in ms && m.index == i && m.target in done && GateAt(plan, p.g, i, m.target);
    var k :| 0 <= k < |ms| && ms[k] == m;
    ListedIsMerge(plan, p, ms, order, k);
  }

  lemma FoldsTaken(plan: Plan, g: Graph, ms: seq<Member>, done: set<NodeId>, i: nat)
    requires MembersRooted(plan, g, ms) && MemberOf(ms, i) && FoldsAt(plan, g, i) && forall m :: m in ms ==> m.target in done
    ensures i in AllTaken(plan, g, ms, done)
  {
    hide PreparesAt, GateAt;
    var k :| 0 <= k < |ms| && ms[k].index == i;
    assert Taken(plan, g, ms, done, i);
  }

  lemma AllTargetsReached(ms: seq<Member>)
    ensures forall m :: m in ms ==> m.target in Reached(GroupTargets(ms), |GroupTargets(ms)|)
  {
    var targets := GroupTargets(ms);
    hide Ascending;
    forall m | m in ms
      ensures m.target in Reached(targets, |targets|)
    {
      var k :| 0 <= k < |ms| && ms[k] == m;
      assert m.target in (set k | 0 <= k < |ms| :: ms[k].target);
      assert m.target in targets;
    }
  }

  lemma ListedIsMerge(plan: Plan, p: Progress, ms: seq<Member>, order: seq<nat>, k: nat)
    requires |p.ds| == |plan.items| && order == MergeOrder(plan, p.ds, |plan.items|) && MembersListed(ms, order, |order|) && k < |ms|
    ensures ms[k].index < |plan.items| && p.ds[ms[k].index].action == Merge
  {
    assert ListedBefore(order, |order|, ms[k].index);
  }

  lemma MergeIsListed(plan: Plan, p: Progress, ms: seq<Member>, order: seq<nat>, i: nat)
    requires |p.ds| == |plan.items| && order == MergeOrder(plan, p.ds, |plan.items|) && MembersComplete(plan, p.g, ms, order, |order|)
    requires MergesPlanned(plan, p) && FoldsAt(plan, p.g, i) && !IsDecision(plan, i)
    ensures MemberOf(ms, i)
  {
    hide GateAt;
    assert DependentMerge(plan, p.ds, i);
    assert i in order;
    var l :| 0 <= l < |order| && order[l] == i;
    assert ListedBefore(order, |order|, i);
  }

  /** The end of the dependent phase, relative to its start. */
  ghost predicate FoldedExactly(g0: Graph, plan: Plan, b: Graph, gl: Graph, h: Graph) {
    && Good(b, plan, h) && FoldsTo(gl, h) && Ledger(g0, b, plan, h)
    && forall i :: 0 <= i < |plan.items| && !IsDecision(plan, i) ==>
         && plan.items[i].source.id in h.nodes
         && (StateOf(plan, h, i) == Merged <==> FoldsAt(plan, gl, i))
         && (StateOf(plan, h, i) == Merged ==> PointsHome(plan, g0, h, i))
  }

  lemma FoldStateEnds(g0: Graph, plan: Plan, b: Graph, gl: Graph, h: Graph, taken: set<nat>)
    requires FoldState(g0, plan, b, gl, h, taken)
    requires forall i: nat :: i < |plan.items| && !IsDecision(plan, i) ==> (i in taken <==> FoldsAt(plan, gl, i))
    ensures FoldedExactly(g0, plan, b, gl, h)
  {
    hide Good, FoldsAt, PointsHome, Ledger, FoldsTo, FoldStatus;
  }

  lemma DependentsExactly(g0: Graph, b: Graph, plan: Plan, locked: set<NodeId>, p: Progress)
    requires Base(g0, plan, b) && Linked(b, plan, p, |plan.items|) && FreshRows(b, plan) && TargetsKnown(plan, locked, b)
    requires Ledger(g0, b, plan, p.g) && MergesPlanned(plan, p) && |p.ds| == |plan.items| && Dependents(plan, locked, p).Ok?
    ensures FoldedExactly(g0, plan, b, p.g, Dependents(plan, locked, p).value)
  {
    hide Base, Linked, FreshRows, TargetsKnown, Ledger, Setup, Pending, GroupPhase, FoldState, MergesPlanned, FoldedExactly, PreparedExactly, AllTaken, Reached;
    var q, order := SetupHolds(g0, b, plan, locked, p);
    FoldStarts(g0, plan, b, p);
    PreparedInPlan(plan, locked, p.g, p.ds, order, |order|);
    var targets := GroupTargets(q.members);
    AscendingRises(set k | 0 <= k < |q.members| :: q.members[k].target);
    GroupPhaseExactly(g0, plan, b, p.g, q, targets, |targets|);
    forall i: nat | i < |plan.items| && !IsDecision(plan, i)
      ensures i in AllTaken(plan, p.g, q.members, Reached(targets, |targets|)) <==> FoldsAt(plan, p.g, i)
    {
      MergeDirective(b, plan, p, i);
      AllReached(plan, p, q, order, i);
    }
    FoldStateEnds(g0, plan, b, p.g, Dependents(plan, locked, p).value, AllTaken(plan, p.g, q.members, Reached(targets, |targets|)));
  }

  lemma MergeDirective(b: Graph, plan: Plan, p: Progress, i: nat)
    requires Linked(b, plan, p, |plan.items|) && i < |plan.items| && !IsDecision(plan, i)
    ensures |p.ds| == |plan.items| && (p.ds[i].action == Merge ==> p.ds[i] == plan.items[i].directive)
  {
    hide Good;
    assert LinkStatus(plan, p, |plan.items|, i);
  }
}

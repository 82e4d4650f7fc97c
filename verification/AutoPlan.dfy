/**
 The automatic pipeline's plan and its three-phase application: every planned
 node is inserted, then Decisions are canonicalised, then links are resolved,
 then dependent merges are folded into their targets group by group.

 Application is one transaction: an `Err` result leaves the stored graph as it
 was.  All functions below read and return whole graphs.
 */
module AutoPlan {
  import opened Options
  import opened GraphModel
  import opened GraphResolve
  import opened GraphMerge
  import opened GraphRelations
  import opened Evidence

  const AUTOMATIC: string := "AUTOMATIC_PIPELINE"

  datatype PlanAction = CreateNew | Link | Merge

  /** The model's proposal for the merged node, its title already stripped. */
  datatype Suggestion = Suggestion(title: string, content: string)

  /** A candidate snapshot; `order` stands for the transcript-order sort key. */
  datatype Source = Source(
    id: NodeId,
    kind: Kind,
    category: Category,
    title: string,
    content: string,
    evidence: seq<EvidenceSpec>,
    order: nat,
    suggestion: Option<Suggestion>,
    retrieved: set<NodeId>)

  /** What to do with a source; downgraded in place while the plan is applied. */
  datatype Directive = Directive(
    action: PlanAction,
    target: Option<NodeId>,
    version: Option<nat>,
    relation: Option<RelationType>,
    parent: Option<NodeId>)

  datatype Item = Item(source: Source, directive: Directive)

  /** `opBase + i` is the id of the operation that merges item i, should it merge. */
  datatype Plan = Plan(project: ProjectId, run: RunId, items: seq<Item>, opBase: OpId)

  datatype Progress = Progress(g: Graph, ds: seq<Directive>)

  datatype Member = Member(index: nat, target: NodeId)

  datatype Prepared = Prepared(ds: seq<Directive>, members: seq<Member>)

  predicate Planned(plan: Plan, x: NodeId) {
    exists i :: 0 <= i < |plan.items| && plan.items[i].source.id == x
  }

  function Directives(plan: Plan): seq<Directive> {
    seq(|plan.items|, i requires 0 <= i < |plan.items| => plan.items[i].directive)
  }

  // ----- rows written by the pipeline -----

  function PipelineRevision(plan: Plan, evidence: seq<EvidenceSpec>): Revision {
    Revision(System, AUTOMATIC, Some(plan.run), evidence, true)
  }

  function NewNode(plan: Plan, s: Source): Node {
    Node(plan.project, s.kind, s.category, Unattached, None, None, 1,
         Some(PipelineRevision(plan, s.evidence)), System, s.title, s.content, false)
  }

  function CurrentEvidence(n: Node): seq<EvidenceSpec> {
    if n.revision.Some? then n.revision.value.evidence else []
  }

  /** The target after absorbing a source: text follows the suggestion unless a user wrote it last. */
  function Absorb(plan: Plan, target: Node, source: Node, s: Suggestion): Node {
    var protected := target.lastActor == User;
    target.(title := if protected then target.title else s.title,
            content := if protected then target.content else s.content,
            version := if target.revision.Some? then target.version + 1 else target.version,
            revision := Some(PipelineRevision(plan, Dedup(CurrentEvidence(target) + CurrentEvidence(source)))),
            lastActor := if protected then User else System)
  }

  // ----- gates -----

  function VersionValid(plan: Plan, n: Node, expected: Option<nat>): bool {
    || expected.None?
    || n.version == expected.value
    || (&& n.version > expected.value && n.revision.Some?
        && n.revision.value.run == Some(plan.run) && n.revision.value.author == System
        && n.revision.value.authorId == AUTOMATIC)
  }

  /** A structural Decision parent read at apply time: None when missing or not usable. */
  function DecisionParent(g: Graph, p: ProjectId, category: Category, parent: Option<NodeId>): Option<NodeId> {
    if parent.None? then None
    else
      var r := Resolve(g, p, parent.value, Some(Decision));
      if r.Err? || r.value !in g.nodes then None
      else if g.nodes[r.value].state != Active || g.nodes[r.value].category != category then None
      else Some(r.value)
  }

  predicate HasLiveChild(g: Graph, p: ProjectId, s: NodeId) {
    exists x :: x in g.nodes && Live(g, x) && g.nodes[x].project == p && g.nodes[x].parent == Some(s)
  }

  function Downgraded(d: Directive): Directive {
    d.(action := CreateNew, target := None, version := None, parent := None)
  }

  // ----- one merge -----

  function LogicalMerge(plan: Plan, g: Graph, i: nat, t: NodeId): Result<Graph>
    requires i < |plan.items|
  {
    var src := plan.items[i].source;
    var s := src.id;
    if s !in g.nodes then Err(NotFound)
    else if src.suggestion.None? then Err(NoDecision)
    else if g.nodes[s].state != Unattached || g.nodes[s].parent.Some? then Err(NotUnattachedLeaf)
    else if HasLiveChild(g, plan.project, s) then Err(HasChildren)
    else
      var r := Resolve(g, plan.project, t, Some(g.nodes[s].kind));
      if r.Err? then Err(r.error)
      else if r.value !in g.nodes then Err(NotFound)
      else FoldInto(plan, g, i, t, r.value)
  }

  /** Append the merged revision to the resolved target `r`, then redirect the source to it. */
  function FoldInto(plan: Plan, g: Graph, i: nat, t: NodeId, r: NodeId): Result<Graph>
    requires i < |plan.items| && plan.items[i].source.id in g.nodes && r in g.nodes
    requires plan.items[i].source.suggestion.Some?
  {
    var src := plan.items[i].source;
    var merged := Absorb(plan, g.nodes[r], g.nodes[src.id], src.suggestion.value);
    if g.nodes[r].state != Active || g.nodes[r].category != g.nodes[src.id].category then Err(TargetNotActive)
    else if src.suggestion.value.title == "" || merged.title == "" then Err(BlankTitle)
    else if merged.revision.value.evidence == [] then Err(NoEvidence)
    else if t !in src.retrieved then Err(NoRetrievalRow)
    else ApplyMerge(g.(nodes := g.nodes[r := merged]), plan.project, src.id, r, System, plan.opBase + i)
  }

  // ----- phase 0: insert -----

  function InsertPhase(plan: Plan, g: Graph, n: nat): Result<Graph>
    requires n <= |plan.items|
  {
    if n == 0 then Ok(g)
    else
      var before := InsertPhase(plan, g, n - 1);
      var s := plan.items[n - 1].source;
      if before.Err? then before
      else if s.id in before.value.nodes then Err(ConstraintViolation)
      else if s.title == "" then Err(BlankTitle)
      else if s.evidence == [] then Err(NoEvidence)
      else Ok(before.value.(nodes := before.value.nodes[s.id := NewNode(plan, s)]))
  }

  // ----- phase 1: Decisions -----

  function Activate(p: Progress, s: NodeId): Progress
    requires s in p.g.nodes
  {
    p.(g := p.g.(nodes := p.g.nodes[s := p.g.nodes[s].(state := Active)]))
  }

  function DecisionStep(plan: Plan, locked: set<NodeId>, p: Progress, i: nat): Result<Progress>
    requires i < |plan.items| == |p.ds|
  {
    var src := plan.items[i].source;
    var d := p.ds[i];
    var create := p.(ds := p.ds[i := Downgraded(d)]);
    if src.kind != Decision then Ok(p)
    else if src.id !in p.g.nodes then Err(NotFound)
    else if d.action != Merge then Ok(Activate(p, src.id))
    else if d.target.None? then Ok(p)
    else if !(Planned(plan, d.target.value) || d.target.value in locked) || d.target.value !in p.g.nodes then Ok(Activate(create, src.id))
    else if !VersionValid(plan, p.g.nodes[d.target.value], d.version) then Ok(Activate(create, src.id))
    else
      var r := Resolve(p.g, plan.project, d.target.value, Some(src.kind));
      if r.Err? then Err(r.error)
      else if r.value !in p.g.nodes then Err(NotFound)
      else if p.g.nodes[r.value].state != Active || p.g.nodes[r.value].category != src.category then Ok(Activate(create, src.id))
      else
        var h := LogicalMerge(plan, p.g, i, d.target.value);
        if h.Err? then Err(h.error) else Ok(p.(g := h.value))
  }

  function DecisionPhase(plan: Plan, locked: set<NodeId>, p: Progress, n: nat): (r: Result<Progress>)
    requires n <= |plan.items| == |p.ds|
    ensures r.Ok? ==> |r.value.ds| == |p.ds|
  {
    if n == 0 then Ok(p)
    else
      var before := DecisionPhase(plan, locked, p, n - 1);
      if before.Err? then before else DecisionStep(plan, locked, before.value, n - 1)
  }

  // ----- phase 2: links -----

  function LinkStep(plan: Plan, locked: set<NodeId>, p: Progress, i: nat): Result<Progress>
    requires i < |plan.items| == |p.ds|
  {
    var src := plan.items[i].source;
    var d := p.ds[i];
    var create := p.(ds := p.ds[i := Downgraded(d).(relation := None)]);
    if d.action != Link || d.target.None? then Ok(p)
    else if src.id !in p.g.nodes then Err(NotFound)
    else
      var t := d.target.value;
      if !(Planned(plan, t) || t in locked) || t !in p.g.nodes then Ok(create)
      else if d.version.Some? && !Planned(plan, t) && p.g.nodes[t].version != d.version.value then Ok(create)
      else
        var r := Resolve(p.g, plan.project, t, None);
        if r.Err? then Err(r.error)
        else if r.value !in p.g.nodes then Err(NotFound)
        else if d.relation == Some(AttachedTo) then
          if p.g.nodes[r.value].state != Active || !AllowedParent(src.kind, p.g.nodes[r.value].kind)
             || p.g.nodes[r.value].category != src.category || r.value == src.id
          then Ok(p.(ds := p.ds[i := d.(action := CreateNew)]))
          else if src.id == t then Err(ConstraintViolation)
          else Ok(p.(g := p.g.(
            nodes := p.g.nodes[src.id := p.g.nodes[src.id].(parent := Some(r.value), state := Active)],
            relations := p.g.relations[RelationKey(plan.project, src.id, t, AttachedTo) := true])))
        else if src.id == t then Err(ConstraintViolation)
        else
          var kind := if d.relation.Some? then d.relation.value else RelatedTo;
          var related := p.(g := p.g.(relations := p.g.relations[NormalKey(RelationKey(plan.project, src.id, t, kind)) := true]));
          Ok(if src.kind == Decision then Activate(related, src.id) else related)
  }

  function LinkPhase(plan: Plan, locked: set<NodeId>, p: Progress, n: nat): (r: Result<Progress>)
    requires n <= |plan.items| == |p.ds|
    ensures r.Ok? ==> |r.value.ds| == |p.ds|
  {
    if n == 0 then Ok(p)
    else
      var before := LinkPhase(plan, locked, p, n - 1);
      if before.Err? then before else LinkStep(plan, locked, before.value, n - 1)
  }

  // ----- phase 3: dependent merges -----

  predicate DependentMerge(plan: Plan, ds: seq<Directive>, i: nat)
    requires i < |plan.items| == |ds|
  {
    plan.items[i].source.kind != Decision && ds[i].action == Merge && ds[i].target.Some?
  }

  function InsertByOrder(plan: Plan, order: seq<nat>, i: nat): (r: seq<nat>)
    requires i < |plan.items| && forall k :: 0 <= k < |order| ==> order[k] < |plan.items|
    ensures forall k :: 0 <= k < |r| ==> r[k] == i || r[k] in order
  {
    if order == [] || plan.items[i].source.order < plan.items[order[0]].source.order then [i] + order
    else [order[0]] + InsertByOrder(plan, order[1..], i)
  }

  ghost predicate Distinct(s: seq<nat>) {
    forall k, l :: 0 <= k < l < |s| ==> s[k] != s[l]
  }

  ghost predicate InTranscriptOrder(plan: Plan, order: seq<nat>)
    requires forall k :: 0 <= k < |order| ==> order[k] < |plan.items|
  {
    forall k, l :: 0 <= k < l < |order| ==> plan.items[order[k]].source.order <= plan.items[order[l]].source.order
  }

  lemma {:induction false} InsertContains(plan: Plan, order: seq<nat>, i: nat)
    requires i < |plan.items| && forall k :: 0 <= k < |order| ==> order[k] < |plan.items|
    ensures var r := InsertByOrder(plan, order, i);
            i in r && (forall x :: x in order ==> x in r) && |r| == |order| + 1
    decreases order
  {
    var r := InsertByOrder(plan, order, i);
    if order == [] || plan.items[i].source.order < plan.items[order[0]].source.order {
      assert r[0] == i;
    } else {
      InsertContains(plan, order[1..], i);
      assert order == [order[0]] + order[1..];
    }
  }

  /** Putting a smaller, different head in front keeps a list distinct and ordered. */
  lemma ConsKeeps(plan: Plan, h: nat, rest: seq<nat>)
    requires h < |plan.items| && forall k :: 0 <= k < |rest| ==> rest[k] < |plan.items|
    requires Distinct(rest) && InTranscriptOrder(plan, rest) && h !in rest
    requires forall k :: 0 <= k < |rest| ==> plan.items[h].source.order <= plan.items[rest[k]].source.order
    ensures Distinct([h] + rest)
    ensures forall k :: 0 <= k < |[h] + rest| ==> ([h] + rest)[k] < |plan.items|
    ensures InTranscriptOrder(plan, [h] + rest)
  {
    var r := [h] + rest;
    forall k, l | 0 <= k < l < |r|
      ensures r[k] != r[l] && plan.items[r[k]].source.order <= plan.items[r[l]].source.order
    {
      assert r[l] == rest[l - 1];
      if k > 0 {
        assert r[k] == rest[k - 1];
      }
    }
  }

  lemma {:induction false} InsertKeeps(plan: Plan, order: seq<nat>, i: nat)
    requires i < |plan.items| && forall k :: 0 <= k < |order| ==> order[k] < |plan.items|
    requires i !in order && Distinct(order) && InTranscriptOrder(plan, order)
    ensures var r := InsertByOrder(plan, order, i);
            && Distinct(r) && (forall k :: 0 <= k < |r| ==> r[k] < |plan.items|) && InTranscriptOrder(plan, r)
    decreases order
  {
    if order == [] || plan.items[i].source.order < plan.items[order[0]].source.order {
      ConsKeeps(plan, i, order);
    } else {
      var rest := InsertByOrder(plan, order[1..], i);
      InsertKeeps(plan, order[1..], i);
      forall k | 0 <= k < |rest|
        ensures rest[k] != order[0] && plan.items[order[0]].source.order <= plan.items[rest[k]].source.order
      {
        if rest[k] != i {
          var l :| 0 <= l < |order[1..]| && order[1..][l] == rest[k];
          assert order[l + 1] == rest[k];
        }
      }
      ConsKeeps(plan, order[0], rest);
    }
  }

  lemma MergeOrderStep(plan: Plan, ds: seq<Directive>, m: nat, rest: seq<nat>)
    requires m < |plan.items| == |ds| && DependentMerge(plan, ds, m)
    requires forall k :: 0 <= k < |rest| ==> rest[k] < m && DependentMerge(plan, ds, rest[k])
    requires forall i :: 0 <= i < m && DependentMerge(plan, ds, i) ==> i in rest
    requires Distinct(rest) && InTranscriptOrder(plan, rest)
    ensures var r := InsertByOrder(plan, rest, m); var n := m + 1;
            && (forall k :: 0 <= k < |r| ==> r[k] < n && DependentMerge(plan, ds, r[k]))
            && (forall i :: 0 <= i < n && DependentMerge(plan, ds, i) ==> i in r)
            && Distinct(r) && InTranscriptOrder(plan, r)
  {
    hide DependentMerge;
    InsertKeeps(plan, rest, m);
    InsertContains(plan, rest, m);
    var r := InsertByOrder(plan, rest, m);
    hide Distinct, InTranscriptOrder;
    forall k | 0 <= k < |r|
      ensures r[k] < m + 1 && DependentMerge(plan, ds, r[k])
    {
      assert r[k] == m || r[k] in rest;
    }
  }

  /** Dependent merge items among the first n, in transcript order, each once. */
  function MergeOrder(plan: Plan, ds: seq<Directive>, n: nat): (r: seq<nat>)
    requires n <= |plan.items| == |ds|
    ensures forall k :: 0 <= k < |r| ==> r[k] < n && DependentMerge(plan, ds, r[k])
    ensures forall i :: 0 <= i < n && DependentMerge(plan, ds, i) ==> i in r
    ensures Distinct(r) && InTranscriptOrder(plan, r)
  {
    if n == 0 then []
    else
      var rest := MergeOrder(plan, ds, n - 1);
      if DependentMerge(plan, ds, n - 1) then
        MergeOrderStep(plan, ds, n - 1, rest);
        InsertByOrder(plan, rest, n - 1)
      else rest
  }

  function PrepareStep(plan: Plan, locked: set<NodeId>, g: Graph, q: Prepared, i: nat): Result<Prepared>
    requires i < |plan.items| == |q.ds| && q.ds[i].target.Some?
  {
    var src := plan.items[i].source;
    var d := q.ds[i];
    var create := q.(ds := q.ds[i := Downgraded(d)]);
    var t := d.target.value;
    if src.id !in g.nodes then Err(NotFound)
    else if !(Planned(plan, t) || t in locked) || t !in g.nodes then Ok(create)
    else
      var r := Resolve(g, plan.project, t, Some(src.kind));
      if r.Err? || r.value !in g.nodes then Ok(create)
      else if g.nodes[src.id].state == Merged then
        if Resolve(g, plan.project, src.id, Some(src.kind)) == r then Ok(q) else Err(PartialMerge)
      else if !VersionValid(plan, g.nodes[r.value], d.version) then Ok(create)
      else if src.id == r.value then Ok(create)
      else Ok(q.(members := q.members + [Member(i, r.value)]))
  }

  function PreparePhase(plan: Plan, locked: set<NodeId>, g: Graph, ds: seq<Directive>, order: seq<nat>, n: nat): (r: Result<Prepared>)
    requires n <= |order| && |plan.items| == |ds|
    requires forall k :: 0 <= k < |order| ==> order[k] < |plan.items| && ds[order[k]].target.Some?
    requires Distinct(order)
    ensures r.Ok? ==> |r.value.ds| == |ds|
    ensures r.Ok? ==> forall k :: n <= k < |order| ==> r.value.ds[order[k]] == ds[order[k]]
  {
    if n == 0 then Ok(Prepared(ds, []))
    else
      var before := PreparePhase(plan, locked, g, ds, order, n - 1);
      if before.Err? then before
      else
        assert before.value.ds[order[n - 1]] == ds[order[n - 1]];
        PrepareStep(plan, locked, g, before.value, order[n - 1])
  }

  /** Members of one target whose intended Decision parent matches the target's; only Actions are gated. */
  function Accepted(plan: Plan, g: Graph, ds: seq<Directive>, members: seq<Member>, target: NodeId): (r: seq<Member>)
    requires target in g.nodes && |plan.items| == |ds|
    requires forall k :: 0 <= k < |members| ==> members[k].index < |plan.items|
    ensures forall m :: m in r ==> m in members && m.target == target
  {
    if members == [] then []
    else
      var m := members[0];
      var rest := Accepted(plan, g, ds, members[1..], target);
      if m.target != target then rest
      else if g.nodes[target].kind != Action then [m] + rest
      else
        var intended := DecisionParent(g, plan.project, plan.items[m.index].source.category, ds[m.index].parent);
        var actual := DecisionParent(g, plan.project, g.nodes[target].category, g.nodes[target].parent);
        if intended.Some? && intended == actual then [m] + rest else rest
  }

  function FoldMembers(plan: Plan, ds: seq<Directive>, g: Graph, members: seq<Member>, n: nat): Result<Graph>
    requires n <= |members| && |plan.items| == |ds|
    requires forall k :: 0 <= k < |members| ==> members[k].index < |plan.items|
  {
    if n == 0 then Ok(g)
    else
      var before := FoldMembers(plan, ds, g, members, n - 1);
      var i := members[n - 1].index;
      if before.Err? then before
      else if ds[i].target.None? then Err(NotFound)
      else LogicalMerge(plan, before.value, i, ds[i].target.value)
  }

  function Ascending(s: set<NodeId>): (r: seq<NodeId>)
    ensures forall x :: x in r <==> x in s
    ensures forall k, l :: 0 <= k < l < |r| ==> r[k] != r[l]
  {
    if s == {} then []
    else
      MinExists(s);
      var m :| m in s && forall x :: x in s ==> m <= x;
      [m] + Ascending(s - {m})
  }

  lemma {:induction false} Least(s: set<NodeId>) returns (m: NodeId)
    requires s != {}
    ensures m in s && forall x :: x in s ==> m <= x
    decreases |s|
  {
    var a :| a in s;
    m := a;
    var rest := s - {a};
    if rest != {} {
      var k := Least(rest);
      m := if k < a then k else a;
      forall x | x in s
        ensures m <= x
      {
        assert x == a || x in rest;
      }
    } else {
      forall x | x in s
        ensures m <= x
      {
        assert x !in rest;
      }
    }
  }

  lemma MinExists(s: set<NodeId>)
    requires s != {}
    ensures exists m :: m in s && forall x :: x in s ==> m <= x
  {
    var m := Least(s);
  }

  function GroupTargets(members: seq<Member>): seq<NodeId> {
    Ascending(set k | 0 <= k < |members| :: members[k].target)
  }

  function GroupPhase(plan: Plan, g: Graph, q: Prepared, targets: seq<NodeId>, n: nat): Result<Graph>
    requires n <= |targets| && |plan.items| == |q.ds|
    requires forall k :: 0 <= k < |q.members| ==> q.members[k].index < |plan.items|
  {
    if n == 0 then Ok(g)
    else
      var before := GroupPhase(plan, g, q, targets, n - 1);
      if before.Err? then before
      else if targets[n - 1] !in before.value.nodes then Err(NotFound)
      else
        var accepted := Accepted(plan, before.value, q.ds, q.members, targets[n - 1]);
        FoldMembers(plan, q.ds, before.value, accepted, |accepted|)
  }

  // ----- the whole application -----

  /** Targets that are stored nodes rather than planned ones. */
  function ExistingTargets(plan: Plan): set<NodeId> {
    set i | 0 <= i < |plan.items| && plan.items[i].directive.target.Some?
            && !Planned(plan, plan.items[i].directive.target.value) :: plan.items[i].directive.target.value
  }

  predicate TargetsPresent(plan: Plan, g: Graph) {
    forall t :: t in ExistingTargets(plan) ==> Live(g, t) && g.nodes[t].project == plan.project
  }

  function Insert(plan: Plan, g: Graph): Result<Graph> {
    InsertPhase(plan, g.(published := g.published + {plan.run}), |plan.items|)
  }

  /** Members of a prepared list index the plan. */
  ghost predicate MembersInPlan(plan: Plan, members: seq<Member>) {
    forall k :: 0 <= k < |members| ==> members[k].index < |plan.items|
  }

  lemma {:induction false} PreparedInPlan(plan: Plan, locked: set<NodeId>, g: Graph, ds: seq<Directive>, order: seq<nat>, n: nat)
    requires n <= |order| && |plan.items| == |ds|
    requires forall k :: 0 <= k < |order| ==> order[k] < |plan.items| && ds[order[k]].target.Some?
    requires Distinct(order)
    requires PreparePhase(plan, locked, g, ds, order, n).Ok?
    ensures MembersInPlan(plan, PreparePhase(plan, locked, g, ds, order, n).value.members)
  {
    if n > 0 {
      PreparedInPlan(plan, locked, g, ds, order, n - 1);
    }
  }

  function Dependents(plan: Plan, locked: set<NodeId>, p: Progress): Result<Graph>
    requires |plan.items| == |p.ds|
  {
    var order := MergeOrder(plan, p.ds, |plan.items|);
    var q := PreparePhase(plan, locked, p.g, p.ds, order, |order|);
    if q.Err? then Err(q.error)
    else
      PreparedInPlan(plan, locked, p.g, p.ds, order, |order|);
      var targets := GroupTargets(q.value.members);
      GroupPhase(plan, p.g, q.value, targets, |targets|)
  }

  /** A published run is replayed without effect; otherwise the three phases run in order. */
  function Apply(plan: Plan, g: Graph): Result<Graph> {
    var locked := ExistingTargets(plan);
    var n := |plan.items|;
    if plan.run in g.published then Ok(g)
    else if !TargetsPresent(plan, g) then Err(TargetDisappeared)
    else
      var inserted := Insert(plan, g);
      if inserted.Err? then inserted
      else
        var decided := DecisionPhase(plan, locked, Progress(inserted.value, Directives(plan)), n);
        if decided.Err? then Err(decided.error)
        else
          var linked := LinkPhase(plan, locked, decided.value, n);
          if linked.Err? then Err(linked.error) else Dependents(plan, locked, linked.value)
  }
}

/**
 The stored graph as an object whose fields the transactions rewrite, each
 method proved against the function that the theorems are about.  A method that
 returns an error leaves every field as it was, as a rolled-back transaction does.
 */
module GraphStore {
  import opened Options
  import opened GraphModel
  import opened GraphResolve
  import opened GraphMerge
  import opened GraphDelete
  import opened GraphRelations
  import opened Evidence
  import opened AutoPlan

  class Store {
    var nodes: map<NodeId, Node>
    var ops: map<OpId, MergeOp>
    var deps: set<(OpId, OpId)>
    var relations: map<RelationKey, bool>
    var published: set<RunId>

    function Value(): Graph
      reads this
    {
      Graph(nodes, ops, deps, relations, published)
    }

    constructor ()
      ensures Value() == EMPTY_GRAPH && Inv(Value())
    {
      nodes, ops, deps, relations, published := map[], map[], {}, map[], {};
      new;
      EmptyGraphInv();
    }

    // ----- reads through the merge chain -----

    method ResolveCanonicalNode(p: ProjectId, x: NodeId, expected: Option<Kind>) returns (r: Result<NodeId>)
      ensures r == Resolve(Value(), p, x, expected)
    {
      var g := Value();
      var start := GetProjectNode(g, p, x);
      if start.Err? {
        return start;
      }
      var current := x;
      var kind := if expected.Some? then expected.value else nodes[x].kind;
      var visited: set<NodeId> := {};
      for hop := 0 to MAX_CANONICAL_HOPS
        invariant current in nodes
        invariant Walk(g, p, current, kind, visited, MAX_CANONICAL_HOPS - hop) == Resolve(g, p, x, expected)
      {
        if current in visited { return Err(MergeCycle); }
        if nodes[current].kind != kind { return Err(TypeChange); }
        if nodes[current].state != Merged {
          if nodes[current].mergedInto.Some? { return Err(StrayMergePointer); }
          if !Canonical(nodes[current]) { return Err(NotAvailable); }
          return Ok(current);
        }
        if nodes[current].mergedInto.None? { return Err(MissingMergeTarget); }
        var next := nodes[current].mergedInto.value;
        if !(Live(g, next) && nodes[next].project == p) {
          return Err(if next in nodes then CrossesProject else DanglingMergePointer);
        }
        visited := visited + {current};
        current := next;
      }
      r := Err(HopLimit);
    }

    method HintCanonicalNode(p: ProjectId, start: Option<NodeId>) returns (r: Option<NodeId>)
      ensures r == HintCanonical(Value(), p, start)
    {
      if start.None? || start.value !in nodes {
        return None;
      }
      ghost var g := Value();
      var current := start.value;
      var kind := nodes[current].kind;
      var hops := 0;
      var visited: set<NodeId> := {};
      while nodes[current].mergedInto.Some?
        invariant current in nodes && hops <= MAX_HINT_HOPS
        invariant HintWalk(g, p, current, kind, visited, hops) == HintCanonical(g, p, start)
        decreases MAX_HINT_HOPS - hops
      {
        if current in visited { return None; }
        if hops + 1 > MAX_HINT_HOPS { return None; }
        var next := nodes[current].mergedInto.value;
        if next !in nodes || nodes[next].project != p { return None; }
        if nodes[next].kind != kind { return None; }
        visited := visited + {current};
        hops := hops + 1;
        current := next;
      }
      r := Some(current);
    }

    // ----- merge and unmerge -----

    method ApplyLogicalMerge(p: ProjectId, s: NodeId, t: NodeId, actor: Actor, id: OpId) returns (r: Result<OpId>)
      requires s in nodes && t in nodes
      modifies this
      ensures match old(ApplyMerge(Value(), p, s, t, actor, id))
              case Ok(h) => r == Ok(id) && Value() == h
              case Err(e) => r == Err(e) && unchanged(this)
    {
      if nodes[s].project != p || nodes[t].project != p { return Err(OtherProject); }
      if s == t { return Err(SelfReference); }
      if !Canonical(nodes[s]) || nodes[s].mergedInto.Some? { return Err(NotAvailable); }
      if nodes[s].kind != nodes[t].kind { return Err(TypeChange); }
      var target := ResolveCanonicalNode(p, t, Some(nodes[s].kind));
      if target.Err? { return Err(target.error); }
      if target.value == s { return Err(WouldCycle); }
      if target.value !in nodes || nodes[s].revision.None? || nodes[target.value].revision.None? { return Err(NoRevision); }
      var incoming := Incoming(Value(), p, s);
      ghost var before := Value();
      ops := ops[id := MergeOp(p, s, t, target.value, nodes[s].version, nodes[target.value].version, nodes[s].state, true)];
      var todo := incoming;
      while todo != {}
        invariant todo <= incoming
        invariant deps == before.deps + set o | o in incoming - todo :: (id, o)
        invariant nodes == before.nodes && relations == before.relations && published == before.published
        invariant ops == before.ops[id := MergeOp(p, s, t, target.value, nodes[s].version, nodes[target.value].version, nodes[s].state, true)]
        decreases todo
      {
        var o :| o in todo;
        deps := deps + {(id, o)};
        todo := todo - {o};
        assert incoming - todo == (incoming - todo - {o}) + {o};
      }
      nodes := nodes[s := MergedSource(nodes[s], target.value, actor)];
      assert incoming - {} == incoming;
      r := Ok(id);
    }

    method UnmergeOperation(p: ProjectId, id: OpId) returns (r: Result<OpId>)
      modifies this
      ensures match old(Unmerge(Value(), p, id))
              case Ok(h) => r == Ok(id) && Value() == h
              case Err(e) => r == Err(e) && unchanged(this)
    {
      var g := Value();
      if id !in ops || ops[id].project != p { return Err(NotFound); }
      var op := ops[id];
      if !op.applied { return Ok(id); }
      if HasDependent(g, id) { return Err(DependentMergeFirst); }
      var source := GetProjectNode(g, p, op.source);
      if source.Err? { return Err(source.error); }
      var n := nodes[op.source];
      if n.state != Merged || n.mergedInto != Some(op.resolved) { return Err(SourceMismatch); }
      if n.revision.None? { return Err(NoRevision); }
      if n.revision.value.requiresEvidence && n.revision.value.evidence == [] { return Err(NoEvidence); }
      var target := GetProjectNode(g, p, op.resolved);
      if target.Err? { return Err(target.error); }
      nodes := nodes[op.source := RestoredSource(n, op.originalState, nodes[op.resolved].version != op.targetVersion)];
      ops := ops[id := op.(applied := false)];
      r := Ok(id);
    }

    // ----- delete -----

    method ExpireRelations(p: ProjectId, d: set<NodeId>)
      modifies this`relations
      ensures relations == map k | k in old(relations) :: old(relations)[k] && !Expires(k, p, d)
    {
      var hit := set k | k in relations && relations[k] && Expires(k, p, d);
      var todo := hit;
      ghost var before := relations;
      while todo != {}
        invariant todo <= hit && relations.Keys == before.Keys
        invariant forall k :: k in before ==> relations[k] == (before[k] && !(k in hit && k !in todo))
        decreases todo
      {
        var k :| k in todo;
        relations := relations[k := false];
        todo := todo - {k};
      }
    }

    method LogicallyDelete(d: set<NodeId>, member: string)
      requires d <= nodes.Keys
      modifies this`nodes
      ensures nodes == map x | x in old(nodes) :: if x in d then DeletedNode(old(nodes)[x], member) else old(nodes)[x]
    {
      var todo := d;
      ghost var before := nodes;
      while todo != {}
        invariant todo <= d && nodes.Keys == before.Keys
        invariant forall x :: x in before ==> nodes[x] == if x in d && x !in todo then DeletedNode(before[x], member) else before[x]
        decreases todo
      {
        var x :| x in todo;
        nodes := nodes[x := DeletedNode(nodes[x], member)];
        todo := todo - {x};
      }
    }

    method ProcessNodeDelete(p: ProjectId, seeds: seq<NodeId>, member: string) returns (r: Result<set<NodeId>>)
      modifies this
      ensures match old(DeleteNodes(Value(), p, seeds, member))
              case Ok(h) => r == Ok(old(Saturate(Value(), p, Seeds(seeds)))) && Value() == h
              case Err(e) => r == Err(e) && unchanged(this)
    {
      var g := Value();
      DeleteAcceptedIff(g, p, seeds, member);
      for i := 0 to |seeds|
        invariant forall j :: 0 <= j < i ==> Live(g, seeds[j])
      {
        if !Live(g, seeds[i]) { return Err(NotFound); }
      }
      for i := 0 to |seeds|
        invariant forall j :: 0 <= j < i ==> nodes[seeds[j]].project == p
      {
        if nodes[seeds[i]].project != p { return Err(OtherProject); }
      }
      var start := set i | 0 <= i < |seeds| :: seeds[i];
      var resolved := EffectiveDeleteClosure(g, p, start);
      var d := start + resolved;
      if Dangling(g, p, d) != {} { return Err(DanglingReference); }
      ExpireRelations(p, d);
      LogicallyDelete(d, member);
      assert Value() == DeletedGraph(g, p, d, member);
      assert Dangling(Value(), p, d) == {};  // the check after the writes cannot fail either
      r := Ok(d);
    }

    // ----- relation edits -----

    /** The ancestor loop under a new parent. */
    method ClimbAncestors(p: ProjectId, child: NodeId, category: Category, start: NodeId) returns (r: Result<NodeId>)
      requires start in nodes
      ensures r == Climb(Value(), p, child, category, start, {}).outcome
    {
      ghost var g := Value();
      var ancestor := start;
      var visited: set<NodeId> := {};
      while nodes[ancestor].parent.Some?
        invariant ancestor in nodes
        invariant Climb(g, p, child, category, ancestor, visited).outcome == Climb(g, p, child, category, start, {}).outcome
        decreases nodes.Keys - visited
      {
        if ancestor in visited { return Err(ParentCycle); }
        var up := ResolveCanonicalNode(p, nodes[ancestor].parent.value, None);
        if up.Err? { return up; }
        if up.value !in nodes { return Err(NotFound); }
        if up.value == child || nodes[up.value].category != category { return Err(ParentBoundary); }
        assert ancestor in nodes.Keys - visited;
        visited := visited + {ancestor};
        ancestor := up.value;
      }
      r := Ok(ancestor);
    }

    method UpsertRelation(p: ProjectId, x: NodeId, y: NodeId, kind: RelationType) returns (r: Result<RelationKey>)
      requires x in nodes && y in nodes
      modifies this
      ensures match old(ApplyRelation(Value(), p, x, y, kind))
              case Ok(h) => r.Ok? && Value() == h && Open(h, r.value)
              case Err(e) => r == Err(e) && unchanged(this)
    {
      if x == y { return Err(SelfReference); }
      if nodes[x].state == Merged || nodes[x].state == Deleted { return Err(NotAvailable); }
      var t := ResolveCanonicalNode(p, y, None);
      if t.Err? { return Err(t.error); }
      if t.value !in nodes { return Err(NotFound); }
      var key := NormalKey(RelationKey(p, x, y, kind));
      if kind == AttachedTo {
        if nodes[t.value].state != Active || !AllowedParent(nodes[x].kind, nodes[t.value].kind)
           || nodes[t.value].category != nodes[x].category || t.value == x { return Err(InvalidParent); }
        var top := ClimbAncestors(p, x, nodes[x].category, t.value);
        if top.Err? { return Err(top.error); }
        relations := CloseAttachments(relations, p, x);
        nodes := nodes[x := AttachedChild(nodes[x], t.value)];
      }
      relations := relations[key := true];
      r := Ok(key);
    }

    method RemoveRelation(p: ProjectId, k: RelationKey) returns (r: Result<RelationKey>)
      modifies this
      ensures match old(DeleteRelation(Value(), p, k))
              case Ok(h) => r == Ok(k) && Value() == h
              case Err(e) => r == Err(e) && unchanged(this)
    {
      if k !in relations || k.project != p { return Err(NotFound); }
      if relations[k] {
        if k.kind == AttachedTo {
          var child := GetProjectNode(Value(), p, k.source);
          if child.Err? { return Err(child.error); }
          if nodes[k.source].parent.Some? {
            if nodes[k.source].mergedInto.Some? { return Err(ConstraintViolation); }
            nodes := nodes[k.source := nodes[k.source].(parent := None, state := Unattached,
                                        needsAttention := true, version := nodes[k.source].version + 1)];
          }
        }
        relations := relations[k := false];
      }
      r := Ok(k);
    }

    // ----- automatic apply -----

    method InsertSources(plan: Plan) returns (failure: Option<Error>)
      modifies this`nodes
      ensures match old(InsertPhase(plan, Value(), |plan.items|))
              case Ok(h) => failure.None? && Value() == h
              case Err(e) => failure == Some(e)
    {
      ghost var g := Value();
      for i := 0 to |plan.items|
        invariant InsertPhase(plan, g, i) == Ok(Value())
      {
        var source := plan.items[i].source;
        failure := if source.id in nodes then Some(ConstraintViolation)
                   else if source.title == "" then Some(BlankTitle)
                   else if source.evidence == [] then Some(NoEvidence)
                   else None;
        if failure.Some? {
          InsertErrorStays(plan, g, i + 1, |plan.items|);
          return;
        }
        nodes := nodes[source.id := NewNode(plan, source)];
      }
      return None;
    }

    /** Guards, the merged revision of the target, and the redirect of the source. */
    method ApplyPlannedLogicalMerge(plan: Plan, i: nat, t: NodeId) returns (failure: Option<Error>)
      requires i < |plan.items|
      modifies this
      ensures match old(LogicalMerge(plan, Value(), i, t))
              case Ok(h) => failure.None? && Value() == h
              case Err(e) => failure == Some(e)
    {
      hide Resolve, ApplyMerge, Dedup;
      ghost var g := Value();
      var src := plan.items[i].source;
      if src.id !in nodes { return Some(NotFound); }
      if src.suggestion.None? { return Some(NoDecision); }
      if nodes[src.id].state != Unattached || nodes[src.id].parent.Some? { return Some(NotUnattachedLeaf); }
      if HasLiveChild(Value(), plan.project, src.id) { return Some(HasChildren); }
      var resolved := ResolveCanonicalNode(plan.project, t, Some(nodes[src.id].kind));
      if resolved.Err? { return Some(resolved.error); }
      var r := resolved.value;
      if r !in nodes { return Some(NotFound); }
      if nodes[r].state != Active || nodes[r].category != nodes[src.id].category { return Some(TargetNotActive); }
      ghost var absorbed := Absorb(plan, g.nodes[r], g.nodes[src.id], src.suggestion.value);
      var title := if nodes[r].lastActor == User then nodes[r].title else src.suggestion.value.title;
      if src.suggestion.value.title == "" || title == "" { return Some(BlankTitle); }
      var evidence := DeduplicateEvidenceSpecs(CurrentEvidence(nodes[r]) + CurrentEvidence(nodes[src.id]));
      if evidence == [] { return Some(NoEvidence); }
      if t !in src.retrieved { return Some(NoRetrievalRow); }
      AppendMergedRevision(plan, r, src.suggestion.value, evidence);
      assert nodes == g.nodes[r := absorbed];
      hide Absorb, HasLiveChild;
      var merged := ApplyLogicalMerge(plan.project, src.id, r, System, plan.opBase + i);
      failure := if merged.Err? then Some(merged.error) else None;
    }

    /** The target's next revision; text a user wrote last stays. */
    method AppendMergedRevision(plan: Plan, r: NodeId, s: Suggestion, evidence: seq<EvidenceSpec>)
      requires r in nodes
      modifies this`nodes
      ensures r in nodes && nodes == old(nodes)[r := nodes[r]]
      ensures var n := old(nodes)[r];
              nodes[r] == n.(title := if n.lastActor == User then n.title else s.title,
                             content := if n.lastActor == User then n.content else s.content,
                             version := if n.revision.Some? then n.version + 1 else n.version,
                             revision := Some(PipelineRevision(plan, evidence)),
                             lastActor := if n.lastActor == User then User else System)
    {
      if nodes[r].revision.Some? {
        nodes := nodes[r := nodes[r].(version := nodes[r].version + 1)];
      }
      nodes := nodes[r := nodes[r].(revision := Some(PipelineRevision(plan, evidence)))];
      if nodes[r].lastActor != User {
        nodes := nodes[r := nodes[r].(title := s.title, content := s.content, lastActor := System)];
      }
    }

    /** One Decision: activate it, downgrade its merge, or merge it. */
    method DecideOne(plan: Plan, locked: set<NodeId>, ds: array<Directive>, i: nat) returns (failure: Option<Error>)
      requires i < |plan.items| == ds.Length
      modifies this, ds
      ensures match old(DecisionStep(plan, locked, Progress(Value(), ds[..]), i))
              case Ok(p) => failure.None? && Value() == p.g && ds[..] == p.ds
              case Err(e) => failure == Some(e)
    {
      hide LogicalMerge, Resolve;
      var src := plan.items[i].source;
      if src.kind != Decision { return None; }
      if src.id !in nodes { return Some(NotFound); }
      if ds[i].action == Merge {
        if ds[i].target.None? { return None; }
        var t := ds[i].target.value;
        var merging := (Planned(plan, t) || t in locked) && t in nodes && VersionValid(plan, nodes[t], ds[i].version);
        if merging {
          var r := ResolveCanonicalNode(plan.project, t, Some(src.kind));
          if r.Err? { return Some(r.error); }
          if r.value !in nodes { return Some(NotFound); }
          merging := nodes[r.value].state == Active && nodes[r.value].category == src.category;
        }
        if merging {
          failure := ApplyPlannedLogicalMerge(plan, i, t);
          return;
        }
        ds[i] := Downgraded(ds[i]);
      }
      nodes := nodes[src.id := nodes[src.id].(state := Active)];
      return None;
    }

    method DecidePlanned(plan: Plan, locked: set<NodeId>, ds: array<Directive>) returns (failure: Option<Error>)
      requires |plan.items| == ds.Length
      modifies this, ds
      ensures match old(DecisionPhase(plan, locked, Progress(Value(), ds[..]), |plan.items|))
              case Ok(p) => failure.None? && Value() == p.g && ds[..] == p.ds
              case Err(e) => failure == Some(e)
    {
      hide DecisionStep;
      ghost var p := Progress(Value(), ds[..]);
      for i := 0 to |plan.items|
        invariant DecisionPhase(plan, locked, p, i) == Ok(Progress(Value(), ds[..]))
      {
        failure := DecideOne(plan, locked, ds, i);
        if failure.Some? {
          DecisionErrorStays(plan, locked, p, i + 1, |plan.items|);
          return;
        }
      }
      return None;
    }

    /** One link: attach the node, relate it, or downgrade it. */
    method LinkOne(plan: Plan, locked: set<NodeId>, ds: array<Directive>, i: nat) returns (failure: Option<Error>)
      requires i < |plan.items| == ds.Length
      modifies this, ds
      ensures match old(LinkStep(plan, locked, Progress(Value(), ds[..]), i))
              case Ok(p) => failure.None? && Value() == p.g && ds[..] == p.ds
              case Err(e) => failure == Some(e)
    {
      hide Resolve;
      var src := plan.items[i].source;
      if ds[i].action != Link || ds[i].target.None? { return None; }
      if src.id !in nodes { return Some(NotFound); }
      var t := ds[i].target.value;
      if !(Planned(plan, t) || t in locked) || t !in nodes
         || (ds[i].version.Some? && !Planned(plan, t) && nodes[t].version != ds[i].version.value) {
        ds[i] := Downgraded(ds[i]).(relation := None);
        return None;
      }
      var r := ResolveCanonicalNode(plan.project, t, None);
      if r.Err? { return Some(r.error); }
      if r.value !in nodes { return Some(NotFound); }
      if ds[i].relation == Some(AttachedTo) {
        if nodes[r.value].state != Active || !AllowedParent(src.kind, nodes[r.value].kind)
           || nodes[r.value].category != src.category || r.value == src.id {
          ds[i] := ds[i].(action := CreateNew);
          return None;
        }
        if src.id == t { return Some(ConstraintViolation); }
        relations := relations[RelationKey(plan.project, src.id, t, AttachedTo) := true];
        nodes := nodes[src.id := nodes[src.id].(parent := Some(r.value))];
        nodes := nodes[src.id := nodes[src.id].(state := Active)];
        return None;
      }
      if src.id == t { return Some(ConstraintViolation); }
      var kind := if ds[i].relation.Some? then ds[i].relation.value else RelatedTo;
      relations := relations[NormalKey(RelationKey(plan.project, src.id, t, kind)) := true];
      if src.kind == Decision {
        nodes := nodes[src.id := nodes[src.id].(state := Active)];
      }
      return None;
    }

    method LinkPlanned(plan: Plan, locked: set<NodeId>, ds: array<Directive>) returns (failure: Option<Error>)
      requires |plan.items| == ds.Length
      modifies this, ds
      ensures match old(LinkPhase(plan, locked, Progress(Value(), ds[..]), |plan.items|))
              case Ok(p) => failure.None? && Value() == p.g && ds[..] == p.ds
              case Err(e) => failure == Some(e)
    {
      hide LinkStep;
      ghost var p := Progress(Value(), ds[..]);
      for i := 0 to |plan.items|
        invariant LinkPhase(plan, locked, p, i) == Ok(Progress(Value(), ds[..]))
      {
        failure := LinkOne(plan, locked, ds, i);
        if failure.Some? {
          LinkErrorStays(plan, locked, p, i + 1, |plan.items|);
          return;
        }
      }
      return None;
    }

    /** One dependent merge before any fold: keep it as a member of its target's group, or downgrade it. */
    method PrepareOne(plan: Plan, locked: set<NodeId>, ds: array<Directive>, i: nat, members: seq<Member>) returns (r: Result<seq<Member>>)
      requires i < |plan.items| == ds.Length && ds[i].target.Some?
      modifies ds
      ensures match old(PrepareStep(plan, locked, Value(), Prepared(ds[..], members), i))
              case Ok(q) => r == Ok(q.members) && ds[..] == q.ds
              case Err(e) => r == Err(e)
    {
      hide Resolve;
      var src := plan.items[i].source;
      var t := ds[i].target.value;
      if src.id !in nodes { return Err(NotFound); }
      var keep := (Planned(plan, t) || t in locked) && t in nodes;
      if keep {
        var canonical := ResolveCanonicalNode(plan.project, t, Some(src.kind));
        keep := canonical.Ok? && canonical.value in nodes;
        if keep {
          if nodes[src.id].state == Merged {
            var current := ResolveCanonicalNode(plan.project, src.id, Some(src.kind));
            return if current == canonical then Ok(members) else Err(PartialMerge);
          }
          if VersionValid(plan, nodes[canonical.value], ds[i].version) && src.id != canonical.value {
            return Ok(members + [Member(i, canonical.value)]);
          }
        }
      }
      ds[i] := Downgraded(ds[i]);
      r := Ok(members);
    }

    /** Validate every dependent target before the first fold. */
    method PrepareGroups(plan: Plan, locked: set<NodeId>, ds: array<Directive>) returns (r: Result<seq<Member>>)
      requires |plan.items| == ds.Length
      modifies ds
      ensures var order := old(MergeOrder(plan, ds[..], |plan.items|));
              match old(PreparePhase(plan, locked, Value(), ds[..], order, |order|))
              case Ok(q) => r == Ok(q.members) && ds[..] == q.ds
              case Err(e) => r == Err(e)
    {
      hide PrepareStep, MergeOrder, InsertByOrder, InTranscriptOrder;
      ghost var g, start := Value(), ds[..];
      var order := MergeOrder(plan, ds[..], |plan.items|);
      var members: seq<Member> := [];
      for k := 0 to |order|
        invariant PreparePhase(plan, locked, g, start, order, k) == Ok(Prepared(ds[..], members))
      {
        assert ds[..][order[k]] == start[order[k]];
        var step := PrepareOne(plan, locked, ds, order[k], members);
        if step.Err? {
          PrepareErrorStays(plan, locked, g, start, order, k + 1, |order|);
          return step;
        }
        members := step.value;
      }
      r := Ok(members);
    }

    /** The Decision parent of an Action, read through merges. */
    method ResolveDecisionParent(p: ProjectId, category: Category, parent: Option<NodeId>) returns (r: Option<NodeId>)
      ensures r == DecisionParent(Value(), p, category, parent)
    {
      if parent.None? { return None; }
      var resolved := ResolveCanonicalNode(p, parent.value, Some(Decision));
      if resolved.Err? || resolved.value !in nodes { return None; }
      if nodes[resolved.value].state != Active || nodes[resolved.value].category != category { return None; }
      r := Some(resolved.value);
    }

    /** The members of a group that pass the gate on their Decision parent. */
    method GateMembers(plan: Plan, ds: array<Directive>, members: seq<Member>, target: NodeId) returns (accepted: seq<Member>)
      requires target in nodes && |plan.items| == ds.Length && MembersInPlan(plan, members)
      ensures accepted == Accepted(plan, Value(), ds[..], members, target)
    {
      hide DecisionParent;
      accepted := [];
      var k := 0;
      assert members[0..] == members;
      while k < |members|
        invariant k <= |members| && MembersInPlan(plan, members[k..])
        invariant accepted + Accepted(plan, Value(), ds[..], members[k..], target) == Accepted(plan, Value(), ds[..], members, target)
      {
        var m := members[k];
        assert members[k..][0] == m && members[k..][1..] == members[k + 1..];
        ghost var rest := Accepted(plan, Value(), ds[..], members[k + 1..], target);
        var pass := m.target == target;
        if pass && nodes[target].kind == Action {
          var intended := ResolveDecisionParent(plan.project, plan.items[m.index].source.category, ds[m.index].parent);
          var actual := ResolveDecisionParent(plan.project, nodes[target].category, nodes[target].parent);
          pass := intended.Some? && intended == actual;
        }
        if pass {
          assert accepted + ([m] + rest) == (accepted + [m]) + rest;
          accepted := accepted + [m];
        }
        k := k + 1;
      }
      assert accepted + [] == accepted;
    }

    method FoldGroup(plan: Plan, ds: array<Directive>, members: seq<Member>) returns (failure: Option<Error>)
      requires |plan.items| == ds.Length && MembersInPlan(plan, members)
      modifies this
      ensures match old(FoldMembers(plan, ds[..], Value(), members, |members|))
              case Ok(h) => failure.None? && Value() == h
              case Err(e) => failure == Some(e)
    {
      hide LogicalMerge;
      ghost var g := Value();
      for k := 0 to |members|
        invariant FoldMembers(plan, ds[..], g, members, k) == Ok(Value())
      {
        var i := members[k].index;
        if ds[i].target.None? {
          failure := Some(NotFound);
        } else {
          failure := ApplyPlannedLogicalMerge(plan, i, ds[i].target.value);
        }
        if failure.Some? {
          FoldErrorStays(plan, ds[..], g, members, k + 1, |members|);
          return;
        }
      }
      return None;
    }

    /** Prepare all groups, then fold them in ascending order of their targets. */
    method FoldDependents(plan: Plan, locked: set<NodeId>, ds: array<Directive>) returns (failure: Option<Error>)
      requires |plan.items| == ds.Length
      modifies this, ds
      ensures match old(Dependents(plan, locked, Progress(Value(), ds[..])))
              case Ok(h) => failure.None? && Value() == h
              case Err(e) => failure == Some(e)
    {
      hide FoldMembers, PreparePhase, Accepted;
      ghost var g, start := Value(), ds[..];
      var prepared := PrepareGroups(plan, locked, ds);
      if prepared.Err? { return Some(prepared.error); }
      ghost var order := MergeOrder(plan, start, |plan.items|);
      PreparedInPlan(plan, locked, g, start, order, |order|);
      var members := prepared.value;
      ghost var q := Prepared(ds[..], members);
      var targets := GroupTargets(members);
      for k := 0 to |targets|
        invariant ds[..] == q.ds && GroupPhase(plan, g, q, targets, k) == Ok(Value())
      {
        if targets[k] !in nodes {
          GroupErrorStays(plan, g, q, targets, k + 1, |targets|);
          return Some(NotFound);
        }
        var accepted := GateMembers(plan, ds, members, targets[k]);
        AcceptedInPlan(plan, members, accepted);
        failure := FoldGroup(plan, ds, accepted);
        if failure.Some? {
          GroupErrorStays(plan, g, q, targets, k + 1, |targets|);
          return;
        }
      }
      return None;
    }

    /** The phases in place, in one transaction: any error brings every row back. */
    method ApplyGraphMutationPlan(plan: Plan) returns (r: Result<RunId>)
      modifies this
      ensures match old(Apply(plan, Value()))
              case Ok(h) => r == Ok(plan.run) && Value() == h
              case Err(e) => r == Err(e) && Value() == old(Value())
    {
      hide InsertPhase, DecisionPhase, LinkPhase, Dependents;
      if plan.run in published { return Ok(plan.run); }
      var locked := ExistingTargets(plan);
      if !TargetsPresent(plan, Value()) { return Err(TargetDisappeared); }
      var before := Value();
      var ds := new Directive[|plan.items|](i requires 0 <= i < |plan.items| => plan.items[i].directive);
      assert ds[..] == Directives(plan);
      published := published + {plan.run};
      var failure := InsertSources(plan);
      if failure.None? {
        failure := DecidePlanned(plan, locked, ds);
        if failure.None? {
          failure := LinkPlanned(plan, locked, ds);
          if failure.None? {
            failure := FoldDependents(plan, locked, ds);
          }
        }
      }
      if failure.Some? {
        nodes, ops, deps, relations, published := before.nodes, before.ops, before.deps, before.relations, before.published;
        return Err(failure.value);
      }
      r := Ok(plan.run);
    }
  }

  lemma AcceptedInPlan(plan: Plan, members: seq<Member>, accepted: seq<Member>)
    requires MembersInPlan(plan, members) && forall m :: m in accepted ==> m in members
    ensures MembersInPlan(plan, accepted)
  {
    forall k | 0 <= k < |accepted|
      ensures accepted[k].index < |plan.items|
    {
      assert accepted[k] in members;
      var l :| 0 <= l < |members| && members[l] == accepted[k];
    }
  }

  // ----- the first error of a phase is its result -----

  lemma {:induction false} InsertErrorStays(plan: Plan, g: Graph, i: nat, n: nat)
    requires i <= n <= |plan.items| && InsertPhase(plan, g, i).Err?
    ensures InsertPhase(plan, g, n) == InsertPhase(plan, g, i)
    decreases n
  {
    if i < n {
      InsertErrorStays(plan, g, i, n - 1);
    }
  }

  lemma {:induction false} DecisionErrorStays(plan: Plan, locked: set<NodeId>, p: Progress, i: nat, n: nat)
    requires i <= n <= |plan.items| == |p.ds| && DecisionPhase(plan, locked, p, i).Err?
    ensures DecisionPhase(plan, locked, p, n) == DecisionPhase(plan, locked, p, i)
    decreases n
  {
    if i < n {
      DecisionErrorStays(plan, locked, p, i, n - 1);
    }
  }

  lemma {:induction false} LinkErrorStays(plan: Plan, locked: set<NodeId>, p: Progress, i: nat, n: nat)
    requires i <= n <= |plan.items| == |p.ds| && LinkPhase(plan, locked, p, i).Err?
    ensures LinkPhase(plan, locked, p, n) == LinkPhase(plan, locked, p, i)
    decreases n
  {
    if i < n {
      LinkErrorStays(plan, locked, p, i, n - 1);
    }
  }

  lemma {:induction false} PrepareErrorStays(plan: Plan, locked: set<NodeId>, g: Graph, ds: seq<Directive>, order: seq<nat>, i: nat, n: nat)
    requires i <= n <= |order| && |plan.items| == |ds| && Distinct(order)
    requires forall k :: 0 <= k < |order| ==> order[k] < |plan.items| && ds[order[k]].target.Some?
    requires PreparePhase(plan, locked, g, ds, order, i).Err?
    ensures PreparePhase(plan, locked, g, ds, order, n) == PreparePhase(plan, locked, g, ds, order, i)
    decreases n
  {
    if i < n {
      PrepareErrorStays(plan, locked, g, ds, order, i, n - 1);
    }
  }

  lemma {:induction false} FoldErrorStays(plan: Plan, ds: seq<Directive>, g: Graph, members: seq<Member>, i: nat, n: nat)
    requires i <= n <= |members| && |plan.items| == |ds| && MembersInPlan(plan, members)
    requires FoldMembers(plan, ds, g, members, i).Err?
    ensures FoldMembers(plan, ds, g, members, n) == FoldMembers(plan, ds, g, members, i)
    decreases n
  {
    hide LogicalMerge;
    if i < n {
      FoldErrorStays(plan, ds, g, members, i, n - 1);
    }
  }

  lemma {:induction false} GroupErrorStays(plan: Plan, g: Graph, q: Prepared, targets: seq<NodeId>, i: nat, n: nat)
    requires i <= n <= |targets| && |plan.items| == |q.ds| && MembersInPlan(plan, q.members)
    requires GroupPhase(plan, g, q, targets, i).Err?
    ensures GroupPhase(plan, g, q, targets, n) == GroupPhase(plan, g, q, targets, i)
    decreases n
  {
    hide FoldMembers;
    if i < n {
      GroupErrorStays(plan, g, q, targets, i, n - 1);
    }
  }
}

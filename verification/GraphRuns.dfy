/** Every run of graph transactions, in any order and on any inputs. */
module GraphRuns {
  import opened Options
  import opened GraphModel
  import opened GraphResolve
  import opened GraphMerge
  import opened GraphDelete
  import opened GraphRelations
  import opened UserDelete
  import opened AutoPlan
  import opened AutoApply
  import opened AutoPhases
  import opened AutoCommit
  import opened AutoLedger
  import opened AutoDecisions
  import opened AutoExact

  /** One transaction request.  Ids of new rows are part of the request and fresh. */
  datatype Step =
    | Create(p: ProjectId, x: NodeId, kind: Kind, category: Category, title: string, content: string, assertion: EvidenceSpec)
    | Edit(p: ProjectId, x: NodeId, title: string, content: string, member: string)
    | UserMerge(p: ProjectId, s: NodeId, t: NodeId, sVersion: nat, tVersion: nat, id: OpId)
    | Remerge(p: ProjectId, previous: OpId, id: OpId)
    | Undo(p: ProjectId, id: OpId)
    | Delete(p: ProjectId, seeds: seq<NodeId>, member: string)
    | DeleteSingle(p: ProjectId, x: NodeId, version: nat, actor: string)
    | Relate(p: ProjectId, x: NodeId, y: NodeId, relation: RelationType, xVersion: nat, yVersion: nat)
    | Replace(p: ProjectId, key: RelationKey, y: NodeId, relation: RelationType, xVersion: nat, yVersion: nat)
    | Unrelate(p: ProjectId, key: RelationKey)
    | Automatic(plan: Plan)

  function UserNode(p: ProjectId, kind: Kind, category: Category, title: string, content: string, assertion: EvidenceSpec): Node {
    Node(p, kind, category, if kind == Decision then Active else Unattached, None, None, 1,
         Some(Revision(User, "", None, [assertion], true)), User, title, content, false)
  }

  function EditNode(g: Graph, p: ProjectId, x: NodeId, title: string, content: string, member: string): Result<Graph> {
    if !Live(g, x) || g.nodes[x].project != p then Err(NotFound)
    else if !Canonical(g.nodes[x]) || g.nodes[x].mergedInto.Some? then Err(NotAvailable)
    else if g.nodes[x].revision.None? then Err(NoRevision)
    else
      var last := g.nodes[x].revision.value;
      if last.requiresEvidence && last.evidence == [] then Err(NoRevision)
      else Ok(g.(nodes := g.nodes[x := g.nodes[x].(title := title, content := content, version := g.nodes[x].version + 1, lastActor := User,
                                        revision := Some(Revision(User, member, None, last.evidence, last.requiresEvidence)))]))
  }

  function MergeByUser(g: Graph, p: ProjectId, s: NodeId, t: NodeId, sVersion: nat, tVersion: nat, id: OpId): Result<Graph> {
    if s == t then Err(SelfReference)
    else if s !in g.nodes || t !in g.nodes || g.nodes[s].project != p || g.nodes[t].project != p then Err(NotFound)
    else if g.nodes[s].version != sVersion || g.nodes[t].version != tVersion then Err(VersionConflict)
    else ApplyMerge(g, p, s, t, User, id)
  }

  /** Repeat a reverted merge against whatever its requested target resolves to now. */
  function MergeAgain(g: Graph, p: ProjectId, previous: OpId, id: OpId): Result<Graph> {
    if previous !in g.ops || g.ops[previous].project != p then Err(NotFound)
    else
      var op := g.ops[previous];
      var source := GetProjectNode(g, p, op.source);
      if source.Err? then Err(source.error)
      else if op.applied then Ok(g)
      else
        var target := Resolve(g, p, op.requested, Some(g.nodes[op.source].kind));
        if target.Err? then Err(target.error)
        else if target.value !in g.nodes then Err(NotFound)
        else ApplyMerge(g, p, op.source, target.value, User, id)
  }

  function Attempt(g: Graph, step: Step): Result<Graph> {
    match step
    case Create(p, x, kind, category, title, content, assertion) =>
      if x in g.nodes then Err(ConstraintViolation)
      else if title == "" then Err(BlankTitle)
      else Ok(g.(nodes := g.nodes[x := UserNode(p, kind, category, title, content, assertion)]))
    case Edit(p, x, title, content, member) => EditNode(g, p, x, title, content, member)
    case UserMerge(p, s, t, sVersion, tVersion, id) => MergeByUser(g, p, s, t, sVersion, tVersion, id)
    case Remerge(p, previous, id) => MergeAgain(g, p, previous, id)
    case Undo(p, id) => Unmerge(g, p, id)
    case Delete(p, seeds, member) => DeleteNodes(g, p, seeds, member)
    case DeleteSingle(p, x, version, actor) => DeleteOne(g, p, x, version, actor)
    case Relate(p, x, y, relation, xVersion, yVersion) => CreateRelation(g, p, x, y, relation, xVersion, yVersion)
    case Replace(p, key, y, relation, xVersion, yVersion) => ReplaceRelation(g, p, key, y, relation, xVersion, yVersion)
    case Unrelate(p, key) => DeleteRelation(g, p, key)
    case Automatic(plan) => Apply(plan, g)
  }

  /** A refused transaction rolls back. */
  function Perform(g: Graph, step: Step): Graph {
    var r := Attempt(g, step);
    if r.Ok? then r.value else g
  }

  /** New ids are fresh, and a single delete comes only where one level is enough. */
  ghost predicate Admissible(g: Graph, step: Step) {
    match step
    case UserMerge(_, _, _, _, _, id) => id !in g.ops
    case Remerge(_, _, id) => id !in g.ops
    case Automatic(plan) => OpsFresh(plan, g)
    case DeleteSingle(p, x, _, _) => Live(g, x) ==> OneLevelIsEnough(g, p, x)
    case _ => true
  }

  function Run(g: Graph, steps: seq<Step>): Graph
    decreases |steps|
  {
    if steps == [] then g else Run(Perform(g, steps[0]), steps[1..])
  }

  ghost predicate AdmissibleRun(g: Graph, steps: seq<Step>)
    decreases |steps|
  {
    steps == [] || (Admissible(g, steps[0]) && AdmissibleRun(Perform(g, steps[0]), steps[1..]))
  }

  lemma EditKeepsInv(g: Graph, p: ProjectId, x: NodeId, title: string, content: string, member: string)
    requires Inv(g) && EditNode(g, p, x, title, content, member).Ok?
    ensures Inv(EditNode(g, p, x, title, content, member).value)
  {
    ReviseKeepsInv(g, x, EditNode(g, p, x, title, content, member).value.nodes[x]);
  }

  lemma StepKeepsInv(g: Graph, step: Step)
    requires Inv(g) && Admissible(g, step)
    ensures Inv(Perform(g, step))
  {
    hide Inv, Apply, ApplyMerge, Unmerge, DeleteNodes, DeleteOne, OneLevelIsEnough, ApplyRelation, DeleteRelation, Resolve, CreateRelation, ReplaceRelation;
    if Attempt(g, step).Ok? {
      match step
      case Create(p, x, kind, category, title, content, assertion) =>
        InsertOneKeepsInv(g, x, UserNode(p, kind, category, title, content, assertion));
      case Edit(p, x, title, content, member) => EditKeepsInv(g, p, x, title, content, member);
      case UserMerge(p, s, t, sVersion, tVersion, id) => MergeKeepsInv(g, p, s, t, User, id);
      case Remerge(p, previous, id) =>
        if !g.ops[previous].applied {
          var op := g.ops[previous];
          MergeKeepsInv(g, p, op.source, Resolve(g, p, op.requested, Some(g.nodes[op.source].kind)).value, User, id);
        }
      case Undo(p, id) => UnmergeKeepsInv(g, p, id);
      case Delete(p, seeds, member) => DeleteKeepsInv(g, p, seeds, member);
      case DeleteSingle(p, x, version, actor) => DeleteOneKeepsInv(g, p, x, version, actor);
      case Relate(p, x, y, relation, xVersion, yVersion) => CreateRelationKeepsInv(g, p, x, y, relation, xVersion, yVersion);
      case Replace(p, key, y, relation, xVersion, yVersion) => ReplaceRelationKeepsInv(g, p, key, y, relation, xVersion, yVersion);
      case Unrelate(p, key) => DeleteRelationKeepsInv(g, p, key);
      case Automatic(plan) => ApplyKeepsInv(plan, g);
    }
  }

  /** Over every run of transactions the graph invariant holds. */
  lemma {:induction false} RunKeepsInv(g: Graph, steps: seq<Step>)
    requires Inv(g) && AdmissibleRun(g, steps)
    ensures Inv(Run(g, steps))
    decreases |steps|
  {
    hide Inv, Perform;
    if steps != [] {
      StepKeepsInv(g, steps[0]);
      RunKeepsInv(Perform(g, steps[0]), steps[1..]);
    }
  }

  /** Exactly one APPLIED operation explains a live MERGED node, and it recorded the node's pointer. */
  ghost predicate ExplainedBy(g: Graph, x: NodeId, o: OpId) {
    && x in g.nodes && Applied(g, o) && g.ops[o].source == x && g.nodes[x].mergedInto == Some(g.ops[o].resolved)
    && forall q :: Applied(g, q) && g.ops[q].source == x ==> q == o
  }

  /**
   In every reachable graph: each live MERGED node has exactly one APPLIED
   operation, whose resolved target is its pointer; following pointers from any
   live node ends at an unmerged live node of the same project and kind; and a
   live node's parent, read canonically, ranks strictly lower.
   */
  lemma ReachableGraphs(steps: seq<Step>, x: NodeId)
    requires AdmissibleRun(EMPTY_GRAPH, steps) && Live(Run(EMPTY_GRAPH, steps), x)
    ensures var g := Run(EMPTY_GRAPH, steps);
            && (g.nodes[x].state == Merged ==> exists o :: ExplainedBy(g, x, o))
            && HasChain(g, x) && Live(g, Root(g, x)) && Canonical(g.nodes[Root(g, x)])
            && g.nodes[Root(g, x)].project == g.nodes[x].project && g.nodes[Root(g, x)].kind == g.nodes[x].kind
            && (g.nodes[x].parent.Some? ==>
                  && HasChain(g, g.nodes[x].parent.value) && Live(g, Root(g, g.nodes[x].parent.value))
                  && Rank(g.nodes[Root(g, g.nodes[x].parent.value)].kind) < Rank(g.nodes[x].kind))
  {
    EmptyGraphInv();
    RunKeepsInv(EMPTY_GRAPH, steps);
    var g := Run(EMPTY_GRAPH, steps);
    RootFacts(g, x);
    if g.nodes[x].state == Merged {
      assert HasOp(g, x);
      var o :| Applied(g, o) && g.ops[o].source == x;
      assert OpOk(g, o);
      assert ExplainedBy(g, x, o);
    }
    if g.nodes[x].parent.Some? {
      CanonicalParentRank(g, x);
    }
  }

  // ----- what the remaining transactions write -----

  /** A created node is version 1, by the user, without pointers: a Decision ACTIVE, anything else UNATTACHED; its one evidence is the assertion. */
  lemma CreateExactly(g: Graph, p: ProjectId, x: NodeId, kind: Kind, category: Category, title: string, content: string, assertion: EvidenceSpec)
    ensures var r := Attempt(g, Create(p, x, kind, category, title, content, assertion));
            && (r.Ok? <==> x !in g.nodes && title != "")
            && (r.Ok? ==>
                  && r.value == g.(nodes := r.value.nodes) && r.value.nodes.Keys == g.nodes.Keys + {x}
                  && (forall y :: y in g.nodes ==> r.value.nodes[y] == g.nodes[y])
                  && var m := r.value.nodes[x];
                  && m.project == p && m.kind == kind && m.category == category && m.title == title && m.content == content
                  && m.state == (if kind == Decision then Active else Unattached) && m.parent.None? && m.mergedInto.None?
                  && m.version == 1 && m.lastActor == User && !m.needsAttention
                  && m.revision == Some(Revision(User, "", None, [assertion], true)))
  {
  }

  /** An edit writes exactly the given text, under the member's name and over the evidence the row had. */
  lemma EditExactly(g: Graph, p: ProjectId, x: NodeId, title: string, content: string, member: string)
    ensures var r := EditNode(g, p, x, title, content, member);
            && (r.Ok? <==>
                  && Live(g, x) && g.nodes[x].project == p && g.nodes[x].state != Merged && g.nodes[x].mergedInto.None?
                  && g.nodes[x].revision.Some?
                  && !(g.nodes[x].revision.value.requiresEvidence && g.nodes[x].revision.value.evidence == []))
            && (r.Ok? ==>
                  && OnlyRow(g, r.value, x) && r.value.ops == g.ops && r.value.deps == g.deps
                  && var n, m := g.nodes[x], r.value.nodes[x];
                  && m.title == title && m.content == content && m.version == n.version + 1 && m.lastActor == User
                  && m.project == n.project && m.kind == n.kind && m.category == n.category && m.state == n.state
                  && m.parent == n.parent && m.mergedInto == n.mergedInto && m.needsAttention == n.needsAttention
                  && m.revision.Some? && m.revision.value.author == User && m.revision.value.authorId == member && m.revision.value.run.None?
                  && m.revision.value.evidence == n.revision.value.evidence
                  && m.revision.value.requiresEvidence == n.revision.value.requiresEvidence)
  {
  }

  /** A user merge is the logical merge of two different nodes of the project at the versions the user saw. */
  lemma UserMergeAcceptedIff(g: Graph, p: ProjectId, s: NodeId, t: NodeId, sVersion: nat, tVersion: nat, id: OpId)
    requires ForestInv(g)
    ensures MergeByUser(g, p, s, t, sVersion, tVersion, id).Ok? <==>
            && s in g.nodes && t in g.nodes && s != t && g.nodes[s].project == p && g.nodes[t].project == p
            && g.nodes[s].version == sVersion && g.nodes[t].version == tVersion
            && Canonical(g.nodes[s]) && Live(g, t) && g.nodes[s].kind == g.nodes[t].kind
            && Depth(g, t) <= 127 && Root(g, t) != s && Root(g, t) in g.nodes
            && g.nodes[s].revision.Some? && g.nodes[Root(g, t)].revision.Some?
    ensures MergeByUser(g, p, s, t, sVersion, tVersion, id).Ok? ==>
              MergeByUser(g, p, s, t, sVersion, tVersion, id) == ApplyMerge(g, p, s, t, User, id)
  {
    if s in g.nodes && t in g.nodes {
      MergeAcceptedIff(g, p, s, t, User, id);
    }
  }

  /** Repeating an APPLIED operation changes nothing; repeating a reverted one merges its source into what its requested target stands for now. */
  lemma RemergeExactly(g: Graph, p: ProjectId, previous: OpId, id: OpId)
    requires Inv(g) && id !in g.ops && previous in g.ops && g.ops[previous].project == p && Live(g, g.ops[previous].source)
    ensures g.ops[previous].applied ==> MergeAgain(g, p, previous, id) == Ok(g)
    ensures !g.ops[previous].applied && MergeAgain(g, p, previous, id).Ok? ==>
              && HasChain(g, g.ops[previous].requested)
              && var r := Root(g, g.ops[previous].requested);
              && r in g.nodes && MergeAgain(g, p, previous, id) == ApplyMerge(g, p, g.ops[previous].source, r, User, id)
    ensures !g.ops[previous].applied ==>
              (MergeAgain(g, p, previous, id).Ok? <==>
                 var op := g.ops[previous];
                 && g.nodes[op.source].project == p && Canonical(g.nodes[op.source]) && g.nodes[op.source].revision.Some?
                 && Live(g, op.requested) && g.nodes[op.requested].project == p && g.nodes[op.requested].kind == g.nodes[op.source].kind
                 && Depth(g, op.requested) <= 127 && Root(g, op.requested) != op.source
                 && Root(g, op.requested) in g.nodes && g.nodes[Root(g, op.requested)].revision.Some?)
  {
    var op := g.ops[previous];
    assert OpOk(g, previous);
    ResolveExactly(g, p, op.requested, Some(g.nodes[op.source].kind));
    if Resolve(g, p, op.requested, Some(g.nodes[op.source].kind)).Ok? {
      ResolveOk(g, p, op.requested, Some(g.nodes[op.source].kind));
      var r := Root(g, op.requested);
      MergeAcceptedIff(g, p, op.source, r, User, id);
      RootOfRoot(g, r);
    }
  }

  lemma RootOfRoot(g: Graph, r: NodeId)
    requires Live(g, r) && g.nodes[r].mergedInto.None?
    ensures HasChain(g, r) && Root(g, r) == r && Depth(g, r) == 0
  {
    assert IsChain(g, [r]);
    ChainIs(g, [r]);
  }

  // ----- merges survive in the log, and merged rows stay as they are -----

  /** Recorded operations keep all their fields; the only change is from APPLIED to REVERTED. */
  ghost predicate LogStep(g: Graph, h: Graph) {
    forall o :: o in g.ops ==> o in h.ops && (h.ops[o] == g.ops[o] || h.ops[o] == g.ops[o].(applied := false))
  }

  lemma StepKeepsLog(g: Graph, step: Step)
    requires Inv(g) && Admissible(g, step)
    ensures LogStep(g, Perform(g, step))
  {
    hide Inv, Apply, ApplyMerge, Unmerge, DeleteNodes, DeleteOne, OneLevelIsEnough, ApplyRelation, DeleteRelation, Resolve, CreateRelation,
      ReplaceRelation, MergeByUser, MergeAgain, EditNode, OpsFresh;
    if Attempt(g, step).Ok? {
      match step
      case Create(p, x, kind, category, title, content, assertion) =>
      case Edit(p, x, title, content, member) => EditExactly(g, p, x, title, content, member);
      case UserMerge(p, s, t, sVersion, tVersion, id) => UserMergeLogs(g, p, s, t, sVersion, tVersion, id);
      case Remerge(p, previous, id) => RemergeLogs(g, p, previous, id);
      case Undo(p, id) => UndoLogs(g, p, id);
      case Delete(p, seeds, member) => DeleteRows(g, p, seeds, member);
      case DeleteSingle(p, x, version, actor) => DeleteOneRows(g, p, x, version, actor);
      case Relate(p, x, y, relation, xVersion, yVersion) => RelateRows(g, p, x, y, relation, xVersion, yVersion);
      case Replace(p, key, y, relation, xVersion, yVersion) => ReplaceExactly(g, p, key, y, relation, xVersion, yVersion);
      case Unrelate(p, key) => DetachExactly(g, p, key);
      case Automatic(plan) => AutomaticLogs(plan, g);
    }
  }

  lemma UserMergeLogs(g: Graph, p: ProjectId, s: NodeId, t: NodeId, sVersion: nat, tVersion: nat, id: OpId)
    requires Inv(g) && id !in g.ops && MergeByUser(g, p, s, t, sVersion, tVersion, id).Ok?
    ensures var h := MergeByUser(g, p, s, t, sVersion, tVersion, id).value;
            LogStep(g, h) && s in g.nodes && Canonical(g.nodes[s]) && OnlyRow(g, h, s)
  {
    UserMergeAcceptedIff(g, p, s, t, sVersion, tVersion, id);
    MergeExactly(g, p, s, t, User, id);
    hide Inv, ApplyMerge;
  }

  lemma RemergeLogs(g: Graph, p: ProjectId, previous: OpId, id: OpId)
    requires Inv(g) && id !in g.ops && MergeAgain(g, p, previous, id).Ok?
    ensures var h := MergeAgain(g, p, previous, id).value;
            LogStep(g, h) && (h == g || (previous in g.ops && var s := g.ops[previous].source; s in g.nodes && Canonical(g.nodes[s]) && OnlyRow(g, h, s)))
  {
    if !g.ops[previous].applied {
      var op := g.ops[previous];
      RemergeExactly(g, p, previous, id);
      var r := Root(g, op.requested);
      MergeExactly(g, p, op.source, r, User, id);
    }
    hide Inv, ApplyMerge;
  }

  lemma UndoLogs(g: Graph, p: ProjectId, id: OpId)
    requires Inv(g) && Unmerge(g, p, id).Ok?
    ensures LogStep(g, Unmerge(g, p, id).value)
  {
    if Applied(g, id) {
      UndoExactly(g, p, id);
    } else {
      UndoOfReverted(g, p, id);
    }
    hide Inv, Unmerge;
  }

  lemma DeleteRows(g: Graph, p: ProjectId, seeds: seq<NodeId>, member: string)
    requires Inv(g) && DeleteNodes(g, p, seeds, member).Ok?
    ensures var h := DeleteNodes(g, p, seeds, member).value;
            LogStep(g, h) && forall x :: x in g.nodes ==> x in h.nodes && (h.nodes[x] == g.nodes[x] || h.nodes[x].state == Deleted)
  {
    InvRefsLive(g);
    DeleteExactly(g, p, seeds, member);
    hide Inv, DeleteNodes;
  }

  lemma DeleteOneRows(g: Graph, p: ProjectId, x: NodeId, version: nat, actor: string)
    requires Inv(g) && DeleteOne(g, p, x, version, actor).Ok?
    ensures var h := DeleteOne(g, p, x, version, actor).value;
            LogStep(g, h) && forall y :: y in g.nodes ==> y in h.nodes && (h.nodes[y] == g.nodes[y] || h.nodes[y].state == Deleted)
  {
    DeleteOneAcceptedIff(g, p, x, version, actor);
    if Live(g, x) {
      DeleteOneExactly(g, p, x, version, actor);
    }
    hide Inv, DeleteOne;
  }

  lemma RelateRows(g: Graph, p: ProjectId, x: NodeId, y: NodeId, kind: RelationType, xVersion: nat, yVersion: nat)
    requires Inv(g) && CreateRelation(g, p, x, y, kind, xVersion, yVersion).Ok?
    ensures var h := CreateRelation(g, p, x, y, kind, xVersion, yVersion).value;
            LogStep(g, h) && Live(g, x) && g.nodes[x].state != Merged && OnlyRow(g, h.(relations := g.relations), x)
  {
    GraphRelations.CreateExactly(g, p, x, y, kind, xVersion, yVersion);
    if kind == AttachedTo {
      AttachExactly(g, p, x, y);
    } else {
      PlainExactly(g, p, x, y, kind);
    }
    hide Inv, Resolve;
  }

  /** A first apply that commits; a replay changes nothing. */
  lemma AutomaticLogs(plan: Plan, g: Graph)
    requires Inv(g) && OpsFresh(plan, g) && Apply(plan, g).Ok?
    ensures LogStep(g, Apply(plan, g).value)
  {
    if plan.run !in g.published {
      hide Apply;
      ApplyKeepsLogged(plan, g);
    }
  }

  lemma {:induction false} RunKeepsLog(g: Graph, steps: seq<Step>)
    requires Inv(g) && AdmissibleRun(g, steps)
    ensures LogStep(g, Run(g, steps))
    decreases |steps|
  {
    hide Inv, Perform, Admissible;
    if steps != [] {
      StepKeepsInv(g, steps[0]);
      StepKeepsLog(g, steps[0]);
      RunKeepsLog(Perform(g, steps[0]), steps[1..]);
    }
  }

  /** A row that is MERGED under an operation that stays APPLIED is not touched by any transaction but a delete; and the dead stay dead. */
  ghost predicate MergedRowKept(g: Graph, h: Graph, id: OpId)
    requires id in g.ops
  {
    var s := g.ops[id].source;
    && s in g.nodes && s in h.nodes
    && (!Live(g, s) ==> !Live(h, s))
    && (Live(g, s) && Applied(g, id) && Applied(h, id) ==> h.nodes[s] == g.nodes[s] || h.nodes[s].state == Deleted)
  }

  /** What an APPLIED operation says about its source. */
  lemma SourceIsMerged(g: Graph, id: OpId)
    requires Inv(g) && id in g.ops
    ensures g.ops[id].source in g.nodes && g.ops[id].resolved in g.nodes
    ensures Applied(g, id) && Live(g, g.ops[id].source) ==> g.nodes[g.ops[id].source].state == Merged
    ensures forall q :: Applied(g, id) && Applied(g, q) && g.ops[q].source == g.ops[id].source ==> q == id
  {
    assert OpOk(g, id);
    if Live(g, g.ops[id].source) {
      assert NodeShape(g.nodes[g.ops[id].source]);
    }
  }

  lemma OtherRowKept(g: Graph, h: Graph, x: NodeId, id: OpId)
    requires Inv(g) && id in g.ops && Live(g, x) && g.nodes[x].state != Merged && OnlyRow(g, h.(relations := g.relations), x)
    ensures MergedRowKept(g, h, id)
  {
    SourceIsMerged(g, id);
    hide Inv;
  }

  lemma DeadRowKept(g: Graph, h: Graph, id: OpId)
    requires Inv(g) && id in g.ops
    requires forall x :: x in g.nodes ==> x in h.nodes && (h.nodes[x] == g.nodes[x] || h.nodes[x].state == Deleted)
    ensures MergedRowKept(g, h, id)
  {
    SourceIsMerged(g, id);
    hide Inv;
  }

  lemma EditKeepsMerged(g: Graph, p: ProjectId, x: NodeId, title: string, content: string, member: string, id: OpId)
    requires Inv(g) && id in g.ops && EditNode(g, p, x, title, content, member).Ok?
    ensures MergedRowKept(g, EditNode(g, p, x, title, content, member).value, id)
  {
    EditExactly(g, p, x, title, content, member);
    hide Inv, EditNode;
    var h := EditNode(g, p, x, title, content, member).value;
    assert OnlyRow(g, h.(relations := g.relations), x);
    OtherRowKept(g, h, x, id);
  }

  lemma UserMergeKeepsMerged(g: Graph, p: ProjectId, s: NodeId, t: NodeId, sVersion: nat, tVersion: nat, q: OpId, id: OpId)
    requires Inv(g) && q !in g.ops && id in g.ops && MergeByUser(g, p, s, t, sVersion, tVersion, q).Ok?
    ensures MergedRowKept(g, MergeByUser(g, p, s, t, sVersion, tVersion, q).value, id)
  {
    hide Inv, MergeByUser;
    UserMergeLogs(g, p, s, t, sVersion, tVersion, q);
    var h := MergeByUser(g, p, s, t, sVersion, tVersion, q).value;
    assert OnlyRow(g, h.(relations := g.relations), s);
    OtherRowKept(g, h, s, id);
  }

  lemma RemergeKeepsMerged(g: Graph, p: ProjectId, previous: OpId, q: OpId, id: OpId)
    requires Inv(g) && q !in g.ops && id in g.ops && MergeAgain(g, p, previous, q).Ok?
    ensures MergedRowKept(g, MergeAgain(g, p, previous, q).value, id)
  {
    hide Inv, MergeAgain;
    RemergeLogs(g, p, previous, q);
    var h := MergeAgain(g, p, previous, q).value;
    if h == g {
      DeadRowKept(g, h, id);
    } else {
      assert OnlyRow(g, h.(relations := g.relations), g.ops[previous].source);
      OtherRowKept(g, h, g.ops[previous].source, id);
    }
  }

  lemma UnrelateKeepsMerged(g: Graph, p: ProjectId, k: RelationKey, id: OpId)
    requires Inv(g) && id in g.ops && DeleteRelation(g, p, k).Ok?
    ensures MergedRowKept(g, DeleteRelation(g, p, k).value, id)
  {
    hide Inv, DeleteRelation;
    DetachKeepsMerged(g, p, k);
    var h := DeleteRelation(g, p, k).value;
    if h.nodes == g.nodes {
      DeadRowKept(g, h, id);
    } else {
      OtherRowKept(g, h, k.source, id);
    }
  }

  lemma ApplyKeepsMerged(plan: Plan, g: Graph, id: OpId)
    requires Inv(g) && id in g.ops && OpsFresh(plan, g) && Apply(plan, g).Ok?
    ensures MergedRowKept(g, Apply(plan, g).value, id)
  {
    hide Inv, Apply, OpsFresh;
    SourceIsMerged(g, id);
    AutomaticKeepsMerged(plan, g, g.ops[id].source);
  }

  lemma DeleteKeepsMerged(g: Graph, p: ProjectId, seeds: seq<NodeId>, member: string, id: OpId)
    requires Inv(g) && id in g.ops && DeleteNodes(g, p, seeds, member).Ok?
    ensures MergedRowKept(g, DeleteNodes(g, p, seeds, member).value, id)
  {
    hide Inv, DeleteNodes, MergedRowKept;
    DeleteRows(g, p, seeds, member);
    DeadRowKept(g, DeleteNodes(g, p, seeds, member).value, id);
  }

  lemma DeleteOneKeepsMerged(g: Graph, p: ProjectId, x: NodeId, version: nat, actor: string, id: OpId)
    requires Inv(g) && id in g.ops && DeleteOne(g, p, x, version, actor).Ok?
    ensures MergedRowKept(g, DeleteOne(g, p, x, version, actor).value, id)
  {
    hide Inv, DeleteOne, MergedRowKept;
    DeleteOneRows(g, p, x, version, actor);
    DeadRowKept(g, DeleteOne(g, p, x, version, actor).value, id);
  }

  lemma RelateKeepsMerged(g: Graph, p: ProjectId, x: NodeId, y: NodeId, kind: RelationType, xVersion: nat, yVersion: nat, id: OpId)
    requires Inv(g) && id in g.ops && CreateRelation(g, p, x, y, kind, xVersion, yVersion).Ok?
    ensures MergedRowKept(g, CreateRelation(g, p, x, y, kind, xVersion, yVersion).value, id)
  {
    hide Inv, CreateRelation, MergedRowKept;
    RelateRows(g, p, x, y, kind, xVersion, yVersion);
    OtherRowKept(g, CreateRelation(g, p, x, y, kind, xVersion, yVersion).value, x, id);
  }

  lemma ReplaceRowKept(g: Graph, p: ProjectId, k: RelationKey, y: NodeId, kind: RelationType, xVersion: nat, yVersion: nat, id: OpId)
    requires Inv(g) && id in g.ops && ReplaceRelation(g, p, k, y, kind, xVersion, yVersion).Ok?
    ensures MergedRowKept(g, ReplaceRelation(g, p, k, y, kind, xVersion, yVersion).value, id)
  {
    hide Inv, ReplaceRelation, MergedRowKept;
    ReplaceKeepsMerged(g, p, k, y, kind, xVersion, yVersion);
    OtherRowKept(g, ReplaceRelation(g, p, k, y, kind, xVersion, yVersion).value, k.source, id);
  }

  lemma StepKeepsMergedRow(g: Graph, step: Step, id: OpId)
    requires Inv(g) && Admissible(g, step) && id in g.ops
    ensures MergedRowKept(g, Perform(g, step), id)
  {
    hide Inv, Apply, ApplyMerge, Unmerge, DeleteNodes, DeleteOne, OneLevelIsEnough, ApplyRelation, DeleteRelation, Resolve, CreateRelation,
      ReplaceRelation, MergeByUser, MergeAgain, EditNode, OpsFresh, LogStep, MergedRowKept, UserNode;
    if Attempt(g, step).Ok? {
      match step
      case Create(p, x, kind, category, title, content, assertion) => DeadRowKept(g, Attempt(g, step).value, id);
      case Edit(p, x, title, content, member) => EditKeepsMerged(g, p, x, title, content, member, id);
      case UserMerge(p, s, t, sVersion, tVersion, q) => UserMergeKeepsMerged(g, p, s, t, sVersion, tVersion, q, id);
      case Remerge(p, previous, q) => RemergeKeepsMerged(g, p, previous, q, id);
      case Undo(p, q) => UndoKeepsOthers(g, p, q, id);
      case Delete(p, seeds, member) => DeleteKeepsMerged(g, p, seeds, member, id);
      case DeleteSingle(p, x, version, actor) => DeleteOneKeepsMerged(g, p, x, version, actor, id);
      case Relate(p, x, y, relation, xVersion, yVersion) => RelateKeepsMerged(g, p, x, y, relation, xVersion, yVersion, id);
      case Replace(p, key, y, relation, xVersion, yVersion) => ReplaceRowKept(g, p, key, y, relation, xVersion, yVersion, id);
      case Unrelate(p, key) => UnrelateKeepsMerged(g, p, key, id);
      case Automatic(plan) => ApplyKeepsMerged(plan, g, id);
    } else {
      DeadRowKept(g, g, id);
    }
  }

  lemma UndoKeepsOthers(g: Graph, p: ProjectId, q: OpId, id: OpId)
    requires Inv(g) && id in g.ops && Unmerge(g, p, q).Ok?
    ensures MergedRowKept(g, Unmerge(g, p, q).value, id)
  {
    SourceIsMerged(g, id);
    if Applied(g, q) {
      UndoExactly(g, p, q);
      UnmergeAcceptedIff(g, p, q);
    } else {
      UndoOfReverted(g, p, q);
    }
    hide Inv, Unmerge;
  }

  lemma ReplaceKeepsMerged(g: Graph, p: ProjectId, k: RelationKey, y: NodeId, kind: RelationType, xVersion: nat, yVersion: nat)
    requires Inv(g) && ReplaceRelation(g, p, k, y, kind, xVersion, yVersion).Ok?
    ensures var h := ReplaceRelation(g, p, k, y, kind, xVersion, yVersion).value;
            Live(g, k.source) && g.nodes[k.source].state != Merged && OnlyRow(g, h.(relations := g.relations), k.source)
  {
    ReplaceExactly(g, p, k, y, kind, xVersion, yVersion);
    assert g.nodes[k.source].state != Merged;
    hide Inv, ApplyRelation, ReplaceRelation;
  }

  lemma DetachKeepsMerged(g: Graph, p: ProjectId, k: RelationKey)
    requires Inv(g) && DeleteRelation(g, p, k).Ok?
    ensures var h := DeleteRelation(g, p, k).value;
            h.nodes == g.nodes || (Live(g, k.source) && g.nodes[k.source].state != Merged && OnlyRow(g, h.(relations := g.relations), k.source))
  {
    DetachExactly(g, p, k);
    if Open(g, k) {
      DeleteRelationRefusedIff(g, p, k);
      assert Live(g, k.source);
    }
    hide Inv, DeleteRelation;
  }

  lemma AutomaticKeepsMerged(plan: Plan, g: Graph, s: NodeId)
    requires Inv(g) && OpsFresh(plan, g) && Apply(plan, g).Ok? && s in g.nodes
    ensures var h := Apply(plan, g).value;
            s in h.nodes && (h.nodes[s].state == g.nodes[s].state) && (g.nodes[s].state == Merged ==> h.nodes[s] == g.nodes[s])
  {
    if plan.run !in g.published {
      hide Apply;
      StoredRowsExactly(plan, g, s);
      if g.nodes[s].state == Merged {
        MergedAbsorbsNothing(plan, g, s);
      }
    }
  }

  lemma MergedAbsorbsNothing(plan: Plan, g: Graph, s: NodeId)
    requires Commits(plan, g) && s in Apply(plan, g).value.nodes && Apply(plan, g).value.nodes[s].state == Merged
    ensures |Absorbers(plan, Apply(plan, g).value, s, |plan.items|)| == 0
  {
    var h := Apply(plan, g).value;
    hide Apply;
    forall j
      ensures !MergedTo(plan, h, j, s)
    {
      if 0 <= j < |plan.items| {
        ApplyOutcomes(plan, g, j);
        assert Outcome(plan, h, j);
      }
    }
    AbsorbersAre(plan, h, s);
  }

  lemma {:induction false} RunKeepsMergedRow(g: Graph, steps: seq<Step>, id: OpId)
    requires Inv(g) && AdmissibleRun(g, steps) && id in g.ops
    ensures MergedRowKept(g, Run(g, steps), id)
    decreases |steps|
  {
    hide Inv, Perform, Admissible;
    if steps != [] {
      var h := Perform(g, steps[0]);
      StepKeepsInv(g, steps[0]);
      StepKeepsLog(g, steps[0]);
      StepKeepsMergedRow(g, steps[0], id);
      RunKeepsLog(h, steps[1..]);
      RunKeepsMergedRow(h, steps[1..], id);
      hide Run, AdmissibleRun;
      MergedRowsChain(g, h, Run(h, steps[1..]), id);
    } else {
      DeadRowKept(g, g, id);
    }
  }

  lemma MergedRowsChain(g: Graph, h: Graph, k: Graph, id: OpId)
    requires id in g.ops && id in h.ops && LogStep(g, h) && LogStep(h, k) && MergedRowKept(g, h, id) && MergedRowKept(h, k, id)
    ensures MergedRowKept(g, k, id)
  {
  }

  /**
   Merge, then any transactions at all, then undo: if the undo is accepted the
   source is exactly what it was before the merge, two versions on and last
   touched by the user, and it is flagged for attention exactly if it already was
   or the target's version is no longer the one at the merge.
   */
  lemma UndoAfterRun(g: Graph, p: ProjectId, s: NodeId, t: NodeId, actor: Actor, id: OpId, steps: seq<Step>)
    requires Inv(g) && s in g.nodes && t in g.nodes && id !in g.ops && ApplyMerge(g, p, s, t, actor, id).Ok?
    requires AdmissibleRun(ApplyMerge(g, p, s, t, actor, id).value, steps)
    requires var h := Run(ApplyMerge(g, p, s, t, actor, id).value, steps); Applied(h, id) && Unmerge(h, p, id).Ok?
    ensures HasChain(g, t)
    ensures var h := Run(ApplyMerge(g, p, s, t, actor, id).value, steps);
            var u, r := Unmerge(h, p, id).value, Root(g, t);
            && s in u.nodes && r in h.nodes && r in g.nodes
            && var n, m := g.nodes[s], u.nodes[s];
            && (m.needsAttention <==> n.needsAttention || h.nodes[r].version != g.nodes[r].version)
            && m == n.(version := n.version + 2, lastActor := User, needsAttention := m.needsAttention)
  {
    MergeExactly(g, p, s, t, actor, id);
    var g1 := ApplyMerge(g, p, s, t, actor, id).value;
    var h := Run(g1, steps);
    MergeKeepsInv(g, p, s, t, actor, id);
    hide Inv, ApplyMerge, Unmerge, Run, AdmissibleRun;
    MergedThenRun(g1, steps, p, id);
    UndoExactly(h, p, id);
    hide OnlyRow;
  }

  /** A merged row at the end of a run whose undo would be accepted is the row the merge left. */
  lemma MergedThenRun(g: Graph, steps: seq<Step>, p: ProjectId, id: OpId)
    requires Inv(g) && Applied(g, id) && Live(g, g.ops[id].source) && AdmissibleRun(g, steps)
    requires Applied(Run(g, steps), id) && Unmerge(Run(g, steps), p, id).Ok?
    ensures var h := Run(g, steps);
            && Inv(h) && h.ops[id] == g.ops[id]
            && g.ops[id].source in g.nodes && g.ops[id].source in h.nodes && g.ops[id].resolved in h.nodes
            && h.nodes[g.ops[id].source] == g.nodes[g.ops[id].source]
  {
    var h := Run(g, steps);
    hide Inv, Unmerge, Run, AdmissibleRun;
    RunKeepsInv(g, steps);
    RunKeepsLog(g, steps);
    RunKeepsMergedRow(g, steps, id);
    SourceIsMerged(h, id);
    UndoNeedsLive(h, p, id);
  }

  lemma UndoNeedsLive(g: Graph, p: ProjectId, id: OpId)
    requires Inv(g) && Applied(g, id) && Unmerge(g, p, id).Ok?
    ensures Live(g, g.ops[id].source)
  {
  }
}

/**
 The project graph: node, merge-operation, dependency and relation rows, the
 chains formed by the merge redirects, and the invariant that every committed
 transaction keeps.

 A node carries two pointers: `parent` (structure) and `mergedInto` (redirect of
 a logically merged duplicate).  Rows are never removed: a deleted node stays as
 a DELETED row, a reverted merge stays as a REVERTED operation row.
 */
module GraphModel {
  import opened Options

  type NodeId = nat
  type OpId = nat
  type ProjectId = nat
  type RunId = nat
  type Category = nat

  datatype Kind = Decision | Action | Issue

  datatype GraphState = Active | Unattached | Merged | Deleted

  datatype Actor = System | User | Legacy

  // `key` stands for the immutable evidence hash; `support` is not hashed.
  datatype EvidenceSpec = EvidenceSpec(key: nat, support: nat)

  datatype Revision = Revision(
    author: Actor,
    authorId: string,
    run: Option<RunId>,
    evidence: seq<EvidenceSpec>,
    requiresEvidence: bool)

  datatype Node = Node(
    project: ProjectId,
    kind: Kind,
    category: Category,
    state: GraphState,
    parent: Option<NodeId>,
    mergedInto: Option<NodeId>,
    version: nat,
    revision: Option<Revision>,
    lastActor: Actor,
    title: string,
    content: string,
    needsAttention: bool)

  datatype MergeOp = MergeOp(
    project: ProjectId,
    source: NodeId,
    requested: NodeId,
    resolved: NodeId,
    sourceVersion: nat,
    targetVersion: nat,
    originalState: GraphState,
    applied: bool)

  datatype RelationType = AttachedTo | RelatedTo | Same | Reverses | Follows | ResolvedBy

  // A relation row is identified by its unique key; `open` is CONFIRMED without an end date.
  datatype RelationKey = RelationKey(project: ProjectId, source: NodeId, target: NodeId, kind: RelationType)

  datatype Graph = Graph(
    nodes: map<NodeId, Node>,
    ops: map<OpId, MergeOp>,
    deps: set<(OpId, OpId)>,
    relations: map<RelationKey, bool>,
    published: set<RunId>)

  datatype Error =
    | NotFound
    | OtherProject
    | MergeCycle
    | TypeChange
    | StrayMergePointer
    | NotAvailable
    | MissingMergeTarget
    | CrossesProject
    | DanglingMergePointer
    | HopLimit
    | SelfReference
    | NoRevision
    | WouldCycle
    | VersionConflict
    | DependentMergeFirst
    | SourceMismatch
    | NoEvidence
    | DanglingReference
    | InvalidParent
    | ParentCycle
    | ParentBoundary
    | ConstraintViolation
    | NotUnattachedLeaf
    | HasChildren
    | TargetNotActive
    | BlankTitle
    | NoDecision
    | NoRetrievalRow
    | TargetDisappeared
    | PartialMerge

  datatype Result<+T> = Ok(value: T) | Err(error: Error)

  /** Decision < Action < Issue: the order in which a parent may own a child. */
  function Rank(k: Kind): nat {
    match k
    case Decision => 0
    case Action => 1
    case Issue => 2
  }

  /** The type half of the parent rule, as the relation and link code spells it. */
  predicate AllowedParent(child: Kind, parent: Kind) {
    match child
    case Decision => false
    case Action => parent == Decision
    case Issue => parent == Decision || parent == Action
  }

  predicate Live(g: Graph, x: NodeId) {
    x in g.nodes && g.nodes[x].state != Deleted
  }

  predicate Canonical(n: Node) {
    n.state == Active || n.state == Unattached
  }

  // ----- chains of merge redirects -----

  /** `c` follows live merge pointers one by one and stops at a node without one. */
  ghost predicate IsChain(g: Graph, c: seq<NodeId>)
    decreases |c|
  {
    && |c| > 0
    && Live(g, c[0])
    && if |c| == 1 then g.nodes[c[0]].mergedInto.None?
       else g.nodes[c[0]].mergedInto == Some(c[1]) && IsChain(g, c[1..])
  }

  ghost predicate HasChain(g: Graph, x: NodeId) {
    exists c :: IsChain(g, c) && c[0] == x
  }

  ghost function Chain(g: Graph, x: NodeId): (c: seq<NodeId>)
    requires HasChain(g, x)
    ensures IsChain(g, c) && c[0] == x
  {
    var c :| IsChain(g, c) && c[0] == x;
    c
  }

  ghost function Root(g: Graph, x: NodeId): NodeId
    requires HasChain(g, x)
  {
    var c := Chain(g, x);
    c[|c| - 1]
  }

  ghost function Depth(g: Graph, x: NodeId): nat
    requires HasChain(g, x)
  {
    |Chain(g, x)| - 1
  }

  /** The pointer is a function, so a node has at most one chain. */
  lemma {:induction false} ChainUnique(g: Graph, c: seq<NodeId>, d: seq<NodeId>)
    requires IsChain(g, c) && IsChain(g, d) && c[0] == d[0]
    ensures c == d
    decreases |c|
  {
    if |c| > 1 {
      ChainUnique(g, c[1..], d[1..]);
      assert c == [c[0]] + c[1..] && d == [d[0]] + d[1..];
    }
  }

  lemma {:induction false} ChainDrop(g: Graph, c: seq<NodeId>, i: nat)
    requires IsChain(g, c) && i < |c|
    ensures IsChain(g, c[i..])
    decreases i
  {
    if i > 0 {
      ChainDrop(g, c[1..], i - 1);
      assert c[1..][i - 1..] == c[i..];
    } else {
      assert c[0..] == c;
    }
  }

  /** A chain never visits a node twice: the merge pointers on it form no cycle. */
  lemma ChainDistinct(g: Graph, c: seq<NodeId>)
    requires IsChain(g, c)
    ensures forall i, j :: 0 <= i < j < |c| ==> c[i] != c[j]
  {
    forall i, j | 0 <= i < j < |c|
      ensures c[i] != c[j]
    {
      ChainDrop(g, c, i);
      ChainDrop(g, c, j);
      if c[i] == c[j] {
        ChainUnique(g, c[i..], c[j..]);
        assert false;
      }
    }
  }

  lemma ChainIs(g: Graph, c: seq<NodeId>)
    requires IsChain(g, c)
    ensures HasChain(g, c[0]) && Chain(g, c[0]) == c
    ensures Root(g, c[0]) == c[|c| - 1] && Depth(g, c[0]) == |c| - 1
  {
    assert HasChain(g, c[0]);
    ChainUnique(g, c, Chain(g, c[0]));
  }

  /** Every node of a chain is live and shares the root of the chain. */
  lemma ChainMembers(g: Graph, c: seq<NodeId>, i: nat)
    requires IsChain(g, c) && i < |c|
    ensures Live(g, c[i]) && HasChain(g, c[i]) && Root(g, c[i]) == c[|c| - 1]
    ensures g.nodes[c[i]].mergedInto == if i == |c| - 1 then None else Some(c[i + 1])
  {
    ChainDrop(g, c, i);
    ChainIs(g, c[i..]);
  }

  // ----- the invariant -----

  predicate NodeShape(n: Node) {
    && (n.state == Merged <==> n.mergedInto.Some?)
    && (n.state == Unattached ==> n.parent.None?)
    && (n.kind == Decision ==> n.parent.None?)
    && (n.state == Active && n.kind != Decision ==> n.parent.Some?)
    && (n.revision.Some? && n.revision.value.requiresEvidence ==> n.revision.value.evidence != [])
  }

  ghost predicate ShapesOk(g: Graph) {
    forall x :: x in g.nodes ==> NodeShape(g.nodes[x])
  }

  predicate PointerOk(g: Graph, x: NodeId)
    requires x in g.nodes
  {
    g.nodes[x].mergedInto.Some? ==>
      && Live(g, g.nodes[x].mergedInto.value)
      && g.nodes[g.nodes[x].mergedInto.value].project == g.nodes[x].project
      && g.nodes[g.nodes[x].mergedInto.value].kind == g.nodes[x].kind
  }

  ghost predicate PointersOk(g: Graph) {
    forall x :: Live(g, x) ==> PointerOk(g, x)
  }

  predicate ParentOk(g: Graph, x: NodeId)
    requires x in g.nodes
  {
    g.nodes[x].parent.Some? ==>
      && Live(g, g.nodes[x].parent.value)
      && g.nodes[g.nodes[x].parent.value].project == g.nodes[x].project
      && Rank(g.nodes[g.nodes[x].parent.value].kind) < Rank(g.nodes[x].kind)
  }

  ghost predicate ParentsOk(g: Graph) {
    forall x :: Live(g, x) ==> ParentOk(g, x)
  }

  ghost predicate Acyclic(g: Graph) {
    forall x :: Live(g, x) ==> HasChain(g, x)
  }

  predicate Applied(g: Graph, o: OpId) {
    o in g.ops && g.ops[o].applied
  }

  predicate OpOk(g: Graph, o: OpId)
    requires o in g.ops
  {
    var op := g.ops[o];
    && op.source in g.nodes && op.resolved in g.nodes
    && g.nodes[op.source].project == op.project
    && g.nodes[op.resolved].project == op.project
    && (op.originalState == Active || op.originalState == Unattached)
    && (op.applied && Live(g, op.source) ==>
          && g.nodes[op.source].mergedInto == Some(op.resolved)
          && (op.originalState == Unattached ==> g.nodes[op.source].parent.None?)
          && (op.originalState == Active && g.nodes[op.source].kind != Decision
              ==> g.nodes[op.source].parent.Some?))
  }

  ghost predicate OpsOk(g: Graph) {
    forall o :: o in g.ops ==> OpOk(g, o)
  }

  /** At most one APPLIED operation has a given source, live or deleted. */
  ghost predicate OneOpPerSource(g: Graph) {
    forall o, q :: Applied(g, o) && Applied(g, q) && g.ops[o].source == g.ops[q].source ==> o == q
  }

  ghost predicate HasOp(g: Graph, x: NodeId) {
    exists o :: Applied(g, o) && g.ops[o].source == x
  }

  /** Every live MERGED node is explained by an APPLIED operation. */
  ghost predicate MergedHaveOps(g: Graph) {
    forall x :: Live(g, x) && g.nodes[x].state == Merged ==> HasOp(g, x)
  }

  /** Whenever o merged away the node that p merged into, o is recorded as depending on p. */
  ghost predicate DepsRecorded(g: Graph) {
    forall o, p :: Applied(g, o) && Applied(g, p) && g.ops[p].resolved == g.ops[o].source ==> (o, p) in g.deps
  }

  ghost predicate DepsSound(g: Graph) {
    forall o, p :: (o, p) in g.deps ==> o in g.ops && p in g.ops && g.ops[p].resolved == g.ops[o].source
  }

  predicate Open(g: Graph, k: RelationKey) {
    k in g.relations && g.relations[k]
  }

  ghost predicate RelationsOk(g: Graph) {
    forall k :: Open(g, k) ==>
      && Live(g, k.source) && Live(g, k.target) && k.source != k.target
      && g.nodes[k.source].project == k.project && g.nodes[k.target].project == k.project
  }

  predicate SameChildAttachment(k: RelationKey, l: RelationKey) {
    k.kind == AttachedTo && l.kind == AttachedTo && k.source == l.source
  }

  /** A child has at most one open ATTACHED_TO relation. */
  ghost predicate OneParentRelation(g: Graph) {
    forall k, l :: Open(g, k) && Open(g, l) && SameChildAttachment(k, l) ==> k == l
  }

  /** Only published generation runs have authored revisions. */
  ghost predicate RunsOk(g: Graph) {
    forall x :: x in g.nodes && g.nodes[x].revision.Some? && g.nodes[x].revision.value.run.Some?
      ==> g.nodes[x].revision.value.run.value in g.published
  }

  ghost predicate ForestInv(g: Graph) {
    && ShapesOk(g) && PointersOk(g) && Acyclic(g)
  }

  ghost predicate UndoInv(g: Graph) {
    && OpsOk(g) && OneOpPerSource(g) && MergedHaveOps(g) && DepsRecorded(g) && DepsSound(g)
  }

  ghost predicate Inv(g: Graph) {
    && ForestInv(g)
    && ParentsOk(g)
    && UndoInv(g)
    && RelationsOk(g) && OneParentRelation(g)
    && RunsOk(g)
  }

  const EMPTY_GRAPH: Graph := Graph(map[], map[], {}, map[], {})

  lemma EmptyGraphInv()
    ensures Inv(EMPTY_GRAPH)
  {
  }

  /** All nodes of a chain have the project and the kind of its first node. */
  lemma {:induction false} ChainHomogeneous(g: Graph, c: seq<NodeId>, i: nat)
    requires PointersOk(g) && IsChain(g, c) && i < |c|
    ensures Live(g, c[i])
    ensures g.nodes[c[i]].project == g.nodes[c[0]].project && g.nodes[c[i]].kind == g.nodes[c[0]].kind
    decreases i
  {
    if i > 0 {
      assert PointerOk(g, c[0]);
      ChainHomogeneous(g, c[1..], i - 1);
    }
  }

  /** The root of a live node is live, canonical, and of the same project and kind. */
  lemma RootFacts(g: Graph, x: NodeId)
    requires ForestInv(g) && Live(g, x)
    ensures HasChain(g, x)
    ensures Live(g, Root(g, x)) && Canonical(g.nodes[Root(g, x)])
    ensures g.nodes[Root(g, x)].mergedInto.None?
    ensures g.nodes[Root(g, x)].project == g.nodes[x].project
    ensures g.nodes[Root(g, x)].kind == g.nodes[x].kind
  {
    var c := Chain(g, x);
    ChainHomogeneous(g, c, |c| - 1);
    ChainMembers(g, c, |c| - 1);
  }
}

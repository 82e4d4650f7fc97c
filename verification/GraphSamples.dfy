/** Runs from the empty graph that reach the failures which the exact conditions describe. */
module GraphSamples {
  import opened Options
  import opened GraphModel
  import opened GraphResolve
  import opened GraphMerge
  import opened GraphDelete
  import opened GraphRelations
  import opened UserDelete
  import opened GraphRuns

  lemma RunCons(g: Graph, s: Step, rest: seq<Step>)
    requires Admissible(g, s) && AdmissibleRun(Perform(g, s), rest)
    ensures AdmissibleRun(g, [s] + rest) && Run(g, [s] + rest) == Run(Perform(g, s), rest)
  {
    hide Perform, Admissible;
    assert ([s] + rest)[0] == s && ([s] + rest)[1..] == rest;
  }

  lemma RootOfUnmerged(g: Graph, x: NodeId)
    requires Live(g, x) && g.nodes[x].mergedInto.None?
    ensures HasChain(g, x) && Root(g, x) == x && Depth(g, x) == 0
  {
    assert IsChain(g, [x]) && [x][0] == x;
    ChainIs(g, [x]);
  }

  function Sample(kind: Kind): Node {
    UserNode(0, kind, 0, "t", "c", EvidenceSpec(1, 0))
  }

  function Creates(second: Kind): seq<Step> {
    [CreateOf(1, Decision), CreateOf(2, second), CreateOf(3, second)]
  }

  function CreateOf(x: NodeId, kind: Kind): Step {
    Create(0, x, kind, 0, "t", "c", EvidenceSpec(1, 0))
  }

  /** One Decision and two nodes of the given kind, nothing else. */
  function Three(second: Kind): Graph {
    EMPTY_GRAPH.(nodes := map[1 := Sample(Decision), 2 := Sample(second), 3 := Sample(second)])
  }

  lemma CreatesGiveThree(second: Kind, rest: seq<Step>)
    requires AdmissibleRun(Three(second), rest)
    ensures AdmissibleRun(EMPTY_GRAPH, Creates(second) + rest) && Run(EMPTY_GRAPH, Creates(second) + rest) == Run(Three(second), rest)
    ensures Inv(Three(second))
  {
    var a := EMPTY_GRAPH.(nodes := map[1 := Sample(Decision)]);
    var b := a.(nodes := a.nodes[2 := Sample(second)]);
    assert Perform(EMPTY_GRAPH, CreateOf(1, Decision)) == a;
    assert Perform(a, CreateOf(2, second)) == b;
    assert Perform(b, CreateOf(3, second)) == Three(second);
    EmptyGraphInv();
    StepKeepsInv(EMPTY_GRAPH, CreateOf(1, Decision));
    StepKeepsInv(a, CreateOf(2, second));
    StepKeepsInv(b, CreateOf(3, second));
    hide Inv, Perform, AdmissibleRun, Run;
    RunCons(b, CreateOf(3, second), rest);
    RunCons(a, CreateOf(2, second), [CreateOf(3, second)] + rest);
    RunCons(EMPTY_GRAPH, CreateOf(1, Decision), [CreateOf(2, second)] + ([CreateOf(3, second)] + rest));
    assert Creates(second) + rest == [CreateOf(1, Decision)] + ([CreateOf(2, second)] + ([CreateOf(3, second)] + rest));
  }

  /** Merging one unmerged node into another redirects it, and nothing else moves. */
  lemma MergeOf(g: Graph, s: NodeId, t: NodeId, id: OpId)
    requires Inv(g) && id !in g.ops && s != t && Live(g, s) && Live(g, t) && g.nodes[s].kind == g.nodes[t].kind
    requires g.nodes[s].project == 0 && g.nodes[t].project == 0
    requires Canonical(g.nodes[s]) && g.nodes[t].mergedInto.None? && g.nodes[s].revision.Some? && g.nodes[t].revision.Some?
    ensures var step := UserMerge(0, s, t, g.nodes[s].version, g.nodes[t].version, id);
            && Admissible(g, step) && Perform(g, step) == MergedGraph(g, 0, s, t, t, User, id) && Inv(Perform(g, step))
  {
    hide Inv;
    RootOfUnmerged(g, t);
    InvForest(g);
    MergeAcceptedIff(g, 0, s, t, User, id);
    var r := MergeFacts(g, 0, s, t, User, id);
    ResolveOk(g, 0, t, Some(g.nodes[s].kind));
    StepKeepsInv(g, UserMerge(0, s, t, g.nodes[s].version, g.nodes[t].version, id));
  }

  lemma InvForest(g: Graph)
    requires Inv(g)
    ensures ForestInv(g) && ParentsOk(g)
  {
  }

  // ----- the older delete can dangle -----

  /** 3 is merged into 2 and then 2 into 1. */
  function Chained(): seq<Step> {
    Creates(Decision) + ([UserMerge(0, 3, 2, 1, 1, 1)] + ([UserMerge(0, 2, 1, 1, 1, 2)] + []))
  }

  /** Two more steps after the creates. */
  lemma RunTwoMore(second: Kind, s: Step, t: Step)
    requires Admissible(Three(second), s) && Admissible(Perform(Three(second), s), t)
    ensures var steps := Creates(second) + ([s] + ([t] + []));
            AdmissibleRun(EMPTY_GRAPH, steps) && Run(EMPTY_GRAPH, steps) == Perform(Perform(Three(second), s), t)
  {
    hide Perform, Admissible, Three, Creates, Inv;
    var a := Three(second);
    var b := Perform(a, s);
    RunCons(b, t, []);
    RunCons(a, s, [t] + []);
    CreatesGiveThree(second, [s] + ([t] + []));
  }

  lemma ThreeInv(second: Kind)
    ensures Inv(Three(second))
  {
    hide Inv, Three;
    CreatesGiveThree(second, []);
  }

  lemma ChainedRows()
    ensures AdmissibleRun(EMPTY_GRAPH, Chained())
    ensures var g := Run(EMPTY_GRAPH, Chained()); Inv(g) && ThreeInARow(g)
  {
    var s, t := UserMerge(0, 3, 2, 1, 1, 1), UserMerge(0, 2, 1, 1, 1, 2);
    ThreeInv(Decision);
    FirstMerge();
    SecondMerge(Perform(Three(Decision), s));
    hide Inv, Perform, Admissible, ThreeInARow, Creates, Three;
    RunTwoMore(Decision, s, t);
  }

  predicate TwoInARow(g: Graph) {
    && g.nodes == map[1 := Sample(Decision), 2 := Sample(Decision), 3 := MergedSource(Sample(Decision), 2, User)]
    && 2 !in g.ops
  }

  lemma FirstMerge()
    requires Inv(Three(Decision))
    ensures var s := UserMerge(0, 3, 2, 1, 1, 1);
            Admissible(Three(Decision), s) && Inv(Perform(Three(Decision), s)) && TwoInARow(Perform(Three(Decision), s))
  {
    hide Inv, Perform, Admissible;
    MergeOf(Three(Decision), 3, 2, 1);
  }

  lemma SecondMerge(b: Graph)
    requires Inv(b) && TwoInARow(b)
    ensures var t := UserMerge(0, 2, 1, 1, 1, 2); Admissible(b, t) && Inv(Perform(b, t)) && ThreeInARow(Perform(b, t))
  {
    hide Inv, Perform, Admissible;
    MergeOf(b, 2, 1, 2);
  }

  /** Deleting 1 then also deletes 2, and 3 is left pointing at a deleted row: it no longer resolves. */
  lemma DeleteOneCanDangle()
    ensures AdmissibleRun(EMPTY_GRAPH, Chained())
    ensures var g := Run(EMPTY_GRAPH, Chained()); var r := DeleteOne(g, 0, 1, 1, "u");
            && Inv(g) && Resolve(g, 0, 3, None) == Ok(1)
            && r.Ok? && Live(r.value, 3) && !Live(r.value, 2) && !RefsLive(r.value)
            && Resolve(r.value, 0, 3, None) == Err(CrossesProject)
  {
    ChainedRows();
    var g := Run(EMPTY_GRAPH, Chained());
    ChainedResolves(g);
    SingleDelete(g);
    hide Inv, DeleteOne;
    DanglingResolve(DeletedOne(g, 0, 1, "u"));
  }

  predicate ThreeInARow(g: Graph) {
    g.nodes == map[1 := Sample(Decision), 2 := MergedSource(Sample(Decision), 1, User), 3 := MergedSource(Sample(Decision), 2, User)]
  }

  lemma ChainedResolves(g: Graph)
    requires ThreeInARow(g)
    ensures Resolve(g, 0, 3, None) == Ok(1)
  {
    assert Walk(g, 0, 3, Decision, {}, 128) == Walk(g, 0, 2, Decision, {3}, 127) == Walk(g, 0, 1, Decision, {3, 2}, 126);
  }

  predicate Dangles(h: Graph) {
    && h.nodes.Keys == {1, 2, 3} && h.nodes[3] == MergedSource(Sample(Decision), 2, User)
    && h.nodes[1].state == Deleted && h.nodes[2].state == Deleted
  }

  lemma SingleDelete(g: Graph)
    requires ThreeInARow(g)
    ensures DeleteOne(g, 0, 1, 1, "u") == Ok(DeletedOne(g, 0, 1, "u")) && Dangles(DeletedOne(g, 0, 1, "u"))
  {
    assert DirectSource(g, 0, 1, 2) && !DirectSource(g, 0, 1, 3);
  }

  lemma DanglingResolve(h: Graph)
    requires Dangles(h)
    ensures Live(h, 3) && !Live(h, 2) && !RefsLive(h) && Resolve(h, 0, 3, None) == Err(CrossesProject)
  {
    assert !RefLive(h, 2, 0);
    assert Walk(h, 0, 3, Decision, {}, 128) == Err(CrossesProject);
  }

  // ----- an attachment that cannot be removed -----

  const ATTACHED: RelationKey := RelationKey(0, 2, 1, AttachedTo)

  /** Action 2 is attached to Decision 1 and then merged into Action 3. */
  function AttachedThenMerged(): seq<Step> {
    Creates(Action) + ([Relate(0, 2, 1, AttachedTo, 1, 1)] + ([UserMerge(0, 2, 3, 2, 1, 1)] + []))
  }

  lemma AttachOf(a: Graph)
    requires a == Three(Action) && Inv(a)
    ensures var b := Perform(a, Relate(0, 2, 1, AttachedTo, 1, 1));
            && Inv(b) && b.nodes == a.nodes[2 := AttachedChild(Sample(Action), 1)] && b.ops == map[]
            && Open(b, ATTACHED)
  {
    RootOfUnmerged(a, 1);
    AttachAcceptedIff(a, 0, 2, 1);
    AttachFacts(a, 0, 2, 1);
    hide Inv, ApplyRelation;
    StepKeepsInv(a, Relate(0, 2, 1, AttachedTo, 1, 1));
  }

  /** The open attachment of the merged Action is there, and removing it is refused. */
  lemma AttachmentCanBeStuck()
    ensures AdmissibleRun(EMPTY_GRAPH, AttachedThenMerged())
    ensures var g := Run(EMPTY_GRAPH, AttachedThenMerged());
            Inv(g) && Open(g, ATTACHED) && DeleteRelation(g, 0, ATTACHED) == Err(ConstraintViolation)
  {
    var s, t := Relate(0, 2, 1, AttachedTo, 1, 1), UserMerge(0, 2, 3, 2, 1, 1);
    ThreeInv(Action);
    AttachOf(Three(Action));
    MergeAttached(Perform(Three(Action), s));
    hide Inv, Perform, DeleteRelation, Creates, Three, Open;
    RunTwoMore(Action, s, t);
  }

  lemma MergeAttached(b: Graph)
    requires Inv(b) && b.ops == map[] && Open(b, ATTACHED)
    requires b.nodes == Three(Action).nodes[2 := AttachedChild(Sample(Action), 1)]
    ensures var t := UserMerge(0, 2, 3, 2, 1, 1);
            && Admissible(b, t) && Inv(Perform(b, t)) && Open(Perform(b, t), ATTACHED)
            && DeleteRelation(Perform(b, t), 0, ATTACHED) == Err(ConstraintViolation)
  {
    hide Inv, Perform, Admissible, DeleteRelation;
    MergeOf(b, 2, 3, 1);
    DeleteRelationRefusedIff(Perform(b, UserMerge(0, 2, 3, 2, 1, 1)), 0, ATTACHED);
  }
}

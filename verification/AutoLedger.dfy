/**
 What the merges of a plan write on the rows that absorb them: how far each
 version moves, whose text wins, and in which order merges are applied.
 */
module AutoLedger {
  import opened Options
  import opened GraphModel
  import opened GraphResolve
  import opened GraphMerge
  import opened Evidence
  import opened AutoPlan
  import opened AutoApply
  import opened AutoPhases
  import opened AutoTheorems

  /** The items among the first n that were merged into x. */
  ghost function Absorbers(plan: Plan, g: Graph, x: NodeId, n: nat): set<nat> {
    set j: nat | j < n && MergedTo(plan, g, j, x)
  }

  /** The group of a dependent merge: the root its target had before the apply, or the planned target itself. */
  ghost function GroupOf(plan: Plan, g0: Graph, j: nat): NodeId
    requires j < |plan.items|
  {
    var d := plan.items[j].directive;
    if d.target.None? then 0 else if Live(g0, d.target.value) && HasChain(g0, d.target.value) then Root(g0, d.target.value) else d.target.value
  }

  /** The order of application: Decisions as planned, the others by group, then transcript order, then as planned. */
  ghost predicate Before(plan: Plan, g0: Graph, j: int, i: nat) {
    && 0 <= j < |plan.items| && i < |plan.items|
    && if IsDecision(plan, i) then j < i
       else
         || GroupOf(plan, g0, j) < GroupOf(plan, g0, i)
         || (&& GroupOf(plan, g0, j) == GroupOf(plan, g0, i)
             && (|| plan.items[j].source.order < plan.items[i].source.order
                 || (plan.items[j].source.order == plan.items[i].source.order && j < i)))
  }

  /** Of everything merged into x, item i was merged last. */
  ghost predicate Latest(plan: Plan, g0: Graph, g: Graph, i: nat, x: NodeId) {
    MergedTo(plan, g, i, x) && forall j :: MergedTo(plan, g, j, x) && j != i ==> Before(plan, g0, j, i)
  }

  predicate Authored(plan: Plan, n: Node) {
    n.revision.Some? && match n.revision.value case Revision(author, authorId, run, _, requiresEvidence) =>
      author == System && authorId == AUTOMATIC && run == Some(plan.run) && requiresEvidence
  }

  ghost predicate HasAbsorbed(plan: Plan, g: Graph, x: NodeId) {
    exists j :: MergedTo(plan, g, j, x)
  }

  /** One step per absorbed item, except that a row without a revision gets its first one for free; one more for being merged. */
  ghost predicate VersionLedger(b: Graph, plan: Plan, g: Graph, x: NodeId)
    requires x in b.nodes && x in g.nodes
  {
    g.nodes[x].version + (if HasAbsorbed(plan, g, x) && b.nodes[x].revision.None? then 1 else 0)
    == b.nodes[x].version + |Absorbers(plan, g, x, |plan.items|)|
       + if b.nodes[x].mergedInto.None? && g.nodes[x].mergedInto.Some? then 1 else 0
  }

  /** A row that absorbed nothing keeps its text and revision; otherwise the last merge wrote them, unless a user had the last word. */
  ghost predicate TextLedger(g0: Graph, b: Graph, plan: Plan, g: Graph, x: NodeId)
    requires x in b.nodes && x in g.nodes
  {
    var n, m := b.nodes[x], g.nodes[x];
    && m.needsAttention == n.needsAttention
    && (m.lastActor == n.lastActor || (HasAbsorbed(plan, g, x) && n.lastActor != User && m.lastActor == System))
    && if !HasAbsorbed(plan, g, x) then m.title == n.title && m.content == n.content && m.revision == n.revision
       else
         && Authored(plan, m) && Dedup(CurrentEvidence(n)) <= CurrentEvidence(m)
         && if n.lastActor == User then m.title == n.title && m.content == n.content
            else exists i: nat :: Latest(plan, g0, g, i, x) && Wrote(plan, i, m)
  }

  predicate Wrote(plan: Plan, i: nat, m: Node) {
    && i < |plan.items| && plan.items[i].source.suggestion.Some? && m.lastActor == System && m.title != ""
    && m.title == plan.items[i].source.suggestion.value.title && m.content == plan.items[i].source.suggestion.value.content
  }

  ghost predicate Ledger(g0: Graph, b: Graph, plan: Plan, g: Graph) {
    forall x :: x in b.nodes && x in g.nodes ==> VersionLedger(b, plan, g, x) && TextLedger(g0, b, plan, g, x)
  }

  /** Planned rows start unmerged and written by the pipeline. */
  ghost predicate FreshRows(b: Graph, plan: Plan) {
    forall i :: 0 <= i < |plan.items| ==>
      && plan.items[i].source.id in b.nodes
      && b.nodes[plan.items[i].source.id].mergedInto.None? && b.nodes[plan.items[i].source.id].lastActor == System
  }

  /** The absorbers of x after a merge of item i into r. */
  lemma AbsorbersGrow(plan: Plan, g: Graph, i: nat, r: NodeId, h: Graph, x: NodeId)
    requires i < |plan.items| && !MergedTo(plan, g, i, x)
    requires forall j, y :: MergedTo(plan, h, j, y) <==> MergedTo(plan, g, j, y) || (j == i && y == r)
    ensures |Absorbers(plan, h, x, |plan.items|)| == |Absorbers(plan, g, x, |plan.items|)| + if x == r then 1 else 0
    ensures HasAbsorbed(plan, h, x) <==> x == r || HasAbsorbed(plan, g, x)
  {
    hide MergedTo;
    var n := |plan.items|;
    if x == r {
      assert Absorbers(plan, h, x, n) == Absorbers(plan, g, x, n) + {i};
      assert MergedTo(plan, h, i, x);
    } else {
      assert Absorbers(plan, h, x, n) == Absorbers(plan, g, x, n);
    }
  }

  lemma MergeVersionLedger(b: Graph, plan: Plan, g: Graph, i: nat, t: NodeId, r: NodeId, h: Graph, x: NodeId)
    requires i < |plan.items| && DistinctIds(plan) && Merges(plan, g, i, t, r, h) && FreshRows(b, plan)
    requires g.nodes[plan.items[i].source.id].mergedInto.None?
    requires x in b.nodes && x in g.nodes && x in h.nodes && VersionLedger(b, plan, g, x)
    requires g.nodes[x].revision.Some? <==> b.nodes[x].revision.Some? || HasAbsorbed(plan, g, x)
    ensures VersionLedger(b, plan, h, x)
  {
    MergesWrites(plan, g, i, t, r, h);
    MergeMovesOne(plan, g, i, t, r, h);
    AbsorbersGrow(plan, g, i, r, h, x);
    assert b.nodes[plan.items[i].source.id].mergedInto.None?;
    hide Merges, MergedTo, Absorbers, HasAbsorbed, DistinctIds, FreshRows, Dedup;
  }

  /** Everything merged into r so far comes before item i. */
  ghost predicate AllBefore(plan: Plan, g0: Graph, g: Graph, r: NodeId, i: nat) {
    forall j :: MergedTo(plan, g, j, r) ==> Before(plan, g0, j, i)
  }

  lemma MergeTextTarget(g0: Graph, b: Graph, plan: Plan, g: Graph, i: nat, t: NodeId, r: NodeId, h: Graph)
    requires i < |plan.items| && DistinctIds(plan) && Merges(plan, g, i, t, r, h) && AllBefore(plan, g0, g, r, i)
    requires g.nodes[plan.items[i].source.id].mergedInto.None?
    requires r in b.nodes && r in h.nodes && TextLedger(g0, b, plan, g, r)
    ensures TextLedger(g0, b, plan, h, r)
    ensures h.nodes[r].lastActor == User || Latest(plan, g0, h, i, r)
  {
    MergesWrites(plan, g, i, t, r, h);
    MergeMovesOne(plan, g, i, t, r, h);
    var src := plan.items[i].source;
    assert h.nodes[r] == Absorb(plan, g.nodes[r], g.nodes[src.id], src.suggestion.value);
    DedupKeepsStart(CurrentEvidence(b.nodes[r]), CurrentEvidence(g.nodes[r]), CurrentEvidence(g.nodes[src.id]));
    hide Merges, MergedTo, Before, Dedup;
    assert MergedTo(plan, h, i, r);
    assert Latest(plan, g0, h, i, r);
  }

  lemma MergeTextElsewhere(g0: Graph, b: Graph, plan: Plan, g: Graph, i: nat, t: NodeId, r: NodeId, h: Graph, x: NodeId)
    requires i < |plan.items| && DistinctIds(plan) && Merges(plan, g, i, t, r, h) && FreshRows(b, plan)
    requires g.nodes[plan.items[i].source.id].mergedInto.None?
    requires x in b.nodes && x in g.nodes && x in h.nodes && x != r && TextLedger(g0, b, plan, g, x)
    ensures TextLedger(g0, b, plan, h, x)
  {
    MergesWrites(plan, g, i, t, r, h);
    MergeMovesOne(plan, g, i, t, r, h);
    var src := plan.items[i].source;
    hide Merges, MergedTo, Before;
    assert HasAbsorbed(plan, h, x) <==> HasAbsorbed(plan, g, x);
    assert b.nodes[src.id].lastActor == System;
    if HasAbsorbed(plan, g, x) && b.nodes[x].lastActor != User {
      var k: nat :| Latest(plan, g0, g, k, x) && Wrote(plan, k, g.nodes[x]);
      assert Latest(plan, g0, h, k, x) && Wrote(plan, k, h.nodes[x]);
    }
  }

  lemma MergeKeepsLedger(g0: Graph, b: Graph, plan: Plan, g: Graph, i: nat, t: NodeId, r: NodeId, h: Graph)
    requires i < |plan.items| && DistinctIds(plan) && Merges(plan, g, i, t, r, h) && FreshRows(b, plan)
    requires g.nodes[plan.items[i].source.id].mergedInto.None? && b.nodes.Keys == g.nodes.Keys
    requires AllBefore(plan, g0, g, r, i) && Ledger(g0, b, plan, g)
    ensures Ledger(g0, b, plan, h)
  {
    MergesWrites(plan, g, i, t, r, h);
    hide Merges, AllBefore, HasAbsorbed;
    forall x | x in b.nodes && x in h.nodes
      ensures VersionLedger(b, plan, h, x) && TextLedger(g0, b, plan, h, x)
    {
      assert VersionLedger(b, plan, g, x) && TextLedger(g0, b, plan, g, x);
      MergeVersionLedger(b, plan, g, i, t, r, h, x);
      if x == r {
        MergeTextTarget(g0, b, plan, g, i, t, r, h);
      } else {
        MergeTextElsewhere(g0, b, plan, g, i, t, r, h, x);
      }
    }
  }

  // ----- the operation log -----

  /** The log only grows: no recorded operation is changed or lost. */
  ghost predicate KeepsOps(g: Graph, h: Graph) {
    forall o :: o in g.ops ==> o in h.ops && h.ops[o] == g.ops[o]
  }

  lemma MergeKeepsLogged(plan: Plan, g: Graph, i: nat, t: NodeId, r: NodeId, h: Graph)
    requires i < |plan.items| && Merges(plan, g, i, t, r, h) && OpFree(plan, g, i)
    ensures KeepsOps(g, h)
  {
    hide Absorb;
  }

  lemma KeepsOpsChain(g: Graph, h: Graph, k: Graph)
    requires KeepsOps(g, h) && KeepsOps(h, k)
    ensures KeepsOps(g, k)
  {
  }
}

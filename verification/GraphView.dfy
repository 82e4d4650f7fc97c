/** The canonical relation view: stored relations read through merge chains. */
module GraphView {
  import opened Options
  import opened GraphModel
  import opened GraphResolve
  import opened GraphMerge
  import opened GraphRelations

  /** An open relation of the project, seen between the roots of its ends. */
  ghost function CanonicalKey(g: Graph, k: RelationKey): RelationKey
    requires HasChain(g, k.source) && HasChain(g, k.target)
  {
    NormalKey(RelationKey(k.project, Root(g, k.source), Root(g, k.target), k.kind))
  }

  ghost predicate Shown(g: Graph, p: ProjectId, k: RelationKey) {
    && Open(g, k) && k.project == p && HasChain(g, k.source) && HasChain(g, k.target)
    && Root(g, k.source) != Root(g, k.target)
  }

  /** The quotient of the open relations by merging, without the ones that collapse to a point. */
  ghost function View(g: Graph, p: ProjectId): set<RelationKey> {
    set k | k in g.relations && Shown(g, p, k) :: CanonicalKey(g, k)
  }

  datatype CanonicalRelation = CanonicalRelation(row: RelationKey, source: NodeId, target: NodeId)

  function KeyOf(c: CanonicalRelation): RelationKey {
    NormalKey(RelationKey(c.row.project, c.source, c.target, c.row.kind))
  }

  ghost predicate WithinHops(g: Graph, k: RelationKey) {
    HasChain(g, k.source) && HasChain(g, k.target) && Depth(g, k.source) <= 127 && Depth(g, k.target) <= 127
  }

  /** Both ends of every open relation of the project resolve within the hop limit. */
  ghost predicate AllWithinHops(g: Graph, p: ProjectId) {
    forall k :: Open(g, k) && k.project == p ==> WithinHops(g, k)
  }

  /** An entry that reads its own row's ends at their roots and is no self-loop. */
  ghost predicate ReadsRow(g: Graph, p: ProjectId, c: CanonicalRelation) {
    && Shown(g, p, c.row) && c.source == Root(g, c.row.source) && c.target == Root(g, c.row.target)
  }

  ghost function KeysOf(cs: seq<CanonicalRelation>): set<RelationKey> {
    set i | 0 <= i < |cs| :: KeyOf(cs[i])
  }

  lemma ResolveEnds(g: Graph, p: ProjectId, k: RelationKey)
    requires ForestInv(g) && RelationsOk(g) && Open(g, k) && k.project == p
    ensures HasChain(g, k.source) && HasChain(g, k.target)
    ensures Resolve(g, p, k.source, None) == if Depth(g, k.source) <= 127 then Ok(Root(g, k.source)) else Err(HopLimit)
    ensures Resolve(g, p, k.target, None) == if Depth(g, k.target) <= 127 then Ok(Root(g, k.target)) else Err(HopLimit)
  {
    ResolveExactly(g, p, k.source, None);
    ResolveExactly(g, p, k.target, None);
  }

  /** Rows read so far: within the hop limit, and listed unless they collapse. */
  ghost predicate Done(g: Graph, p: ProjectId, k: RelationKey, seen: set<RelationKey>) {
    WithinHops(g, k) && (Shown(g, p, k) ==> CanonicalKey(g, k) in seen)
  }

  /**
   The listing loop.  Rows come in no particular order.  It fails only when some
   end is past the hop limit; otherwise the listed keys are the quotient, each
   once and never a self-loop, and each entry reads its own row's ends.
   */
  method ListCanonicalRelations(g: Graph, p: ProjectId) returns (r: Result<seq<CanonicalRelation>>)
    requires ForestInv(g) && RelationsOk(g)
    ensures r.Ok? <==> AllWithinHops(g, p)
    ensures r.Err? ==> r.error == HopLimit
    ensures r.Ok? ==> KeysOf(r.value) == View(g, p)
    ensures r.Ok? ==> forall i, j :: 0 <= i < j < |r.value| ==> KeyOf(r.value[i]) != KeyOf(r.value[j])
    ensures r.Ok? ==> forall i :: 0 <= i < |r.value| ==> ReadsRow(g, p, r.value[i])
  {
    hide ForestInv, RelationsOk, Resolve, View, NormalKey;
    var todo := set k | k in g.relations && g.relations[k] && k.project == p;
    var seen: set<RelationKey> := {};
    var result: seq<CanonicalRelation> := [];
    while todo != {}
      invariant forall k :: k in todo ==> Open(g, k) && k.project == p
      invariant forall k :: Open(g, k) && k.project == p && k !in todo ==> Done(g, p, k, seen)
      invariant seen == KeysOf(result)
      invariant forall i :: 0 <= i < |result| ==> ReadsRow(g, p, result[i])
      invariant forall i, j :: 0 <= i < j < |result| ==> KeyOf(result[i]) != KeyOf(result[j])
      decreases todo
    {
      var k :| k in todo;
      ResolveEnds(g, p, k);
      var source := Resolve(g, p, k.source, None);
      if source.Err? { return Err(source.error); }
      var target := Resolve(g, p, k.target, None);
      if target.Err? { return Err(target.error); }
      todo := todo - {k};
      var entry := CanonicalRelation(k, source.value, target.value);
      if source.value != target.value && KeyOf(entry) !in seen {
        KeysOfSnoc(result, entry);
        seen := seen + {KeyOf(entry)};
        result := result + [entry];
      }
    }
    ViewListed(g, p, result);
    r := Ok(result);
  }

  lemma KeysOfSnoc(cs: seq<CanonicalRelation>, c: CanonicalRelation)
    ensures KeysOf(cs + [c]) == KeysOf(cs) + {KeyOf(c)}
    ensures KeyOf(c) !in KeysOf(cs) ==> forall i :: 0 <= i < |cs| ==> KeyOf(cs[i]) != KeyOf(c)
  {
    var ds := cs + [c];
    assert ds[|cs|] == c && forall i :: 0 <= i < |cs| ==> ds[i] == cs[i];
  }

  lemma ViewListed(g: Graph, p: ProjectId, result: seq<CanonicalRelation>)
    requires forall k :: Open(g, k) && k.project == p ==> Done(g, p, k, KeysOf(result))
    requires forall i :: 0 <= i < |result| ==> ReadsRow(g, p, result[i])
    ensures KeysOf(result) == View(g, p)
  {
  }

  // ----- the view under a merge -----

  function Redirect(x: NodeId, s: NodeId, r: NodeId): NodeId {
    if x == s then r else x
  }

  function RedirectKey(k: RelationKey, s: NodeId, r: NodeId): RelationKey {
    NormalKey(k.(source := Redirect(k.source, s, r), target := Redirect(k.target, s, r)))
  }

  /** The old view with `s` replaced by `r`, minus the keys that become self-loops. */
  ghost function RedirectView(v: set<RelationKey>, s: NodeId, r: NodeId): set<RelationKey> {
    set k | k in v && Redirect(k.source, s, r) != Redirect(k.target, s, r) :: RedirectKey(k, s, r)
  }

  lemma MergedKey(g: Graph, h: Graph, p: ProjectId, s: NodeId, r: NodeId, actor: Actor, k: RelationKey)
    requires ForestInv(g) && RelationsOk(g) && MergeEnds(g, p, s, r) && Open(g, k)
    requires h.nodes == g.nodes[s := MergedSource(g.nodes[s], r, actor)]
    ensures HasChain(g, k.source) && HasChain(g, k.target) && HasChain(h, k.source) && HasChain(h, k.target)
    ensures Root(h, k.source) == Redirect(Root(g, k.source), s, r) && Root(h, k.target) == Redirect(Root(g, k.target), s, r)
    ensures CanonicalKey(h, k) == RedirectKey(CanonicalKey(g, k), s, r)
  {
    MergeRoots(g, h, s, r, k.source);
    MergeRoots(g, h, s, r, k.target);
  }

  /** Merging s into t replaces s by t's root in the view and drops what collapses. */
  lemma MergeView(g: Graph, p: ProjectId, s: NodeId, t: NodeId, actor: Actor, id: OpId)
    requires Inv(g) && s in g.nodes && t in g.nodes && ApplyMerge(g, p, s, t, actor, id).Ok?
    ensures HasChain(g, t)
    ensures View(ApplyMerge(g, p, s, t, actor, id).value, p) == RedirectView(View(g, p), s, Root(g, t))
  {
    var r := MergeFacts(g, p, s, t, actor, id);
    ResolveOk(g, p, t, Some(g.nodes[s].kind));
    var h := MergedGraph(g, p, s, t, r, actor, id);
    forall key | key in View(h, p)
      ensures key in RedirectView(View(g, p), s, r)
    {
      var k :| k in h.relations && Shown(h, p, k) && CanonicalKey(h, k) == key;
      assert Open(g, k);
      MergedKey(g, h, p, s, r, actor, k);
      assert Shown(g, p, k);
      assert CanonicalKey(g, k) in View(g, p);
    }
    forall key | key in RedirectView(View(g, p), s, r)
      ensures key in View(h, p)
    {
      var v :| v in View(g, p) && Redirect(v.source, s, r) != Redirect(v.target, s, r) && RedirectKey(v, s, r) == key;
      var k :| k in g.relations && Shown(g, p, k) && CanonicalKey(g, k) == v;
      MergedKey(g, h, p, s, r, actor, k);
      assert Open(h, k);
      assert Shown(h, p, k);
    }
  }
}

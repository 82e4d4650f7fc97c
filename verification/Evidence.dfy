/** Evidence lists of a revision and their first-wins deduplication. */
module Evidence {
  import opened GraphModel

  ghost predicate NoRepeats(e: seq<EvidenceSpec>) {
    forall i, j :: 0 <= i < j < |e| ==> e[i].key != e[j].key
  }

  /** `e[i]` is the first spec of its key. */
  ghost predicate FirstOfKey(e: seq<EvidenceSpec>, i: nat)
    requires i < |e|
  {
    forall j :: 0 <= j < i ==> e[j].key != e[i].key
  }

  function Keys(e: seq<EvidenceSpec>): set<nat> {
    set i | 0 <= i < |e| :: e[i].key
  }

  function Dedup(e: seq<EvidenceSpec>): seq<EvidenceSpec> {
    if e == [] then []
    else
      var d := Dedup(e[..|e| - 1]);
      if e[|e| - 1].key in Keys(d) then d else d + [e[|e| - 1]]
  }

  lemma KeysSnoc(e: seq<EvidenceSpec>, x: EvidenceSpec)
    ensures Keys(e + [x]) == Keys(e) + {x.key}
  {
    var f := e + [x];
    assert f[|e|] == x && forall i :: 0 <= i < |e| ==> f[i] == e[i];
  }

  /** No key is lost or invented, and none appears twice. */
  lemma {:induction false} DedupKeys(e: seq<EvidenceSpec>)
    ensures Keys(Dedup(e)) == Keys(e)
    ensures NoRepeats(Dedup(e))
    ensures e != [] ==> Dedup(e) != []
  {
    if e != [] {
      var p := e[..|e| - 1];
      var d := Dedup(p);
      DedupKeys(p);
      assert e == p + [e[|e| - 1]];
      KeysSnoc(p, e[|e| - 1]);
      KeysSnoc(d, e[|e| - 1]);
      assert e[|e| - 1].key in Keys(d) ==> d != [];
    }
  }

  /** `x` occurs in `e` as the first spec of its key. */
  ghost predicate FirstSpec(e: seq<EvidenceSpec>, x: EvidenceSpec) {
    exists i: nat :: i < |e| && e[i] == x && FirstOfKey(e, i)
  }

  lemma FirstSpecSnoc(p: seq<EvidenceSpec>, last: EvidenceSpec, x: EvidenceSpec)
    ensures FirstSpec(p + [last], x) <==> FirstSpec(p, x) || (x == last && last.key !in Keys(p))
  {
    var e := p + [last];
    assert forall i: nat :: i < |p| ==> e[i] == p[i];
    if FirstSpec(p, x) {
      var i: nat :| i < |p| && p[i] == x && FirstOfKey(p, i);
      assert e[i] == x && FirstOfKey(e, i);
    }
    if x == last && last.key !in Keys(p) {
      assert e[|p|] == x && FirstOfKey(e, |p|);
    }
    if FirstSpec(e, x) {
      var i: nat :| i < |e| && e[i] == x && FirstOfKey(e, i);
      if i < |p| {
        assert p[i] == x && FirstOfKey(p, i);
      }
    }
  }

  /** A key keeps the first of its specs. */
  lemma {:induction false} DedupKeepsFirst(e: seq<EvidenceSpec>, x: EvidenceSpec)
    ensures x in Dedup(e) <==> FirstSpec(e, x)
  {
    if e != [] {
      hide FirstSpec, Keys, NoRepeats;
      var p, last := e[..|e| - 1], e[|e| - 1];
      assert e == p + [last];
      DedupKeepsFirst(p, x);
      DedupKeys(p);
      FirstSpecSnoc(p, last, x);
      assert Dedup(e) == if last.key in Keys(p) then Dedup(p) else Dedup(p) + [last];
      hide Dedup;
    }
  }

  /** The insertion-ordered dictionary loop. */
  method DeduplicateEvidenceSpecs(specs: seq<EvidenceSpec>) returns (r: seq<EvidenceSpec>)
    ensures r == Dedup(specs)
  {
    r := [];
    var seen: set<nat> := {};
    for i := 0 to |specs|
      invariant r == Dedup(specs[..i]) && seen == Keys(r)
    {
      assert specs[..i + 1][..i] == specs[..i];
      if specs[i].key !in seen {
        KeysSnoc(r, specs[i]);
        r := r + [specs[i]];
        seen := seen + {specs[i].key};
      }
    }
    assert specs[..|specs|] == specs;
  }

  lemma DedupSnoc(p: seq<EvidenceSpec>, x: EvidenceSpec)
    ensures Dedup(p) <= Dedup(p + [x])
  {
    assert (p + [x])[..|p|] == p;
  }

  /** Deduplicating a longer list keeps what the shorter one gave, in place. */
  lemma {:induction false} DedupPrefix(e: seq<EvidenceSpec>, f: seq<EvidenceSpec>)
    ensures Dedup(e) <= Dedup(e + f)
    decreases |f|
  {
    hide Dedup;
    if f == [] {
      assert e + f == e;
    } else {
      var n := |f| - 1;
      DedupPrefix(e, f[..n]);
      DedupSnoc(e + f[..n], f[n]);
      assert e + f == (e + f[..n]) + [f[n]];
    }
  }

  lemma LastIsNew(e: seq<EvidenceSpec>)
    requires NoRepeats(e) && e != []
    ensures var n := |e| - 1; NoRepeats(e[..n]) && e[n].key !in Keys(e[..n]) && e == e[..n] + [e[n]]
  {
  }

  /** A list without repeats is its own deduplication. */
  lemma {:induction false} DedupIdle(e: seq<EvidenceSpec>)
    requires NoRepeats(e)
    ensures Dedup(e) == e
    decreases |e|
  {
    hide NoRepeats, Keys;
    if e != [] {
      LastIsNew(e);
      DedupIdle(e[..|e| - 1]);
    }
  }

  /** Own evidence stays first: absorbing more keeps the deduplicated start in place. */
  lemma DedupKeepsStart(start: seq<EvidenceSpec>, e: seq<EvidenceSpec>, f: seq<EvidenceSpec>)
    requires e == start || Dedup(start) <= e
    ensures Dedup(start) <= Dedup(e + f)
  {
    hide Dedup, NoRepeats, Keys;
    DedupPrefix(e, f);
    if e != start {
      var d := Dedup(start);
      DedupKeys(start);
      DedupIdle(d);
      assert e == d + e[|d|..];
      DedupPrefix(d, e[|d|..]);
    }
  }
}

/**
 The offset map of Unicode normalization: for every normalized character, the
 original range it came from, built from a difference script of the two texts.
 */
module OffsetMap {
  import opened Options

  datatype Tag = Equal | Delete | Add | Replace

  // [os, oe) of the original became [ns, ne) of the normalized text.
  datatype Opcode = Opcode(tag: Tag, os: nat, oe: nat, ns: nat, ne: nat)

  datatype Span = Span(start: int, end: int)

  predicate OpcodeOk(op: Opcode) {
    && op.os <= op.oe && op.ns <= op.ne
    && match op.tag
       case Equal => op.oe - op.os == op.ne - op.ns
       case Delete => op.os < op.oe && op.ns == op.ne
       case Add => op.os == op.oe && op.ns < op.ne
       case Replace => op.os < op.oe && op.ns < op.ne
  }

  /** The script covers both texts from the given positions to their ends, without gap or overlap. */
  predicate Covers(ops: seq<Opcode>, os: nat, ns: nat, originalLength: nat, normalizedLength: nat)
    decreases |ops|
  {
    if ops == [] then os == originalLength && ns == normalizedLength
    else OpcodeOk(ops[0]) && ops[0].os == os && ops[0].ns == ns && Covers(ops[1..], ops[0].oe, ops[0].ne, originalLength, normalizedLength)
  }

  // ----- proportional spans -----

  /** The part of [os, oe) that belongs to the offset-th of n replacement characters, rounded outwards. */
  function ReplacementSpan(os: int, oe: int, offset: nat, n: nat): Span
    requires offset < n
  {
    var length := oe - os;
    if length == 0 then Span(os, os)
    else Span(os + offset * length / n, os + ((offset + 1) * length + n - 1) / n)
  }

  lemma DivBounds(x: int, n: nat)
    requires n > 0
    ensures n * (x / n) <= x < n * (x / n) + n
  {
  }

  lemma MulMonotone(n: nat, a: int, b: int)
    requires a <= b
    ensures n * a <= n * b
  {
  }

  lemma DivMonotone(x: int, y: int, n: nat)
    requires n > 0 && x <= y
    ensures x / n <= y / n
  {
    DivBounds(x, n);
    DivBounds(y, n);
    if x / n > y / n {
      assert n * (y / n + 1) == n * (y / n) + n;
      MulMonotone(n, y / n + 1, x / n);
    }
  }

  lemma DivExact(k: int, n: nat)
    requires n > 0
    ensures n * k / n == k && (n * k + n - 1) / n == k
  {
    DivBetween(n * k, n, k);
    DivBetween(n * k + n - 1, n, k);
  }

  lemma DivBetween(x: int, n: nat, q: int)
    requires n > 0 && n * q <= x < n * q + n
    ensures x / n == q
  {
    DivBounds(x, n);
    if x / n < q {
      assert n * (x / n + 1) == n * (x / n) + n;
      MulMonotone(n, x / n + 1, q);
    } else if x / n > q {
      assert n * (q + 1) == n * q + n;
      MulMonotone(n, q + 1, x / n);
    }
  }

  /** Rounding down a point and rounding up a later one leaves room for at least one character. */
  lemma FloorBelowCeil(x: int, y: int, n: nat)
    requires n > 0
    ensures x <= y ==> x / n <= (y + n - 1) / n
    ensures x < y ==> x / n < (y + n - 1) / n
    ensures (x + n - 1) / n <= x / n + 1
  {
    if x <= y { DivMonotone(x, y + n - 1, n); }
    if x < y {
      DivMonotone(x + n, y + n - 1, n);
      DivBounds(x, n);
      assert n * (x / n + 1) == n * (x / n) + n;
      DivBetween(x + n, n, x / n + 1);
    }
    DivBounds(x, n);
    assert n * (x / n + 1) == n * (x / n) + n;
    DivBetween(x + n, n, x / n + 1);
    DivMonotone(x + n - 1, x + n, n);
  }

  /**
   Arithmetic of one replacement of a non-empty range by n characters: every
   span is non-empty and inside the range; the first begins and the last ends
   with the range; from one character to the next, starts and ends do not go
   back, no original character falls in between, and at most one is shared.
   */
  lemma ReplacementSpans(os: int, oe: int, k: nat, n: nat)
    requires os < oe && k < n
    ensures var s := ReplacementSpan(os, oe, k, n);
            && os <= s.start < s.end <= oe
            && (k == 0 ==> s.start == os) && (k == n - 1 ==> s.end == oe)
            && (k + 1 < n ==>
                  var t := ReplacementSpan(os, oe, k + 1, n);
                  s.start <= t.start <= s.end <= t.end && s.end <= t.start + 1)
  {
    var length := oe - os;
    var x, y := k * length, (k + 1) * length;
    assert y == x + length;
    MulMonotone(length, 0, k);
    MulMonotone(length, k + 1, n);
    assert 0 <= x && y <= n * length;
    DivMonotone(0, x, n);
    DivExact(0, n);
    assert n * 0 == 0;
    assert 0 / n == 0;
    FloorBelowCeil(x, y, n);
    DivExact(length, n);
    DivMonotone(y + n - 1, n * length + n - 1, n);
    if k == n - 1 {
      assert y == n * length;
    }
    if k + 1 < n {
      var z := (k + 2) * length;
      assert z == y + length;
      DivMonotone(x, y, n);
      FloorBelowCeil(y, y, n);
      DivMonotone(y + n - 1, z + n - 1, n);
    }
  }

  // ----- the map -----

  function OpSpan(op: Opcode, k: nat): Span
    requires OpcodeOk(op) && k < op.ne - op.ns
  {
    if op.tag == Equal then Span(op.os + k, op.os + k + 1)
    else ReplacementSpan(op.os, op.oe, k, op.ne - op.ns)
  }

  function OpSpans(op: Opcode): (r: seq<Span>)
    requires OpcodeOk(op)
    ensures |r| == op.ne - op.ns
  {
    seq(op.ne - op.ns, k requires 0 <= k < op.ne - op.ns => OpSpan(op, k))
  }

  function Spans(ops: seq<Opcode>): seq<Span>
    requires forall i :: 0 <= i < |ops| ==> OpcodeOk(ops[i])
  {
    if ops == [] then [] else OpSpans(ops[0]) + Spans(ops[1..])
  }

  lemma {:induction false} CoversOk(ops: seq<Opcode>, os: nat, ns: nat, originalLength: nat, normalizedLength: nat)
    requires Covers(ops, os, ns, originalLength, normalizedLength)
    ensures forall i :: 0 <= i < |ops| ==> OpcodeOk(ops[i])
    ensures os <= originalLength && ns <= normalizedLength && |Spans(ops)| == normalizedLength - ns
    decreases |ops|
  {
    if ops != [] {
      CoversOk(ops[1..], ops[0].oe, ops[0].ne, originalLength, normalizedLength);
      assert forall i :: 1 <= i < |ops| ==> ops[i] == ops[1..][i - 1];
    }
  }

  /**
   The opcode loop over a list of places, each None until written.  Every place
   is written, so the "failed to build" error cannot occur.
   */
  method BuildOffsetMap(ops: seq<Opcode>, originalLength: nat, normalizedLength: nat) returns (spans: array<Option<Span>>)
    requires Covers(ops, 0, 0, originalLength, normalizedLength)
    ensures spans.Length == normalizedLength && (forall i :: 0 <= i < |ops| ==> OpcodeOk(ops[i]))
    ensures |Spans(ops)| == normalizedLength && forall k :: 0 <= k < normalizedLength ==> spans[k] == Some(Spans(ops)[k])
    ensures fresh(spans)
  {
    hide Covers, Spans, OpcodeOk, OpSpan;
    CoversOk(ops, 0, 0, originalLength, normalizedLength);
    spans := new Option<Span>[normalizedLength](_ => None);
    ghost var os: nat, ns: nat := 0, 0;
    ghost var all := Spans(ops);
    var i := 0;
    assert ops[0..] == ops && all[0..] == all;
    while i < |ops|
      invariant i <= |ops| && ns <= normalizedLength
      invariant Covers(ops[i..], os, ns, originalLength, normalizedLength)
      invariant (forall j :: 0 <= j < |ops[i..]| ==> OpcodeOk(ops[i..][j])) && all[ns..] == Spans(ops[i..])
      invariant forall k :: 0 <= k < ns ==> spans[k] == Some(all[k])
    {
      var op := ops[i];
      assert ops[i..][0] == op && ops[i..][1..] == ops[i + 1..];
      NextOpcode(ops[i..], os, ns, originalLength, normalizedLength, all);
      FillOp(spans, op);
      os, ns := op.oe, op.ne;
      i := i + 1;
    }
    assert ops[i..] == [];
    CoversEnd(os, ns, originalLength, normalizedLength);
  }

  lemma CoversEnd(os: nat, ns: nat, originalLength: nat, normalizedLength: nat)
    requires Covers([], os, ns, originalLength, normalizedLength)
    ensures ns == normalizedLength
  {
  }

  /** What the next opcode contributes to the rest of the map. */
  lemma NextOpcode(rest: seq<Opcode>, os: nat, ns: nat, originalLength: nat, normalizedLength: nat, all: seq<Span>)
    requires rest != [] && Covers(rest, os, ns, originalLength, normalizedLength) && ns <= |all| == normalizedLength
    requires (forall j :: 0 <= j < |rest| ==> OpcodeOk(rest[j])) && all[ns..] == Spans(rest)
    ensures var op := rest[0];
            && OpcodeOk(op) && op.ns == ns && op.ne <= normalizedLength
            && Covers(rest[1..], op.oe, op.ne, originalLength, normalizedLength)
            && (forall j :: 0 <= j < |rest[1..]| ==> OpcodeOk(rest[1..][j])) && all[op.ne..] == Spans(rest[1..])
            && forall k :: ns <= k < op.ne ==> all[k] == OpSpan(op, k - op.ns)
  {
    CoversOk(rest[1..], rest[0].oe, rest[0].ne, originalLength, normalizedLength);
    TailAt(all, ns, OpSpans(rest[0]), Spans(rest[1..]));
  }

  lemma TailAt(all: seq<Span>, ns: nat, head: seq<Span>, tail: seq<Span>)
    requires ns <= |all| && all[ns..] == head + tail
    ensures ns + |head| <= |all| && all[ns + |head|..] == tail
    ensures forall k :: ns <= k < ns + |head| ==> all[k] == head[k - ns]
  {
  }

  /** The inner loop of one opcode. */
  method FillOp(spans: array<Option<Span>>, op: Opcode)
    requires OpcodeOk(op) && op.ne <= spans.Length
    modifies spans
    ensures forall k :: op.ns <= k < op.ne ==> spans[k] == Some(OpSpan(op, k - op.ns))
    ensures forall k :: 0 <= k < spans.Length && !(op.ns <= k < op.ne) ==> spans[k] == old(spans[k])
  {
    if op.tag == Delete { return; }
    for offset := 0 to op.ne - op.ns
      invariant forall k :: op.ns <= k < op.ns + offset ==> spans[k] == Some(OpSpan(op, k - op.ns))
      invariant forall k :: 0 <= k < spans.Length && !(op.ns <= k < op.ns + offset) ==> spans[k] == old(spans[k])
    {
      spans[op.ns + offset] := Some(
        if op.tag == Equal then Span(op.os + offset, op.os + offset + 1)
        else ReplacementSpan(op.os, op.oe, offset, op.ne - op.ns));
    }
  }

  // ----- what the map guarantees -----

  lemma OpSpanFacts(op: Opcode, k: nat)
    requires OpcodeOk(op) && k < op.ne - op.ns
    ensures var s := OpSpan(op, k);
            && op.os <= s.start <= s.end <= op.oe
            && (op.tag != Add ==> s.start < s.end)
            && (op.tag == Add ==> s == Span(op.os, op.os))
            && (k == 0 ==> s.start == op.os) && (k == op.ne - op.ns - 1 ==> s.end == op.oe)
            && (k + 1 < op.ne - op.ns ==>
                  var t := OpSpan(op, k + 1); s.start <= t.start <= s.end <= t.end && s.end <= t.start + 1)
  {
    if op.tag == Replace {
      ReplacementSpans(op.os, op.oe, k, op.ne - op.ns);
    }
  }

  /** The opcode that wrote place k, with k's offset in it. */
  function Owner(ops: seq<Opcode>, k: nat): (r: (Opcode, nat))
    requires (forall i :: 0 <= i < |ops| ==> OpcodeOk(ops[i])) && k < |Spans(ops)|
    ensures OpcodeOk(r.0) && r.1 < r.0.ne - r.0.ns && r.0 in ops && Spans(ops)[k] == OpSpan(r.0, r.1)
    decreases |ops|
  {
    var here := |OpSpans(ops[0])|;
    if k < here then (ops[0], k) else Owner(ops[1..], k - here)
  }

  /** Every span lies in bounds, and is empty exactly when its character was inserted. */
  lemma {:induction false} SpanInBounds(ops: seq<Opcode>, os: nat, ns: nat, originalLength: nat, normalizedLength: nat, k: nat)
    requires Covers(ops, os, ns, originalLength, normalizedLength) && k < normalizedLength - ns
    ensures (forall i :: 0 <= i < |ops| ==> OpcodeOk(ops[i])) && k < |Spans(ops)|
    ensures var s := Spans(ops)[k]; os <= s.start <= s.end <= originalLength && (s.start == s.end <==> Owner(ops, k).0.tag == Add)
    decreases |ops|
  {
    CoversOk(ops, os, ns, originalLength, normalizedLength);
    var op := ops[0];
    var here := op.ne - op.ns;
    CoversOk(ops[1..], op.oe, op.ne, originalLength, normalizedLength);
    if k < here {
      OpSpanFacts(op, k);
    } else {
      SpanInBounds(ops[1..], op.oe, op.ne, originalLength, normalizedLength, k - here);
    }
  }

  /** From one normalized character to the next, neither starts nor ends go back, and at most one original character is shared. */
  lemma {:induction false} SpansStep(ops: seq<Opcode>, os: nat, ns: nat, originalLength: nat, normalizedLength: nat, k: nat)
    requires Covers(ops, os, ns, originalLength, normalizedLength) && k + 1 < normalizedLength - ns
    ensures (forall i :: 0 <= i < |ops| ==> OpcodeOk(ops[i])) && k + 1 < |Spans(ops)|
    ensures Spans(ops)[k].start <= Spans(ops)[k + 1].start && Spans(ops)[k].end <= Spans(ops)[k + 1].end
    ensures Spans(ops)[k].end <= Spans(ops)[k + 1].start + 1
    decreases |ops|
  {
    CoversOk(ops, os, ns, originalLength, normalizedLength);
    var op := ops[0];
    var here := op.ne - op.ns;
    CoversOk(ops[1..], op.oe, op.ne, originalLength, normalizedLength);
    if k < here { OpSpanFacts(op, k); }
    if here <= k {
      SpansStep(ops[1..], op.oe, op.ne, originalLength, normalizedLength, k - here);
    } else if here == k + 1 {
      SpanInBounds(ops[1..], op.oe, op.ne, originalLength, normalizedLength, 0);
    }
  }

  /** Starts and ends are nondecreasing over the whole map. */
  lemma {:induction false} SpansMonotone(ops: seq<Opcode>, originalLength: nat, normalizedLength: nat, j: nat, k: nat)
    requires Covers(ops, 0, 0, originalLength, normalizedLength) && j <= k < normalizedLength
    ensures (forall i :: 0 <= i < |ops| ==> OpcodeOk(ops[i])) && k < |Spans(ops)|
    ensures Spans(ops)[j].start <= Spans(ops)[k].start && Spans(ops)[j].end <= Spans(ops)[k].end
    decreases k
  {
    hide Covers, Spans, OpcodeOk;
    CoversOk(ops, 0, 0, originalLength, normalizedLength);
    if j < k {
      SpansMonotone(ops, originalLength, normalizedLength, j, k - 1);
      SpansStep(ops, 0, 0, originalLength, normalizedLength, k - 1);
    }
  }

  /** The spans of one opcode that keeps or replaces text cover its original range without a gap. */
  lemma {:induction false} OpcodeRangeCovered(op: Opcode, x: int, n: nat) returns (k: nat)
    requires OpcodeOk(op) && (op.tag == Equal || op.tag == Replace) && n < op.ne - op.ns
    requires op.os <= x < OpSpan(op, n).end
    ensures k < op.ne - op.ns && OpSpan(op, k).start <= x < OpSpan(op, k).end
    decreases n
  {
    OpSpanFacts(op, n);
    if OpSpan(op, n).start <= x {
      k := n;
    } else {
      OpSpanFacts(op, n - 1);
      k := OpcodeRangeCovered(op, x, n - 1);
    }
  }

  /** Every original character that the script keeps or replaces lies in the span of one of the characters it became. */
  lemma NothingLost(op: Opcode, x: int) returns (k: nat)
    requires OpcodeOk(op) && (op.tag == Equal || op.tag == Replace) && op.os <= x < op.oe
    ensures k < op.ne - op.ns && OpSpan(op, k).start <= x < OpSpan(op, k).end
  {
    var last := op.ne - op.ns - 1;
    OpSpanFacts(op, last);
    k := OpcodeRangeCovered(op, x, last);
  }

  // ----- mapping a range back -----

  function MinStart(spans: seq<Span>): int
    requires spans != []
  {
    if |spans| == 1 then spans[0].start
    else
      var m := MinStart(spans[..|spans| - 1]);
      if spans[|spans| - 1].start < m then spans[|spans| - 1].start else m
  }

  function MaxEnd(spans: seq<Span>): int
    requires spans != []
  {
    if |spans| == 1 then spans[0].end
    else
      var m := MaxEnd(spans[..|spans| - 1]);
      if spans[|spans| - 1].end > m then spans[|spans| - 1].end else m
  }

  /** The original range of normalized [start, end); None is the "must not be empty" error. */
  function OriginalSpan(spans: Option<seq<Span>>, start: nat, end: nat): Option<Span>
    requires spans.Some? ==> start <= end <= |spans.value|
  {
    if spans.None? then Some(Span(start, end))
    else if start == end then None
    else Some(Span(MinStart(spans.value[start..end]), MaxEnd(spans.value[start..end])))
  }

  /** The range of any spans runs from their least start to their greatest end. */
  lemma {:induction false} ExtremesAre(spans: seq<Span>)
    requires spans != []
    ensures (forall i :: 0 <= i < |spans| ==> MinStart(spans) <= spans[i].start && spans[i].end <= MaxEnd(spans))
    ensures (exists i :: 0 <= i < |spans| && spans[i].start == MinStart(spans)) && exists i :: 0 <= i < |spans| && spans[i].end == MaxEnd(spans)
    decreases |spans|
  {
    if |spans| > 1 {
      var n := |spans| - 1;
      var init := spans[..n];
      ExtremesAre(init);
      var i :| 0 <= i < n && init[i].start == MinStart(init);
      var k :| 0 <= k < n && init[k].end == MaxEnd(init);
      assert spans[i] == init[i] && spans[k] == init[k];
      assert forall j :: 0 <= j < n ==> spans[j] == init[j];
      assert spans[n].start == MinStart(spans) || spans[i].start == MinStart(spans);
      assert spans[n].end == MaxEnd(spans) || spans[k].end == MaxEnd(spans);
    } else {
      assert spans[0].start == MinStart(spans) && spans[0].end == MaxEnd(spans);
    }
  }

  lemma {:induction false} MonotoneExtremes(spans: seq<Span>)
    requires spans != [] && forall i, j :: 0 <= i <= j < |spans| ==> spans[i].start <= spans[j].start && spans[i].end <= spans[j].end
    ensures MinStart(spans) == spans[0].start && MaxEnd(spans) == spans[|spans| - 1].end
  {
    if |spans| > 1 {
      MonotoneExtremes(spans[..|spans| - 1]);
    }
  }

  /**
   A match maps back to the range from the first character's start to the last
   one's end, inside the original text; it contains the span of every character
   of the match and is not empty unless all of them were inserted.
   */
  lemma OriginalSpanOfMatch(ops: seq<Opcode>, originalLength: nat, normalizedLength: nat, start: nat, end: nat, k: nat)
    requires Covers(ops, 0, 0, originalLength, normalizedLength) && start <= k < end <= normalizedLength
    ensures (forall i :: 0 <= i < |ops| ==> OpcodeOk(ops[i])) && |Spans(ops)| == normalizedLength
    ensures var r := OriginalSpan(Some(Spans(ops)), start, end);
            && r == Some(Span(Spans(ops)[start].start, Spans(ops)[end - 1].end))
            && 0 <= r.value.start <= Spans(ops)[k].start <= Spans(ops)[k].end <= r.value.end <= originalLength
            && (Owner(ops, k).0.tag != Add ==> r.value.start < r.value.end)
  {
    hide Covers, Spans, Owner, OpcodeOk, MinStart, MaxEnd;
    CoversOk(ops, 0, 0, originalLength, normalizedLength);
    var part := Spans(ops)[start..end];
    forall i, j | 0 <= i <= j < |part|
      ensures part[i].start <= part[j].start && part[i].end <= part[j].end
    {
      SpansMonotone(ops, originalLength, normalizedLength, start + i, start + j);
    }
    MonotoneExtremes(part);
    SpansMonotone(ops, originalLength, normalizedLength, start, k);
    SpansMonotone(ops, originalLength, normalizedLength, k, end - 1);
    SpanInBounds(ops, 0, 0, originalLength, normalizedLength, start);
    SpanInBounds(ops, 0, 0, originalLength, normalizedLength, k);
    SpanInBounds(ops, 0, 0, originalLength, normalizedLength, end - 1);
  }

  /** Matches that follow one another in the normalized text do so in the original, sharing at most one character. */
  lemma MatchOrderKept(ops: seq<Opcode>, originalLength: nat, normalizedLength: nat, a: nat, b: nat, c: nat, d: nat)
    requires Covers(ops, 0, 0, originalLength, normalizedLength) && a < b <= c < d <= normalizedLength
    ensures (forall i :: 0 <= i < |ops| ==> OpcodeOk(ops[i])) && |Spans(ops)| == normalizedLength
    ensures var r, s := OriginalSpan(Some(Spans(ops)), a, b), OriginalSpan(Some(Spans(ops)), c, d);
            && r.Some? && s.Some? && r.value.start <= s.value.start && r.value.end <= s.value.end
            && r.value.end <= s.value.start + 1
  {
    hide Covers, Spans, OriginalSpan, OpcodeOk, Owner;
    OriginalSpanOfMatch(ops, originalLength, normalizedLength, a, b, a);
    OriginalSpanOfMatch(ops, originalLength, normalizedLength, c, d, c);
    SpansMonotone(ops, originalLength, normalizedLength, a, c);
    SpansMonotone(ops, originalLength, normalizedLength, b - 1, d - 1);
    SpansStep(ops, 0, 0, originalLength, normalizedLength, b - 1);
    SpansMonotone(ops, originalLength, normalizedLength, b, c);
  }
}

/**
 Term normalization: the rules' regular-expression matches are thinned to
 leftmost, longest, highest-priority, non-overlapping ones and rewritten once.
 */
module TermRewriting {

  /** A span that some rule's pattern matched, with the rule's rank and its canonical text. */
  datatype Match = Match(start: nat, end: nat, priority: nat, canonical: string)

  predicate Fits(text: string, m: Match) {
    m.start < m.end <= |text|
  }

  ghost predicate AllFit(text: string, ms: seq<Match>) {
    forall i :: 0 <= i < |ms| ==> Fits(text, ms[i])
  }

  // ----- candidates -----

  /** Start first, then the longer match, then the better rule. */
  predicate Before(a: Match, b: Match) {
    || a.start < b.start
    || (a.start == b.start && (a.end > b.end || (a.end == b.end && a.priority < b.priority)))
  }

  ghost predicate Sorted(ms: seq<Match>) {
    forall i, j :: 0 <= i < j < |ms| ==> !Before(ms[j], ms[i])
  }

  /** Matches that would change the text. */
  function Changing(text: string, found: seq<Match>): (r: seq<Match>)
    ensures forall m :: m in r <==> m in found && Fits(text, m) && text[m.start..m.end] != m.canonical
  {
    if found == [] then []
    else
      var n := |found| - 1;
      Changing(text, found[..n]) + (if Fits(text, found[n]) && text[found[n].start..found[n].end] != found[n].canonical then [found[n]] else [])
  }

  function Insert(ms: seq<Match>, m: Match): (r: seq<Match>)
    requires Sorted(ms)
    ensures Sorted(r) && multiset(r) == multiset(ms) + multiset{m}
    ensures forall x :: x in r <==> x == m || x in ms
    decreases |ms|
  {
    if ms == [] then [m]
    else
      var n := |ms| - 1;
      assert ms == ms[..n] + [ms[n]];
      assert multiset(ms) == multiset(ms[..n]) + multiset{ms[n]};
      if Before(m, ms[n]) then
        var q := Insert(ms[..n], m);
        InsertBeforeLast(ms, m, q);
        q + [ms[n]]
      else ms + [m]
  }

  lemma InsertBeforeLast(ms: seq<Match>, m: Match, q: seq<Match>)
    requires ms != [] && Sorted(ms) && Before(m, ms[|ms| - 1])
    requires Sorted(q) && forall x :: x in q <==> x == m || x in ms[..|ms| - 1]
    ensures Sorted(q + [ms[|ms| - 1]])
  {
    var last := ms[|ms| - 1];
    forall i | 0 <= i < |q|
      ensures !Before(last, q[i])
    {
      assert q[i] in q;
      if q[i] != m {
        var k :| 0 <= k < |ms| - 1 && ms[..|ms| - 1][k] == q[i];
        assert ms[k] == q[i];
      }
    }
  }

  /** A stable sort by (start, longer first, priority). */
  function Sort(ms: seq<Match>): (r: seq<Match>)
    ensures Sorted(r) && multiset(r) == multiset(ms)
    ensures forall x :: x in r <==> x in ms
  {
    if ms == [] then []
    else
      var n := |ms| - 1;
      assert ms == ms[..n] + [ms[n]];
      Insert(Sort(ms[..n]), ms[n])
  }

  function Candidates(text: string, found: seq<Match>): seq<Match> {
    Sort(Changing(text, found))
  }

  // ----- selection -----

  function Select(ms: seq<Match>, occupied: nat): seq<Match> {
    if ms == [] then []
    else if ms[0].start < occupied then Select(ms[1..], occupied)
    else [ms[0]] + Select(ms[1..], ms[0].end)
  }

  method CollectCandidates(text: string, found: seq<Match>) returns (candidates: seq<Match>)
    ensures candidates == Changing(text, found)
  {
    candidates := [];
    for i := 0 to |found|
      invariant candidates == Changing(text, found[..i])
    {
      assert found[..i + 1][..i] == found[..i];
      var m := found[i];
      if m.start < m.end <= |text| && text[m.start..m.end] != m.canonical {
        candidates := candidates + [m];
      }
    }
    assert found[..|found|] == found;
  }

  method SelectInOrder(candidates: seq<Match>) returns (selected: seq<Match>)
    ensures selected == Select(candidates, 0)
  {
    selected := [];
    var occupied: nat := 0;
    for i := 0 to |candidates|
      invariant Select(candidates, 0) == selected + Select(candidates[i..], occupied)
    {
      var m := candidates[i];
      assert candidates[i..][0] == m && candidates[i..][1..] == candidates[i + 1..];
      if m.start >= occupied {
        assert selected + ([m] + Select(candidates[i + 1..], m.end)) == (selected + [m]) + Select(candidates[i + 1..], m.end);
        selected := selected + [m];
        occupied := m.end;
      }
    }
    assert selected + [] == selected;
  }

  method FindRuleMatches(text: string, found: seq<Match>) returns (selected: seq<Match>)
    ensures selected == Select(Candidates(text, found), 0)
  {
    var candidates := CollectCandidates(text, found);
    candidates := Sort(candidates);
    selected := SelectInOrder(candidates);
  }

  /** Consecutive matches do not overlap. */
  ghost predicate Ordered(ms: seq<Match>, from: nat) {
    && (forall i :: 0 <= i < |ms| ==> from <= ms[i].start < ms[i].end)
    && (forall i, j :: 0 <= i < j < |ms| ==> ms[i].end <= ms[j].start)
  }

  lemma {:induction false} SelectOrdered(ms: seq<Match>, occupied: nat)
    requires forall i :: 0 <= i < |ms| ==> ms[i].start < ms[i].end
    ensures Ordered(Select(ms, occupied), occupied)
    ensures forall m :: m in Select(ms, occupied) ==> m in ms
  {
    if ms != [] {
      if ms[0].start < occupied {
        SelectOrdered(ms[1..], occupied);
      } else {
        SelectOrdered(ms[1..], ms[0].end);
      }
    }
  }

  ghost function Members(ms: seq<Match>): set<Match> {
    set m | m in ms
  }

  /** `e` comes first and still occupies the place where `c` starts. */
  predicate Blocks(e: Match, c: Match) {
    Before(e, c) && c.start < e.end
  }

  ghost predicate Blocked(s: set<Match>, c: Match) {
    exists e :: e in s && Blocks(e, c)
  }

  /** The declarative form: a candidate is chosen exactly when no chosen match blocks it. */
  ghost predicate Greedy(candidates: set<Match>, chosen: set<Match>) {
    chosen <= candidates && forall c :: c in candidates ==> (c in chosen <==> !Blocked(chosen, c))
  }

  /** Two matches of one rule never start at the same place. */
  ghost predicate Distinct(ms: seq<Match>) {
    forall i, j :: 0 <= i < j < |ms| ==> Before(ms[i], ms[j])
  }

  /** How far the matches before `k` reach is known to the loop as `occupied`. */
  lemma {:induction false} SelectBlocked(ms: seq<Match>, occupied: nat, c: Match)
    requires Distinct(ms) && c in ms && forall i :: 0 <= i < |ms| ==> ms[i].start < ms[i].end
    ensures c in Select(ms, occupied) <==> !(c.start < occupied) && !Blocked(Members(Select(ms, occupied)), c)
    decreases |ms|
  {
    var head, rest := ms[0], ms[1..];
    var next := if head.start < occupied then occupied else head.end;
    var s := Members(Select(ms, occupied));
    var t := Members(Select(rest, next));
    assert forall i :: 0 <= i < |rest| ==> rest[i] == ms[i + 1];
    SelectOrdered(rest, next);
    SelectOrdered(ms, occupied);
    assert s == if head.start < occupied then t else t + {head};
    if c == head {
      HeadNotBlocked(ms, s);
    } else {
      SelectBlocked(rest, next, c);
      TailBlocked(ms, occupied, s, t, c);
    }
  }

  /** Nothing sorts before the head, so nothing blocks it; and it occurs only once. */
  lemma HeadNotBlocked(ms: seq<Match>, s: set<Match>)
    requires Distinct(ms) && ms != [] && forall m :: m in s ==> m in ms
    ensures !Blocked(s, ms[0]) && ms[0] !in ms[1..]
  {
  }

  lemma TailBlocked(ms: seq<Match>, occupied: nat, s: set<Match>, t: set<Match>, c: Match)
    requires Distinct(ms) && ms != [] && c in ms && c != ms[0] && ms[0].start < ms[0].end
    requires s == if ms[0].start < occupied then t else t + {ms[0]}
    ensures ms[0].start < occupied ==> s == t
    ensures ms[0].start >= occupied ==> (Blocked(s, c) <==> c.start < ms[0].end || Blocked(t, c)) && occupied <= c.start
  {
  }

  /** The loop's selection is the greedy one. */
  lemma SelectIsGreedy(ms: seq<Match>)
    requires Distinct(ms) && forall i :: 0 <= i < |ms| ==> ms[i].start < ms[i].end
    ensures Greedy(Members(ms), Members(Select(ms, 0)))
  {
    SelectOrdered(ms, 0);
    forall c | c in ms
      ensures c in Select(ms, 0) <==> !Blocked(Members(Select(ms, 0)), c)
    {
      SelectBlocked(ms, 0, c);
    }
  }

  /** There is only one greedy choice. */
  lemma {:induction false} GreedyPrefixUnique(ms: seq<Match>, a: set<Match>, b: set<Match>, n: nat)
    requires Distinct(ms) && n <= |ms| && Greedy(Members(ms), a) && Greedy(Members(ms), b)
    ensures forall i :: 0 <= i < n ==> (ms[i] in a <==> ms[i] in b)
    decreases n
  {
    if n > 0 {
      var k := n - 1;
      GreedyPrefixUnique(ms, a, b, k);
      BlockedAgrees(ms, a, b, k);
    }
  }

  lemma BlockedAgrees(ms: seq<Match>, a: set<Match>, b: set<Match>, k: nat)
    requires Distinct(ms) && k < |ms| && a <= Members(ms) && b <= Members(ms)
    requires forall i :: 0 <= i < k ==> (ms[i] in a <==> ms[i] in b)
    ensures Blocked(a, ms[k]) <==> Blocked(b, ms[k])
  {
  }

  lemma GreedyUnique(ms: seq<Match>, chosen: set<Match>)
    requires Distinct(ms) && (forall i :: 0 <= i < |ms| ==> ms[i].start < ms[i].end) && Greedy(Members(ms), chosen)
    ensures chosen == Members(Select(ms, 0))
  {
    SelectIsGreedy(ms);
    SelectOrdered(ms, 0);
    GreedyPrefixUnique(ms, chosen, Members(Select(ms, 0)), |ms|);
  }

  /** Any two places of the list hold matches of different rank: a pattern yields a span once. */
  ghost predicate FoundOnce(found: seq<Match>) {
    forall i, j :: 0 <= i < j < |found| ==> Before(found[i], found[j]) || Before(found[j], found[i])
  }

  lemma {:induction false} OnceEach(ms: seq<Match>, x: Match)
    requires FoundOnce(ms)
    ensures multiset(ms)[x] <= 1
  {
    if ms != [] {
      var n := |ms| - 1;
      OnceEach(ms[..n], x);
      assert ms == ms[..n] + [ms[n]];
      forall k | 0 <= k < n
        ensures ms[..n][k] != ms[n]
      {
        assert Before(ms[k], ms[n]) || Before(ms[n], ms[k]);
      }
    }
  }

  lemma TwiceCounts(ms: seq<Match>, i: nat, j: nat)
    requires i < j < |ms| && ms[i] == ms[j]
    ensures multiset(ms)[ms[i]] >= 2
  {
    var a, b := ms[..j], ms[j..];
    assert ms == a + b && a[i] == ms[i] && b[0] == ms[i];
    assert ms[i] in a && ms[i] in b;
    assert multiset(ms) == multiset(a) + multiset(b);
  }

  lemma ChangingSnoc(text: string, found: seq<Match>, m: Match)
    ensures Changing(text, found + [m]) == Changing(text, found) || Changing(text, found + [m]) == Changing(text, found) + [m]
  {
  }

  lemma {:induction false} ChangingCounts(text: string, found: seq<Match>, x: Match)
    ensures multiset(Changing(text, found))[x] <= multiset(found)[x]
  {
    if found != [] {
      var p, m := found[..|found| - 1], found[|found| - 1];
      assert found == p + [m];
      ChangingCounts(text, p, x);
      ChangingSnoc(text, p, m);
    }
  }

  lemma CandidatesDistinct(text: string, found: seq<Match>)
    requires FoundOnce(found)
    ensures Distinct(Candidates(text, found))
  {
    var cs := Candidates(text, found);
    forall i, j | 0 <= i < j < |cs|
      ensures Before(cs[i], cs[j])
    {
      ChangingCounts(text, found, cs[i]);
      OnceEach(found, cs[i]);
      if cs[i] == cs[j] {
        TwiceCounts(cs, i, j);
      } else {
        assert cs[i] in cs && cs[j] in cs;
        var a :| 0 <= a < |found| && found[a] == cs[i];
        var b :| 0 <= b < |found| && found[b] == cs[j];
        assert !Before(cs[j], cs[i]);
      }
    }
  }

  /**
   The selection is characterised without the loop: it is the one set of
   text-changing matches in which a match is chosen exactly when no chosen match
   that sorts before it still covers its start.
   */
  lemma SelectionIsTheGreedyOne(text: string, found: seq<Match>, chosen: set<Match>)
    requires FoundOnce(found)
    ensures Greedy(Members(Changing(text, found)), chosen) <==> chosen == Members(Select(Candidates(text, found), 0))
  {
    var cs := Candidates(text, found);
    CandidatesDistinct(text, found);
    assert Members(cs) == Members(Changing(text, found));
    forall i | 0 <= i < |cs|
      ensures cs[i].start < cs[i].end
    {
      assert cs[i] in cs;
    }
    SelectIsGreedy(cs);
    if Greedy(Members(cs), chosen) {
      GreedyUnique(cs, chosen);
    }
  }

  /**
   Whatever the patterns found: the selection is ordered and disjoint, inside the
   text, and every candidate left out starts inside a selected one that beats it.
   */
  lemma SelectionIsSound(text: string, found: seq<Match>)
    ensures var cs := Candidates(text, found); var s := Select(cs, 0);
            && Ordered(s, 0) && AllFit(text, s)
            && (forall m :: m in s ==> m in found && text[m.start..m.end] != m.canonical)
            && (forall c :: c in cs && c !in s ==> exists e :: e in s && !Before(c, e) && e.start <= c.start < e.end)
  {
    var cs := Candidates(text, found);
    assert forall i :: 0 <= i < |cs| ==> cs[i] in cs;
    SelectOrdered(cs, 0);
    forall m | m in Select(cs, 0)
      ensures m in found && Fits(text, m) && text[m.start..m.end] != m.canonical
    {
    }
    forall c | c in cs && c !in Select(cs, 0)
      ensures exists e :: e in Select(cs, 0) && !Before(c, e) && e.start <= c.start < e.end
    {
      var _ := RejectedIsCovered(cs, 0, c);
    }
  }

  lemma {:induction false} RejectedIsCovered(ms: seq<Match>, occupied: nat, c: Match) returns (e: Match)
    requires Sorted(ms) && c in ms && c !in Select(ms, occupied) && occupied <= c.start
    requires forall i :: 0 <= i < |ms| ==> ms[i].start < ms[i].end
    ensures e in Select(ms, occupied) && !Before(c, e) && e.start <= c.start < e.end
    decreases |ms|
  {
    var head, rest := ms[0], ms[1..];
    assert forall i :: 0 <= i < |rest| ==> rest[i] == ms[i + 1];
    assert c == head || c in rest;
    assert !Before(c, head) && head.start <= c.start by {
      var i :| 0 <= i < |ms| && ms[i] == c;
    }
    if head.start >= occupied && c.start < head.end {
      e := head;
    } else {
      e := RejectedIsCovered(rest, if head.start < occupied then occupied else head.end, c);
    }
  }

  // ----- rewriting -----

  function Rewritten(text: string, ms: seq<Match>, cursor: nat): string
    requires cursor <= |text| && Ordered(ms, cursor) && AllFit(text, ms)
    decreases |ms|
  {
    if ms == [] then text[cursor..]
    else text[cursor..ms[0].start] + ms[0].canonical + Rewritten(text, ms[1..], ms[0].end)
  }

  /** What the service records of one replacement: where it landed, and the text it replaced. */
  datatype Applied = Applied(start: nat, end: nat, original: string)

  function Landed(text: string, ms: seq<Match>, cursor: nat, position: nat): seq<Applied>
    requires cursor <= |text| && Ordered(ms, cursor) && AllFit(text, ms)
    decreases |ms|
  {
    if ms == [] then []
    else
      var start := position + (ms[0].start - cursor);
      var end := start + |ms[0].canonical|;
      [Applied(start, end, text[ms[0].start..ms[0].end])] + Landed(text, ms[1..], ms[0].end, end)
  }

  lemma TailFits(text: string, ms: seq<Match>, cursor: nat)
    requires Ordered(ms, cursor) && AllFit(text, ms) && ms != []
    ensures cursor <= ms[0].start < ms[0].end <= |text| && Ordered(ms[1..], ms[0].end) && AllFit(text, ms[1..])
  {
  }

  /** One replacement, seen from the text produced before it. */
  lemma UnfoldRewrite(text: string, ms: seq<Match>, cursor: nat, done: string)
    requires cursor <= |text| && Ordered(ms, cursor) && AllFit(text, ms) && ms != []
    ensures var m := ms[0];
            && cursor <= m.start < m.end <= |text| && Ordered(ms[1..], m.end) && AllFit(text, ms[1..])
            && done + Rewritten(text, ms, cursor) == done + text[cursor..m.start] + m.canonical + Rewritten(text, ms[1..], m.end)
            && Landed(text, ms, cursor, |done|) ==
                 [Applied(|done| + (m.start - cursor), |done + text[cursor..m.start] + m.canonical|, text[m.start..m.end])]
                 + Landed(text, ms[1..], m.end, |done + text[cursor..m.start] + m.canonical|)
  {
    TailFits(text, ms, cursor);
    var m, gap := ms[0], text[cursor..ms[0].start];
    UnfoldText(text, ms, cursor);
    UnfoldLanded(text, ms, cursor, |done|);
    hide *;
    assert |done + gap + m.canonical| == |done| + (m.start - cursor) + |m.canonical|;
    Regroup(done, gap, m.canonical, Rewritten(text, ms[1..], m.end));
  }

  lemma UnfoldText(text: string, ms: seq<Match>, cursor: nat)
    requires cursor <= |text| && Ordered(ms, cursor) && AllFit(text, ms) && ms != []
    requires cursor <= ms[0].start < ms[0].end <= |text| && Ordered(ms[1..], ms[0].end) && AllFit(text, ms[1..])
    ensures Rewritten(text, ms, cursor) == text[cursor..ms[0].start] + ms[0].canonical + Rewritten(text, ms[1..], ms[0].end)
  {
  }

  lemma UnfoldLanded(text: string, ms: seq<Match>, cursor: nat, position: nat)
    requires cursor <= |text| && Ordered(ms, cursor) && AllFit(text, ms) && ms != []
    requires cursor <= ms[0].start < ms[0].end <= |text| && Ordered(ms[1..], ms[0].end) && AllFit(text, ms[1..])
    ensures var m := ms[0]; var start := position + (m.start - cursor);
            Landed(text, ms, cursor, position) ==
            [Applied(start, start + |m.canonical|, text[m.start..m.end])] + Landed(text, ms[1..], m.end, start + |m.canonical|)
  {
  }

  lemma Regroup(a: string, b: string, c: string, d: string)
    ensures a + ((b + c) + d) == ((a + b) + c) + d
  {
  }

  lemma RecordedSpan(done: string, gap: string, term: string, rest: string)
    ensures var out := done + gap + term + rest;
            && out[|done|..|done| + |gap|] == gap
            && out[|done| + |gap|..|done| + |gap| + |term|] == term
  {
  }

  /** The plain rewriter. */
  method ApplyNormalizationRules(text: string, matches: seq<Match>) returns (r: string)
    requires Ordered(matches, 0) && AllFit(text, matches)
    ensures r == Rewritten(text, matches, 0)
  {
    if matches == [] { return text; }
    hide *;
    var parts: string := "";
    var cursor: nat := 0;
    ghost var whole := Rewritten(text, matches, 0);
    assert "" + whole == whole;
    var i := 0;
    assert matches[0..] == matches;
    while i < |matches|
      invariant i <= |matches| && cursor <= |text| && Ordered(matches[i..], cursor) && AllFit(text, matches[i..])
      invariant parts + Rewritten(text, matches[i..], cursor) == whole
    {
      UnfoldRewrite(text, matches[i..], cursor, parts);
      var m := matches[i];
      assert matches[i..][0] == m && matches[i..][1..] == matches[i + 1..];
      parts := parts + text[cursor..m.start] + m.canonical;
      cursor := m.end;
      i := i + 1;
    }
    NothingLeft(text, cursor, 0);
    assert matches[i..] == [];
    r := parts + text[cursor..];
  }

  lemma NothingLeft(text: string, cursor: nat, position: nat)
    requires cursor <= |text|
    ensures Rewritten(text, [], cursor) == text[cursor..] && Landed(text, [], cursor, position) == []
  {
  }

  /** The state of the recording loop before its i-th match. */
  ghost predicate Midway(text: string, ms: seq<Match>, cursor: nat, parts: string, applied: seq<Applied>, whole: string, all: seq<Applied>) {
    && cursor <= |text| && Ordered(ms, cursor) && AllFit(text, ms)
    && parts + Rewritten(text, ms, cursor) == whole
    && applied + Landed(text, ms, cursor, |parts|) == all
  }

  lemma MidwayStep(text: string, ms: seq<Match>, cursor: nat, parts: string, applied: seq<Applied>, whole: string, all: seq<Applied>)
    requires ms != [] && Midway(text, ms, cursor, parts, applied, whole, all)
    ensures cursor <= ms[0].start < ms[0].end <= |text|
    ensures var kept := text[cursor..ms[0].start];
            var first := Applied(|parts| + |kept|, |parts| + |kept| + |ms[0].canonical|, text[ms[0].start..ms[0].end]);
            Midway(text, ms[1..], ms[0].end, parts + kept + ms[0].canonical, applied + [first], whole, all)
  {
  }

  /** The rewriter that also records offsets; it produces the same text. */
  method ReplaceMatches(text: string, matches: seq<Match>) returns (r: string, applied: seq<Applied>)
    requires Ordered(matches, 0) && AllFit(text, matches)
    ensures r == Rewritten(text, matches, 0) && applied == Landed(text, matches, 0, 0)
  {
    if matches == [] { return text, []; }
    var parts: string := "";
    applied := [];
    var cursor: nat, position: nat := 0, 0;
    ghost var whole, all := Rewritten(text, matches, 0), Landed(text, matches, 0, 0);
    var i := 0;
    assert Midway(text, matches[0..], 0, "", [], whole, all) by {
      assert matches[0..] == matches && "" + whole == whole && [] + all == all;
    }
    while i < |matches|
      invariant i <= |matches| && position == |parts| && Midway(text, matches[i..], cursor, parts, applied, whole, all)
    {
      hide *;
      MidwayStep(text, matches[i..], cursor, parts, applied, whole, all);
      var m := matches[i];
      assert matches[i..][0] == m && matches[i..][1..] == matches[i + 1..];
      var kept := text[cursor..m.start];
      parts := parts + kept;
      position := position + |kept|;
      var start := position;
      parts := parts + m.canonical;
      position := position + |m.canonical|;
      applied := applied + [Applied(start, position, text[m.start..m.end])];
      cursor := m.end;
      i := i + 1;
    }
    NothingLeft(text, cursor, position);
    assert matches[i..] == [];
    r := parts + text[cursor..];
    assert applied + [] == applied;
  }

  // ----- going back -----

  /** Recorded replacements, in order and inside the rewritten text. */
  ghost predicate Placed(out: string, applied: seq<Applied>, cursor: nat)
    decreases |applied|
  {
    if applied == [] then cursor <= |out|
    else cursor <= applied[0].start <= applied[0].end <= |out| && Placed(out, applied[1..], applied[0].end)
  }

  /** Put the recorded originals back at the recorded offsets. */
  function Restored(out: string, applied: seq<Applied>, cursor: nat): string
    requires Placed(out, applied, cursor)
    decreases |applied|
  {
    if applied == [] then out[cursor..]
    else out[cursor..applied[0].start] + applied[0].original + Restored(out, applied[1..], applied[0].end)
  }

  lemma UnfoldRestore(out: string, first: Applied, later: seq<Applied>, cursor: nat)
    requires cursor <= first.start <= first.end <= |out| && Placed(out, later, first.end)
    ensures Placed(out, [first] + later, cursor)
    ensures Restored(out, [first] + later, cursor) == out[cursor..first.start] + first.original + Restored(out, later, first.end)
  {
  }

  lemma SplitText(text: string, a: nat, b: nat, c: nat)
    requires a <= b <= c <= |text|
    ensures text[a..] == text[a..b] + text[b..c] + text[c..]
  {
  }

  lemma RestoredNone(text: string, cursor: nat, done: string)
    requires cursor <= |text|
    ensures var out := done + Rewritten(text, [], cursor); var applied := Landed(text, [], cursor, |done|);
            Placed(out, applied, |done|) && Restored(out, applied, |done|) == text[cursor..]
  {
  }

  lemma {:induction false} RestoredFrom(text: string, ms: seq<Match>, cursor: nat, done: string)
    requires cursor <= |text| && Ordered(ms, cursor) && AllFit(text, ms)
    ensures var out := done + Rewritten(text, ms, cursor); var applied := Landed(text, ms, cursor, |done|);
            Placed(out, applied, |done|) && Restored(out, applied, |done|) == text[cursor..]
    decreases |ms|
  {
    hide *;
    if ms == [] {
      RestoredNone(text, cursor, done);
    } else {
      TailFits(text, ms, cursor);
      var m, gap := ms[0], text[cursor..ms[0].start];
      var more := done + gap + m.canonical;
      var rest := Rewritten(text, ms[1..], m.end);
      var out := more + rest;
      var first := Applied(|done| + (m.start - cursor), |more|, text[m.start..m.end]);
      var later := Landed(text, ms[1..], m.end, |more|);
      UnfoldRewrite(text, ms, cursor, done);
      RestoredFrom(text, ms[1..], m.end, more);
      RecordedSpan(done, gap, m.canonical, rest);
      UnfoldRestore(out, first, later, |done|);
      SplitText(text, cursor, m.start, m.end);
    }
  }

  /** The i-th record names a span of `out` that holds the i-th canonical term, and keeps the text it replaced. */
  ghost predicate HoldsTerm(text: string, out: string, applied: seq<Applied>, ms: seq<Match>, i: int) {
    && 0 <= i < |ms| == |applied|
    && ms[i].start <= ms[i].end <= |text| && applied[i].original == text[ms[i].start..ms[i].end]
    && applied[i].start <= applied[i].end <= |out| && out[applied[i].start..applied[i].end] == ms[i].canonical
  }

  lemma HoldsTermLater(text: string, out: string, first: Applied, later: seq<Applied>, ms: seq<Match>, i: nat)
    requires i > 0 && ms != [] && HoldsTerm(text, out, later, ms[1..], i - 1)
    ensures HoldsTerm(text, out, [first] + later, ms, i)
  {
  }

  lemma {:induction false} LandedLength(text: string, ms: seq<Match>, cursor: nat, position: nat)
    requires cursor <= |text| && Ordered(ms, cursor) && AllFit(text, ms)
    ensures |Landed(text, ms, cursor, position)| == |ms|
    decreases |ms|
  {
    if ms != [] {
      TailFits(text, ms, cursor);
      LandedLength(text, ms[1..], ms[0].end, position + (ms[0].start - cursor) + |ms[0].canonical|);
    }
  }

  /** Each recorded span of the rewritten text holds its rule's canonical term. */
  lemma {:induction false} LandedCanonical(text: string, ms: seq<Match>, cursor: nat, done: string, i: nat)
    requires cursor <= |text| && Ordered(ms, cursor) && AllFit(text, ms) && i < |ms|
    ensures HoldsTerm(text, done + Rewritten(text, ms, cursor), Landed(text, ms, cursor, |done|), ms, i)
    decreases |ms|
  {
    hide Ordered, AllFit, Rewritten, Landed, HoldsTerm;
    TailFits(text, ms, cursor);
    var m, gap := ms[0], text[cursor..ms[0].start];
    var more := done + gap + m.canonical;
    var rest := Rewritten(text, ms[1..], m.end);
    var later := Landed(text, ms[1..], m.end, |more|);
    UnfoldRewrite(text, ms, cursor, done);
    var first := Applied(|done| + (m.start - cursor), |more|, text[m.start..m.end]);
    if i > 0 {
      LandedCanonical(text, ms[1..], m.end, more, i - 1);
      HoldsTermLater(text, more + rest, first, later, ms, i);
    } else {
      LandedLength(text, ms[1..], m.end, |more|);
      RecordedSpan(done, gap, m.canonical, rest);
      FirstHoldsTerm(text, done, gap, rest, first, later, ms);
    }
  }

  lemma FirstHoldsTerm(text: string, done: string, gap: string, rest: string, first: Applied, later: seq<Applied>, ms: seq<Match>)
    requires |ms| == |later| + 1 && ms[0].start <= ms[0].end <= |text|
    requires first == Applied(|done| + |gap|, |done| + |gap| + |ms[0].canonical|, text[ms[0].start..ms[0].end])
    ensures HoldsTerm(text, done + gap + ms[0].canonical + rest, [first] + later, ms, 0)
  {
  }

  /**
   Rewriting the selection of any found matches loses nothing: the recorded
   offsets hold the canonical terms, and putting the recorded originals back at
   them restores the input.
   */
  lemma RewriteRoundTrip(text: string, found: seq<Match>)
    ensures var ms := Select(Candidates(text, found), 0);
            && Ordered(ms, 0) && AllFit(text, ms)
            && (var out := Rewritten(text, ms, 0); var applied := Landed(text, ms, 0, 0);
                && Placed(out, applied, 0) && Restored(out, applied, 0) == text
                && forall i :: 0 <= i < |ms| ==> HoldsTerm(text, out, applied, ms, i))
  {
    var ms := Select(Candidates(text, found), 0);
    SelectionIsSound(text, found);
    RestoredFrom(text, ms, 0, "");
    hide *;
    var out := Rewritten(text, ms, 0);
    assert "" + out == out;
    forall i | 0 <= i < |ms|
      ensures HoldsTerm(text, out, Landed(text, ms, 0, 0), ms, i)
    {
      LandedCanonical(text, ms, 0, "", i);
    }
  }
}

/**
 Shrinking a meeting-summary callback after the receiver refused its size: each
 section is cut to a byte target by dropping items from its end and, at the
 last, by a binary search for the longest prefix of its one remaining item.
 */
module Compaction {
  import opened Options
  import opened Text

  const MAX_ITEMS := 500
  const SAFE_BYTES := 60_000
  const TARGET_BYTES := 50_000

  datatype Name = Summary | Decisions | NextTodos | Issues

  type Sections = map<Name, seq<string>>

  // The names in alphabetical order.
  const NAMES: seq<Name> := [Decisions, Issues, NextTodos, Summary]

  // ----- JSON sizes -----

  /** Bytes of one character in a compact UTF-8 JSON string. */
  function CharBytes(c: char): nat {
    if c == '\"' || c == '\\' || c == '\n' || c == '\r' || c == '\t' || c == '\U{8}' || c == '\U{C}' then 2
    else if c < ' ' then 6
    else if c < '\U{80}' then 1
    else if c < '\U{800}' then 2
    else if c < '\U{10000}' then 3
    else 4
  }

  function TextBytes(s: string): nat {
    if s == "" then 0 else TextBytes(s[..|s| - 1]) + CharBytes(s[|s| - 1])
  }

  /** Brackets, quotes, commas and contents. */
  function ArrayBytes(items: seq<string>): nat {
    if items == [] then 2
    else if |items| == 1 then 4 + TextBytes(items[0])
    else ArrayBytes(items[..|items| - 1]) + 3 + TextBytes(items[|items| - 1])
  }

  lemma {:induction false} TextBytesPrefix(s: string, j: nat, k: nat)
    requires j <= k <= |s|
    ensures TextBytes(s[..j]) + (k - j) <= TextBytes(s[..k])
    decreases k
  {
    if j < k {
      TextBytesPrefix(s, j, k - 1);
      assert s[..k][..k - 1] == s[..k - 1];
    }
  }

  /** Replacing the last item by a prefix of itself. */
  lemma LastShortened(items: seq<string>, t: string, k: nat)
    requires items != [] && k <= |items[|items| - 1]| && t == items[|items| - 1][..k]
    ensures ArrayBytes(items[..|items| - 1] + [t]) + (|items[|items| - 1]| - k) <= ArrayBytes(items)
  {
    var n := |items| - 1;
    var last := items[n];
    TextBytesPrefix(last, k, |last|);
    assert last[..|last|] == last;
    var new_ := items[..n] + [t];
    assert new_[..n] == items[..n];
  }

  // ----- contract of a section -----

  predicate Bulleted(t: string) {
    |t| >= 2 && (t[0] == '-' || t[0] == '*' || t[0] == '\U{2022}') && t[1] == ' '
  }

  predicate ItemOk(item: string) {
    Strip(item) != "" && !Bulleted(Strip(item))
  }

  function StripAll(items: seq<string>): (r: seq<string>)
    ensures |r| == |items| && forall i :: 0 <= i < |items| ==> r[i] == Strip(items[i])
  {
    if items == [] then [] else StripAll(items[..|items| - 1]) + [Strip(items[|items| - 1])]
  }

  /** The stripped items, or None where the contract check raises. */
  function Normalize(items: seq<string>): Option<seq<string>> {
    if |items| > MAX_ITEMS then None
    else if exists i :: 0 <= i < |items| && !ItemOk(items[i]) then None
    else if ArrayBytes(StripAll(items)) > SAFE_BYTES then None
    else Some(StripAll(items))
  }

  method NormalizeSummaryItems(items: seq<string>) returns (r: Option<seq<string>>)
    ensures r == Normalize(items)
  {
    hide Strip, Bulleted, ArrayBytes;
    if |items| > MAX_ITEMS { return None; }
    var normalized: seq<string> := [];
    for i := 0 to |items|
      invariant normalized == StripAll(items[..i]) && forall j :: 0 <= j < i ==> ItemOk(items[j])
    {
      var text := Strip(items[i]);
      if text == "" || Bulleted(text) { return None; }
      normalized := normalized + [text];
      assert items[..i + 1][..i] == items[..i];
    }
    assert items[..|items|] == items;
    if ArrayBytes(normalized) > SAFE_BYTES { return None; }
    r := Some(normalized);
  }

  /** A section as the contract check leaves it. */
  ghost predicate Clean(items: seq<string>) {
    && |items| <= MAX_ITEMS && ArrayBytes(items) <= SAFE_BYTES
    && forall i :: 0 <= i < |items| ==> Strip(items[i]) == items[i] && ItemOk(items[i])
  }

  lemma NormalizedIsClean(items: seq<string>)
    requires Normalize(items).Some?
    ensures Clean(Normalize(items).value)
  {
  }

  // ----- cutting one section -----

  predicate Fits(text: string, k: nat, max: nat)
    requires k <= |text|
  {
    ArrayBytes([text[..k]]) <= max
  }

  lemma FitsDownward(text: string, j: nat, k: nat, max: nat)
    requires j <= k <= |text| && Fits(text, k, max)
    ensures Fits(text, j, max)
  {
    TextBytesPrefix(text, j, k);
  }

  /** `k` is the length of the longest prefix that fits. */
  ghost predicate LongestFit(text: string, k: int, max: nat) {
    && 1 <= k <= |text| && Fits(text, k, max)
    && forall j: nat :: k < j <= |text| ==> !Fits(text, j, max)
  }

  /** Binary search; None is the "without becoming blank" error. */
  method TruncateItemToJsonSize(text: string, max: nat) returns (r: Option<string>)
    ensures r.Some? <==> |text| >= 1 && Fits(text, 1, max)
    ensures r.Some? ==> exists k :: LongestFit(text, k, max) && r.value == text[..k]
  {
    var low, high, best := 1, |text|, 0;
    while low <= high
      invariant 1 <= low <= |text| + 1 && 0 <= high <= |text| && low <= high + 1
      invariant best == low - 1 && (best > 0 ==> Fits(text, best, max))
      invariant forall j :: high < j <= |text| ==> !Fits(text, j, max)
      decreases high - low
    {
      var middle := (low + high) / 2;
      if ArrayBytes([text[..middle]]) <= max {
        best := middle;
        low := middle + 1;
      } else {
        forall j | middle - 1 < j <= |text|
          ensures !Fits(text, j, max)
        {
          if Fits(text, j, max) { FitsDownward(text, middle, j, max); }
        }
        high := middle - 1;
      }
    }
    if best == 0 { return None; }
    FitsDownward(text, 1, best, max);
    assert LongestFit(text, best, max);
    r := Some(text[..best]);
  }

  /** Longest fitting prefix as a function, for the specification of a cut. */
  function Truncated(text: string, k: nat, max: nat): (t: nat)
    requires k <= |text|
    ensures t <= k
  {
    if k == 0 || Fits(text, k, max) then k else Truncated(text, k - 1, max)
  }

  lemma {:induction false} TruncatedIsLongest(text: string, k: nat, max: nat)
    requires k <= |text| && forall j :: k < j <= |text| ==> !Fits(text, j, max)
    ensures var t := Truncated(text, k, max);
            t <= k && (forall j :: t < j <= |text| ==> !Fits(text, j, max)) && (t == 0 || Fits(text, t, max))
  {
    if k > 0 && !Fits(text, k, max) {
      TruncatedIsLongest(text, k - 1, max);
    }
  }

  lemma LongestFitUnique(text: string, j: int, k: int, max: nat)
    requires LongestFit(text, j, max) && LongestFit(text, k, max)
    ensures j == k
  {
  }

  function Popped(items: seq<string>): (r: seq<string>)
    ensures |r| <= |items| && r == items[..|r|] && (items != [] ==> r != [])
    ensures |r| <= 1 || ArrayBytes(r) <= TARGET_BYTES
  {
    if |items| > 1 && ArrayBytes(items) > TARGET_BYTES then Popped(items[..|items| - 1]) else items
  }

  function Cut(items: seq<string>): seq<string> {
    var p := Popped(items);
    if p != [] && ArrayBytes(p) > TARGET_BYTES then [p[0][..Truncated(p[0], |p[0]|, TARGET_BYTES)]] + p[1..] else p
  }

  /** One character of a stripped item always fits: the search cannot come back empty. */
  lemma FirstCharFits(text: string)
    requires text != ""
    ensures Fits(text, 1, TARGET_BYTES)
  {
    assert text[..1][..0] == "";
    assert TextBytes(text[..1]) == TextBytes(text[..1][..0]) + CharBytes(text[0]);
  }

  lemma TruncatedFits(text: string)
    requires text != ""
    ensures LongestFit(text, Truncated(text, |text|, TARGET_BYTES), TARGET_BYTES)
  {
    FirstCharFits(text);
    TruncatedIsLongest(text, |text|, TARGET_BYTES);
  }

  method CutSection(section: seq<string>) returns (items: seq<string>)
    requires forall i :: 0 <= i < |section| ==> section[i] != ""
    ensures items == Cut(section)
  {
    items := section;
    while |items| > 1 && ArrayBytes(items) > TARGET_BYTES
      invariant Popped(items) == Popped(section) && |items| <= |section| && items == section[..|items|]
      decreases |items|
    {
      items := items[..|items| - 1];
    }
    if items != [] && ArrayBytes(items) > TARGET_BYTES {
      var first := items[0];
      FirstCharFits(first);
      var t := TruncateItemToJsonSize(first, TARGET_BYTES);
      TruncatedFits(first);
      ghost var k :| LongestFit(first, k, TARGET_BYTES) && t.value == first[..k];
      LongestFitUnique(first, k, Truncated(first, |first|, TARGET_BYTES), TARGET_BYTES);
      items := items[0 := t.value];
    }
  }

  /** `r` is a prefix of `items` whose last item may be cut short. */
  ghost predicate Shortened(items: seq<string>, r: seq<string>) {
    && |r| <= |items|
    && (forall i :: 0 <= i < |r| - 1 ==> r[i] == items[i])
    && (r != [] ==> IsPrefix(r[|r| - 1], items[|r| - 1]))
  }

  predicate IsPrefix(a: string, b: string) {
    |a| <= |b| && a == b[..|a|]
  }

  /** Dropping items from the end only makes the array smaller. */
  lemma {:induction false} PoppedBytes(items: seq<string>)
    ensures ArrayBytes(Popped(items)) <= ArrayBytes(items)
    ensures Popped(items) != items ==> ArrayBytes(Popped(items)) < ArrayBytes(items)
  {
    if |items| > 1 && ArrayBytes(items) > TARGET_BYTES {
      PoppedBytes(items[..|items| - 1]);
      PopOne(items);
    }
  }

  lemma PopOne(items: seq<string>)
    requires items != []
    ensures ArrayBytes(items[..|items| - 1]) < ArrayBytes(items)
  {
  }

  /** A cut section meets the target, is a prefix with at most the last item shortened, and shrinks unless it met the target already. */
  lemma CutFacts(items: seq<string>)
    requires forall i :: 0 <= i < |items| ==> items[i] != ""
    ensures var r := Cut(items);
            && ArrayBytes(r) <= TARGET_BYTES && Shortened(items, r)
            && (forall i :: 0 <= i < |r| ==> r[i] != "")
            && (r == items <==> ArrayBytes(items) <= TARGET_BYTES)
            && (r != items ==> ArrayBytes(r) < ArrayBytes(items))
  {
    var p := Popped(items);
    var r := Cut(items);
    PoppedBytes(items);
    if p != [] && ArrayBytes(p) > TARGET_BYTES {
      var first := p[0];
      assert |p| == 1 && first == items[0];
      TruncatedFits(first);
      var n := Truncated(first, |first|, TARGET_BYTES);
      assert first[..|first|] == first && p == [first];
      assert r == [first[..n]] && Fits(first, n, TARGET_BYTES);
      assert n < |first|;
      LastShortened(p, first[..n], n);
      assert p[..0] + [first[..n]] == r;
    } else {
      assert r == p;
      if ArrayBytes(items) <= TARGET_BYTES { assert p == items; }
      if p != [] { assert p[|p| - 1][..|p[|p| - 1]|] == p[|p| - 1]; }
    }
  }

  // ----- the whole body -----

  function CutAll(s: Sections): Sections {
    map n | n in s :: Cut(s[n])
  }

  predicate Complete(s: Sections) {
    forall n: Name :: n in s
  }

  /** The first of the names with the largest section. */
  function Largest(s: Sections, names: seq<Name>): (r: Name)
    requires Complete(s) && names != []
    ensures r in names && forall n :: n in names ==> ArrayBytes(s[n]) <= ArrayBytes(s[r])
  {
    var k := |names| - 1;
    if k == 0 then names[0]
    else
      assert names == names[..k] + [names[k]];
      var m := Largest(s, names[..k]);
      if ArrayBytes(s[names[k]]) > ArrayBytes(s[m]) then names[k] else m
  }

  function NonEmpty(s: Sections, names: seq<Name>): (r: seq<Name>)
    requires Complete(s)
    ensures forall n :: n in r <==> n in names && s[n] != []
  {
    if names == [] then []
    else
      var k := |names| - 1;
      assert names == names[..k] + [names[k]];
      NonEmpty(s, names[..k]) + (if s[names[k]] != [] then [names[k]] else [])
  }

  /** Take one character off the last item, or the item itself when it has only one. */
  function DropTail(items: seq<string>): seq<string>
    requires items != []
  {
    var n := |items| - 1;
    if |items[n]| > 1 then items[..n] + [items[n][..|items[n]| - 1]] else items[..n]
  }

  function Shrunk(s: Sections): Option<Sections>
    requires Complete(s)
  {
    if CutAll(s) != s then Some(CutAll(s))
    else
      var names := NonEmpty(s, NAMES);
      if names == [] then None
      else Some(s[Largest(s, names) := DropTail(s[Largest(s, names)])])
  }

  predicate Valid(s: Sections) {
    Complete(s) && forall n: Name :: Normalize(s[n]).Some?
  }

  function NormalizeAll(s: Sections): Sections
    requires Valid(s)
  {
    map n | n in s :: Normalize(s[n]).value
  }

  predicate OnTarget(s: Sections) {
    forall n :: n in s ==> ArrayBytes(s[n]) <= TARGET_BYTES
  }

  /** None where the code raises: wrong keys, a section that breaks the contract, or nothing left to cut. */
  function Compact(body: Sections): Option<Sections> {
    if !Valid(body) then None
    else
      var t := Shrunk(NormalizeAll(body));
      if t.None? || !Valid(t.value) || !OnTarget(NormalizeAll(t.value)) || NormalizeAll(t.value) == body then None
      else Some(NormalizeAll(t.value))
  }

  function Total(s: Sections): nat
    requires Complete(s)
  {
    ArrayBytes(s[Summary]) + ArrayBytes(s[Decisions]) + ArrayBytes(s[NextTodos]) + ArrayBytes(s[Issues])
  }

  lemma DropTailFacts(items: seq<string>)
    requires items != [] && forall i :: 0 <= i < |items| ==> items[i] != ""
    ensures var r := DropTail(items);
            && Shortened(items, r) && ArrayBytes(r) < ArrayBytes(items)
            && forall i :: 0 <= i < |r| ==> r[i] != ""
  {
  }

  /** The contract check after a cut cannot fail, and keeps the section a shortened prefix. */
  lemma CutStaysValid(items: seq<string>, t: seq<string>)
    requires Clean(items) && Shortened(items, t) && ArrayBytes(t) <= TARGET_BYTES
    requires forall i :: 0 <= i < |t| ==> t[i] != ""
    ensures Normalize(t).Some?
    ensures var r := Normalize(t).value; Shortened(items, r) && ArrayBytes(r) <= ArrayBytes(t)
  {
    var r := StripAll(t);
    if t == [] {
      NormalizePasses(t);
    } else {
      CleanSize(items);
      hide Strip, ItemOk, ArrayBytes, IsPrefix, Clean, StripAll, Normalize;
      StrippedCut(items, t, r);
      ShortenedBytes(t, r);
      NormalizePasses(t);
    }
  }

  lemma NormalizePasses(t: seq<string>)
    requires |t| <= MAX_ITEMS && (forall i :: 0 <= i < |t| ==> ItemOk(t[i])) && ArrayBytes(StripAll(t)) <= SAFE_BYTES
    ensures Normalize(t) == Some(StripAll(t))
  {
  }

  lemma CleanSize(items: seq<string>)
    requires Clean(items)
    ensures |items| <= MAX_ITEMS
  {
  }

  lemma CleanAt(items: seq<string>, i: nat)
    requires Clean(items) && i < |items|
    ensures Strip(items[i]) == items[i] && ItemOk(items[i]) && items[i] != ""
  {
  }

  lemma ShortenedBytes(t: seq<string>, r: seq<string>)
    requires t != [] && |r| == |t| && Shortened(t, r)
    ensures ArrayBytes(r) <= ArrayBytes(t)
  {
    var n := |t| - 1;
    LastShortened(t, r[n], |r[n]|);
    assert r == t[..n] + [r[n]];
  }

  lemma StrippedCut(items: seq<string>, t: seq<string>, r: seq<string>)
    requires Clean(items) && Shortened(items, t) && t != [] && forall i :: 0 <= i < |t| ==> t[i] != ""
    requires |r| == |t| && forall i :: 0 <= i < |t| ==> r[i] == Strip(t[i])
    ensures forall i :: 0 <= i < |t| ==> ItemOk(t[i])
    ensures |r| == |t| && Shortened(t, r) && Shortened(items, r)
  {
    hide Clean, Strip, ItemOk, IsPrefix, StripAll;
    var n := |t| - 1;
    CleanAt(items, n);
    StripPrefix(items[n], t[n]);
    forall i | 0 <= i < n
      ensures r[i] == t[i] && ItemOk(t[i])
    {
      CleanAt(items, i);
    }
  }

  lemma StripPrefix(item: string, t: string)
    requires Strip(item) == item && ItemOk(item) && IsPrefix(t, item) && t != ""
    ensures ItemOk(t) && IsPrefix(Strip(t), t) && IsPrefix(Strip(t), item)
  {
    PrefixItem(item, |t|);
    hide Strip;
    assert Strip(t) == item[..|Strip(t)|];
  }

  /** A non-empty prefix of a clean item still passes the contract, and stripping it only cuts its end. */
  lemma PrefixItem(item: string, k: nat)
    requires Strip(item) == item && ItemOk(item) && 1 <= k <= |item|
    ensures var r := Strip(item[..k]); ItemOk(item[..k]) && |r| <= k && r == item[..|r|]
  {
    var t := item[..k];
    assert t[0] == item[0] && !IsSpace(t[0]);
    assert StripLeft(t) == t;
    var r := StripRight(t);
    assert r == t[..|r|];
    assert Bulleted(r) ==> Bulleted(item);
  }

  lemma CleanNotBlank(items: seq<string>)
    requires Clean(items)
    ensures forall i :: 0 <= i < |items| ==> items[i] != ""
  {
  }

  /** Section `n` after the shrink: on target, a shortened prefix, and never larger. */
  ghost predicate SectionShrunk(a: seq<string>, t: seq<string>) {
    Shortened(a, t) && ArrayBytes(t) <= TARGET_BYTES && ArrayBytes(t) <= ArrayBytes(a) && forall i :: 0 <= i < |t| ==> t[i] != ""
  }

  lemma ShrunkCases(s: Sections) returns (n: Option<Name>)
    requires Complete(s) && Shrunk(s).Some?
    ensures n.None? ==> Shrunk(s).value == CutAll(s) != s
    ensures n.Some? ==> CutAll(s) == s && s[n.value] != [] && Shrunk(s).value == s[n.value := DropTail(s[n.value])]
  {
    n := if CutAll(s) != s then None else Some(Largest(s, NonEmpty(s, NAMES)));
  }

  lemma SectionCut(s: Sections, n: Name)
    requires Complete(s) && Clean(s[n]) && Shrunk(s).Some?
    ensures n in Shrunk(s).value && SectionShrunk(s[n], Shrunk(s).value[n])
  {
    hide Shrunk, Cut, DropTail, ArrayBytes, Shortened;
    CleanNotBlank(s[n]);
    hide Clean;
    CutFacts(s[n]);
    DropTailIfAny(s[n]);
    var shorter := ShrunkCases(s);
    assert shorter.Some? ==> CutAll(s)[n] == s[n];
  }

  lemma DropTailIfAny(items: seq<string>)
    requires forall i :: 0 <= i < |items| ==> items[i] != ""
    ensures items != [] ==> Shortened(items, DropTail(items)) && ArrayBytes(DropTail(items)) < ArrayBytes(items)
                            && forall i :: 0 <= i < |DropTail(items)| ==> DropTail(items)[i] != ""
  {
  }

  /** Some section really got smaller. */
  lemma SomethingCut(s: Sections) returns (n: Name)
    requires Complete(s) && (forall m: Name :: Clean(s[m])) && Shrunk(s).Some?
    ensures n in Shrunk(s).value && ArrayBytes(Shrunk(s).value[n]) < ArrayBytes(s[n])
  {
    hide Shrunk, Cut, DropTail, ArrayBytes, Clean;
    var shorter := ShrunkCases(s);
    if shorter.None? {
      n :| n in s && CutAll(s)[n] != s[n];
      CleanNotBlank(s[n]);
      CutFacts(s[n]);
    } else {
      n := shorter.value;
      CleanNotBlank(s[n]);
      DropTailFacts(s[n]);
    }
  }

  /**
   On a body that passes the contract, compaction succeeds exactly when some
   section has an item; then every section meets the target, is a prefix of its
   normalized items with at most the last one shortened, and the total shrinks.
   */
  lemma CompactExactly(body: Sections)
    requires Valid(body)
    ensures Compact(body).Some? <==> exists n: Name :: body[n] != []
    ensures Compact(body).Some? ==> IsCompacted(NormalizeAll(body), Compact(body).value)
  {
    hide Clean, Shrunk, ArrayBytes, IsCompacted, Strip, ItemOk;
    var s := NormalizeAll(body);
    forall n: Name
      ensures n in s && Clean(s[n]) && (s[n] == [] <==> body[n] == [])
    {
      NormalizedIsClean(body[n]);
    }
    if Shrunk(s).Some? {
      ShrunkIsAccepted(body, s);
    }
    ShrinksIff(s);
  }

  /** Every section of `r` is on target and a shortened prefix of its section in `s`, and the total is smaller. */
  ghost predicate IsCompacted(s: Sections, r: Sections) {
    && Complete(s) && Valid(r) && Total(r) < Total(s)
    && forall n: Name :: ArrayBytes(r[n]) <= TARGET_BYTES && Shortened(s[n], r[n])
  }

  lemma ShrinksIff(s: Sections)
    requires Complete(s) && forall n: Name :: Clean(s[n])
    ensures Shrunk(s).Some? <==> exists n: Name :: s[n] != []
  {
    hide Clean, ArrayBytes, NonEmpty;
    forall n: Name ensures n in NAMES { AllNames(n); }
    CutNone();
    if CutAll(s) != s {
      hide Cut;
      var n :| n in s && CutAll(s)[n] != s[n];
      assert s[n] != [];
    } else if n: Name :| s[n] != [] {
      assert n in NonEmpty(s, NAMES);
    }
  }

  lemma CutNone()
    ensures Cut([]) == []
  {
  }

  lemma ShrunkIsAccepted(body: Sections, s: Sections)
    requires Valid(body) && s == NormalizeAll(body) && Shrunk(s).Some?
    ensures var t := Shrunk(s).value;
            Valid(t) && Compact(body) == Some(NormalizeAll(t)) && IsCompacted(s, NormalizeAll(t))
  {
    hide Shrunk, Normalize, Clean, Shortened, ArrayBytes, Total;
    var t := Shrunk(s).value;
    forall n: Name
      ensures Clean(s[n]) && SectionAccepted(s, t, n)
    {
      NormalizedIsClean(body[n]);
      SectionRenormalized(s, n);
    }
    var n := SomethingCut(s);
    assert Valid(t) by {
      forall m: Name ensures m in t && Normalize(t[m]).Some? { assert SectionAccepted(s, t, m); }
    }
    var r := NormalizeAll(t);
    forall m: Name
      ensures Normalize(r[m]) == Normalize(t[m]) && Shortened(s[m], r[m]) && ArrayBytes(r[m]) <= ArrayBytes(s[m]) && ArrayBytes(r[m]) <= TARGET_BYTES
    {
      assert SectionAccepted(s, t, m);
    }
    assert SectionAccepted(s, t, n);
    assert ArrayBytes(r[n]) < ArrayBytes(s[n]);
    assert s[n] == Normalize(body[n]).value && Normalize(r[n]) == Some(r[n]);
    assert r != body;
    TotalDrops(r, s, n);
  }

  ghost predicate SectionAccepted(s: Sections, t: Sections, n: Name) {
    && n in s && n in t && Normalize(t[n]).Some?
    && (var r := Normalize(t[n]).value;
        Normalize(r) == Some(r) && Shortened(s[n], r) && ArrayBytes(r) <= ArrayBytes(t[n]) <= ArrayBytes(s[n]) && ArrayBytes(r) <= TARGET_BYTES)
  }

  lemma SectionRenormalized(s: Sections, n: Name)
    requires Complete(s) && Clean(s[n]) && Shrunk(s).Some?
    ensures SectionAccepted(s, Shrunk(s).value, n)
  {
    hide Shrunk, Shortened, ArrayBytes, Normalize;
    var t := Shrunk(s).value;
    SectionCut(s, n);
    hide Clean;
    CutStaysValid(s[n], t[n]);
    NormalizeIdempotent(t[n]);
  }

  lemma TotalDrops(r: Sections, s: Sections, n: Name)
    requires Complete(r) && Complete(s) && (forall m: Name :: ArrayBytes(r[m]) <= ArrayBytes(s[m])) && ArrayBytes(r[n]) < ArrayBytes(s[n])
    ensures Total(r) < Total(s)
  {
  }

  lemma NormalizeIdempotent(items: seq<string>)
    requires Normalize(items).Some?
    ensures Normalize(Normalize(items).value) == Normalize(items)
  {
    NormalizedIsClean(items);
    var r := Normalize(items).value;
    assert StripAll(r) == r;
  }

  // ----- the procedure -----

  ghost predicate NoRepeat(names: seq<Name>) {
    forall i, j :: 0 <= i < j < |names| ==> names[i] != names[j]
  }

  function Remove(names: seq<Name>, n: Name): (r: seq<Name>)
    requires n in names && NoRepeat(names)
    ensures |r| == |names| - 1 && NoRepeat(r) && forall m :: m in r <==> m in names && m != n
  {
    if names[0] == n then
      assert names == [n] + names[1..];
      assert n !in names[1..] by { assert forall i :: 0 <= i < |names[1..]| ==> names[1..][i] == names[i + 1]; }
      names[1..]
    else
      assert names == [names[0]] + names[1..];
      assert names[0] !in names[1..] by { assert forall i :: 0 <= i < |names[1..]| ==> names[1..][i] == names[i + 1]; }
      [names[0]] + Remove(names[1..], n)
  }

  lemma AllNames(n: Name)
    ensures n in NAMES
  {
  }

  /** Cut the sections one after another, the largest first. */
  method CutSections(original: Sections) returns (sections: Sections)
    requires Complete(original) && forall n: Name :: Clean(original[n])
    ensures sections == CutAll(original)
  {
    hide Clean, Cut, ArrayBytes;
    sections := original;
    var todo := NAMES;
    forall n: Name ensures n in todo { AllNames(n); }
    while todo != []
      invariant NoRepeat(todo) && Complete(sections)
      invariant forall n: Name :: sections[n] == if n in todo then original[n] else Cut(original[n])
      decreases |todo|
    {
      var name := Largest(original, todo);
      CleanNotBlank(original[name]);
      var items := CutSection(sections[name]);
      sections := sections[name := items];
      todo := Remove(todo, name);
    }
  }

  method NormalizeSections(body: Sections) returns (r: Option<Sections>)
    requires Complete(body)
    ensures r == if Valid(body) then Some(NormalizeAll(body)) else None
  {
    hide Normalize;
    var sections: Sections := map[];
    for i := 0 to |NAMES|
      invariant sections.Keys == set n | n in NAMES[..i]
      invariant forall n :: n in NAMES[..i] ==> Normalize(body[n]) == Some(sections[n])
    {
      assert NAMES[..i + 1] == NAMES[..i] + [NAMES[i]];
      var items := NormalizeSummaryItems(body[NAMES[i]]);
      if items.None? { return None; }
      sections := sections[NAMES[i] := items.value];
    }
    assert NAMES[..|NAMES|] == NAMES;
    forall n: Name ensures n in NAMES { AllNames(n); }
    assert sections == NormalizeAll(body);
    r := Some(sections);
  }

  /** The last resort when every section already met the target. */
  method ShortenLargest(sections: Sections) returns (r: Option<Sections>)
    requires Complete(sections) && CutAll(sections) == sections
    ensures r == Shrunk(sections)
  {
    hide Cut, ArrayBytes, CutAll, NonEmpty;
    var names := NonEmpty(sections, NAMES);
    if names == [] { return None; }
    var largest := Largest(sections, names);
    var items := sections[largest];
    var last := items[|items| - 1];
    if |last| > 1 {
      items := items[|items| - 1 := last[..|last| - 1]];
    } else {
      items := items[..|items| - 1];
    }
    assert items == DropTail(sections[largest]);
    r := Some(sections[largest := items]);
  }

  method CompactCallbackBody(body: Sections) returns (r: Option<Sections>)
    ensures r == Compact(body)
  {
    hide Normalize, Clean, Cut, ArrayBytes, Strip, NonEmpty, Largest, DropTail;
    if !(Summary in body && Decisions in body && NextTodos in body && Issues in body) { return None; }
    assert Complete(body) by {
      forall n: Name ensures n in body { AllNames(n); }
    }
    var original := NormalizeSections(body);
    if original.None? { return None; }
    forall n: Name
      ensures Clean(original.value[n])
    {
      NormalizedIsClean(body[n]);
    }
    var sections := CutSections(original.value);
    if sections == original.value {
      var shorter := ShortenLargest(sections);
      if shorter.None? { return None; }
      sections := shorter.value;
    }
    var compacted := NormalizeSections(sections);
    if compacted.None? || !OnTarget(compacted.value) || compacted.value == body { return None; }
    r := compacted;
  }
}

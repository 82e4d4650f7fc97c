/**
 The order in which a change plan is applied: sort-key order, corrected so that
 a parent created by the plan precedes its children.
 */
module PlanOrder {
  import opened Options

  datatype SortKey = SortKey(startMs: int, segment: string, item: string)

  // `parent` is newParentItemId, "" when absent; `create` says that the operation creates a node.
  datatype Command = Command(create: bool, item: string, parent: string, key: SortKey)

  // ----- comparing keys -----

  predicate StringLess(a: string, b: string) {
    b != "" && (a == "" || a[0] < b[0] || (a[0] == b[0] && StringLess(a[1..], b[1..])))
  }

  predicate KeyLess(a: SortKey, b: SortKey) {
    || a.startMs < b.startMs
    || (a.startMs == b.startMs && (StringLess(a.segment, b.segment) || (a.segment == b.segment && StringLess(a.item, b.item))))
  }

  lemma {:induction false} StringOrder(a: string, b: string)
    ensures !(StringLess(a, b) && StringLess(b, a))
    ensures StringLess(a, b) || StringLess(b, a) || a == b
    ensures !StringLess(a, a)
  {
    if a != "" {
      if b != "" {
        StringOrder(a[1..], b[1..]);
        assert a == [a[0]] + a[1..] && b == [b[0]] + b[1..];
      } else {
        StringOrder(a[1..], "");
      }
    }
  }

  lemma {:induction false} StringTransitive(a: string, b: string, c: string)
    requires StringLess(a, b) && StringLess(b, c)
    ensures StringLess(a, c)
  {
    if a != "" && a[0] == b[0] == c[0] {
      StringTransitive(a[1..], b[1..], c[1..]);
    }
  }

  lemma KeyOrder(a: SortKey, b: SortKey)
    ensures !(KeyLess(a, b) && KeyLess(b, a))
    ensures KeyLess(a, b) || KeyLess(b, a) || a == b
  {
    StringOrder(a.segment, b.segment);
    StringOrder(a.item, b.item);
  }

  lemma KeyTransitive(a: SortKey, b: SortKey, c: SortKey)
    requires KeyLess(a, b) && KeyLess(b, c)
    ensures KeyLess(a, c)
  {
    if StringLess(a.segment, b.segment) && StringLess(b.segment, c.segment) { StringTransitive(a.segment, b.segment, c.segment); }
    if StringLess(a.item, b.item) && StringLess(b.item, c.item) { StringTransitive(a.item, b.item, c.item); }
  }

  // ----- the scheduler -----

  function Creates(cs: seq<Command>): set<string> {
    set c | c in cs && c.create :: c.item
  }

  predicate Refers(creates: set<string>, c: Command) {
    c.parent != "" && c.parent in creates
  }

  predicate IsReady(creates: set<string>, emitted: set<string>, c: Command) {
    Refers(creates, c) ==> c.parent in emitted
  }

  function Candidates(creates: set<string>, emitted: set<string>, cs: seq<Command>): (r: seq<Command>)
    ensures forall c :: c in r <==> c in cs && IsReady(creates, emitted, c)
  {
    if cs == [] then []
    else if IsReady(creates, emitted, cs[0]) then [cs[0]] + Candidates(creates, emitted, cs[1..])
    else Candidates(creates, emitted, cs[1..])
  }

  /** The first of the elements with the least key. */
  function Least(cs: seq<Command>): (r: Command)
    requires cs != []
    ensures r in cs && forall c :: c in cs ==> !KeyLess(c.key, r.key)
  {
    var n := |cs| - 1;
    if n == 0 then
      KeyOrder(cs[0].key, cs[0].key);
      cs[0]
    else
      var m := Least(cs[..n]);
      LeastStep(cs, m);
      if KeyLess(cs[n].key, m.key) then cs[n] else m
  }

  lemma LeastStep(cs: seq<Command>, m: Command)
    requires |cs| > 1 && m in cs[..|cs| - 1] && forall c :: c in cs[..|cs| - 1] ==> !KeyLess(c.key, m.key)
    ensures var last := cs[|cs| - 1]; var r := if KeyLess(last.key, m.key) then last else m;
            r in cs && forall c :: c in cs ==> !KeyLess(c.key, r.key)
  {
    var n := |cs| - 1;
    var last := cs[n];
    assert cs == cs[..n] + [last];
    forall c | c in cs
      ensures !KeyLess(c.key, (if KeyLess(last.key, m.key) then last else m).key)
    {
      KeyOrder(c.key, c.key);
      if KeyLess(last.key, m.key) && KeyLess(c.key, last.key) {
        KeyTransitive(c.key, last.key, m.key);
      }
    }
  }

  /** Drop the first occurrence. */
  function Without(cs: seq<Command>, c: Command): (r: seq<Command>)
    requires c in cs
    ensures |r| == |cs| - 1 && multiset(r) == multiset(cs) - multiset{c}
  {
    assert cs == [cs[0]] + cs[1..];
    if cs[0] == c then cs[1..] else [cs[0]] + Without(cs[1..], c)
  }

  function Schedule(creates: set<string>, emitted: set<string>, remaining: seq<Command>): Option<seq<Command>>
    decreases |remaining|
  {
    if remaining == [] then Some([])
    else
      var candidates := Candidates(creates, emitted, remaining);
      if candidates == [] then None
      else
        var chosen := Least(candidates);
        var rest := Schedule(creates, emitted + {chosen.item}, Without(remaining, chosen));
        if rest.None? then None else Some([chosen] + rest.value)
  }

  /** One turn of the loop. */
  lemma ScheduleStep(creates: set<string>, emitted: set<string>, remaining: seq<Command>)
    requires remaining != []
    ensures Schedule(creates, emitted, remaining) ==
            var candidates := Candidates(creates, emitted, remaining);
            if candidates == [] then None
            else
              var rest := Schedule(creates, emitted + {Least(candidates).item}, Without(remaining, Least(candidates)));
              if rest.None? then None else Some([Least(candidates)] + rest.value)
  {
  }

  ghost function Prepend(done: seq<Command>, rest: Option<seq<Command>>): Option<seq<Command>> {
    if rest.None? then None else Some(done + rest.value)
  }

  /** The loop; None is the cycle error. */
  method OrderedForApply(commands: seq<Command>) returns (r: Option<seq<Command>>)
    ensures r == Schedule(Creates(commands), {}, commands)
  {
    hide Schedule, IsReady;
    var creates := Creates(commands);
    var emitted: set<string> := {};
    var remaining := commands;
    var ordered: seq<Command> := [];
    ghost var all := Schedule(creates, {}, commands);
    assert all.Some? ==> [] + all.value == all.value;
    while remaining != []
      invariant Schedule(creates, {}, commands) == Prepend(ordered, Schedule(creates, emitted, remaining))
      decreases |remaining|
    {
      ScheduleStep(creates, emitted, remaining);
      var candidates := Candidates(creates, emitted, remaining);
      if candidates == [] {
        return None;
      }
      var chosen := Least(candidates);
      ghost var rest := Schedule(creates, emitted + {chosen.item}, Without(remaining, chosen));
      assert rest.Some? ==> ordered + ([chosen] + rest.value) == (ordered + [chosen]) + rest.value;
      ordered := ordered + [chosen];
      emitted := emitted + {chosen.item};
      remaining := Without(remaining, chosen);
    }
    ScheduleEnd(creates, emitted);
    assert ordered + [] == ordered;
    return Some(ordered);
  }

  lemma ScheduleEnd(creates: set<string>, emitted: set<string>)
    ensures Schedule(creates, emitted, []) == Some([])
  {
  }

  // ----- topological orders -----

  ghost predicate Precedes(t: seq<Command>, item: string, i: int) {
    exists j :: 0 <= j < i && j < |t| && t[j].item == item
  }

  ghost predicate ParentsFirst(creates: set<string>, emitted: set<string>, t: seq<Command>) {
    forall i :: 0 <= i < |t| && Refers(creates, t[i]) ==> t[i].parent in emitted || Precedes(t, t[i].parent, i)
  }

  /** `t` is an arrangement of the commands with every parent created by the plan before its children. */
  ghost predicate Topological(cs: seq<Command>, t: seq<Command>) {
    multiset(t) == multiset(cs) && ParentsFirst(Creates(cs), {}, t)
  }

  /** At the first place where their keys differ, `a` has the smaller one. */
  predicate Sooner(a: seq<Command>, b: seq<Command>) {
    a != [] && b != [] && (KeyLess(a[0].key, b[0].key) || (a[0].key == b[0].key && Sooner(a[1..], b[1..])))
  }

  ghost predicate UniqueItems(cs: seq<Command>) {
    forall c, d :: c in cs && d in cs && c.item == d.item ==> c == d
  }

  /** No two commands have the same sort key; so it is when the planner repeats unique item ids in the keys. */
  ghost predicate DistinctKeys(cs: seq<Command>) {
    forall c, d :: c in cs && d in cs && c.key == d.key ==> c == d
  }

  /** The loop never meets two ready commands that share the least key. */
  ghost predicate TieFree(creates: set<string>, emitted: set<string>, remaining: seq<Command>)
    decreases |remaining|
  {
    remaining == [] ||
    var candidates := Candidates(creates, emitted, remaining);
    candidates == [] ||
    (&& OneLeast(candidates)
     && TieFree(creates, emitted + {Least(candidates).item}, Without(remaining, Least(candidates))))
  }

  ghost predicate OneLeast(candidates: seq<Command>)
    requires candidates != []
  {
    forall c :: c in candidates && c.key == Least(candidates).key ==> c == Least(candidates)
  }

  lemma SameMembers(a: seq<Command>, b: seq<Command>)
    requires multiset(a) == multiset(b)
    ensures forall c :: c in a <==> c in b
    ensures |a| == |b| && Creates(a) == Creates(b)
  {
    assert forall c :: c in a <==> c in multiset(a);
    assert forall c :: c in b <==> c in multiset(b);
    assert |a| == |multiset(a)| && |b| == |multiset(b)|;
  }

  /** A found schedule is an arrangement of the remaining commands with parents first. */
  lemma {:induction false} ScheduleSound(creates: set<string>, emitted: set<string>, remaining: seq<Command>)
    requires Schedule(creates, emitted, remaining).Some?
    ensures var t := Schedule(creates, emitted, remaining).value;
            multiset(t) == multiset(remaining) && ParentsFirst(creates, emitted, t)
    decreases |remaining|
  {
    if remaining != [] {
      var chosen := Least(Candidates(creates, emitted, remaining));
      var less := Without(remaining, chosen);
      ScheduleSound(creates, emitted + {chosen.item}, less);
      var rest := Schedule(creates, emitted + {chosen.item}, less).value;
      var t := [chosen] + rest;
      assert multiset(t) == multiset{chosen} + multiset(rest);
      PrependParentsFirst(creates, emitted, chosen, rest);
    }
  }

  lemma PrependParentsFirst(creates: set<string>, emitted: set<string>, c: Command, rest: seq<Command>)
    requires IsReady(creates, emitted, c) && ParentsFirst(creates, emitted + {c.item}, rest)
    ensures ParentsFirst(creates, emitted, [c] + rest)
  {
    var t := [c] + rest;
    forall i | 0 <= i < |t| && Refers(creates, t[i])
      ensures t[i].parent in emitted || Precedes(t, t[i].parent, i)
    {
      if i > 0 {
        var k := i - 1;
        assert t[i] == rest[k];
        if rest[k].parent == c.item {
          assert t[0].item == t[i].parent;
        } else if rest[k].parent !in emitted {
          assert Precedes(rest, rest[k].parent, k);
          var j :| 0 <= j < k && j < |rest| && rest[j].item == rest[k].parent;
          assert t[j + 1] == rest[j];
        }
      }
    }
  }

  lemma DropParentsFirst(creates: set<string>, emitted: set<string>, t: seq<Command>)
    requires t != [] && ParentsFirst(creates, emitted, t)
    ensures IsReady(creates, emitted, t[0]) && ParentsFirst(creates, emitted + {t[0].item}, t[1..])
  {
  }

  /** Without ties the schedule comes sooner than any other arrangement with parents first. */
  lemma {:induction false} ScheduleLeast(creates: set<string>, emitted: set<string>, remaining: seq<Command>, t: seq<Command>)
    requires TieFree(creates, emitted, remaining) && Schedule(creates, emitted, remaining).Some?
    requires multiset(t) == multiset(remaining) && ParentsFirst(creates, emitted, t)
    ensures t == Schedule(creates, emitted, remaining).value || Sooner(Schedule(creates, emitted, remaining).value, t)
    decreases |remaining|
  {
    hide KeyLess, ParentsFirst, IsReady, Creates;
    SameMembers(t, remaining);
    if remaining != [] {
      var candidates := Candidates(creates, emitted, remaining);
      var chosen := Least(candidates);
      DropParentsFirst(creates, emitted, t);
      assert t[0] in candidates;
      KeyOrder(chosen.key, t[0].key);
      if chosen.key == t[0].key {
        assert chosen == t[0] && t == [t[0]] + t[1..];
        var less := Without(remaining, chosen);
        RestMatches(remaining, t);
        hide Candidates, Least, Without;
        ScheduleLeast(creates, emitted + {chosen.item}, less, t[1..]);
      }
    }
  }

  lemma RestMatches(remaining: seq<Command>, t: seq<Command>)
    requires t != [] && multiset(t) == multiset(remaining) && t[0] in remaining
    ensures multiset(t[1..]) == multiset(Without(remaining, t[0]))
  {
    assert t == [t[0]] + t[1..];
    assert multiset(t) == multiset{t[0]} + multiset(t[1..]);
  }

  lemma WithoutMembers(cs: seq<Command>, c: Command)
    requires c in cs
    ensures forall d :: d in Without(cs, c) ==> d in cs
  {
  }

  // ----- cycles -----

  /** Each command's parent is created by the next one, and the last one's by the first. */
  ghost predicate Cycle(cs: seq<Command>, p: seq<Command>) {
    && p != []
    && (forall i :: 0 <= i < |p| ==> p[i] in cs && Refers(Creates(cs), p[i]))
    && Linked(p)
    && p[0].item == p[|p| - 1].parent
  }

  ghost predicate Cyclic(cs: seq<Command>) {
    exists p :: Cycle(cs, p)
  }

  /** Nothing can go first on a cycle. */
  lemma CyclicHasNoOrder(cs: seq<Command>, p: seq<Command>, t: seq<Command>)
    requires UniqueItems(cs) && Cycle(cs, p)
    ensures !Topological(cs, t)
  {
    if Topological(cs, t) {
      var last := p[|p| - 1];
      hide Topological, UniqueItems, Creates, Refers, Linked, Position;
      Descend(cs, p, t, |p| - 1);
      ParentEarlier(cs, t, last, p[0]);
    }
  }

  /** Position of the first occurrence. */
  ghost function Position(t: seq<Command>, c: Command): (i: nat)
    requires c in t
    ensures i < |t| && t[i] == c && forall j :: 0 <= j < i ==> t[j] != c
  {
    if t[0] == c then 0 else Position(t[1..], c) + 1
  }

  lemma ParentEarlier(cs: seq<Command>, t: seq<Command>, c: Command, parent: Command)
    requires UniqueItems(cs) && Topological(cs, t) && c in cs && parent in cs && Refers(Creates(cs), c) && parent.item == c.parent
    ensures c in t && parent in t && Position(t, parent) < Position(t, c)
  {
    SameMembers(t, cs);
    var i := Position(t, c);
    assert Precedes(t, t[i].parent, i);
    var j :| 0 <= j < i && j < |t| && t[j].item == t[i].parent;
    assert t[j] in t && t[j] == parent;
  }

  lemma InOrder(cs: seq<Command>, t: seq<Command>, c: Command)
    requires Topological(cs, t) && c in cs
    ensures c in t
  {
    SameMembers(t, cs);
  }

  lemma CycleStep(cs: seq<Command>, p: seq<Command>, m: nat)
    requires Cycle(cs, p) && m + 1 < |p|
    ensures p[m] in cs && p[m + 1] in cs && Refers(Creates(cs), p[m]) && p[m + 1].item == p[m].parent
  {
    assert LinkAt(p, m);
  }

  lemma {:induction false} Descend(cs: seq<Command>, p: seq<Command>, t: seq<Command>, k: nat)
    requires UniqueItems(cs) && Cycle(cs, p) && Topological(cs, t) && k < |p|
    ensures p[0] in t && p[k] in t && Position(t, p[k]) <= Position(t, p[0])
  {
    hide Topological, UniqueItems, Position;
    InOrder(cs, t, p[0]);
    if k > 0 {
      var m := k - 1;
      Descend(cs, p, t, m);
      CycleStep(cs, p, m);
      hide Cycle;
      ParentEarlier(cs, t, p[m], p[k]);
    }
  }

  ghost predicate HasParentIn(s: set<Command>, c: Command) {
    exists d :: d in s && d.item == c.parent
  }

  /** When nothing is ready, every remaining command waits for a remaining command. */
  ghost predicate Waiting(creates: set<string>, s: set<Command>) {
    forall c :: c in s ==> Refers(creates, c) && HasParentIn(s, c)
  }

  ghost predicate LinkAt(w: seq<Command>, i: int) {
    0 <= i < |w| - 1 && w[i + 1].item == w[i].parent
  }

  ghost predicate Linked(w: seq<Command>) {
    forall i :: 0 <= i < |w| - 1 ==> LinkAt(w, i)
  }

  lemma LinkedSlice(w: seq<Command>, i: nat, j: nat)
    requires Linked(w) && i < j <= |w|
    ensures Linked(w[i..j])
  {
    forall k | 0 <= k < |w[i..j]| - 1
      ensures LinkAt(w[i..j], k)
    {
      assert LinkAt(w, i + k);
    }
  }

  lemma ParentIn(creates: set<string>, s: set<Command>, c: Command) returns (d: Command)
    requires c in s && Waiting(creates, s)
    ensures d in s && d.item == c.parent
  {
    assert HasParentIn(s, c);
    d :| d in s && d.item == c.parent;
  }

  /** Follow parents `n` times. */
  lemma {:induction false} WalkParents(creates: set<string>, s: set<Command>, start: Command, n: nat) returns (w: seq<Command>)
    requires start in s && Waiting(creates, s)
    ensures |w| == n + 1 && (forall i :: 0 <= i < |w| ==> w[i] in s)
    ensures Linked(w)
  {
    hide Waiting;
    if n == 0 {
      w := [start];
    } else {
      var v := WalkParents(creates, s, start, n - 1);
      var last := v[n - 1];
      var d := ParentIn(creates, s, last);
      w := v + [d];
      forall i | 0 <= i < |w| - 1
        ensures LinkAt(w, i)
      {
        assert i < n - 1 ==> LinkAt(v, i);
      }
    }
  }

  /** More places than values: some value repeats. */
  lemma {:induction false} Pigeonhole(s: set<Command>, w: seq<Command>) returns (i: nat, j: nat)
    requires |w| > |s| && forall k :: 0 <= k < |w| ==> w[k] in s
    ensures i < j < |w| && w[i] == w[j]
    decreases |w|
  {
    var n := |w| - 1;
    if k :| 0 <= k < n && w[k] == w[n] {
      i, j := k, n;
    } else {
      i, j := Pigeonhole(s - {w[n]}, w[..n]);
    }
  }

  lemma WaitingHasCycle(cs: seq<Command>, s: set<Command>)
    requires s != {} && Waiting(Creates(cs), s) && forall c :: c in s ==> c in cs
    ensures Cyclic(cs)
  {
    hide Creates, Refers, HasParentIn;
    var start :| start in s;
    var w := WalkParents(Creates(cs), s, start, |s|);
    var i, j := Pigeonhole(s, w);
    var p := w[i..j];
    LinkedSlice(w, i, j);
    assert LinkAt(w, j - 1);
    assert p[0] == w[i] == w[j] && p[|p| - 1] == w[j - 1];
    hide Linked;
    forall k | 0 <= k < |p|
      ensures p[k] in cs && Refers(Creates(cs), p[k])
    {
      assert p[k] == w[i + k];
    }
    assert Cycle(cs, p);
  }

  /** Items the plan creates are emitted or still to come. */
  ghost predicate Pending(creates: set<string>, emitted: set<string>, remaining: seq<Command>) {
    forall x :: x in creates && x !in emitted ==> Awaited(remaining, x)
  }

  ghost predicate Awaited(remaining: seq<Command>, x: string) {
    exists c :: c in remaining && c.item == x
  }

  lemma PendingAfter(creates: set<string>, emitted: set<string>, remaining: seq<Command>, chosen: Command)
    requires Pending(creates, emitted, remaining) && chosen in remaining
    ensures Pending(creates, emitted + {chosen.item}, Without(remaining, chosen))
  {
    var less := Without(remaining, chosen);
    forall x | x in creates && x !in emitted + {chosen.item}
      ensures Awaited(less, x)
    {
      assert Awaited(remaining, x);
      var c :| c in remaining && c.item == x;
      assert c in multiset(remaining) && c in multiset(less);
    }
  }

  lemma NoneReadyIsCyclic(cs: seq<Command>, emitted: set<string>, remaining: seq<Command>)
    requires remaining != [] && forall c :: c in remaining ==> c in cs && !IsReady(Creates(cs), emitted, c)
    requires Pending(Creates(cs), emitted, remaining)
    ensures Cyclic(cs)
  {
    hide Creates, HasParentIn, Pending, IsReady, Refers;
    var s := set c | c in remaining;
    forall c | c in s
      ensures Refers(Creates(cs), c) && HasParentIn(s, c)
    {
      WaitsForAnother(Creates(cs), emitted, remaining, s, c);
    }
    assert remaining[0] in s;
    WaitingHasCycle(cs, s);
  }

  lemma WaitsForAnother(creates: set<string>, emitted: set<string>, remaining: seq<Command>, s: set<Command>, c: Command)
    requires Pending(creates, emitted, remaining) && !IsReady(creates, emitted, c) && forall d :: d in remaining ==> d in s
    ensures Refers(creates, c) && HasParentIn(s, c)
  {
  }

  /** The scheduler gives up only on a cycle. */
  lemma {:induction false} FailureIsCyclic(cs: seq<Command>, emitted: set<string>, remaining: seq<Command>)
    requires forall c :: c in remaining ==> c in cs
    requires Pending(Creates(cs), emitted, remaining)
    requires Schedule(Creates(cs), emitted, remaining).None?
    ensures Cyclic(cs)
    decreases |remaining|
  {
    hide Creates, Pending, Cyclic, IsReady;
    var candidates := Candidates(Creates(cs), emitted, remaining);
    if candidates == [] {
      assert forall c :: c in remaining ==> c !in candidates;
      NoneReadyIsCyclic(cs, emitted, remaining);
    } else {
      var chosen := Least(candidates);
      WithoutMembers(remaining, chosen);
      PendingAfter(Creates(cs), emitted, remaining, chosen);
      FailureIsCyclic(cs, emitted + {chosen.item}, Without(remaining, chosen));
    }
  }

  // ----- main results -----

  /** With unique item ids, the order exists exactly when no in-plan parent references form a cycle. */
  lemma OrderExistsIff(cs: seq<Command>)
    requires UniqueItems(cs)
    ensures Schedule(Creates(cs), {}, cs).None? <==> Cyclic(cs)
  {
    if Schedule(Creates(cs), {}, cs).None? {
      FailureIsCyclic(cs, {}, cs);
    } else if Cyclic(cs) {
      var p :| Cycle(cs, p);
      ScheduleSound(Creates(cs), {}, cs);
      CyclicHasNoOrder(cs, p, Schedule(Creates(cs), {}, cs).value);
    }
  }

  function Order(cs: seq<Command>): Option<seq<Command>> {
    Schedule(Creates(cs), {}, cs)
  }

  /** `s` is a topological order that comes sooner than every other one. */
  ghost predicate IsLeastOrder(cs: seq<Command>, s: seq<Command>) {
    Topological(cs, s) && forall t :: Topological(cs, t) ==> t == s || Sooner(s, t)
  }

  /** On a plan without cycles and ties the order is the lexicographically least topological order. */
  lemma OrderIsLeast(cs: seq<Command>)
    requires UniqueItems(cs) && !Cyclic(cs) && TieFree(Creates(cs), {}, cs)
    ensures Order(cs).Some? && IsLeastOrder(cs, Order(cs).value)
  {
    OrderExistsIff(cs);
    ScheduleSound(Creates(cs), {}, cs);
    forall t | Topological(cs, t)
      ensures t == Order(cs).value || Sooner(Order(cs).value, t)
    {
      ScheduleLeast(Creates(cs), {}, cs, t);
    }
  }

  /**
   A child of an in-plan parent finds it: the creating command itself has been
   applied, so the "not created by this plan" error is left to references that
   name nothing the plan creates.
   */
  lemma ParentIsCreatedFirst(cs: seq<Command>, t: seq<Command>, i: nat) returns (j: nat)
    requires UniqueItems(cs) && Topological(cs, t) && i < |t| && Refers(Creates(cs), t[i])
    ensures j < i && t[j].create && t[j].item == t[i].parent
  {
    SameMembers(t, cs);
    assert Precedes(t, t[i].parent, i);
    j :| 0 <= j < i && j < |t| && t[j].item == t[i].parent;
    var c :| c in cs && c.create && c.item == t[i].parent;
    assert t[j] in cs;
  }

  // ----- input order -----

  /** Distinct sort keys leave no tie to meet. */
  lemma {:induction false} DistinctKeysTieFree(creates: set<string>, emitted: set<string>, remaining: seq<Command>)
    requires DistinctKeys(remaining)
    ensures TieFree(creates, emitted, remaining)
    decreases |remaining|
  {
    var candidates := Candidates(creates, emitted, remaining);
    if remaining != [] && candidates != [] {
      WithoutMembers(remaining, Least(candidates));
      DistinctKeysTieFree(creates, emitted + {Least(candidates).item}, Without(remaining, Least(candidates)));
    }
  }

  /** The same candidates in another order have the same least one, when only one has its key. */
  lemma SameLeast(a: seq<Command>, b: seq<Command>)
    requires a != [] && b != [] && (forall c :: c in a <==> c in b) && OneLeast(a)
    ensures Least(a) == Least(b)
  {
    KeyOrder(Least(a).key, Least(b).key);
  }

  lemma {:induction false} TieFreeSame(creates: set<string>, emitted: set<string>, r: seq<Command>, q: seq<Command>)
    requires TieFree(creates, emitted, r) && multiset(r) == multiset(q)
    ensures Schedule(creates, emitted, r) == Schedule(creates, emitted, q)
    decreases |r|
  {
    SameMembers(r, q);
    if r != [] {
      var a, b := Candidates(creates, emitted, r), Candidates(creates, emitted, q);
      assert forall c :: c in a <==> c in b;
      assert a == [] <==> b == [] by {
        assert a != [] ==> a[0] in b;
        assert b != [] ==> b[0] in a;
      }
      if a != [] {
        SameLeast(a, b);
        var chosen := Least(a);
        assert multiset(Without(r, chosen)) == multiset(Without(q, chosen));
        TieFreeSame(creates, emitted + {chosen.item}, Without(r, chosen), Without(q, chosen));
      }
    }
  }

  /** Among equal keys the first in the list is taken. */
  lemma {:induction false} LeastFirst(cs: seq<Command>)
    requires cs != [] && forall c :: c in cs ==> !KeyLess(c.key, cs[0].key)
    ensures Least(cs) == cs[0]
  {
    var n := |cs| - 1;
    if n > 0 {
      LeastFirst(cs[..n]);
      assert cs[n] in cs;
    }
  }

  /** Where a tie is met, another input order of the same commands gives another result. */
  lemma {:induction false} TieMatters(creates: set<string>, emitted: set<string>, r: seq<Command>) returns (q: seq<Command>)
    requires !TieFree(creates, emitted, r) && Schedule(creates, emitted, r).Some?
    ensures multiset(q) == multiset(r) && Schedule(creates, emitted, q) != Schedule(creates, emitted, r)
    decreases |r|
  {
    TieCases(creates, emitted, r);
    hide *;
    var candidates := Candidates(creates, emitted, r);
    if OneLeast(candidates) {
      var chosen := Least(candidates);
      var less := TieMatters(creates, emitted + {chosen.item}, Without(r, chosen));
      q := [chosen] + less;
      ConsSchedule(creates, emitted, r, less);
      var rest, other := Schedule(creates, emitted + {chosen.item}, Without(r, chosen)), Schedule(creates, emitted + {chosen.item}, less);
      assert other.Some? ==> ([chosen] + other.value)[1..] == other.value && ([chosen] + rest.value)[1..] == rest.value;
    } else {
      var d := TiedCandidate(creates, emitted, r);
      q := [d] + Without(r, d);
      FirstTied(creates, emitted, r, d);
    }
  }

  lemma TieCases(creates: set<string>, emitted: set<string>, r: seq<Command>)
    requires !TieFree(creates, emitted, r) && Schedule(creates, emitted, r).Some?
    ensures var candidates := Candidates(creates, emitted, r);
            && candidates != [] && Least(candidates) in r
            && (var chosen := Least(candidates);
                var less := Without(r, chosen);
                var rest := Schedule(creates, emitted + {chosen.item}, less);
                && |less| < |r| && rest.Some? && Schedule(creates, emitted, r) == Some([chosen] + rest.value)
                && (OneLeast(candidates) ==> !TieFree(creates, emitted + {chosen.item}, less)))
  {
  }

  lemma TiedCandidate(creates: set<string>, emitted: set<string>, r: seq<Command>) returns (d: Command)
    requires Candidates(creates, emitted, r) != [] && !OneLeast(Candidates(creates, emitted, r))
    ensures d in r && d in Candidates(creates, emitted, r)
    ensures d.key == Least(Candidates(creates, emitted, r)).key && d != Least(Candidates(creates, emitted, r))
  {
    d :| d in Candidates(creates, emitted, r) && d.key == Least(Candidates(creates, emitted, r)).key && d != Least(Candidates(creates, emitted, r));
  }

  lemma ConsSchedule(creates: set<string>, emitted: set<string>, r: seq<Command>, less: seq<Command>)
    requires Candidates(creates, emitted, r) != [] && OneLeast(Candidates(creates, emitted, r))
    requires multiset(less) == multiset(Without(r, Least(Candidates(creates, emitted, r))))
    ensures var chosen := Least(Candidates(creates, emitted, r));
            && multiset([chosen] + less) == multiset(r)
            && Schedule(creates, emitted, [chosen] + less) ==
               (var rest := Schedule(creates, emitted + {chosen.item}, less); if rest.None? then None else Some([chosen] + rest.value))
  {
    var a := Candidates(creates, emitted, r);
    var chosen := Least(a);
    var q := [chosen] + less;
    assert multiset(q) == multiset{chosen} + multiset(less);
    SameMembers(q, r);
    var b := Candidates(creates, emitted, q);
    assert forall c :: c in a <==> c in b;
    assert chosen in b;
    SameLeast(a, b);
    assert Without(q, chosen) == less;
  }

  lemma FirstTied(creates: set<string>, emitted: set<string>, r: seq<Command>, d: Command)
    requires d in Candidates(creates, emitted, r) && d.key == Least(Candidates(creates, emitted, r)).key
    ensures multiset([d] + Without(r, d)) == multiset(r)
    ensures var out := Schedule(creates, emitted, [d] + Without(r, d)); out.Some? ==> out.value != [] && out.value[0] == d
  {
    var q := [d] + Without(r, d);
    var b := Candidates(creates, emitted, q);
    assert multiset(q) == multiset{d} + multiset(Without(r, d)) == multiset(r);
    SameMembers(q, r);
    assert q[1..] == Without(r, d);
    assert b[0] == d;
    forall c | c in b
      ensures !KeyLess(c.key, b[0].key)
    {
      assert c in Candidates(creates, emitted, r);
    }
    LeastFirst(b);
  }

  ghost predicate InputOrderIrrelevant(cs: seq<Command>) {
    forall ds :: multiset(ds) == multiset(cs) ==> Order(ds) == Order(cs)
  }

  /** With unique ids: every input order gives the same result exactly when the plan is cyclic or no tie is met. */
  lemma InputOrderIrrelevantIff(cs: seq<Command>)
    requires UniqueItems(cs)
    ensures InputOrderIrrelevant(cs) <==> Cyclic(cs) || TieFree(Creates(cs), {}, cs)
  {
    OrderExistsIff(cs);
    if Cyclic(cs) {
      forall ds | multiset(ds) == multiset(cs)
        ensures Order(ds) == Order(cs)
      {
        SameMembers(ds, cs);
        var p :| Cycle(cs, p);
        assert Cycle(ds, p);
        OrderExistsIff(ds);
      }
    } else if TieFree(Creates(cs), {}, cs) {
      forall ds | multiset(ds) == multiset(cs)
        ensures Order(ds) == Order(cs)
      {
        SameMembers(ds, cs);
        TieFreeSame(Creates(cs), {}, cs, ds);
      }
    } else {
      var q := TieMatters(Creates(cs), {}, cs);
      SameMembers(q, cs);
      assert Order(q) != Order(cs);
    }
  }

  /** Every input order gives the least topological order exactly when no tie is met. */
  lemma OrderIsLeastIff(cs: seq<Command>)
    requires UniqueItems(cs) && !Cyclic(cs)
    ensures (forall ds :: multiset(ds) == multiset(cs) ==> Order(ds).Some? && IsLeastOrder(cs, Order(ds).value))
            <==> TieFree(Creates(cs), {}, cs)
  {
    InputOrderIrrelevantIff(cs);
    if TieFree(Creates(cs), {}, cs) {
      OrderIsLeast(cs);
    } else {
      OrderExistsIff(cs);
      var ds :| multiset(ds) == multiset(cs) && Order(ds) != Order(cs);
      if Order(ds).Some? && IsLeastOrder(cs, Order(ds).value) && IsLeastOrder(cs, Order(cs).value) {
        SoonerIsStrict(Order(ds).value, Order(cs).value);
      }
      assert multiset(cs) == multiset(cs);
    }
  }

  lemma {:induction false} SoonerIsStrict(a: seq<Command>, b: seq<Command>)
    ensures !(Sooner(a, b) && Sooner(b, a))
    decreases |a|
  {
    if a != [] && b != [] {
      KeyOrder(a[0].key, b[0].key);
      SoonerIsStrict(a[1..], b[1..]);
    }
  }

  // ----- a tie -----

  /** Two creates whose sort keys were left at the schema's defaults. */
  function Defaulted(item: string): Command {
    Command(true, item, "", SortKey(2_147_483_647, "", ""))
  }

  /** Unique ids do not keep the input order out of the result. */
  lemma DefaultKeysTie()
    ensures var a, b := Defaulted("a"), Defaulted("b");
            && UniqueItems([a, b]) && !DistinctKeys([a, b])
            && Order([a, b]) == Some([a, b]) && Order([b, a]) == Some([b, a])
  {
    assert "a"[0] != "b"[0];
    TiedPair(Defaulted("a"), Defaulted("b"));
  }

  lemma TiedPair(a: Command, b: Command)
    requires a.create && b.create && a.parent == "" && b.parent == "" && a.key == b.key && a.item != b.item
    ensures UniqueItems([a, b]) && !DistinctKeys([a, b])
    ensures Order([a, b]) == Some([a, b]) && Order([b, a]) == Some([b, a])
  {
    hide Order;
    OrderOfTwo(a, b);
    OrderOfTwo(b, a);
    assert a in [a, b] && b in [a, b];
  }

  lemma OrderOfTwo(a: Command, b: Command)
    requires a.create && b.create && a.parent == "" && b.parent == "" && a.key == b.key
    ensures Order([a, b]) == Some([a, b])
  {
    hide KeyLess;
    var two := [a, b];
    KeyOrder(a.key, b.key);
    assert two[1..] == [b];
    RootsAreReady(Creates(two), {}, two);
    assert Least(two) == a by { LeastFirst(two); }
    assert Without(two, a) == [b];
    OrderOfOne(Creates(two), {} + {a.item}, b);
    ScheduleStep(Creates(two), {}, two);
    hide *;
    assert [a] + [b] == two;
    OrderIs(two);
  }

  lemma OrderIs(cs: seq<Command>)
    ensures Order(cs) == Schedule(Creates(cs), {}, cs)
  {
  }

  lemma OrderOfOne(creates: set<string>, emitted: set<string>, b: Command)
    requires b.parent == ""
    ensures Schedule(creates, emitted, [b]) == Some([b])
  {
    RootsAreReady(creates, emitted, [b]);
    ScheduleStep(creates, emitted, [b]);
    assert Without([b], b) == [];
    ScheduleEnd(creates, emitted + {b.item});
    assert [b] + [] == [b];
  }

  lemma {:induction false} RootsAreReady(creates: set<string>, emitted: set<string>, cs: seq<Command>)
    requires forall c :: c in cs ==> c.parent == ""
    ensures Candidates(creates, emitted, cs) == cs
  {
    if cs != [] {
      RootsAreReady(creates, emitted, cs[1..]);
      assert cs == [cs[0]] + cs[1..];
    }
  }
}

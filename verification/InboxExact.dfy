/** What each command writes and answers, and when it is refused with which code, exactly. */
module InboxExact {
  import opened Options
  import opened GraphModel
  import opened GraphMerge
  import opened GraphDelete
  import opened Text
  import opened CommandInbox

  /** A live, unmerged node of the project at the expected version. */
  predicate Editable(g: Graph, p: ProjectId, x: NodeId, expected: nat) {
    && x in g.nodes && g.nodes[x].project == p && g.nodes[x].state != Deleted
    && g.nodes[x].state != Merged && g.nodes[x].mergedInto.None? && g.nodes[x].version == expected
  }

  /** The current revision can be carried on: it exists, with evidence if it must have some. */
  predicate HasRevision(n: Node) {
    n.revision.Some? && !(n.revision.value.requiresEvidence && n.revision.value.evidence == [])
  }

  /** The checks of one node, in their order: which code its failure has. */
  predicate FailsWith(g: Graph, p: ProjectId, x: NodeId, expected: nat, code: Code) {
    match code
    case NodeNotFound => !(x in g.nodes && g.nodes[x].project == p)
    case NodeNotEditable => x in g.nodes && g.nodes[x].project == p && g.nodes[x].state == Deleted
    case MergedSourceNotEditable =>
      && x in g.nodes && g.nodes[x].project == p && g.nodes[x].state != Deleted
      && (g.nodes[x].state == Merged || g.nodes[x].mergedInto.Some?)
    case NodeVersionConflict =>
      && x in g.nodes && g.nodes[x].project == p && g.nodes[x].state != Deleted
      && g.nodes[x].state != Merged && g.nodes[x].mergedInto.None? && g.nodes[x].version != expected
    case InvalidCurrentRevision => Editable(g, p, x, expected) && !HasRevision(g.nodes[x])
    case _ => false
  }

  /** The member's edit of one row: title and content as given, everything else kept, one version more. */
  predicate EditedTo(n: Node, m: Node, title: string, content: string, member: string) {
    && m.title == title && m.content == content && m.version == n.version + 1 && m.lastActor == User
    && m.project == n.project && m.kind == n.kind && m.category == n.category && m.state == n.state
    && m.parent == n.parent && m.mergedInto == n.mergedInto && m.needsAttention == n.needsAttention
    && n.revision.Some? && m.revision.Some?
    && match m.revision.value case Revision(author, authorId, run, evidence, requiresEvidence) =>
         && author == User && authorId == member && run.None?
         && evidence == n.revision.value.evidence && requiresEvidence == n.revision.value.requiresEvidence
  }

  // ----- verdicts -----

  /** Neither the given title, stripped, nor the given content differs from what is stored; an absent one never does. */
  predicate BringsNothing(n: Node, title: Option<string>, content: Option<string>) {
    (title.None? || Strip(title.value) == n.title) && (content.None? || content.value == n.content)
  }

  lemma UpdateVerdict(g: Graph, p: ProjectId, member: string, x: NodeId, expected: nat, title: Option<string>, content: Option<string>)
    requires Titled(g) && (title.Some? ==> Strip(title.value) != "")
    ensures var v := DecideUpdate(g, p, member, x, expected, title, content);
            && (v.Change? <==> Editable(g, p, x, expected) && !BringsNothing(g.nodes[x], title, content) && HasRevision(g.nodes[x]))
            && (v.Nothing? <==> Editable(g, p, x, expected) && BringsNothing(g.nodes[x], title, content))
            && (v.Reject? ==>
                  && v.failed.None? && FailsWith(g, p, x, expected, v.code)
                  && (v.code == InvalidCurrentRevision ==> !BringsNothing(g.nodes[x], title, content)))
            && !v.Abort?
  {
    UneditableIs(g, p, x, expected);
    hide Uneditable, FailsWith, Titled, NextTitle, NextContent, Strip, Revised;
    if Editable(g, p, x, expected) {
      NextText(g, x, title, content);
      RevisableIs(g.nodes[x]);
      if !HasRevision(g.nodes[x]) {
        FailsForRevision(g, p, x, expected);
      }
    }
    hide Editable, Revisable, HasRevision, BringsNothing;
  }

  lemma UneditableIs(g: Graph, p: ProjectId, x: NodeId, expected: nat)
    ensures Uneditable(g, p, x, expected).None? <==> Editable(g, p, x, expected)
    ensures Uneditable(g, p, x, expected).Some? ==>
              FailsWith(g, p, x, expected, Uneditable(g, p, x, expected).value) && Uneditable(g, p, x, expected).value != InvalidCurrentRevision
  {
  }

  lemma RevisableIs(n: Node)
    ensures Revisable(n) <==> HasRevision(n)
  {
  }

  lemma FailsForRevision(g: Graph, p: ProjectId, x: NodeId, expected: nat)
    requires Editable(g, p, x, expected) && !HasRevision(g.nodes[x])
    ensures FailsWith(g, p, x, expected, InvalidCurrentRevision)
  {
  }

  lemma NextText(g: Graph, x: NodeId, title: Option<string>, content: Option<string>)
    requires Titled(g) && x in g.nodes && (title.Some? ==> Strip(title.value) != "")
    ensures var n := g.nodes[x];
            && (NextTitle(n, title) == n.title && NextContent(n, content) == n.content <==> BringsNothing(n, title, content))
            && Strip(NextTitle(n, title)) == NextTitle(n, title) && NextTitle(n, title) != ""
  {
    if title.Some? {
      StripIdempotent(title.value);
    }
    hide Strip;
  }

  /** The stored text after a single update. */
  predicate UpdateLands(g: Graph, h: Graph, x: NodeId, title: Option<string>, content: Option<string>, member: string) {
    && x in g.nodes && x in h.nodes && h == g.(nodes := g.nodes[x := h.nodes[x]])
    && EditedTo(g.nodes[x], h.nodes[x],
                if title.Some? then Strip(title.value) else g.nodes[x].title,
                if content.Some? then content.value else g.nodes[x].content, member)
  }

  lemma UpdateEffect(g: Graph, p: ProjectId, member: string, x: NodeId, expected: nat, title: Option<string>, content: Option<string>)
    requires Titled(g) && (title.Some? ==> Strip(title.value) != "") && DecideUpdate(g, p, member, x, expected, title, content).Change?
    ensures UpdateLands(g, DecideUpdate(g, p, member, x, expected, title, content).graph, x, title, content, member)
  {
    hide Titled, Strip, Uneditable, Revisable, Revised, NextTitle, NextContent, UpdateLands;
    ChangedRow(g, p, member, x, expected, title, content);
    NextText(g, x, title, content);
    RevisedLands(g, x, title, content, member);
  }

  lemma ChangedRow(g: Graph, p: ProjectId, member: string, x: NodeId, expected: nat, title: Option<string>, content: Option<string>)
    requires DecideUpdate(g, p, member, x, expected, title, content).Change?
    ensures x in g.nodes && Revisable(g.nodes[x])
    ensures DecideUpdate(g, p, member, x, expected, title, content).graph ==
            g.(nodes := g.nodes[x := Revised(g.nodes[x], NextTitle(g.nodes[x], title), NextContent(g.nodes[x], content), member)])
  {
    hide Strip, Revised, NextTitle, NextContent, Revisable;
  }

  lemma RevisedLands(g: Graph, x: NodeId, title: Option<string>, content: Option<string>, member: string)
    requires x in g.nodes && Revisable(g.nodes[x]) && Strip(NextTitle(g.nodes[x], title)) == NextTitle(g.nodes[x], title)
    ensures var n := g.nodes[x];
            UpdateLands(g, g.(nodes := g.nodes[x := Revised(n, NextTitle(n, title), NextContent(n, content), member)]), x, title, content, member)
  {
    hide Strip;
  }

  /**
   A single update changes its node exactly when the node is editable, has a
   revision to carry on, and something given differs from what is stored; then
   exactly the given text is stored.  It does nothing when nothing differs, and
   otherwise is refused with the first failing check.
   */
  lemma UpdateExactly(g: Graph, version: nat, c: Command)
    requires Parsed(c) && Titled(g) && c.request.UpdateNode?
    ensures match c.request case UpdateNode(x, expected, title, content) => (
            var v := Decide(g, version, c);
            && (v.Change? <==> Editable(g, c.project, x, expected) && !BringsNothing(g.nodes[x], title, content) && HasRevision(g.nodes[x]))
            && (v.Nothing? <==> Editable(g, c.project, x, expected) && BringsNothing(g.nodes[x], title, content))
            && (v.Reject? ==>
                  && v.failed.None? && FailsWith(g, c.project, x, expected, v.code)
                  && (v.code == InvalidCurrentRevision ==> !BringsNothing(g.nodes[x], title, content)))
            && !v.Abort?
            && (v.Change? ==> UpdateLands(g, v.graph, x, title, content, c.member)))
  {
    hide Strip, DecideUpdate, Editable, BringsNothing, HasRevision, FailsWith, UpdateLands, Titled;
    match c.request case UpdateNode(x, expected, title, content) =>
      UpdateVerdict(g, c.project, c.member, x, expected, title, content);
      if DecideUpdate(g, c.project, c.member, x, expected, title, content).Change? {
        UpdateEffect(g, c.project, c.member, x, expected, title, content);
      }
  }

  predicate ItemPasses(g: Graph, p: ProjectId, item: Item) {
    Editable(g, p, item.node, item.expected) && HasRevision(g.nodes[item.node])
  }

  /** Item k is the first whose title is the stored one. */
  ghost predicate CurrentAt(g: Graph, items: seq<Item>, k: nat) {
    && k < |items| && items[k].node in g.nodes && Strip(items[k].title) == g.nodes[items[k].node].title
    && forall i :: 0 <= i < k ==> items[i].node in g.nodes && Strip(items[i].title) != g.nodes[items[i].node].title
  }

  /** The batch failed at item k with this code: k is the first item that fails a check, or the first whose title is current once all pass. */
  ghost predicate StopsAt(g: Graph, p: ProjectId, items: seq<Item>, k: nat, code: Code) {
    && k < |items|
    && if code == NoChange then (forall i :: 0 <= i < |items| ==> ItemPasses(g, p, items[i])) && CurrentAt(g, items, k)
       else
         && FailsWith(g, p, items[k].node, items[k].expected, code)
         && forall i :: 0 <= i < k ==> ItemPasses(g, p, items[i])
  }

  lemma ItemFaultIs(g: Graph, p: ProjectId, item: Item)
    ensures ItemFault(g, p, item).None? <==> ItemPasses(g, p, item)
    ensures ItemFault(g, p, item).Some? ==> FailsWith(g, p, item.node, item.expected, ItemFault(g, p, item).value)
  {
  }

  lemma {:induction false} PreflightStops(g: Graph, p: ProjectId, items: seq<Item>)
    ensures var r := Preflight(g, p, items);
            if r.None? then forall i :: 0 <= i < |items| ==> ItemPasses(g, p, items[i])
            else r.value.0 != NoChange && exists k: nat :: k < |items| && items[k].node == r.value.1 && StopsAt(g, p, items, k, r.value.0)
  {
    hide FailsWith, ItemPasses, ItemFault;
    if items != [] {
      var rest := items[1..];
      ItemFaultIs(g, p, items[0]);
      PreflightStops(g, p, rest);
      FaultIsNotNoChange(g, p, items[0]);
      var r := Preflight(g, p, items);
      if ItemFault(g, p, items[0]).Some? {
        assert StopsAt(g, p, items, 0, r.value.0);
      } else if r.Some? {
        var k: nat :| k < |rest| && rest[k].node == r.value.1 && StopsAt(g, p, rest, k, r.value.0);
        var m := k + 1;
        assert items[m] == rest[k];
        forall i | 0 <= i < m
          ensures ItemPasses(g, p, items[i])
        {
          assert i > 0 ==> items[i] == rest[i - 1];
        }
        assert StopsAt(g, p, items, m, r.value.0);
      } else {
        forall i | 0 <= i < |items|
          ensures ItemPasses(g, p, items[i])
        {
          assert i > 0 ==> items[i] == rest[i - 1];
        }
      }
    }
  }

  lemma FaultIsNotNoChange(g: Graph, p: ProjectId, item: Item)
    ensures ItemFault(g, p, item) != Some(NoChange)
  {
  }

  lemma {:induction false} FirstCurrentStops(g: Graph, items: seq<Item>)
    requires forall i :: 0 <= i < |items| ==> items[i].node in g.nodes
    ensures var r := FirstCurrent(g, items);
            r.Some? ==> exists k: nat :: k < |items| && items[k].node == r.value && CurrentAt(g, items, k)
  {
    hide Strip;
    if items != [] && FirstCurrent(g, items).Some? {
      if TitleCurrent(g, items[0]) {
        assert CurrentAt(g, items, 0);
      } else {
        var rest := items[1..];
        FirstCurrentStops(g, rest);
        var k: nat :| k < |rest| && rest[k].node == FirstCurrent(g, rest).value && CurrentAt(g, rest, k);
        var m := k + 1;
        assert items[m] == rest[k];
        forall i | 0 <= i < m
          ensures items[i].node in g.nodes && Strip(items[i].title) != g.nodes[items[i].node].title
        {
          assert i > 0 ==> items[i] == rest[i - 1];
        }
        assert CurrentAt(g, items, m);
      }
    }
  }

  /**
   A batch is applied exactly when every item is editable, has a revision and
   brings a new title; then every named node has its stripped title, its content
   kept, under the member's name, and nothing else changes.  Otherwise it is
   refused with the code and the node of the first item at fault.
   */
  lemma BatchExactly(g: Graph, version: nat, c: Command)
    requires Parsed(c) && Titled(g) && c.request.UpdateBatch?
    ensures var v, items := Decide(g, version, c), c.request.items;
            && !v.Abort? && !v.Nothing?
            && (v.Change? <==> forall i :: 0 <= i < |items| ==>
                  ItemPasses(g, c.project, items[i]) && Strip(items[i].title) != g.nodes[items[i].node].title)
            && (v.Reject? ==> exists k: nat :: k < |items| && v.failed == Some(items[k].node) && StopsAt(g, c.project, items, k, v.code))
            && (v.Change? ==>
                  && v.graph == g.(nodes := v.graph.nodes) && v.graph.nodes.Keys == g.nodes.Keys
                  && (forall i :: 0 <= i < |items| ==> ItemEdited(g, v.graph, items[i], c.member))
                  && (forall x :: x in g.nodes && x !in Named(items) ==> v.graph.nodes[x] == g.nodes[x]))
  {
    var items := c.request.items;
    BatchDecided(g, c.project, c.member, items);
    hide Strip, Preflight, FirstCurrent, EditItems, ItemPasses, Titled, DistinctNodes, StopsAt, ItemEdited, DecideBatch, Named;
    PreflightStops(g, c.project, items);
    if Preflight(g, c.project, items).None? {
      PassedAreStored(g, c.project, items);
      BatchStopsCurrent(g, c.project, items);
      BatchEdits(g, c, items);
    } else {
      BatchStopsFailing(g, c.project, items);
    }
  }

  lemma BatchDecided(g: Graph, p: ProjectId, member: string, items: seq<Item>)
    requires forall i :: 0 <= i < |items| ==> Strip(items[i].title) != ""
    ensures DecideBatch(g, p, member, items) ==
            var fault, current := Preflight(g, p, items), FirstCurrent(g, items);
            if fault.Some? then Reject(fault.value.0, Some(fault.value.1))
            else if current.Some? then Reject(NoChange, current)
            else Change(EditItems(g, items, member))
  {
    hide Strip, Preflight, FirstCurrent, EditItems;
  }

  lemma BatchStopsCurrent(g: Graph, p: ProjectId, items: seq<Item>)
    requires forall i :: 0 <= i < |items| ==> ItemPasses(g, p, items[i])
    requires forall i :: 0 <= i < |items| ==> items[i].node in g.nodes
    ensures FirstCurrent(g, items).None? <==> forall i :: 0 <= i < |items| ==> Strip(items[i].title) != g.nodes[items[i].node].title
    ensures FirstCurrent(g, items).Some? ==>
              exists k: nat :: k < |items| && FirstCurrent(g, items) == Some(items[k].node) && StopsAt(g, p, items, k, NoChange)
  {
    hide Strip, FirstCurrent, ItemPasses, StopsAt, CurrentAt;
    FirstCurrentStops(g, items);
    BatchCurrent(g, p, items);
    if FirstCurrent(g, items).Some? {
      var k: nat :| k < |items| && items[k].node == FirstCurrent(g, items).value && CurrentAt(g, items, k);
      StopsCurrent(g, p, items, k);
    }
  }

  lemma BatchStopsFailing(g: Graph, p: ProjectId, items: seq<Item>)
    requires Preflight(g, p, items).Some?
    ensures var r := Preflight(g, p, items).value;
            exists k: nat :: k < |items| && r.1 == items[k].node && StopsAt(g, p, items, k, r.0) && !ItemPasses(g, p, items[k])
  {
    hide Preflight, StopsAt, ItemPasses;
    PreflightStops(g, p, items);
    var r := Preflight(g, p, items).value;
    var k: nat :| k < |items| && items[k].node == r.1 && StopsAt(g, p, items, k, r.0);
    StopsFailing(g, p, items, k, r.0);
  }

  lemma StopsCurrent(g: Graph, p: ProjectId, items: seq<Item>, k: nat)
    requires CurrentAt(g, items, k) && forall i :: 0 <= i < |items| ==> ItemPasses(g, p, items[i])
    ensures StopsAt(g, p, items, k, NoChange)
  {
  }

  lemma StopsFailing(g: Graph, p: ProjectId, items: seq<Item>, k: nat, code: Code)
    requires StopsAt(g, p, items, k, code) && code != NoChange
    ensures k < |items| && !ItemPasses(g, p, items[k])
  {
    FailsIsNotPassing(g, p, items[k], code);
  }

  lemma FailsIsNotPassing(g: Graph, p: ProjectId, item: Item, code: Code)
    requires FailsWith(g, p, item.node, item.expected, code)
    ensures !ItemPasses(g, p, item)
  {
  }

  lemma PassedAreStored(g: Graph, p: ProjectId, items: seq<Item>)
    requires forall i :: 0 <= i < |items| ==> ItemPasses(g, p, items[i])
    ensures forall i :: 0 <= i < |items| ==> items[i].node in g.nodes && Revisable(g.nodes[items[i].node])
  {
    forall i | 0 <= i < |items|
      ensures items[i].node in g.nodes && Revisable(g.nodes[items[i].node])
    {
      assert ItemPasses(g, p, items[i]);
    }
  }

  lemma BatchCurrent(g: Graph, p: ProjectId, items: seq<Item>)
    requires forall i :: 0 <= i < |items| ==> items[i].node in g.nodes
    ensures FirstCurrent(g, items).None? <==> forall i :: 0 <= i < |items| ==> Strip(items[i].title) != g.nodes[items[i].node].title
  {
    hide Strip;
    if FirstCurrent(g, items).None? {
      forall i | 0 <= i < |items|
        ensures Strip(items[i].title) != g.nodes[items[i].node].title
      {
        assert !TitleCurrent(g, items[i]);
      }
    } else {
      var i :| 0 <= i < |items| && TitleCurrent(g, items[i]);
    }
  }

  ghost predicate ItemEdited(g: Graph, h: Graph, item: Item, member: string) {
    && item.node in g.nodes && item.node in h.nodes
    && EditedTo(g.nodes[item.node], h.nodes[item.node], Strip(item.title), g.nodes[item.node].content, member)
  }

  lemma BatchEdits(g: Graph, c: Command, items: seq<Item>)
    requires DistinctNodes(items) && forall i :: 0 <= i < |items| ==> items[i].node in g.nodes && Revisable(g.nodes[items[i].node])
    ensures var h := EditItems(g, items, c.member);
            && h == g.(nodes := h.nodes) && h.nodes.Keys == g.nodes.Keys
            && (forall i :: 0 <= i < |items| ==> ItemEdited(g, h, items[i], c.member))
            && (forall x :: x in g.nodes && x !in Named(items) ==> h.nodes[x] == g.nodes[x])
  {
    EditItemsAt(g, items, c.member);
    hide EditItems, Strip, EditedAt, ItemEdited, Revisable, DistinctNodes;
    forall i | 0 <= i < |items|
      ensures ItemEdited(g, EditItems(g, items, c.member), items[i], c.member)
    {
      EditedIs(g, EditItems(g, items, c.member), items[i], c.member);
    }
  }

  lemma EditedIs(g: Graph, h: Graph, item: Item, member: string)
    requires EditedAt(g, h, item, member)
    ensures ItemEdited(g, h, item, member)
  {
    StripIdempotent(item.title);
    hide Strip;
  }

  /** A delete is refused for a stale graph version, then for a dead or unknown seed, then for a foreign one; otherwise it is the closure delete. */
  lemma DeleteDecided(g: Graph, version: nat, c: Command)
    requires c.request.DeleteSeeds?
    ensures var v, seeds := Decide(g, version, c), c.request.seeds;
            v == if version != c.request.expectedGraph then Reject(GraphVersionConflict, None)
                 else if exists i :: 0 <= i < |seeds| && !Live(g, seeds[i]) then Reject(NodeNotFound, None)
                 else if exists i :: 0 <= i < |seeds| && g.nodes[seeds[i]].project != c.project then Reject(NodeProjectMismatch, None)
                 else Change(DeletedGraph(g, c.project, Saturate(g, c.project, Seeds(seeds)), c.member))
  {
    DeleteAcceptedIff(g, c.project, c.request.seeds, c.member);
    hide DeleteNodes, Saturate, DeletedGraph;
  }

  /** Stripping removes white space at both ends and nothing else. */
  lemma StripExactly(s: string) returns (left: nat, right: nat)
    ensures left <= right <= |s| && Strip(s) == s[left..right]
    ensures forall i :: 0 <= i < |s| && !(left <= i < right) ==> IsSpace(s[i])
    ensures left < right ==> !IsSpace(s[left]) && !IsSpace(s[right - 1])
  {
    var t := StripLeft(s);
    var r := StripRight(t);
    left := |s| - |t|;
    right := left + |r|;
    hide StripLeft, StripRight;
    StrippedSides(s, t, r);
  }

  lemma StrippedSides(s: string, t: string, r: string)
    requires |t| <= |s| && t == s[|s| - |t|..] && |r| <= |t| && r == t[..|r|]
    requires forall i :: 0 <= i < |s| - |t| ==> IsSpace(s[i])
    requires forall i :: |r| <= i < |t| ==> IsSpace(t[i])
    ensures var left := |s| - |t|; r == s[left..left + |r|] && forall i :: 0 <= i < |s| && !(left <= i < left + |r|) ==> IsSpace(s[i])
  {
    hide IsSpace;
    var left := |s| - |t|;
    forall i | 0 <= i < |s| && !(left <= i < left + |r|)
      ensures IsSpace(s[i])
    {
      assert i >= left ==> s[i] == t[i - left];
    }
  }

  // ----- the first delivery of a command -----

  /** The versions an accepted command reports: every node it named or deleted, at its new version. */
  ghost predicate Reports(g: Graph, h: Graph, c: Command, versions: map<NodeId, nat>) {
    match c.request
    case UpdateNode(x, _, _, _) => x in h.nodes && versions == map[x := h.nodes[x].version]
    case UpdateBatch(items) => versions.Keys == Named(items) && forall x :: x in versions ==> x in h.nodes && versions[x] == h.nodes[x].version
    case DeleteSeeds(_, _) =>
      && (forall x :: x in versions <==> Live(g, x) && !Live(h, x))
      && forall x :: x in versions ==> x in h.nodes && versions[x] == h.nodes[x].version
  }

  /**
   A first delivery that commits a change: the new graph is stored with the next
   number of its project, the row is COMPLETED, the artifact freezes the versions
   of exactly the project's live nodes, and the answer and the one event carry that
   number.  Other projects' numbers, other rows and other artifacts stay.
   */
  lemma AcceptedExactly(db: Db, id: CommandId, c: Command)
    requires Parsed(c) && id !in db.inbox && Decide(db.graph, Version(db.versions, c.project), c).Change?
    ensures var (to, reply) := Process(db, id, c, Commits);
            var h, v := Decide(db.graph, Version(db.versions, c.project), c).graph, Version(db.versions, c.project) + 1;
            && to.graph == h && to.inbox == db.inbox[id := Row(c, Completed)] && to.versions == db.versions[c.project := v]
            && to.events == db.events + [Changed(c.project, Some(id), v)]
            && to.artifacts.Keys == db.artifacts.Keys + {id} && (forall j :: j in db.artifacts && j != id ==> to.artifacts[j] == db.artifacts[j])
            && to.artifacts[id].version == v
            && (forall x :: x in to.artifacts[id].nodes <==> Live(h, x) && h.nodes[x].project == c.project)
            && (forall x :: x in to.artifacts[id].nodes ==> to.artifacts[id].nodes[x] == h.nodes[x].version)
            && (forall x :: x in to.artifacts[id].removed <==> Live(db.graph, x) && !Live(h, x))
            && reply.Answer? && reply.status == Completed && reply.graphVersion == Some(v) && !reply.replayed
            && reply.event == Some(Changed(c.project, Some(id), v)) && reply.removed == to.artifacts[id].removed
            && Reports(db.graph, h, c, reply.nodeVersions)
  {
    var v := Version(db.versions, c.project);
    var h := Decide(db.graph, v, c).graph;
    ReportsBrought(db.graph, v, c);
    hide Decide, Parsed, Strip, Reports, Brought;
  }

  lemma ReportsBrought(g: Graph, version: nat, c: Command)
    requires Parsed(c) && Decide(g, version, c).Change?
    ensures var h := Decide(g, version, c).graph; Reports(g, h, c, Brought(g, h, c.request))
  {
    var h := Decide(g, version, c).graph;
    hide Strip;
    match c.request
    case UpdateNode(x, _, _, _) =>
      assert x in h.nodes;
    case UpdateBatch(items) =>
      hide Decide;
      forall x | x in Named(items)
        ensures x in h.nodes
      {
        NamedAreLive(g, version, c, x);
      }
      assert Brought(g, h, c.request).Keys == Named(items);
    case DeleteSeeds(seeds, _) =>
      DeleteDecided(g, version, c);
      hide Decide, Saturate;
  }

  /** A first delivery that is refused stores only its row and the event of its kind; a single update and an oversized delete have none. */
  lemma RefusedExactly(db: Db, id: CommandId, c: Command, fate: Fate)
    requires id !in db.inbox && fate != Crashes
    requires var v := Decide(db.graph, Version(db.versions, c.project), c); v.Reject? || (v.Change? && fate == TooLarge)
    ensures var (to, reply) := Process(db, id, c, fate);
            var v := Decide(db.graph, Version(db.versions, c.project), c);
            var code, failed := if v.Reject? then v.code else SnapshotTooLarge, if v.Reject? then v.failed else None;
            && to.graph == db.graph && to.versions == db.versions && to.artifacts == db.artifacts
            && to.inbox == db.inbox[id := Row(c, Failed(code))]
            && to.events == db.events + (if c.request.UpdateBatch? then [UpdateRejected(id, code, failed)]
                                         else if c.request.DeleteSeeds? && code != SnapshotTooLarge then [DeleteRejected(id, code)] else [])
            && reply.Answer? && reply.status == Failed(code) && reply.graphVersion.None? && reply.nodeVersions == map[] && reply.removed == {}
            && !reply.replayed
            && reply.event == (if c.request.UpdateBatch? then Some(UpdateRejected(id, code, failed))
                               else if c.request.DeleteSeeds? && code != SnapshotTooLarge then Some(DeleteRejected(id, code)) else None)
  {
    hide Decide;
  }

  /** A first delivery that brings nothing is COMPLETED without a graph change: no number, no event, the stored version as answer. */
  lemma NothingExactly(db: Db, id: CommandId, c: Command, fate: Fate)
    requires id !in db.inbox && fate != Crashes && Decide(db.graph, Version(db.versions, c.project), c).Nothing?
    ensures var (to, reply) := Process(db, id, c, fate);
            && c.request.UpdateNode? && c.request.node in db.graph.nodes
            && to == db.(inbox := db.inbox[id := Row(c, Completed)])
            && reply.Answer? && reply.status == Completed && reply.graphVersion.None? && reply.event.None? && reply.removed == {}
            && reply.nodeVersions == map[c.request.node := db.graph.nodes[c.request.node].version] && !reply.replayed
  {
    hide Strip, DeleteNodes;
  }
}

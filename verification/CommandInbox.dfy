/**
 Java commands that edit or delete nodes.  They arrive at least once; an inbox
 row per command id makes the effect happen once, and every graph change takes
 the next number of its project's graph version.
 */
module CommandInbox {
  import opened Options
  import opened GraphModel
  import opened GraphDelete
  import opened AutoApply
  import opened Text

  type CommandId = nat

  datatype Item = Item(node: NodeId, expected: nat, title: string)

  datatype Request =
    | UpdateNode(node: NodeId, expected: nat, title: Option<string>, content: Option<string>)
    | UpdateBatch(items: seq<Item>)
    | DeleteSeeds(seeds: seq<NodeId>, expectedGraph: nat)

  /** The hashed payload: two commands with one id conflict exactly when these differ. */
  datatype Command = Command(project: ProjectId, member: string, at: nat, request: Request)

  datatype Code =
    | NodeNotFound | NodeNotEditable | MergedSourceNotEditable | NodeVersionConflict | InvalidCurrentRevision
    | NoChange | GraphVersionConflict | NodeProjectMismatch | SnapshotTooLarge

  datatype Status = Completed | Failed(code: Code)

  datatype Row = Row(command: Command, status: Status)

  datatype Event =
    | Changed(project: ProjectId, command: Option<CommandId>, version: nat)
    | UpdateRejected(id: CommandId, code: Code, failed: Option<NodeId>)
    | DeleteRejected(id: CommandId, code: Code)

  // The snapshot a graph change froze, and the nodes its change log names as deleted.
  datatype Artifact = Artifact(version: nat, nodes: map<NodeId, nat>, removed: set<NodeId>)

  // A project without a version row is at version 0.
  datatype Db = Db(
    graph: Graph,
    inbox: map<CommandId, Row>,
    versions: map<ProjectId, nat>,
    artifacts: map<CommandId, Artifact>,
    events: seq<Event>)

  /** What the world does to one delivery: commit, refuse the snapshot for its size, or die first. */
  datatype Fate = Commits | TooLarge | Crashes

  datatype Reply =
    | Answer(status: Status, graphVersion: Option<nat>, nodeVersions: map<NodeId, nat>, removed: set<NodeId>, event: Option<Event>, replayed: bool)
    | PayloadConflict
    | Aborted

  datatype Verdict = Change(graph: Graph) | Nothing | Reject(code: Code, failed: Option<NodeId>) | Abort

  // ----- what the parser lets through -----

  ghost predicate Parsed(c: Command) {
    match c.request
    case UpdateNode(_, _, title, content) =>
      (title.Some? || content.Some?) && (title.Some? ==> Strip(title.value) != "")
    case UpdateBatch(items) =>
      && items != []
      && (forall i :: 0 <= i < |items| ==> Strip(items[i].title) != "")
      && DistinctNodes(items)
    case DeleteSeeds(seeds, _) => seeds != []
  }

  // ----- verdicts -----

  function Version(versions: map<ProjectId, nat>, p: ProjectId): nat {
    if p in versions then versions[p] else 0
  }

  function Uneditable(g: Graph, p: ProjectId, x: NodeId, expected: nat): Option<Code> {
    if x !in g.nodes || g.nodes[x].project != p then Some(NodeNotFound)
    else if g.nodes[x].state == Deleted then Some(NodeNotEditable)
    else if g.nodes[x].state == Merged || g.nodes[x].mergedInto.Some? then Some(MergedSourceNotEditable)
    else if g.nodes[x].version != expected then Some(NodeVersionConflict)
    else None
  }

  predicate Revisable(n: Node) {
    n.revision.Some? && (n.revision.value.requiresEvidence ==> n.revision.value.evidence != [])
  }

  function Revised(n: Node, title: string, content: string, member: string): Node
    requires Revisable(n)
  {
    n.(title := Strip(title), content := content, version := n.version + 1, lastActor := User,
       revision := Some(Revision(User, member, None, n.revision.value.evidence, n.revision.value.requiresEvidence)))
  }

  function NextTitle(n: Node, title: Option<string>): string {
    if title.Some? then Strip(title.value) else n.title
  }

  function NextContent(n: Node, content: Option<string>): string {
    if content.Some? then content.value else n.content
  }

  function DecideUpdate(g: Graph, p: ProjectId, member: string, x: NodeId, expected: nat, title: Option<string>, content: Option<string>): Verdict {
    var fault := Uneditable(g, p, x, expected);
    if fault.Some? then Reject(fault.value, None)
    else
      var n := g.nodes[x];
      if NextTitle(n, title) == n.title && NextContent(n, content) == n.content then Nothing
      else if !Revisable(n) then Reject(InvalidCurrentRevision, None)
      else if Strip(NextTitle(n, title)) == "" then Abort
      else Change(g.(nodes := g.nodes[x := Revised(n, NextTitle(n, title), NextContent(n, content), member)]))
  }

  function ItemFault(g: Graph, p: ProjectId, item: Item): Option<Code> {
    var fault := Uneditable(g, p, item.node, item.expected);
    if fault.Some? then fault
    else if !Revisable(g.nodes[item.node]) then Some(InvalidCurrentRevision)
    else None
  }

  /** The first item that fails validation. */
  function Preflight(g: Graph, p: ProjectId, items: seq<Item>): (r: Option<(Code, NodeId)>)
    ensures r.None? <==> forall i :: 0 <= i < |items| ==> ItemFault(g, p, items[i]).None?
  {
    if items == [] then None
    else
      var fault := ItemFault(g, p, items[0]);
      if fault.Some? then Some((fault.value, items[0].node)) else Preflight(g, p, items[1..])
  }

  predicate TitleCurrent(g: Graph, item: Item) {
    item.node in g.nodes && Strip(item.title) == g.nodes[item.node].title
  }

  function FirstCurrent(g: Graph, items: seq<Item>): (r: Option<NodeId>)
    ensures r.None? <==> forall i :: 0 <= i < |items| ==> !TitleCurrent(g, items[i])
  {
    if items == [] then None
    else if TitleCurrent(g, items[0]) then Some(items[0].node)
    else FirstCurrent(g, items[1..])
  }

  function EditItem(g: Graph, item: Item, member: string): Graph {
    if item.node in g.nodes && Revisable(g.nodes[item.node]) then
      g.(nodes := g.nodes[item.node := Revised(g.nodes[item.node], Strip(item.title), g.nodes[item.node].content, member)])
    else g
  }

  function EditItems(g: Graph, items: seq<Item>, member: string): Graph {
    if items == [] then g
    else EditItem(EditItems(g, items[..|items| - 1], member), items[|items| - 1], member)
  }

  function DecideBatch(g: Graph, p: ProjectId, member: string, items: seq<Item>): Verdict {
    var fault := Preflight(g, p, items);
    if fault.Some? then Reject(fault.value.0, Some(fault.value.1))
    else
      var current := FirstCurrent(g, items);
      if current.Some? then Reject(NoChange, current)
      else if exists i :: 0 <= i < |items| && Strip(items[i].title) == "" then Abort
      else Change(EditItems(g, items, member))
  }

  function DecideDelete(g: Graph, version: nat, p: ProjectId, member: string, seeds: seq<NodeId>, expected: nat): Verdict {
    if version != expected then Reject(GraphVersionConflict, None)
    else
      match DeleteNodes(g, p, seeds, member)
      case Ok(h) => Change(h)
      case Err(e) =>
        if e == NotFound then Reject(NodeNotFound, None)
        else if e == OtherProject then Reject(NodeProjectMismatch, None)
        else Abort
  }

  function Decide(g: Graph, version: nat, c: Command): Verdict {
    match c.request
    case UpdateNode(x, expected, title, content) => DecideUpdate(g, c.project, c.member, x, expected, title, content)
    case UpdateBatch(items) => DecideBatch(g, c.project, c.member, items)
    case DeleteSeeds(seeds, expected) => DecideDelete(g, version, c.project, c.member, seeds, expected)
  }

  // ----- one delivery -----

  /** The Result event of a rejection; a single-node update has none. */
  function RejectionEvents(id: CommandId, r: Request, code: Code, failed: Option<NodeId>): seq<Event> {
    match r
    case UpdateNode(_, _, _, _) => []
    case UpdateBatch(_) => [UpdateRejected(id, code, failed)]
    case DeleteSeeds(_, _) => if code == SnapshotTooLarge then [] else [DeleteRejected(id, code)]
  }

  function Bump(db: Db, p: ProjectId, id: Option<CommandId>): Db {
    var v := Version(db.versions, p) + 1;
    db.(versions := db.versions[p := v], events := db.events + [Changed(p, id, v)])
  }

  function Rejected(db: Db, id: CommandId, c: Command, code: Code, failed: Option<NodeId>): Db {
    db.(inbox := db.inbox[id := Row(c, Failed(code))], events := db.events + RejectionEvents(id, c.request, code, failed))
  }

  /** Versions of the project's live nodes, as a full snapshot carries them. */
  function Snapshot(g: Graph, p: ProjectId): map<NodeId, nat> {
    map x | x in g.nodes && Live(g, x) && g.nodes[x].project == p :: g.nodes[x].version
  }

  function Gone(g: Graph, h: Graph): set<NodeId> {
    set x | x in g.nodes && Live(g, x) && !Live(h, x)
  }

  function Accepted(db: Db, id: CommandId, c: Command, h: Graph): Db {
    var v := Version(db.versions, c.project) + 1;
    var artifact := Artifact(v, Snapshot(h, c.project), Gone(db.graph, h));
    Bump(db.(graph := h, inbox := db.inbox[id := Row(c, Completed)], artifacts := db.artifacts[id := artifact]), c.project, Some(id))
  }

  function Named(items: seq<Item>): set<NodeId> {
    set i | 0 <= i < |items| :: items[i].node
  }

  /** The node versions that an accepted command reports. */
  function Brought(g: Graph, h: Graph, r: Request): map<NodeId, nat> {
    match r
    case UpdateNode(x, _, _, _) => if x in h.nodes then map[x := h.nodes[x].version] else map[]
    case UpdateBatch(items) => map x | x in h.nodes && x in Named(items) :: h.nodes[x].version
    case DeleteSeeds(_, _) => map x | x in h.nodes && x in Gone(g, h) :: h.nodes[x].version
  }

  /** The node versions that a replay reads back: from the snapshot, or from the row of an update that changed nothing. */
  function ReadBack(db: Db, id: CommandId, c: Command): map<NodeId, nat>
    requires id in db.inbox
  {
    var nodes := if id in db.artifacts then db.artifacts[id].nodes else map[];
    match c.request
    case UpdateNode(x, expected, _, _) =>
      if x in nodes then map[x := nodes[x]]
      else if db.inbox[id].status == Completed then map[x := expected]
      else map[]
    case UpdateBatch(items) => map x | x in nodes && x in Named(items) :: nodes[x]
    case DeleteSeeds(_, _) => map[]
  }

  function FirstOf(events: seq<Event>): Option<Event> {
    if events == [] then None else Some(events[0])
  }

  function Replay(db: Db, id: CommandId, c: Command): Reply
    requires id in db.inbox
  {
    if db.inbox[id].command != c then PayloadConflict
    else
      var artifact := if id in db.artifacts then Some(db.artifacts[id]) else None;
      Answer(db.inbox[id].status,
             if artifact.Some? then Some(artifact.value.version) else None,
             ReadBack(db, id, c),
             if artifact.Some? then artifact.value.removed else {},
             FirstOf(EventsFor(db.events, id)), true)
  }

  function Refusal(id: CommandId, r: Request, code: Code, failed: Option<NodeId>): Reply {
    Answer(Failed(code), None, map[], {}, FirstOf(RejectionEvents(id, r, code, failed)), false)
  }

  function Unchanged(g: Graph, r: Request): Reply {
    Answer(Completed, None, if r.UpdateNode? && r.node in g.nodes then map[r.node := g.nodes[r.node].version] else map[], {}, None, false)
  }

  function Acceptance(g: Graph, h: Graph, id: CommandId, c: Command, version: nat): Reply {
    Answer(Completed, Some(version), Brought(g, h, c.request), Gone(g, h), Some(Changed(c.project, Some(id), version)), false)
  }

  function Process(db: Db, id: CommandId, c: Command, fate: Fate): (Db, Reply) {
    if fate == Crashes then (db, Aborted)
    else if id in db.inbox then (db, Replay(db, id, c))
    else
      match Decide(db.graph, Version(db.versions, c.project), c)
      case Abort => (db, Aborted)
      case Nothing => (db.(inbox := db.inbox[id := Row(c, Completed)]), Unchanged(db.graph, c.request))
      case Reject(code, failed) => (Rejected(db, id, c, code, failed), Refusal(id, c.request, code, failed))
      case Change(h) =>
        if fate == TooLarge then (Rejected(db, id, c, SnapshotTooLarge, None), Refusal(id, c.request, SnapshotTooLarge, None))
        else (Accepted(db, id, c, h), Acceptance(db.graph, h, id, c, Version(db.versions, c.project) + 1))
  }

  // ----- runs -----

  /** A delivery, or the commit of some other writer of the graph, which may publish a change. */
  datatype Input =
    | Deliver(id: CommandId, command: Command, fate: Fate)
    | Elsewhere(graph: Graph, project: ProjectId, publishes: bool)

  function Next(db: Db, input: Input): Db {
    match input
    case Deliver(id, c, fate) => Process(db, id, c, fate).0
    case Elsewhere(h, p, publishes) => if publishes then Bump(db.(graph := h), p, None) else db.(graph := h)
  }

  function Run(db: Db, inputs: seq<Input>): Db
    decreases |inputs|
  {
    if inputs == [] then db else Run(Next(db, inputs[0]), inputs[1..])
  }

  /** Stored titles are stripped and not blank, as every revision stores them. */
  ghost predicate Titled(g: Graph) {
    forall x :: x in g.nodes ==> g.nodes[x].title != "" && Strip(g.nodes[x].title) == g.nodes[x].title
  }

  ghost predicate Admissible(input: Input) {
    match input
    case Deliver(_, c, _) => Parsed(c)
    case Elsewhere(h, _, _) => Inv(h) && Titled(h)
  }

  ghost predicate AllAdmissible(inputs: seq<Input>) {
    forall i :: 0 <= i < |inputs| ==> Admissible(inputs[i])
  }

  /** The inputs left when crashed deliveries and deliveries of an id already seen are dropped. */
  function Firsts(inputs: seq<Input>, seen: set<CommandId>): seq<Input>
    decreases |inputs|
  {
    if inputs == [] then []
    else
      match inputs[0]
      case Elsewhere(_, _, _) => [inputs[0]] + Firsts(inputs[1..], seen)
      case Deliver(id, _, fate) =>
        if fate == Crashes || id in seen then Firsts(inputs[1..], seen)
        else [inputs[0]] + Firsts(inputs[1..], seen + {id})
  }

  // ----- what one verdict does -----

  ghost predicate DistinctNodes(items: seq<Item>) {
    forall i, j :: 0 <= i < j < |items| ==> items[i].node != items[j].node
  }

  lemma NamedSnoc(init: seq<Item>, last: Item)
    requires DistinctNodes(init + [last])
    ensures last.node !in Named(init) && Named(init + [last]) == Named(init) + {last.node} && DistinctNodes(init)
  {
    var items := init + [last];
    assert items[|init|] == last && forall i :: 0 <= i < |init| ==> items[i] == init[i];
  }

  /** In `h` the item's node is its revision in `g`. */
  ghost predicate EditedAt(g: Graph, h: Graph, item: Item, member: string) {
    && item.node in g.nodes && Revisable(g.nodes[item.node]) && item.node in h.nodes
    && h.nodes[item.node] == Revised(g.nodes[item.node], Strip(item.title), g.nodes[item.node].content, member)
  }

  lemma EditedElsewhere(g: Graph, m: Graph, h: Graph, item: Item, member: string)
    requires EditedAt(g, m, item, member) && item.node in h.nodes && h.nodes[item.node] == m.nodes[item.node]
    ensures EditedAt(g, h, item, member)
  {
    hide Strip, Revised;
  }

  /** Each item edits its own node once; a node that no item names is untouched. */
  lemma {:induction false} EditItemsAt(g: Graph, items: seq<Item>, member: string)
    requires forall i :: 0 <= i < |items| ==> items[i].node in g.nodes && Revisable(g.nodes[items[i].node])
    requires DistinctNodes(items)
    ensures var h := EditItems(g, items, member);
            && h == g.(nodes := h.nodes) && h.nodes.Keys == g.nodes.Keys
            && (forall i :: 0 <= i < |items| ==> EditedAt(g, h, items[i], member))
            && (forall x :: x in g.nodes && x !in Named(items) ==> h.nodes[x] == g.nodes[x])
    decreases |items|
  {
    hide Strip, Revised, Revisable;
    if items != [] {
      var init := items[..|items| - 1];
      var last := items[|items| - 1];
      EditItemsAt(g, init, member);
      NamedSnoc(init, last);
      assert items == init + [last];
      var m := EditItems(g, init, member);
      var h := EditItems(g, items, member);
      assert m.nodes[last.node] == g.nodes[last.node];
      assert h == m.(nodes := m.nodes[last.node := Revised(g.nodes[last.node], Strip(last.title), g.nodes[last.node].content, member)]);
      assert EditedAt(g, h, last, member);
      hide EditedAt, EditItems;
      forall i | 0 <= i < |init|
        ensures EditedAt(g, h, items[i], member)
      {
        assert items[i] == init[i] && items[i].node != last.node;
        EditedElsewhere(g, m, h, init[i], member);
      }
    }
  }

  ghost function Touched(g: Graph, c: Command): set<NodeId> {
    match c.request
    case UpdateNode(x, _, _, _) => {x}
    case UpdateBatch(items) => Named(items)
    case DeleteSeeds(seeds, _) => Saturate(g, c.project, Seeds(seeds))
  }

  /** An accepted command steps the version of every node it touches by one and leaves every other node alone. */
  lemma ChangeStepsVersions(g: Graph, version: nat, c: Command, x: NodeId)
    requires Parsed(c) && Decide(g, version, c).Change? && x in g.nodes
    ensures var h := Decide(g, version, c).graph;
            && h.nodes.Keys == g.nodes.Keys && Touched(g, c) <= g.nodes.Keys
            && h.nodes[x].version == g.nodes[x].version + (if x in Touched(g, c) then 1 else 0)
            && (x !in Touched(g, c) ==> h.nodes[x] == g.nodes[x])
  {
    hide Strip, DeleteNodes, Saturate;
    match c.request
    case UpdateNode(_, _, _, _) =>
    case UpdateBatch(items) =>
      assert forall i :: 0 <= i < |items| ==> ItemFault(g, c.project, items[i]).None?;
      EditItemsAt(g, items, c.member);
    case DeleteSeeds(seeds, _) =>
      DeleteAcceptedIff(g, c.project, seeds, c.member);
      ClosureStaysInProject(g, c.project, Seeds(seeds), Saturate(g, c.project, Seeds(seeds)));
  }

  /** A batch is applied exactly when every item passes every check and brings a new title; then every title lands. */
  lemma BatchAllOrNothing(g: Graph, version: nat, c: Command)
    requires Parsed(c) && c.request.UpdateBatch?
    ensures var items := c.request.items;
            && !Decide(g, version, c).Abort? && !Decide(g, version, c).Nothing?
            && (Decide(g, version, c).Change? <==>
                  forall i :: 0 <= i < |items| ==> ItemFault(g, c.project, items[i]).None? && !TitleCurrent(g, items[i]))
            && (Decide(g, version, c).Change? ==>
                  forall i :: 0 <= i < |items| ==>
                    && items[i].node in Decide(g, version, c).graph.nodes
                    && Decide(g, version, c).graph.nodes[items[i].node].title == Strip(items[i].title)
                    && Decide(g, version, c).graph.nodes[items[i].node].content == g.nodes[items[i].node].content)
  {
    hide Strip;
    var items := c.request.items;
    if Decide(g, version, c).Change? {
      assert forall i :: 0 <= i < |items| ==> ItemFault(g, c.project, items[i]).None?;
      EditItemsAt(g, items, c.member);
      assert forall i :: 0 <= i < |items| ==> EditedAt(g, Decide(g, version, c).graph, items[i], c.member);
      forall i | 0 <= i < |items|
        ensures Strip(Strip(items[i].title)) == Strip(items[i].title)
      {
        StripIdempotent(items[i].title);
      }
    }
  }

  /** On stored titles that are not blank, a parsed command is always answered: nothing raises. */
  lemma ParsedNeverAborts(g: Graph, version: nat, c: Command)
    requires Parsed(c) && Titled(g)
    ensures !Decide(g, version, c).Abort?
  {
    hide Strip, DeleteNodes;
    match c.request
    case UpdateNode(x, _, title, _) =>
      if title.Some? { StripIdempotent(title.value); }
    case UpdateBatch(_) =>
    case DeleteSeeds(seeds, _) => DeleteAcceptedIff(g, c.project, seeds, c.member);
  }

  lemma RevisedTitled(n: Node, title: string, content: string, member: string)
    requires Revisable(n) && Strip(title) != ""
    ensures var t := Revised(n, title, content, member).title; t != "" && Strip(t) == t
  {
  }

  lemma {:induction false} EditItemsKeep(g: Graph, items: seq<Item>, member: string)
    requires Inv(g) && Titled(g)
    requires forall i :: 0 <= i < |items| ==> Strip(items[i].title) != ""
    ensures Inv(EditItems(g, items, member)) && Titled(EditItems(g, items, member))
    decreases |items|
  {
    if items != [] {
      var m := EditItems(g, items[..|items| - 1], member);
      var last := items[|items| - 1];
      EditItemsKeep(g, items[..|items| - 1], member);
      if last.node in m.nodes && Revisable(m.nodes[last.node]) {
        var n := m.nodes[last.node];
        StripIdempotent(last.title);
        RevisedTitled(n, Strip(last.title), n.content, member);
        ReviseOneKeeps(m, last.node, Strip(last.title), n.content, member);
      }
    }
  }

  lemma ReviseOneKeeps(g: Graph, x: NodeId, title: string, content: string, member: string)
    requires Inv(g) && Titled(g) && x in g.nodes && Revisable(g.nodes[x]) && Strip(title) != ""
    ensures var h := g.(nodes := g.nodes[x := Revised(g.nodes[x], title, content, member)]); Inv(h) && Titled(h)
  {
    hide Inv, Strip;
    RevisedTitled(g.nodes[x], title, content, member);
    ReviseKeepsInv(g, x, Revised(g.nodes[x], title, content, member));
  }

  lemma ChangeKeepsInv(g: Graph, version: nat, c: Command)
    requires Inv(g) && Titled(g) && Parsed(c) && Decide(g, version, c).Change?
    ensures Inv(Decide(g, version, c).graph) && Titled(Decide(g, version, c).graph)
  {
    hide Inv, Strip, DeleteNodes;
    match c.request
    case UpdateNode(x, _, title, content) =>
      ReviseOneKeeps(g, x, NextTitle(g.nodes[x], title), NextContent(g.nodes[x], content), c.member);
    case UpdateBatch(items) => EditItemsKeep(g, items, c.member);
    case DeleteSeeds(seeds, _) =>
      DeleteKeepsInv(g, c.project, seeds, c.member);
      DeleteAcceptedIff(g, c.project, seeds, c.member);
  }

  // ----- the inbox invariant -----

  /** The versions of the project's committed graph changes, in commit order. */
  function VersionsOf(events: seq<Event>, p: ProjectId): seq<nat> {
    if events == [] then []
    else
      var e := events[|events| - 1];
      VersionsOf(events[..|events| - 1], p) + (if e.Changed? && e.project == p then [e.version] else [])
  }

  ghost predicate UpTo(s: seq<nat>, n: nat) {
    |s| == n && forall i :: 0 <= i < n ==> s[i] == i + 1
  }

  /** Graph-change versions are 1..n without gap or repeat, and the row is absent exactly while n is 0. */
  ghost predicate Numbered(db: Db) {
    forall p :: UpTo(VersionsOf(db.events, p), Version(db.versions, p)) && (p in db.versions <==> VersionsOf(db.events, p) != [])
  }

  predicate IsFor(e: Event, id: CommandId) {
    match e
    case Changed(_, command, _) => command == Some(id)
    case UpdateRejected(i, _, _) => i == id
    case DeleteRejected(i, _) => i == id
  }

  function EventsFor(events: seq<Event>, id: CommandId): seq<Event> {
    if events == [] then []
    else EventsFor(events[..|events| - 1], id) + (if IsFor(events[|events| - 1], id) then [events[|events| - 1]] else [])
  }

  /** The Result events that a finished command has, given its row and artifact. */
  ghost predicate Reported(db: Db, id: CommandId)
    requires id in db.inbox
  {
    var row := db.inbox[id];
    var es := EventsFor(db.events, id);
    if id in db.artifacts then
      row.status == Completed && es == [Changed(row.command.project, Some(id), db.artifacts[id].version)]
    else if row.status == Completed then
      row.command.request.UpdateNode? && es == []
    else if row.command.request.UpdateBatch? then
      |es| == 1 && es[0].UpdateRejected? && es[0].code == row.status.code
    else if row.command.request.DeleteSeeds? && row.status.code != SnapshotTooLarge then
      es == [DeleteRejected(id, row.status.code)]
    else es == []
  }

  ghost predicate InboxInv(db: Db) {
    && Inv(db.graph) && Titled(db.graph)
    && Numbered(db)
    && db.artifacts.Keys <= db.inbox.Keys
    && (forall id :: id in db.inbox ==> Reported(db, id))
    && (forall id :: id !in db.inbox ==> EventsFor(db.events, id) == [])
  }

  lemma EventsForSnoc(events: seq<Event>, e: Event, id: CommandId)
    ensures EventsFor(events + [e], id) == EventsFor(events, id) + (if IsFor(e, id) then [e] else [])
  {
  }

  lemma SnocNumbered(db: Db, to: Db, e: Event)
    requires Numbered(db) && to.events == db.events + [e]
    requires if e.Changed? then e.version == Version(db.versions, e.project) + 1 && to.versions == db.versions[e.project := e.version]
             else to.versions == db.versions
    ensures Numbered(to)
  {
  }

  /** Recording one command with at most one event keeps every other command's report. */
  lemma RecordKeeps(db: Db, to: Db, id: CommandId, row: Row)
    requires InboxInv(db) && id !in db.inbox
    requires to.inbox == db.inbox[id := row]
    requires to.artifacts == db.artifacts || (id in to.artifacts && to.artifacts == db.artifacts[id := to.artifacts[id]])
    requires to.events == db.events || exists e :: to.events == db.events + [e] && IsFor(e, id)
    requires Reported(to, id)
    ensures to.artifacts.Keys <= to.inbox.Keys
    ensures forall i :: i in to.inbox ==> Reported(to, i)
    ensures forall i :: i !in to.inbox ==> EventsFor(to.events, i) == []
  {
    hide Inv, Titled, Numbered;
    forall i | i != id
      ensures EventsFor(to.events, i) == EventsFor(db.events, i)
    {
      if to.events != db.events {
        var e :| to.events == db.events + [e] && IsFor(e, id);
        EventsForSnoc(db.events, e, i);
      }
    }
    forall i | i in to.inbox
      ensures Reported(to, i)
    {
      if i != id {
        assert Reported(db, i);
      }
    }
  }

  lemma RejectedReported(db: Db, id: CommandId, c: Command, code: Code, failed: Option<NodeId>)
    requires id !in db.artifacts && EventsFor(db.events, id) == []
    ensures var to := Rejected(db, id, c, code, failed);
            && Reported(to, id)
            && (to.events == db.events || exists e :: to.events == db.events + [e] && IsFor(e, id))
  {
    var to := Rejected(db, id, c, code, failed);
    var es := RejectionEvents(id, c.request, code, failed);
    if es == [] {
      assert to.events == db.events;
    } else {
      var e := es[0];
      assert to.events == db.events + [e] && IsFor(e, id);
      EventsForSnoc(db.events, e, id);
      assert EventsFor(to.events, id) == [e];
    }
  }

  lemma RejectedNumbered(db: Db, id: CommandId, c: Command, code: Code, failed: Option<NodeId>)
    requires Numbered(db)
    ensures Numbered(Rejected(db, id, c, code, failed))
  {
    hide Numbered;
    var to := Rejected(db, id, c, code, failed);
    var es := RejectionEvents(id, c.request, code, failed);
    if es == [] {
      SameNumbers(db, to);
    } else {
      SnocNumbered(db, to, es[0]);
    }
  }

  lemma SameNumbers(db: Db, to: Db)
    requires Numbered(db) && to.events == db.events && to.versions == db.versions
    ensures Numbered(to)
  {
  }

  lemma RejectedKeeps(db: Db, id: CommandId, c: Command, code: Code, failed: Option<NodeId>)
    requires InboxInv(db) && id !in db.inbox
    ensures InboxInv(Rejected(db, id, c, code, failed))
  {
    hide Inv, Titled, Numbered, RejectionEvents;
    RejectedReported(db, id, c, code, failed);
    RejectedNumbered(db, id, c, code, failed);
    hide Reported, EventsFor;
    RecordKeeps(db, Rejected(db, id, c, code, failed), id, Row(c, Failed(code)));
  }

  lemma AcceptedKeeps(db: Db, id: CommandId, c: Command, h: Graph)
    requires InboxInv(db) && id !in db.inbox && Inv(h) && Titled(h)
    ensures InboxInv(Accepted(db, id, c, h))
  {
    hide Inv, Titled;
    var to := Accepted(db, id, c, h);
    var e := Changed(c.project, Some(id), Version(db.versions, c.project) + 1);
    assert to.events == db.events + [e] && IsFor(e, id);
    EventsForSnoc(db.events, e, id);
    SnocNumbered(db, to, e);
    hide Numbered;
    assert Reported(to, id);
    RecordKeeps(db, to, id, Row(c, Completed));
    hide Reported;
  }

  lemma ElsewhereKeeps(db: Db, h: Graph, p: ProjectId)
    requires InboxInv(db) && Inv(h) && Titled(h)
    ensures InboxInv(Bump(db.(graph := h), p, None))
  {
    hide Inv, Titled;
    var to := Bump(db.(graph := h), p, None);
    var e := Changed(p, None, Version(db.versions, p) + 1);
    SnocNumbered(db, to, e);
    forall i
      ensures EventsFor(to.events, i) == EventsFor(db.events, i)
    {
      EventsForSnoc(db.events, e, i);
    }
    forall i | i in to.inbox
      ensures Reported(to, i)
    {
      assert Reported(db, i);
    }
  }

  lemma NextKeepsInv(db: Db, input: Input)
    requires InboxInv(db) && Admissible(input)
    ensures InboxInv(Next(db, input))
  {
    hide Inv, Titled, Rejected, Accepted, Bump;
    match input
    case Elsewhere(h, p, publishes) =>
      if publishes { ElsewhereKeeps(db, h, p); }
      assert publishes || Next(db, input) == db.(graph := h);
      if !publishes { GraphOnly(db, h); }
    case Deliver(id, c, fate) =>
      if fate != Crashes && id !in db.inbox {
        var version := Version(db.versions, c.project);
        ParsedNeverAborts(db.graph, version, c);
        match Decide(db.graph, version, c)
        case Abort =>
        case Nothing => NothingKeeps(db, id, c);
        case Reject(code, failed) => RejectedKeeps(db, id, c, code, failed);
        case Change(h) =>
          ChangeKeepsInv(db.graph, version, c);
          RejectedKeeps(db, id, c, SnapshotTooLarge, None);
          AcceptedKeeps(db, id, c, h);
      }
  }

  lemma GraphOnly(db: Db, h: Graph)
    requires InboxInv(db) && Inv(h) && Titled(h)
    ensures InboxInv(db.(graph := h))
  {
  }

  lemma NothingKeeps(db: Db, id: CommandId, c: Command)
    requires InboxInv(db) && id !in db.inbox && Decide(db.graph, Version(db.versions, c.project), c).Nothing?
    ensures InboxInv(db.(inbox := db.inbox[id := Row(c, Completed)]))
  {
    hide Inv, Titled, DeleteNodes;
    var to := db.(inbox := db.inbox[id := Row(c, Completed)]);
    assert c.request.UpdateNode?;
    RecordKeeps(db, to, id, Row(c, Completed));
  }

  /**
   Over every run: the graph invariant holds, graph-change versions are exactly
   1..n, and every finished command has exactly the Result events its row calls for.
   */
  lemma {:induction false} RunKeepsInbox(db: Db, inputs: seq<Input>)
    requires InboxInv(db) && AllAdmissible(inputs)
    ensures InboxInv(Run(db, inputs))
    decreases |inputs|
  {
    hide InboxInv, Next;
    if inputs != [] {
      NextKeepsInv(db, inputs[0]);
      assert forall i :: 0 <= i < |inputs[1..]| ==> inputs[1..][i] == inputs[i + 1];
      RunKeepsInbox(Next(db, inputs[0]), inputs[1..]);
    }
  }

  // ----- exactly once -----

  /** A processed delivery leaves a row for its id, so the next one of that id is a replay. */
  lemma ProcessRecords(db: Db, id: CommandId, c: Command, fate: Fate)
    requires Titled(db.graph) && Parsed(c) && fate != Crashes
    ensures Process(db, id, c, fate).0.inbox.Keys == db.inbox.Keys + {id}
  {
    ParsedNeverAborts(db.graph, Version(db.versions, c.project), c);
  }

  /** Repeats, payload conflicts and crashes change nothing: only the first delivery of each id counts. */
  lemma {:induction false} ExactlyOnce(db: Db, inputs: seq<Input>)
    requires InboxInv(db) && AllAdmissible(inputs)
    ensures Run(db, inputs) == Run(db, Firsts(inputs, db.inbox.Keys))
    decreases |inputs|
  {
    hide Inv, Titled, Numbered, Reported, Process;
    if inputs != [] {
      var next := Next(db, inputs[0]);
      NextKeepsInv(db, inputs[0]);
      assert forall i :: 0 <= i < |inputs[1..]| ==> inputs[1..][i] == inputs[i + 1];
      ExactlyOnce(next, inputs[1..]);
      var rest := Firsts(inputs[1..], next.inbox.Keys);
      if Skipped(inputs[0], db.inbox.Keys) {
        SkippedChangesNothing(db, inputs[0]);
      } else {
        KeptAddsItsId(db, inputs[0]);
        assert Firsts(inputs, db.inbox.Keys) == [inputs[0]] + rest;
        assert ([inputs[0]] + rest)[1..] == rest;
      }
    }
  }

  predicate Skipped(input: Input, seen: set<CommandId>) {
    input.Deliver? && (input.fate == Crashes || input.id in seen)
  }

  lemma SkippedChangesNothing(db: Db, input: Input)
    requires Skipped(input, db.inbox.Keys)
    ensures Next(db, input) == db
  {
  }

  lemma KeptAddsItsId(db: Db, input: Input)
    requires Titled(db.graph) && Admissible(input) && !Skipped(input, db.inbox.Keys)
    ensures Next(db, input).inbox.Keys == db.inbox.Keys + (if input.Deliver? then {input.id} else {})
  {
    if input.Deliver? {
      ProcessRecords(db, input.id, input.command, input.fate);
    }
  }

  /** Everything a replay of `id` reads is the same in both states. */
  ghost predicate SameRecord(db: Db, later: Db, id: CommandId) {
    && id in db.inbox && id in later.inbox && later.inbox[id] == db.inbox[id]
    && (id in later.artifacts <==> id in db.artifacts)
    && (id in db.artifacts ==> later.artifacts[id] == db.artifacts[id])
    && EventsFor(later.events, id) == EventsFor(db.events, id)
  }

  lemma OtherEvent(db: Db, later: Db, e: Event, id: CommandId)
    requires id in db.inbox && id in later.inbox && later.inbox[id] == db.inbox[id]
    requires (id in later.artifacts <==> id in db.artifacts) && (id in db.artifacts ==> later.artifacts[id] == db.artifacts[id])
    requires later.events == db.events || (later.events == db.events + [e] && !IsFor(e, id))
    ensures SameRecord(db, later, id)
  {
    EventsForSnoc(db.events, e, id);
    hide EventsFor;
  }

  lemma RejectedKeepsRow(db: Db, j: CommandId, c: Command, code: Code, failed: Option<NodeId>, id: CommandId)
    requires id in db.inbox && j != id
    ensures SameRecord(db, Rejected(db, j, c, code, failed), id)
  {
    var es := RejectionEvents(j, c.request, code, failed);
    assert es == [] ==> db.events + es == db.events;
    OtherEvent(db, Rejected(db, j, c, code, failed), if es == [] then DeleteRejected(j, code) else es[0], id);
  }

  lemma AcceptedKeepsRow(db: Db, j: CommandId, c: Command, h: Graph, id: CommandId)
    requires id in db.inbox && j != id
    ensures SameRecord(db, Accepted(db, j, c, h), id)
  {
    hide Snapshot, Gone;
    OtherEvent(db, Accepted(db, j, c, h), Changed(c.project, Some(j), Version(db.versions, c.project) + 1), id);
  }

  lemma NextKeepsRow(db: Db, input: Input, id: CommandId)
    requires id in db.inbox
    ensures SameRecord(db, Next(db, input), id)
  {
    hide Decide, Rejected, Accepted, EventsFor, Replay, Refusal, Acceptance;
    match input
    case Elsewhere(h, p, publishes) =>
      OtherEvent(db, Next(db, input), Changed(p, None, Version(db.versions, p) + 1), id);
    case Deliver(j, c, fate) =>
      if fate != Crashes && j !in db.inbox {
        match Decide(db.graph, Version(db.versions, c.project), c)
        case Abort =>
        case Nothing =>
        case Reject(code, failed) => RejectedKeepsRow(db, j, c, code, failed, id);
        case Change(h) =>
          RejectedKeepsRow(db, j, c, SnapshotTooLarge, None, id);
          AcceptedKeepsRow(db, j, c, h, id);
      }
  }

  /** A row, its artifact and its Result events are written once. */
  lemma {:induction false} RowsAreFinal(db: Db, inputs: seq<Input>, id: CommandId)
    requires id in db.inbox
    ensures SameRecord(db, Run(db, inputs), id)
    decreases |inputs|
  {
    hide Next, EventsFor;
    if inputs != [] {
      NextKeepsRow(db, inputs[0], id);
      RowsAreFinal(Next(db, inputs[0]), inputs[1..], id);
    }
  }

  /** A replay of a delete does not read node versions back. */
  function AsReplayed(answer: Reply, r: Request): Reply
    requires answer.Answer?
  {
    answer.(replayed := true, nodeVersions := if r.DeleteSeeds? then map[] else answer.nodeVersions)
  }

  /** Every node an accepted update names is in the snapshot with the version reported. */
  lemma NamedAreLive(g: Graph, version: nat, c: Command, x: NodeId)
    requires Parsed(c) && Decide(g, version, c).Change? && !c.request.DeleteSeeds? && x in Touched(g, c)
    ensures var h := Decide(g, version, c).graph; Live(h, x) && h.nodes[x].project == c.project
  {
    hide Strip;
    if c.request.UpdateBatch? {
      var items := c.request.items;
      var i :| 0 <= i < |items| && items[i].node == x;
      hide Preflight, FirstCurrent, EditItems;
      BatchItemLive(g, c.project, items, c.member, i);
    }
  }

  lemma BatchItemLive(g: Graph, p: ProjectId, items: seq<Item>, member: string, i: nat)
    requires i < |items| && DistinctNodes(items) && Preflight(g, p, items).None?
    ensures var h := EditItems(g, items, member); Live(h, items[i].node) && h.nodes[items[i].node].project == p
  {
    hide Strip, Preflight, EditItems, DistinctNodes;
    PreflightPassed(g, p, items);
    EditItemsAt(g, items, member);
    assert EditedAt(g, EditItems(g, items, member), items[i], member);
  }

  lemma PreflightPassed(g: Graph, p: ProjectId, items: seq<Item>)
    requires Preflight(g, p, items).None?
    ensures forall i :: 0 <= i < |items| ==> ItemFault(g, p, items[i]).None?
  {
  }

  lemma SnapshotReadsBack(g: Graph, h: Graph, c: Command, db: Db, id: CommandId)
    requires id in db.inbox && id in db.artifacts && db.artifacts[id].nodes == Snapshot(h, c.project)
    requires !c.request.DeleteSeeds? ==> forall x :: x in Touched(g, c) ==> Live(h, x) && h.nodes[x].project == c.project
    ensures ReadBack(db, id, c) == if c.request.DeleteSeeds? then map[] else Brought(g, h, c.request)
  {
    hide Saturate;
  }

  lemma AcceptedReplay(db: Db, id: CommandId, c: Command)
    requires Parsed(c) && EventsFor(db.events, id) == [] && Decide(db.graph, Version(db.versions, c.project), c).Change?
    ensures var h := Decide(db.graph, Version(db.versions, c.project), c).graph;
            Replay(Accepted(db, id, c, h), id, c) ==
            AsReplayed(Acceptance(db.graph, h, id, c, Version(db.versions, c.project) + 1), c.request)
  {
    hide Decide, Brought, Snapshot, Gone, ReadBack, Touched, EventsFor, Parsed;
    var v := Version(db.versions, c.project);
    var h := Decide(db.graph, v, c).graph;
    OneEvent(db.events, Changed(c.project, Some(id), v + 1), id);
    AcceptedReadsBack(db, id, c);
  }

  lemma AcceptedReadsBack(db: Db, id: CommandId, c: Command)
    requires Parsed(c) && Decide(db.graph, Version(db.versions, c.project), c).Change?
    ensures var h := Decide(db.graph, Version(db.versions, c.project), c).graph;
            ReadBack(Accepted(db, id, c, h), id, c) == if c.request.DeleteSeeds? then map[] else Brought(db.graph, h, c.request)
  {
    hide Decide, Brought, Snapshot, Gone, ReadBack, Touched, Parsed;
    var v := Version(db.versions, c.project);
    var h := Decide(db.graph, v, c).graph;
    if !c.request.DeleteSeeds? {
      forall x | x in Touched(db.graph, c) ensures Live(h, x) && h.nodes[x].project == c.project { NamedAreLive(db.graph, v, c, x); }
    }
    SnapshotReadsBack(db.graph, h, c, Accepted(db, id, c, h), id);
  }

  lemma OneEvent(events: seq<Event>, e: Event, id: CommandId)
    requires EventsFor(events, id) == [] && IsFor(e, id)
    ensures EventsFor(events + [e], id) == [e]
  {
    EventsForSnoc(events, e, id);
  }

  lemma RejectedReplay(db: Db, id: CommandId, c: Command, code: Code, failed: Option<NodeId>)
    requires id !in db.artifacts && EventsFor(db.events, id) == []
    ensures Replay(Rejected(db, id, c, code, failed), id, c) == AsReplayed(Refusal(id, c.request, code, failed), c.request)
  {
    hide EventsFor, ReadBack;
    RejectedReadsBack(db, id, c, code, failed);
    RejectedEvents(db.events, id, c.request, code, failed);
  }

  lemma RejectedEvents(events: seq<Event>, id: CommandId, r: Request, code: Code, failed: Option<NodeId>)
    requires EventsFor(events, id) == []
    ensures EventsFor(events + RejectionEvents(id, r, code, failed), id) == RejectionEvents(id, r, code, failed)
  {
    var es := RejectionEvents(id, r, code, failed);
    if es == [] {
      assert events + es == events;
    } else {
      assert events + es == events + [es[0]];
      OneEvent(events, es[0], id);
    }
  }

  lemma RejectedReadsBack(db: Db, id: CommandId, c: Command, code: Code, failed: Option<NodeId>)
    requires id !in db.artifacts
    ensures ReadBack(Rejected(db, id, c, code, failed), id, c) == map[]
  {
    hide RejectionEvents;
  }

  lemma UnchangedReplay(db: Db, id: CommandId, c: Command)
    requires id !in db.artifacts && EventsFor(db.events, id) == [] && Decide(db.graph, Version(db.versions, c.project), c).Nothing?
    ensures Replay(db.(inbox := db.inbox[id := Row(c, Completed)]), id, c) == AsReplayed(Unchanged(db.graph, c.request), c.request)
  {
    hide DeleteNodes, EventsFor;
  }

  /** The row, artifact and events a fresh delivery leaves give back its own answer. */
  lemma FreshReplay(db: Db, id: CommandId, c: Command, fate: Fate)
    requires Parsed(c) && id !in db.inbox && id !in db.artifacts && EventsFor(db.events, id) == [] && Process(db, id, c, fate).1.Answer?
    ensures var next := Process(db, id, c, fate).0;
            id in next.inbox && Replay(next, id, c) == AsReplayed(Process(db, id, c, fate).1, c.request)
  {
    hide Decide, Replay, AsReplayed, EventsFor;
    match Decide(db.graph, Version(db.versions, c.project), c)
    case Abort =>
    case Nothing => UnchangedReplay(db, id, c);
    case Reject(code, failed) => RejectedReplay(db, id, c, code, failed);
    case Change(h) =>
      RejectedReplay(db, id, c, SnapshotTooLarge, None);
      AcceptedReplay(db, id, c);
  }

  /**
   Redelivering a command later changes nothing and repeats its first answer,
   whatever happened in between: status, graph version, Result event, deleted
   nodes and, for an update, node versions.
   */
  lemma ReplayRepeatsAnswer(db: Db, id: CommandId, c: Command, fate: Fate, inputs: seq<Input>, again: Fate)
    requires InboxInv(db) && Parsed(c) && id !in db.inbox && Process(db, id, c, fate).1.Answer? && again != Crashes
    ensures var later := Run(Process(db, id, c, fate).0, inputs);
            Process(later, id, c, again) == (later, AsReplayed(Process(db, id, c, fate).1, c.request))
  {
    var next := Process(db, id, c, fate).0;
    FreshReplay(db, id, c, fate);
    RowsAreFinal(next, inputs, id);
    SameRowSameReplay(next, Run(next, inputs), id, c);
    hide Inv, Titled, Numbered, Reported, Decide, EventsFor, Replay, Next;
  }

  /** An accepted delete always had node versions to report, so its replay always says less. */
  lemma DeleteReportsVersions(g: Graph, version: nat, c: Command)
    requires Parsed(c) && c.request.DeleteSeeds? && Decide(g, version, c).Change?
    ensures Brought(g, Decide(g, version, c).graph, c.request) != map[]
  {
    hide DeleteNodes, Saturate;
    var seeds := c.request.seeds;
    DeleteAcceptedIff(g, c.project, seeds, c.member);
    assert seeds[0] in Seeds(seeds) && seeds[0] in Saturate(g, c.project, Seeds(seeds));
    assert seeds[0] in Brought(g, Decide(g, version, c).graph, c.request);
  }

  lemma SameRowSameReplay(db: Db, later: Db, id: CommandId, c: Command)
    requires SameRecord(db, later, id)
    ensures Replay(later, id, c) == Replay(db, id, c)
  {
    hide EventsFor;
  }

  // ----- the transactions -----

  class Inbox {
    var graph: Graph
    var inbox: map<CommandId, Row>
    var versions: map<ProjectId, nat>
    var artifacts: map<CommandId, Artifact>
    var events: seq<Event>

    function Value(): Db
      reads this
    {
      Db(graph, inbox, versions, artifacts, events)
    }

    constructor ()
      ensures Value() == Db(EMPTY_GRAPH, map[], map[], map[], []) && InboxInv(Value())
    {
      graph, inbox, versions, artifacts, events := EMPTY_GRAPH, map[], map[], map[], [];
      new;
      EmptyGraphInv();
    }

    method LockProjectGraphState(p: ProjectId) returns (version: nat, materialized: bool)
      modifies this`versions
      ensures version == Version(old(versions), p) && materialized == (p !in old(versions))
      ensures versions == old(versions)[p := version]
    {
      if p in versions {
        return versions[p], false;
      }
      versions := versions[p := 0];
      return 0, true;
    }

    method ReleaseUnmutatedGraphState(p: ProjectId)
      modifies this`versions
      ensures versions == if Version(old(versions), p) == 0 then old(versions) - {p} else old(versions)
    {
      if p in versions && versions[p] == 0 {
        versions := versions - {p};
      }
    }

    method BumpGraphVersion(p: ProjectId) returns (version: nat)
      modifies this`versions
      ensures version == Version(old(versions), p) + 1 && versions == old(versions)[p := version]
    {
      version := if p in versions then versions[p] + 1 else 1;
      versions := versions[p := version];
    }

    method StageProjectGraphChanged(id: CommandId, p: ProjectId, removed: set<NodeId>) returns (version: nat)
      modifies this`versions, this`artifacts, this`events
      ensures version == Version(old(versions), p) + 1 && versions == old(versions)[p := version]
      ensures artifacts == old(artifacts)[id := Artifact(version, Snapshot(graph, p), removed)]
      ensures events == old(events) + [Changed(p, Some(id), version)]
    {
      version := BumpGraphVersion(p);
      artifacts := artifacts[id := Artifact(version, Snapshot(graph, p), removed)];
      events := events + [Changed(p, Some(id), version)];
    }

    /** The validation loop over a batch, before the first write. */
    method BatchPreflight(p: ProjectId, items: seq<Item>) returns (fault: Option<(Code, NodeId)>)
      ensures fault == Preflight(graph, p, items)
    {
      fault := None;
      var i := 0;
      while i < |items|
        invariant i <= |items| && Preflight(graph, p, items) == Preflight(graph, p, items[i..])
      {
        var code := ItemFault(graph, p, items[i]);
        if code.Some? {
          return Some((code.value, items[i].node));
        }
        assert items[i..][1..] == items[i + 1..];
        i := i + 1;
      }
    }

    method ApplyBatch(items: seq<Item>, member: string)
      modifies this`graph
      ensures graph == EditItems(old(graph), items, member)
    {
      for i := 0 to |items|
        invariant graph == EditItems(old(graph), items[..i], member)
      {
        assert items[..i + 1][..i] == items[..i];
        graph := EditItem(graph, items[i], member);
      }
      assert items[..|items|] == items;
    }

    /** Record a rejection in the locked transaction; the version row goes back to what it was. */
    method RecordFailure(id: CommandId, c: Command, code: Code, failed: Option<NodeId>, materialized: bool, ghost unlocked: map<ProjectId, nat>)
      returns (reply: Reply)
      requires id !in inbox
      requires versions == unlocked[c.project := Version(unlocked, c.project)] && materialized == (c.project !in unlocked)
      modifies this`inbox, this`versions, this`events
      ensures Value() == Rejected(old(Value()).(versions := unlocked), id, c, code, failed) && reply == Refusal(id, c.request, code, failed)
    {
      inbox := inbox[id := Row(c, Failed(code))];
      events := events + RejectionEvents(id, c.request, code, failed);
      if materialized {
        ReleaseUnmutatedGraphState(c.project);
      }
      assert versions == unlocked;
      reply := Refusal(id, c.request, code, failed);
    }

    /** A second transaction after the first was rolled back. */
    method PersistTerminalFailure(id: CommandId, c: Command) returns (reply: Reply)
      requires id !in inbox
      modifies this`inbox, this`events
      ensures Value() == Rejected(old(Value()), id, c, SnapshotTooLarge, None) && reply == Refusal(id, c.request, SnapshotTooLarge, None)
    {
      inbox := inbox[id := Row(c, Failed(SnapshotTooLarge))];
      events := events + RejectionEvents(id, c.request, SnapshotTooLarge, None);
      reply := Refusal(id, c.request, SnapshotTooLarge, None);
    }

    /** Version, snapshot artifact, event and inbox row of a change already written to the graph. */
    method Complete(id: CommandId, c: Command, before: Graph, ghost unlocked: map<ProjectId, nat>) returns (reply: Reply)
      requires id !in inbox
      requires versions == unlocked[c.project := Version(unlocked, c.project)]
      modifies this`inbox, this`versions, this`artifacts, this`events
      ensures Value() == Accepted(old(Value()).(versions := unlocked, graph := before), id, c, graph)
      ensures reply == Acceptance(before, graph, id, c, Version(unlocked, c.project) + 1)
    {
      hide Snapshot, Gone, Brought;
      var v := StageProjectGraphChanged(id, c.project, Gone(before, graph));
      inbox := inbox[id := Row(c, Completed)];
      assert versions == unlocked[c.project := v];
      reply := Acceptance(before, graph, id, c, v);
    }

    method CompleteUnchanged(id: CommandId, c: Command, materialized: bool, ghost unlocked: map<ProjectId, nat>) returns (reply: Reply)
      requires versions == unlocked[c.project := Version(unlocked, c.project)] && materialized == (c.project !in unlocked)
      modifies this`inbox, this`versions
      ensures Value() == old(Value()).(versions := unlocked, inbox := old(inbox)[id := Row(c, Completed)])
      ensures reply == Unchanged(graph, c.request)
    {
      inbox := inbox[id := Row(c, Completed)];
      if materialized {
        ReleaseUnmutatedGraphState(c.project);
      }
      assert versions == unlocked;
      reply := Unchanged(graph, c.request);
    }

    /** One transaction; `fate` is what happens when the snapshot is built. */
    method ProcessNodeContentUpdate(id: CommandId, c: Command, fate: Fate) returns (reply: Reply)
      requires c.request.UpdateNode?
      modifies this
      ensures Value() == old(Process(Value(), id, c, fate)).0 && reply == old(Process(Value(), id, c, fate)).1
    {
      hide Strip, Revised, Revisable, Rejected, Replay, DecideBatch, DecideDelete;
      if fate == Crashes { return Aborted; }
      if id in inbox { return Replay(Value(), id, c); }
      var restore, before := versions, graph;
      var _, materialized := LockProjectGraphState(c.project);
      var x := c.request.node;
      var fault := Uneditable(graph, c.project, x, c.request.expected);
      if fault.Some? {
        reply := RecordFailure(id, c, fault.value, None, materialized, restore);
        return;
      }
      var n := graph.nodes[x];
      var title, content := NextTitle(n, c.request.title), NextContent(n, c.request.content);
      if title == n.title && content == n.content {
        reply := CompleteUnchanged(id, c, materialized, restore);
        return;
      }
      if !Revisable(n) {
        reply := RecordFailure(id, c, InvalidCurrentRevision, None, materialized, restore);
        return;
      }
      if Strip(title) == "" {
        versions := restore;
        return Aborted;
      }
      graph := graph.(nodes := graph.nodes[x := Revised(n, title, content, c.member)]);
      if fate == TooLarge {
        versions, graph := restore, before;
        reply := PersistTerminalFailure(id, c);
      } else {
        reply := Complete(id, c, before, restore);
      }
    }

    method ProcessNodeContentBatchUpdate(id: CommandId, c: Command, fate: Fate) returns (reply: Reply)
      requires c.request.UpdateBatch?
      modifies this
      ensures Value() == old(Process(Value(), id, c, fate)).0 && reply == old(Process(Value(), id, c, fate)).1
    {
      hide Strip, Preflight, FirstCurrent, EditItems, Rejected, Replay, DecideUpdate, DecideDelete;
      if fate == Crashes { return Aborted; }
      if id in inbox { return Replay(Value(), id, c); }
      var restore, before := versions, graph;
      var _, materialized := LockProjectGraphState(c.project);
      var items := c.request.items;
      var fault := BatchPreflight(c.project, items);
      if fault.Some? {
        reply := RecordFailure(id, c, fault.value.0, Some(fault.value.1), materialized, restore);
        return;
      }
      var current := FirstCurrent(graph, items);
      if current.Some? {
        reply := RecordFailure(id, c, NoChange, current, materialized, restore);
        return;
      }
      if exists i :: 0 <= i < |items| && Strip(items[i].title) == "" {
        versions := restore;
        return Aborted;
      }
      ApplyBatch(items, c.member);
      if fate == TooLarge {
        versions, graph := restore, before;
        reply := PersistTerminalFailure(id, c);
      } else {
        reply := Complete(id, c, before, restore);
      }
    }

    method ProcessNodeDelete(id: CommandId, c: Command, fate: Fate) returns (reply: Reply)
      requires c.request.DeleteSeeds?
      modifies this
      ensures Value() == old(Process(Value(), id, c, fate)).0 && reply == old(Process(Value(), id, c, fate)).1
    {
      hide DeleteNodes, Rejected, Replay, RejectionEvents, DecideUpdate, DecideBatch;
      if fate == Crashes { return Aborted; }
      if id in inbox { return Replay(Value(), id, c); }
      var restore, before := versions, graph;
      var version, materialized := LockProjectGraphState(c.project);
      if version != c.request.expectedGraph {
        reply := RecordFailure(id, c, GraphVersionConflict, None, materialized, restore);
        return;
      }
      var r := DeleteNodes(graph, c.project, c.request.seeds, c.member);
      if r.Err? {
        if r.error == NotFound {
          reply := RecordFailure(id, c, NodeNotFound, None, materialized, restore);
        } else if r.error == OtherProject {
          reply := RecordFailure(id, c, NodeProjectMismatch, None, materialized, restore);
        } else {
          versions := restore;
          reply := Aborted;
        }
        return;
      }
      if fate == TooLarge {
        versions := restore;
        reply := PersistTerminalFailure(id, c);
      } else {
        graph := r.value;
        reply := Complete(id, c, before, restore);
      }
    }
  }
}

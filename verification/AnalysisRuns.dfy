/**
 Analysis runs of a node: request or reuse, claim, retrieval, the recommendation
 model's two transactions around its call, failure and invalidation.  Workers
 and user edits interleave freely, and a worker may die between transactions.
 */
module AnalysisRuns {
  import opened Options

  type NodeId = nat
  type RunId = nat

  datatype NodeStatus = NodePending | Analyzing | Analyzed | Stale | NodeFailed

  datatype RunStatus = Pending | Running | Completed | Failed | Superseded

  datatype Retrieval = NotRetrieved | Retrieved(count: nat) | RetrievalFailed

  datatype Model = ModelPending | ModelRunning | ModelSucceeded | ModelSkipped | ModelFailed

  // The hash of embedding text and configuration is injective: it is represented by its input.
  datatype Hash = Hash(text: nat, config: nat)

  // `unattached` is: UNATTACHED and not merged.
  datatype Node = Node(version: nat, text: nat, unattached: bool, status: NodeStatus, current: Option<RunId>, hash: Option<Hash>)

  // `rows`, `results`, `candidates` count dependent rows; `calls` counts provider calls and is not stored.
  datatype Run = Run(
    node: NodeId, version: nat, hash: Hash, attempt: nat, status: RunStatus,
    retrieval: Retrieval, rows: nat, model: Model, results: nat, candidates: nat, calls: nat)

  datatype Db = Db(nodes: map<NodeId, Node>, runs: map<RunId, Run>)

  // ----- transition tables -----

  predicate NodeMayMove(a: NodeStatus, b: NodeStatus) {
    a == b ||
    match a
    case NodePending => b == Analyzing || b == NodeFailed || b == Stale
    case Analyzing => b == Analyzed || b == NodeFailed || b == Stale
    case Analyzed => b == Stale
    case Stale => b == NodePending
    case NodeFailed => b == NodePending || b == Stale
  }

  predicate RunMayMove(a: RunStatus, b: RunStatus) {
    a == b ||
    match a
    case Pending => b == Running || b == Failed || b == Superseded
    case Running => b == Completed || b == Failed || b == Superseded
    case Completed => b == Superseded
    case Failed => false
    case Superseded => false
  }

  predicate IsLive(s: RunStatus) {
    s == Pending || s == Running || s == Completed
  }

  function NodeStatusFor(s: RunStatus): NodeStatus {
    match s
    case Pending => NodePending
    case Running => Analyzing
    case Completed => Analyzed
    case Failed => NodeFailed
    case Superseded => Stale
  }

  // A None result is a raised error: the transaction rolls back.

  function SetNodeStatus(n: Node, s: NodeStatus): Option<Node> {
    if NodeMayMove(n.status, s) then Some(n.(status := s)) else None
  }

  function SetRunStatus(r: Run, s: RunStatus): Option<Run> {
    if RunMayMove(r.status, s) then Some(r.(status := s)) else None
  }

  function PrepareForPending(n: Node): Option<Node> {
    var m := if n.status == Analyzing || n.status == Analyzed then n.(status := Stale) else n;
    SetNodeStatus(m, NodePending)
  }

  function ShowStatus(n: Node, s: RunStatus): Option<Node> {
    if n.status == NodeStatusFor(s) then Some(n)
    else if NodeStatusFor(s) == NodePending then PrepareForPending(n)
    else SetNodeStatus(n, NodeStatusFor(s))
  }

  // ----- request -----

  function Supersede(runs: map<RunId, Run>, r: Option<RunId>): map<RunId, Run> {
    if r.Some? && r.value in runs && IsLive(runs[r.value].status) then runs[r.value := runs[r.value].(status := Superseded)] else runs
  }

  predicate Unfinished(db: Db, x: NodeId, h: Hash, r: RunId) {
    r in db.runs && db.runs[r].node == x && db.runs[r].hash == h && (db.runs[r].status == Pending || db.runs[r].status == Running)
  }

  predicate Same(db: Db, x: NodeId, v: nat, h: Hash, r: RunId) {
    r in db.runs && db.runs[r].node == x && db.runs[r].version == v && db.runs[r].hash == h
  }

  /** Answers to the two ordered queries of a request. */
  ghost predicate IsActive(db: Db, x: NodeId, h: Hash, a: Option<RunId>) {
    match a
    case None => forall r :: !Unfinished(db, x, h, r)
    case Some(b) => Unfinished(db, x, h, b) && forall r :: Unfinished(db, x, h, r) ==> db.runs[r].attempt <= db.runs[b].attempt
  }

  ghost predicate IsLatest(db: Db, x: NodeId, v: nat, h: Hash, a: Option<RunId>) {
    match a
    case None => forall r :: !Same(db, x, v, h, r)
    case Some(b) => Same(db, x, v, h, b) && forall r :: Same(db, x, v, h, r) ==> db.runs[r].attempt <= db.runs[b].attempt
  }

  /** Adopt run `r` as the node's current run. */
  function Reuse(db: Db, x: NodeId, r: RunId): Option<Db>
    requires x in db.nodes && r in db.runs
  {
    var n := db.nodes[x];
    var runs := if n.current == Some(r) then db.runs else Supersede(db.runs, n.current);
    if r !in runs then None
    else
      var shown := ShowStatus(n.(current := Some(r), hash := Some(db.runs[r].hash)), db.runs[r].status);
      if shown.None? then None else Some(Db(db.nodes[x := shown.value], runs))
  }

  function NewRun(x: NodeId, v: nat, h: Hash, attempt: nat): Run {
    Run(x, v, h, attempt, Pending, NotRetrieved, 0, ModelPending, 0, 0, 0)
  }

  function Renew(db: Db, x: NodeId, h: Hash, latest: Option<RunId>, id: RunId): Option<Db>
    requires x in db.nodes && (latest.Some? ==> latest.value in db.runs)
  {
    var n := db.nodes[x];
    var attempt := if latest.None? then 1 else db.runs[latest.value].attempt + 1;
    var runs := Supersede(db.runs, n.current)[id := NewRun(x, n.version, h, attempt)];
    var shown := PrepareForPending(n.(current := Some(id), hash := Some(h)));
    if shown.None? then None else Some(Db(db.nodes[x := shown.value], runs))
  }

  /**
   Create or reuse a run.  `active` and `latest` answer the queries, `drifted` says
   that the latest run's open candidate aims at a changed target, `id` is new.
   */
  function Reanalyze(db: Db, x: NodeId, expected: nat, config: nat, active: Option<RunId>, latest: Option<RunId>, drifted: bool, id: RunId): Option<Db>
    requires (active.Some? ==> active.value in db.runs) && (latest.Some? ==> latest.value in db.runs)
  {
    if x !in db.nodes || !db.nodes[x].unattached || db.nodes[x].version != expected then None
    else
      var n := db.nodes[x];
      var h := Hash(n.text, config);
      if active.Some? && db.runs[active.value].version == n.version then Reuse(db, x, active.value)
      else
        var d := db.(runs := Supersede(db.runs, active));
        if latest.Some? && latest.value in d.runs && IsLive(d.runs[latest.value].status) && !drifted then Reuse(d, x, latest.value)
        else if latest.Some? && latest.value !in d.runs then None
        else Renew(d, x, h, latest, id)
  }

  // ----- the worker's transactions -----

  predicate IsCurrent(db: Db, r: RunId)
    requires r in db.runs && db.runs[r].node in db.nodes
  {
    var n := db.nodes[db.runs[r].node];
    n.current == Some(r) && n.version == db.runs[r].version && n.hash == Some(db.runs[r].hash) && n.unattached
  }

  predicate Known(db: Db, r: RunId) {
    r in db.runs && db.runs[r].node in db.nodes
  }

  /** Move run and node together; None if either table forbids the move. */
  function Move(db: Db, r: RunId, run: Run, s: RunStatus): Option<Db>
    requires Known(db, r)
  {
    var moved := SetRunStatus(run, s);
    var shown := SetNodeStatus(db.nodes[db.runs[r].node], NodeStatusFor(s));
    if moved.None? || shown.None? then None
    else Some(Db(db.nodes[db.runs[r].node := shown.value], db.runs[r := moved.value]))
  }

  function MarkRunning(db: Db, r: RunId): Option<Db> {
    if !Known(db, r) then None
    else if !IsCurrent(db, r) then Some(db.(runs := Supersede(db.runs, Some(r))))
    else if db.runs[r].status == Running then Some(db)
    else Move(db, r, db.runs[r], Running)
  }

  function MarkFailed(db: Db, r: RunId): Option<Db> {
    if !Known(db, r) then None
    else if !IsCurrent(db, r) then Some(db.(runs := Supersede(db.runs, Some(r))))
    else if db.runs[r].status == Failed then Some(db)
    else
      var run := db.runs[r];
      Move(db, r, if run.retrieval.Retrieved? then run else run.(retrieval := RetrievalFailed), Failed)
  }

  predicate RetrievalComplete(run: Run) {
    run.retrieval.Retrieved? && run.retrieval.count == run.rows
  }

  predicate OutputsPresent(run: Run) {
    && RetrievalComplete(run)
    && (if run.rows == 0 then run.model == ModelSkipped && run.results == 0 && run.candidates == 0
        else run.model == ModelSucceeded && run.results == 1 && run.candidates == 1)
  }

  function MarkCompleted(db: Db, r: RunId, embedded: bool): Option<Db> {
    if !Known(db, r) then None
    else if !IsCurrent(db, r) then Some(db.(runs := Supersede(db.runs, Some(r))))
    else if db.runs[r].status == Completed then Some(db)
    else if !embedded || !OutputsPresent(db.runs[r]) then None
    else Move(db, r, db.runs[r], Completed)
  }

  /** Store the retrieval rows; `sameText` says the text is still the one that was embedded. */
  function StoreRetrieval(db: Db, r: RunId, count: nat, sameText: bool): Option<Db> {
    if !Known(db, r) then None
    else if db.runs[r].retrieval.Retrieved? then Some(db)
    else if db.runs[r].status != Running || !IsCurrent(db, r) || !sameText then None
    else Some(db.(runs := db.runs[r := db.runs[r].(retrieval := Retrieved(count), rows := count)]))
  }

  /** First model transaction.  The flag says that the provider is called next. */
  function ModelClaim(db: Db, r: RunId): (Option<Db>, bool) {
    if !Known(db, r) then (None, false)
    else if db.runs[r].status == Completed then (Some(db), false)
    else if !IsCurrent(db, r) then (Some(db.(runs := Supersede(db.runs, Some(r)))), false)
    else if db.runs[r].status != Running || !RetrievalComplete(db.runs[r]) then (None, false)
    else
      var run := db.runs[r];
      if run.rows == 0 then (Move(db, r, run.(model := ModelSkipped), Completed), false)
      else if run.model == ModelSucceeded || run.model == ModelRunning then (Some(db), false)
      else if run.model != ModelPending && run.model != ModelFailed then (None, false)
      else (Some(db.(runs := db.runs[r := run.(model := ModelRunning, calls := run.calls + 1)])), true)
  }

  /** Second model transaction, with the provider's answer; `valid` is the target check. */
  function ModelPersist(db: Db, r: RunId, valid: bool): Option<Db> {
    if !Known(db, r) then None
    else if !IsCurrent(db, r) then Some(db.(runs := Supersede(db.runs, Some(r))))
    else if db.runs[r].status != Running || db.runs[r].model != ModelRunning then None
    else if !RetrievalComplete(db.runs[r]) || !valid then None
    else
      var run := db.runs[r];
      Move(db, r, run.(model := ModelSucceeded, results := run.results + 1, candidates := run.candidates + 1), Completed)
  }

  function ModelFail(db: Db, r: RunId): Option<Db> {
    if !Known(db, r) then None
    else if !IsCurrent(db, r) then Some(db.(runs := Supersede(db.runs, Some(r))))
    else if db.runs[r].model == ModelSucceeded then Some(db)
    else Move(db, r, db.runs[r].(model := ModelFailed), Failed)
  }

  /** A user edit: the version steps, and a changed embedding text invalidates the analysis. */
  function EditText(db: Db, x: NodeId, text: nat): Db {
    if x !in db.nodes then db
    else
      var n := db.nodes[x].(version := db.nodes[x].version + 1, text := text);
      if text == db.nodes[x].text then db.(nodes := db.nodes[x := n])
      else Db(db.nodes[x := n.(status := Stale, hash := None)], Supersede(db.runs, n.current))
  }

  // ----- runs of transactions -----

  datatype Step =
    | Insert(x: NodeId, text: nat)
    | Request(x: NodeId, expected: nat, config: nat, active: Option<RunId>, latest: Option<RunId>, drifted: bool, id: RunId)
    | Claim(r: RunId)
    | Store(r: RunId, count: nat, sameText: bool)
    | Complete(r: RunId, embedded: bool)
    | Fail(r: RunId)
    | CallModel(r: RunId)
    | SaveModel(r: RunId, valid: bool)
    | FailModel(r: RunId)
    | Edit(x: NodeId, text: nat)
    | Drift(x: NodeId, version: nat, text: nat, unattached: bool)

  ghost predicate Possible(db: Db, step: Step) {
    match step
    case Request(x, _, config, active, latest, _, id) =>
      && id !in db.runs
      && (active.Some? ==> active.value in db.runs) && (latest.Some? ==> latest.value in db.runs)
      && (x in db.nodes ==> IsActive(db, x, Hash(db.nodes[x].text, config), active))
      && (x in db.nodes ==> IsLatest(db, x, db.nodes[x].version, Hash(db.nodes[x].text, config), latest))
    case FailModel(r) => r in db.runs ==> db.runs[r].calls > 0
    case _ => true
  }

  function Attempt(db: Db, step: Step): Option<Db>
    requires Possible(db, step)
  {
    match step
    case Insert(x, text) => if x in db.nodes then None else Some(db.(nodes := db.nodes[x := Node(1, text, true, Stale, None, None)]))
    case Request(x, expected, config, active, latest, drifted, id) => Reanalyze(db, x, expected, config, active, latest, drifted, id)
    case Claim(r) => MarkRunning(db, r)
    case Store(r, count, sameText) => StoreRetrieval(db, r, count, sameText)
    case Complete(r, embedded) => MarkCompleted(db, r, embedded)
    case Fail(r) => MarkFailed(db, r)
    case CallModel(r) => ModelClaim(db, r).0
    case SaveModel(r, valid) => ModelPersist(db, r, valid)
    case FailModel(r) => ModelFail(db, r)
    case Edit(x, text) => Some(EditText(db, x, text))
    case Drift(x, version, text, unattached) =>
      if x !in db.nodes then None
      else Some(db.(nodes := db.nodes[x := db.nodes[x].(version := version, text := text, unattached := unattached)]))
  }

  function Do(db: Db, step: Step): Db
    requires Possible(db, step)
  {
    var r := Attempt(db, step);
    if r.Some? then r.value else db
  }

  ghost predicate PossibleRun(db: Db, steps: seq<Step>)
    decreases |steps|
  {
    steps == [] || (Possible(db, steps[0]) && PossibleRun(Do(db, steps[0]), steps[1..]))
  }

  function RunAll(db: Db, steps: seq<Step>): Db
    requires PossibleRun(db, steps)
    decreases |steps|
  {
    if steps == [] then db else RunAll(Do(db, steps[0]), steps[1..])
  }

  // ----- the invariant -----

  /** A PENDING, RUNNING or COMPLETED run is the current run of its node. */
  ghost predicate LiveIsCurrent(db: Db) {
    forall r :: r in db.runs && IsLive(db.runs[r].status) ==>
      db.runs[r].node in db.nodes && db.nodes[db.runs[r].node].current == Some(r)
  }

  ghost predicate PointersOk(db: Db) {
    && (forall r :: r in db.runs ==> db.runs[r].node in db.nodes)
    && (forall x :: x in db.nodes && db.nodes[x].current.Some? ==>
          db.nodes[x].current.value in db.runs && db.runs[db.nodes[x].current.value].node == x)
  }

  /** The node shows the status of its current run while that run is live. */
  ghost predicate InStep(db: Db) {
    forall r :: r in db.runs && db.runs[r].node in db.nodes && db.nodes[db.runs[r].node].current == Some(r) && IsLive(db.runs[r].status) ==>
      db.nodes[db.runs[r].node].status == NodeStatusFor(db.runs[r].status)
  }

  /** What the stages of one run have produced. */
  predicate RunOk(run: Run) {
    && run.attempt >= 1
    && (run.retrieval.Retrieved? ==> run.rows == run.retrieval.count)
    && (match run.model
        case ModelPending => run.calls == 0 && run.results == 0 && run.candidates == 0
        case ModelRunning => run.calls == 1 && run.results == 0 && run.candidates == 0 && run.retrieval.Retrieved? && run.rows > 0
        case ModelSucceeded => run.calls == 1 && run.results == 1 && run.candidates == 1 && run.retrieval.Retrieved? && run.rows > 0
        case ModelSkipped => run.calls == 0 && run.results == 0 && run.candidates == 0 && run.retrieval == Retrieved(0)
        case ModelFailed => run.calls == 1 && run.results == 0 && run.candidates == 0)
    && (match run.status
        case Pending => run.model == ModelPending && run.retrieval == NotRetrieved
        case Running => run.model == ModelPending || run.model == ModelRunning
        case Completed => run.model == ModelSkipped || run.model == ModelSucceeded
        case Failed => run.model != ModelSucceeded && run.model != ModelSkipped
        case Superseded => run.model != ModelFailed)
  }

  ghost predicate RunsOk(db: Db) {
    forall r :: r in db.runs ==> RunOk(db.runs[r])
  }

  predicate Siblings(a: Run, b: Run) {
    a.node == b.node && a.version == b.version && a.hash == b.hash
  }

  ghost predicate HasAttempt(db: Db, run: Run, n: nat) {
    exists r :: r in db.runs && Siblings(db.runs[r], run) && db.runs[r].attempt == n
  }

  /** The attempts at one (node, version, hash) are 1..k, each once. */
  ghost predicate AttemptsOk(db: Db) {
    && (forall r, n: nat :: r in db.runs && 1 <= n <= db.runs[r].attempt ==> HasAttempt(db, db.runs[r], n))
    && (forall r, q :: r in db.runs && q in db.runs && Siblings(db.runs[r], db.runs[q]) && db.runs[r].attempt == db.runs[q].attempt ==> r == q)
  }

  ghost predicate RunsInv(db: Db) {
    LiveIsCurrent(db) && PointersOk(db) && InStep(db) && RunsOk(db) && AttemptsOk(db)
  }

  // ----- every step keeps it -----

  predicate SameIdentity(a: Run, b: Run) {
    Siblings(a, b) && a.attempt == b.attempt
  }

  /** Attempts only depend on the runs' identities. */
  lemma AttemptsKeep(db: Db, to: Db)
    requires AttemptsOk(db) && to.runs.Keys == db.runs.Keys && forall r :: r in db.runs ==> SameIdentity(to.runs[r], db.runs[r])
    ensures AttemptsOk(to)
  {
    forall r, n: nat | r in to.runs && 1 <= n <= to.runs[r].attempt
      ensures HasAttempt(to, to.runs[r], n)
    {
      assert HasAttempt(db, db.runs[r], n);
      var q :| q in db.runs && Siblings(db.runs[q], db.runs[r]) && db.runs[q].attempt == n;
      assert Siblings(to.runs[q], to.runs[r]);
    }
  }

  lemma SupersedeRuns(runs: map<RunId, Run>, r: Option<RunId>)
    ensures var to := Supersede(runs, r);
            && to.Keys == runs.Keys
            && (forall q :: q in runs && Some(q) != r ==> to[q] == runs[q])
            && (forall q :: q in runs ==> to[q] == runs[q] || (IsLive(runs[q].status) && to[q] == runs[q].(status := Superseded)))
            && (forall q :: q in runs && IsLive(to[q].status) ==> to[q] == runs[q] && Some(q) != r)
            && (forall q :: q in runs && !IsLive(runs[q].status) ==> to[q] == runs[q])
  {
  }

  /** Node pointers and run owners unchanged, and nothing newly live. */
  lemma PointersKeep(db: Db, to: Db)
    requires LiveIsCurrent(db) && PointersOk(db)
    requires to.nodes.Keys == db.nodes.Keys && to.runs.Keys == db.runs.Keys
    requires forall x :: x in db.nodes ==> to.nodes[x].current == db.nodes[x].current
    requires forall r :: r in db.runs ==> to.runs[r].node == db.runs[r].node
    requires forall r :: r in db.runs && IsLive(to.runs[r].status) ==> db.nodes[db.runs[r].node].current == Some(r)
    ensures LiveIsCurrent(to) && PointersOk(to)
  {
  }

  /** Superseding a run drops it from the live ones and keeps everything else. */
  lemma SupersedeKeeps(db: Db, r: Option<RunId>)
    requires RunsInv(db)
    ensures RunsInv(db.(runs := Supersede(db.runs, r)))
    ensures r.Some? && r.value in db.runs ==> r.value in Supersede(db.runs, r) && !IsLive(Supersede(db.runs, r)[r.value].status)
    ensures Supersede(db.runs, r).Keys == db.runs.Keys
    ensures forall q :: q in db.runs && Some(q) != r ==> Supersede(db.runs, r)[q] == db.runs[q]
  {
    var to := db.(runs := Supersede(db.runs, r));
    SupersedeRuns(db.runs, r);
    AttemptsKeep(db, to);
    PointersKeep(db, to);
    SupersededRunsOk(db, to);
    SupersededInStep(db, to);
    hide Supersede, LiveIsCurrent, PointersOk, InStep, RunsOk, AttemptsOk, IsLive;
  }

  lemma SupersededRunsOk(db: Db, to: Db)
    requires RunsOk(db) && to.runs.Keys == db.runs.Keys
    requires forall q :: q in db.runs ==> to.runs[q] == db.runs[q] || (IsLive(db.runs[q].status) && to.runs[q] == db.runs[q].(status := Superseded))
    ensures RunsOk(to)
  {
  }

  lemma SupersededInStep(db: Db, to: Db)
    requires InStep(db) && to.nodes == db.nodes && to.runs.Keys == db.runs.Keys
    requires forall q :: q in db.runs && IsLive(to.runs[q].status) ==> to.runs[q] == db.runs[q]
    ensures InStep(to)
  {
  }

  /** Rewriting one run in place, and its node's status with it. */
  lemma RewriteKeeps(db: Db, to: Db, r: RunId, run: Run, s: NodeStatus)
    requires RunsInv(db) && Known(db, r) && db.nodes[db.runs[r].node].current == Some(r)
    requires SameIdentity(run, db.runs[r]) && RunOk(run) && (IsLive(run.status) ==> s == NodeStatusFor(run.status))
    requires to == Db(db.nodes[db.runs[r].node := db.nodes[db.runs[r].node].(status := s)], db.runs[r := run])
    ensures RunsInv(to)
  {
    hide RunOk, NodeStatusFor;
    AttemptsKeep(db, to);
    PointersKeep(db, to);
    RewrittenInStep(db, to, r);
    assert RunsOk(to);
    hide LiveIsCurrent, PointersOk, InStep, RunsOk, AttemptsOk;
  }

  lemma RewrittenInStep(db: Db, to: Db, r: RunId)
    requires InStep(db) && Known(db, r) && r in to.runs && db.runs[r].node in to.nodes && to.runs[r].node == db.runs[r].node
    requires db.nodes[db.runs[r].node].current == Some(r) == to.nodes[db.runs[r].node].current
    requires to.nodes == db.nodes[db.runs[r].node := to.nodes[db.runs[r].node]] && to.runs == db.runs[r := to.runs[r]]
    requires IsLive(to.runs[r].status) ==> to.nodes[db.runs[r].node].status == NodeStatusFor(to.runs[r].status)
    ensures InStep(to)
  {
  }

  /** When the run's own transition is legal, the node's is: that guard is dead. */
  lemma NodeGuardIsDead(db: Db, r: RunId, s: RunStatus)
    requires RunsInv(db) && Known(db, r) && IsCurrent(db, r) && s != Superseded
    requires RunMayMove(db.runs[r].status, s) && db.runs[r].status != s
    ensures NodeMayMove(db.nodes[db.runs[r].node].status, NodeStatusFor(s))
  {
  }

  lemma MoveKeeps(db: Db, r: RunId, run: Run, s: RunStatus)
    requires RunsInv(db) && Known(db, r) && IsCurrent(db, r) && SameIdentity(run, db.runs[r])
    requires RunOk(run.(status := s)) && Move(db, r, run, s).Some?
    ensures RunsInv(Move(db, r, run, s).value)
  {
    RewriteKeeps(db, Move(db, r, run, s).value, r, run.(status := s), NodeStatusFor(s));
  }

  lemma ReuseKeeps(db: Db, x: NodeId, r: RunId)
    requires RunsInv(db) && x in db.nodes && r in db.runs && db.runs[r].node == x && IsLive(db.runs[r].status)
    ensures Reuse(db, x, r) == Some(db.(nodes := db.nodes[x := db.nodes[x].(hash := Some(db.runs[r].hash))]))
    ensures RunsInv(Reuse(db, x, r).value)
  {
    assert db.nodes[x].current == Some(r);
    var to := db.(nodes := db.nodes[x := db.nodes[x].(hash := Some(db.runs[r].hash))]);
    AttemptsKeep(db, to);
  }

  lemma CurrentIsKnown(db: Db, x: NodeId)
    requires RunsInv(db) && x in db.nodes && db.nodes[x].current.Some?
    ensures db.nodes[x].current.value in db.runs
  {
  }

  lemma LatestAfterSupersede(db: Db, c: Option<RunId>, x: NodeId, v: nat, h: Hash, latest: Option<RunId>)
    requires IsLatest(db, x, v, h, latest)
    ensures var d := db.(runs := Supersede(db.runs, c));
            IsLatest(d, x, v, h, latest) && (latest.Some? ==> d.runs[latest.value].attempt == db.runs[latest.value].attempt)
  {
    var d := db.(runs := Supersede(db.runs, c));
    assert forall r :: Same(db, x, v, h, r) <==> Same(d, x, v, h, r);
  }

  lemma RenewIs(db: Db, x: NodeId, h: Hash, latest: Option<RunId>, id: RunId)
    requires x in db.nodes && (latest.Some? ==> latest.value in db.runs)
    ensures var attempt := if latest.None? then 1 else db.runs[latest.value].attempt + 1;
            Renew(db, x, h, latest, id) ==
            Some(Db(db.nodes[x := db.nodes[x].(current := Some(id), hash := Some(h), status := NodePending)],
                    Supersede(db.runs, db.nodes[x].current)[id := NewRun(x, db.nodes[x].version, h, attempt)]))
  {
  }

  lemma RenewKeeps(db: Db, x: NodeId, h: Hash, latest: Option<RunId>, id: RunId)
    requires RunsInv(db) && x in db.nodes && id !in db.runs && IsLatest(db, x, db.nodes[x].version, h, latest)
    ensures Renew(db, x, h, latest, id).Some? && RunsInv(Renew(db, x, h, latest, id).value)
  {
    if db.nodes[x].current.Some? { CurrentIsKnown(db, x); }
    hide RunsInv, Renew;
    var d := db.(runs := Supersede(db.runs, db.nodes[x].current));
    SupersedeKeeps(db, db.nodes[x].current);
    LatestAfterSupersede(db, db.nodes[x].current, x, db.nodes[x].version, h, latest);
    RenewIs(db, x, h, latest, id);
    InsertRunKeeps(d, x, h, latest, id, Renew(db, x, h, latest, id).value);
  }

  lemma InsertRunKeeps(d: Db, x: NodeId, h: Hash, latest: Option<RunId>, id: RunId, to: Db)
    requires RunsInv(d) && x in d.nodes && id !in d.runs && IsLatest(d, x, d.nodes[x].version, h, latest)
    requires d.nodes[x].current.Some? ==> !IsLive(d.runs[d.nodes[x].current.value].status)
    requires var attempt := if latest.None? then 1 else d.runs[latest.value].attempt + 1;
             to == Db(d.nodes[x := d.nodes[x].(current := Some(id), hash := Some(h), status := NodePending)],
                      d.runs[id := NewRun(x, d.nodes[x].version, h, attempt)])
    ensures RunsInv(to)
  {
    var run := to.runs[id];
    assert LiveIsCurrent(to) by {
      forall r | r in to.runs && IsLive(to.runs[r].status)
        ensures to.runs[r].node in to.nodes && to.nodes[to.runs[r].node].current == Some(r)
      {
        if r != id { assert d.nodes[d.runs[r].node].current == Some(r); }
      }
    }
    assert forall r :: r in d.runs ==> (Siblings(d.runs[r], run) <==> Same(d, x, d.nodes[x].version, h, r));
    InsertAttempt(d, to, id, latest);
  }

  lemma InsertAttempt(d: Db, to: Db, id: RunId, latest: Option<RunId>)
    requires AttemptsOk(d) && id !in d.runs && id in to.runs && to.runs == d.runs[id := to.runs[id]]
    requires latest.None? ==> to.runs[id].attempt == 1 && forall r :: r in d.runs ==> !Siblings(d.runs[r], to.runs[id])
    requires latest.Some? ==>
      && latest.value in d.runs && Siblings(d.runs[latest.value], to.runs[id])
      && to.runs[id].attempt == d.runs[latest.value].attempt + 1
      && forall r :: r in d.runs && Siblings(d.runs[r], to.runs[id]) ==> d.runs[r].attempt <= d.runs[latest.value].attempt
    ensures AttemptsOk(to)
  {
    forall r, n: nat | r in to.runs && 1 <= n <= to.runs[r].attempt
      ensures HasAttempt(to, to.runs[r], n)
    {
      if r == id && n == to.runs[id].attempt {
        assert Siblings(to.runs[id], to.runs[r]);
      } else {
        var base := if r == id then latest.value else r;
        assert HasAttempt(d, d.runs[base], n);
        var q :| q in d.runs && Siblings(d.runs[q], d.runs[base]) && d.runs[q].attempt == n;
        assert Siblings(to.runs[q], to.runs[r]);
      }
    }
  }

  /** A request is refused only for its own reasons: no transition guard ever stops it. */
  lemma ReanalyzeKeeps(db: Db, x: NodeId, expected: nat, config: nat, active: Option<RunId>, latest: Option<RunId>, drifted: bool, id: RunId)
    requires RunsInv(db) && Possible(db, Request(x, expected, config, active, latest, drifted, id))
    ensures var r := Reanalyze(db, x, expected, config, active, latest, drifted, id);
            && (r.Some? <==> x in db.nodes && db.nodes[x].unattached && db.nodes[x].version == expected)
            && (r.Some? ==> RunsInv(r.value))
  {
    hide RunsInv;
    if x in db.nodes && db.nodes[x].unattached && db.nodes[x].version == expected {
      var h := Hash(db.nodes[x].text, config);
      if active.Some? && db.runs[active.value].version == db.nodes[x].version {
        ReuseKeeps(db, x, active.value);
      } else {
        var d := db.(runs := Supersede(db.runs, active));
        SupersedeKeeps(db, active);
        assert forall r :: Same(db, x, db.nodes[x].version, h, r) <==> Same(d, x, db.nodes[x].version, h, r);
        if latest.Some? && IsLive(d.runs[latest.value].status) && !drifted {
          ReuseKeeps(d, x, latest.value);
        } else {
          RenewKeeps(d, x, h, latest, id);
        }
      }
    }
  }

  lemma ClaimKeeps(db: Db, r: RunId)
    requires RunsInv(db) && MarkRunning(db, r).Some?
    ensures RunsInv(MarkRunning(db, r).value)
  {
    assert RunOk(db.runs[r]);
    hide RunsInv, RunOk;
    SupersedeKeeps(db, Some(r));
    if IsCurrent(db, r) && db.runs[r].status != Running {
      StatusRunOk(db.runs[r], Running);
      MoveKeeps(db, r, db.runs[r], Running);
    }
  }

  lemma CompleteKeeps(db: Db, r: RunId, embedded: bool)
    requires RunsInv(db) && MarkCompleted(db, r, embedded).Some?
    ensures RunsInv(MarkCompleted(db, r, embedded).value)
  {
    assert RunOk(db.runs[r]);
    hide RunsInv, RunOk;
    SupersedeKeeps(db, Some(r));
    if IsCurrent(db, r) && db.runs[r].status != Completed {
      StatusRunOk(db.runs[r], Completed);
      MoveKeeps(db, r, db.runs[r], Completed);
    }
  }

  lemma FailKeeps(db: Db, r: RunId)
    requires RunsInv(db) && MarkFailed(db, r).Some?
    ensures RunsInv(MarkFailed(db, r).value)
  {
    var run := db.runs[r];
    assert RunOk(run);
    hide RunsInv, RunOk;
    SupersedeKeeps(db, Some(r));
    if IsCurrent(db, r) && run.status != Failed {
      FailRunOk(run);
      MoveKeeps(db, r, if run.retrieval.Retrieved? then run else run.(retrieval := RetrievalFailed), Failed);
    }
  }

  lemma CallKeeps(db: Db, r: RunId)
    requires RunsInv(db) && ModelClaim(db, r).0.Some?
    ensures RunsInv(ModelClaim(db, r).0.value)
  {
    var run := db.runs[r];
    assert RunOk(run);
    hide RunsInv, RunOk;
    SupersedeKeeps(db, Some(r));
    if run.status != Completed && IsCurrent(db, r) {
      CallRunOk(run);
      if run.rows == 0 {
        MoveKeeps(db, r, run.(model := ModelSkipped), Completed);
      } else if run.model == ModelPending {
        ModelRunningKeeps(db, r);
      }
    }
  }

  lemma SaveKeeps(db: Db, r: RunId, valid: bool)
    requires RunsInv(db) && ModelPersist(db, r, valid).Some?
    ensures RunsInv(ModelPersist(db, r, valid).value)
  {
    var run := db.runs[r];
    assert RunOk(run);
    hide RunsInv, RunOk;
    SupersedeKeeps(db, Some(r));
    hide IsLive, Supersede;
    if IsCurrent(db, r) {
      var saved := run.(model := ModelSucceeded, results := run.results + 1, candidates := run.candidates + 1);
      SaveRunOk(run);
      MoveKeeps(db, r, saved, Completed);
      assert ModelPersist(db, r, valid) == Move(db, r, saved, Completed);
    }
  }

  lemma FailModelKeeps(db: Db, r: RunId)
    requires RunsInv(db) && ModelFail(db, r).Some? && db.runs[r].calls > 0
    ensures RunsInv(ModelFail(db, r).value)
  {
    var run := db.runs[r];
    assert RunOk(run);
    hide RunsInv, RunOk;
    SupersedeKeeps(db, Some(r));
    if IsCurrent(db, r) && run.model != ModelSucceeded {
      FailModelRunOk(run);
      MoveKeeps(db, r, run.(model := ModelFailed), Failed);
    }
  }

  lemma FailedCallIsKnown(db: Db, r: RunId)
    requires Possible(db, FailModel(r)) && ModelFail(db, r).Some?
    ensures r in db.runs && db.runs[r].calls > 0
  {
  }

  lemma StatusRunOk(run: Run, s: RunStatus)
    requires RunOk(run) && RunMayMove(run.status, s) && (s == Running || (s == Completed && OutputsPresent(run)))
    ensures RunOk(run.(status := s))
  {
  }

  lemma FailRunOk(run: Run)
    requires RunOk(run) && RunMayMove(run.status, Failed)
    ensures RunOk((if run.retrieval.Retrieved? then run else run.(retrieval := RetrievalFailed)).(status := Failed))
  {
  }

  lemma CallRunOk(run: Run)
    requires RunOk(run) && run.status == Running && RetrievalComplete(run)
    ensures run.rows == 0 ==> RunOk(run.(model := ModelSkipped, status := Completed))
    ensures run.rows > 0 && run.model == ModelPending ==> RunOk(run.(model := ModelRunning, calls := run.calls + 1))
    ensures run.model == ModelPending || (run.model == ModelRunning && run.rows > 0)
  {
  }

  lemma SaveRunOk(run: Run)
    requires RunOk(run) && run.status == Running && run.model == ModelRunning
    ensures RunOk(run.(model := ModelSucceeded, results := run.results + 1, candidates := run.candidates + 1).(status := Completed))
  {
  }

  lemma FailModelRunOk(run: Run)
    requires RunOk(run) && run.calls > 0 && run.model != ModelSucceeded && RunMayMove(run.status, Failed)
    ensures RunOk(run.(model := ModelFailed, status := Failed))
  {
  }

  lemma ModelRunningKeeps(db: Db, r: RunId)
    requires RunsInv(db) && Known(db, r) && IsCurrent(db, r) && db.runs[r].status == Running
    requires var run := db.runs[r]; RunOk(run.(model := ModelRunning, calls := run.calls + 1))
    ensures var run := db.runs[r]; RunsInv(db.(runs := db.runs[r := run.(model := ModelRunning, calls := run.calls + 1)]))
  {
    var run := db.runs[r].(model := ModelRunning, calls := db.runs[r].calls + 1);
    var x := db.runs[r].node;
    assert db.nodes[x := db.nodes[x].(status := db.nodes[x].status)] == db.nodes;
    RewriteKeeps(db, db.(runs := db.runs[r := run]), r, run, db.nodes[x].status);
  }

  lemma StoreKeeps(db: Db, r: RunId, count: nat, sameText: bool)
    requires RunsInv(db) && StoreRetrieval(db, r, count, sameText).Some?
    ensures RunsInv(StoreRetrieval(db, r, count, sameText).value)
  {
    if !db.runs[r].retrieval.Retrieved? {
      var run := db.runs[r].(retrieval := Retrieved(count), rows := count);
      var x := db.runs[r].node;
      assert RunOk(db.runs[r]);
      assert db.nodes[x := db.nodes[x].(status := db.nodes[x].status)] == db.nodes;
      RewriteKeeps(db, db.(runs := db.runs[r := run]), r, run, db.nodes[x].status);
    }
  }

  lemma EditKeeps(db: Db, x: NodeId, text: nat)
    requires RunsInv(db)
    ensures RunsInv(EditText(db, x, text))
  {
    if x in db.nodes {
      SupersedeKeeps(db, db.nodes[x].current);
      var d := if text == db.nodes[x].text then db else db.(runs := Supersede(db.runs, db.nodes[x].current));
      NodeOnlyKeeps(d, x, EditText(db, x, text).nodes[x]);
    }
  }

  /** A change of a node that keeps its current run pointer, and its status while that run is live. */
  lemma NodeOnlyKeeps(d: Db, x: NodeId, n: Node)
    requires RunsInv(d) && x in d.nodes && n.current == d.nodes[x].current
    requires n.current.Some? && IsLive(d.runs[n.current.value].status) ==> n.status == d.nodes[x].status
    ensures RunsInv(d.(nodes := d.nodes[x := n]))
  {
    AttemptsKeep(d, d.(nodes := d.nodes[x := n]));
  }

  lemma InsertKeeps(db: Db, x: NodeId, text: nat)
    requires RunsInv(db) && x !in db.nodes
    ensures RunsInv(db.(nodes := db.nodes[x := Node(1, text, true, Stale, None, None)]))
  {
    AttemptsKeep(db, db.(nodes := db.nodes[x := Node(1, text, true, Stale, None, None)]));
  }

  lemma DoKeeps(db: Db, step: Step)
    requires RunsInv(db) && Possible(db, step)
    ensures RunsInv(Do(db, step))
  {
    hide RunsInv, Possible, Reanalyze, StoreRetrieval, EditText, MarkRunning, MarkFailed, MarkCompleted, ModelClaim, ModelPersist, ModelFail;
    if Attempt(db, step).Some? {
      match step
      case Insert(x, text) => InsertKeeps(db, x, text);
      case Request(x, expected, config, active, latest, drifted, id) => ReanalyzeKeeps(db, x, expected, config, active, latest, drifted, id);
      case Store(r, count, sameText) => StoreKeeps(db, r, count, sameText);
      case Edit(x, text) => EditKeeps(db, x, text);
      case Drift(x, version, text, unattached) =>
        NodeOnlyKeeps(db, x, db.nodes[x].(version := version, text := text, unattached := unattached));
      case Claim(r) => ClaimKeeps(db, r);
      case Complete(r, embedded) => CompleteKeeps(db, r, embedded);
      case Fail(r) => FailKeeps(db, r);
      case CallModel(r) => CallKeeps(db, r);
      case SaveModel(r, valid) => SaveKeeps(db, r, valid);
      case FailModel(r) => FailedCallIsKnown(db, r); FailModelKeeps(db, r);
    }
  }

  lemma {:induction false} RunAllKeeps(db: Db, steps: seq<Step>)
    requires RunsInv(db) && PossibleRun(db, steps)
    ensures RunsInv(RunAll(db, steps))
    decreases |steps|
  {
    hide RunsInv, Do, Possible;
    if steps != [] {
      DoKeeps(db, steps[0]);
      RunAllKeeps(Do(db, steps[0]), steps[1..]);
    }
  }

  // ----- what it means -----

  /**
   In every reachable state: two live runs of one node are the same run, the
   node's current one; the provider was called at most once for any run; a
   COMPLETED run has either no retrieval rows, a skipped model and no candidate,
   or one validated result and one candidate; and for each attempt number up to
   a run's own there is exactly one run of the same node, version and hash.
   */
  lemma RunsAreSafe(steps: seq<Step>, r: RunId, q: RunId, n: nat)
    requires PossibleRun(Db(map[], map[]), steps)
    requires var db := RunAll(Db(map[], map[]), steps); r in db.runs && q in db.runs
    ensures var db := RunAll(Db(map[], map[]), steps);
            && (IsLive(db.runs[r].status) && IsLive(db.runs[q].status) && db.runs[r].node == db.runs[q].node ==>
                  r == q && db.runs[r].node in db.nodes && db.nodes[db.runs[r].node].current == Some(r))
            && db.runs[r].calls <= 1
            && (db.runs[r].status == Completed ==> OutputsPresent(db.runs[r]))
            && (db.runs[r].attempt >= 1 && (1 <= n <= db.runs[r].attempt ==> HasAttempt(db, db.runs[r], n)))
            && (Siblings(db.runs[r], db.runs[q]) && db.runs[r].attempt == db.runs[q].attempt ==> r == q)
  {
    var db := Db(map[], map[]);
    RunAllKeeps(db, steps);
    assert RunOk(RunAll(db, steps).runs[r]);
  }

  /** The provider is called exactly when a current RUNNING run with retrieval rows has not called it yet. */
  lemma CallsOnceIff(db: Db, r: RunId)
    requires RunsInv(db) && Known(db, r)
    ensures ModelClaim(db, r).1 <==>
            IsCurrent(db, r) && db.runs[r].status == Running && db.runs[r].retrieval.Retrieved? && db.runs[r].rows > 0 && db.runs[r].calls == 0
  {
  }

  /**
   The explicit completion never completes anything: a RUNNING run has not yet
   skipped or finished the model stage, because both complete the run in the
   same transaction.
   */
  lemma MarkCompletedIsIdle(db: Db, r: RunId, embedded: bool)
    requires RunsInv(db) && Known(db, r) && IsCurrent(db, r)
    ensures MarkCompleted(db, r, embedded) == if db.runs[r].status == Completed then Some(db) else None
  {
  }

  // ----- the tables -----

  class Tables {
    var nodes: map<NodeId, Node>
    var runs: map<RunId, Run>

    function Value(): Db
      reads this
    {
      Db(nodes, runs)
    }

    constructor ()
      ensures Value() == Db(map[], map[]) && RunsInv(Value())
    {
      nodes, runs := map[], map[];
    }

    method SupersedeRun(r: Option<RunId>)
      modifies this`runs
      ensures runs == Supersede(old(runs), r)
    {
      if r.Some? && r.value in runs && (runs[r.value].status == Pending || runs[r.value].status == Running || runs[r.value].status == Completed) {
        runs := runs[r.value := runs[r.value].(status := Superseded)];
      }
    }

    /** Point the node at a run it can keep; false leaves a transaction to roll back. */
    method AdoptRun(x: NodeId, r: RunId) returns (ok: bool)
      requires x in nodes && r in runs
      modifies this
      ensures ok == old(Reuse(Value(), x, r)).Some?
      ensures ok ==> Value() == old(Reuse(Value(), x, r)).value
    {
      var status := runs[r].status;
      if nodes[x].current != Some(r) {
        SupersedeRun(nodes[x].current);
      }
      nodes := nodes[x := nodes[x].(current := Some(r), hash := Some(runs[r].hash))];
      var shown := ShowStatus(nodes[x], status);
      if shown.None? { return false; }
      nodes := nodes[x := shown.value];
      ok := true;
    }

    method ReanalyzeUnattachedNode(x: NodeId, expected: nat, config: nat, active: Option<RunId>, latest: Option<RunId>, drifted: bool, id: RunId)
      returns (ok: bool)
      requires (active.Some? ==> active.value in runs) && (latest.Some? ==> latest.value in runs)
      modifies this
      ensures ok == old(Reanalyze(Value(), x, expected, config, active, latest, drifted, id)).Some?
      ensures Value() == if ok then old(Reanalyze(Value(), x, expected, config, active, latest, drifted, id)).value else old(Value())
    {
      hide Reuse, ShowStatus, PrepareForPending;
      var before, beforeRuns := nodes, runs;
      if x !in nodes || !nodes[x].unattached || nodes[x].version != expected { return false; }
      var h := Hash(nodes[x].text, config);
      if active.Some? && runs[active.value].version == nodes[x].version {
        ok := AdoptRun(x, active.value);
      } else {
        SupersedeRun(active);
        if latest.Some? && IsLive(runs[latest.value].status) && !drifted {
          ok := AdoptRun(x, latest.value);
        } else {
          var attempt := if latest.None? then 1 else runs[latest.value].attempt + 1;
          SupersedeRun(nodes[x].current);
          runs := runs[id := NewRun(x, nodes[x].version, h, attempt)];
          var shown := PrepareForPending(nodes[x].(current := Some(id), hash := Some(h)));
          ok := shown.Some?;
          if ok { nodes := nodes[x := shown.value]; }
        }
      }
      if !ok { nodes, runs := before, beforeRuns; }
    }

    /** The transaction before the provider call: true means call it. */
    method ClaimModel(r: RunId) returns (call: bool)
      modifies this
      ensures call == old(ModelClaim(Value(), r)).1
      ensures Value() == if old(ModelClaim(Value(), r)).0.Some? then old(ModelClaim(Value(), r)).0.value else old(Value())
    {
      if !Known(Value(), r) || runs[r].status == Completed { return false; }
      if !IsCurrent(Value(), r) {
        SupersedeRun(Some(r));
        return false;
      }
      if runs[r].status != Running || !RetrievalComplete(runs[r]) { return false; }
      var x := runs[r].node;
      if runs[r].rows == 0 {
        if NodeMayMove(nodes[x].status, Analyzed) {
          runs := runs[r := runs[r].(model := ModelSkipped, status := Completed)];
          nodes := nodes[x := nodes[x].(status := Analyzed)];
        }
        return false;
      }
      if runs[r].model != ModelPending && runs[r].model != ModelFailed { return false; }
      runs := runs[r := runs[r].(model := ModelRunning, calls := runs[r].calls + 1)];
      call := true;
    }

    /** The transaction after the provider answered. */
    method PersistModel(r: RunId, valid: bool) returns (ok: bool)
      modifies this
      ensures Value() == if old(ModelPersist(Value(), r, valid)).Some? then old(ModelPersist(Value(), r, valid)).value else old(Value())
      ensures ok <==> old(Known(Value(), r) && IsCurrent(Value(), r) && ModelPersist(Value(), r, valid).Some?)
      ensures ok ==> Known(Value(), r) && runs[r].status == Completed && runs[r].model == ModelSucceeded
    {
      if !Known(Value(), r) { return false; }
      if !IsCurrent(Value(), r) {
        SupersedeRun(Some(r));
        return false;
      }
      if runs[r].status != Running || runs[r].model != ModelRunning || !RetrievalComplete(runs[r]) || !valid { return false; }
      var x := runs[r].node;
      if !NodeMayMove(nodes[x].status, Analyzed) { return false; }
      runs := runs[r := runs[r].(results := runs[r].results + 1)];
      runs := runs[r := runs[r].(candidates := runs[r].candidates + 1)];
      runs := runs[r := runs[r].(model := ModelSucceeded, status := Completed)];
      nodes := nodes[x := nodes[x].(status := Analyzed)];
      ok := true;
    }

    method MarkModelFailure(r: RunId)
      modifies this
      ensures Value() == if old(ModelFail(Value(), r)).Some? then old(ModelFail(Value(), r)).value else old(Value())
    {
      if !Known(Value(), r) { return; }
      if !IsCurrent(Value(), r) {
        SupersedeRun(Some(r));
        return;
      }
      if runs[r].model == ModelSucceeded || !RunMayMove(runs[r].status, Failed) { return; }
      var x := runs[r].node;
      if !NodeMayMove(nodes[x].status, NodeFailed) { return; }
      runs := runs[r := runs[r].(model := ModelFailed, status := Failed)];
      nodes := nodes[x := nodes[x].(status := NodeFailed)];
    }

    /** A user edit with the invalidation it may bring. */
    method EditNodeText(x: NodeId, text: nat)
      modifies this
      ensures Value() == old(EditText(Value(), x, text))
    {
      if x !in nodes { return; }
      var changed := text != nodes[x].text;
      nodes := nodes[x := nodes[x].(version := nodes[x].version + 1, text := text)];
      if changed {
        SupersedeRun(nodes[x].current);
        nodes := nodes[x := nodes[x].(status := Stale, hash := None)];
      }
    }
  }
}

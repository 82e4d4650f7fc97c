/**
 The join of a meeting-analysis command with its recording, and the coordinator
 that works the command's tasks.  Coordinators interleave freely and may die
 between any two transactions; a stale task is claimed again under a new token.
 */
module MeetingJoin {
  import opened Options
  import opened Claiming

  type ProjectId = nat
  type Room = nat
  type Key = (ProjectId, Room)
  type CommandId = nat

  datatype InputStatus = WaitingForOther | Ready | Processing | Completed

  datatype TaskType = Summary | Nodes

  datatype TaskStatus = WaitingInput | TaskReady | TaskProcessing | Succeeded | Failed | Skipped

  const MAX_TASK_ATTEMPTS := 3

  datatype Task = Task(status: TaskStatus, attempts: nat, token: Option<Token>, claimedAt: Option<int>)

  // The hashed payload of a command, apart from its project and room.
  datatype CommandInfo = CommandInfo(id: CommandId, meeting: nat, summary: bool, nodes: bool, requestedAt: int)

  // egress id, stored object (bucket and key) and kind of a recording.
  datatype RecordingInfo = RecordingInfo(egress: nat, stored: nat, kind: nat)

  datatype Command = Command(info: CommandInfo, status: InputStatus)
  datatype Recording = Recording(info: RecordingInfo, status: InputStatus)

  // The rows of one (project, room).
  datatype Meeting = Meeting(command: Option<Command>, recording: Option<Recording>, tasks: map<TaskType, Task>)

  datatype Outcome = Success | Retry | GiveUp(emit: bool)

  datatype Entry = Ended(key: Key, task: TaskType, token: Token, outcome: Outcome)

  // `used` and `log` are history that the code does not store.
  datatype Db = Db(meetings: map<Key, Meeting>, now: int, timeout: nat, events: seq<(Key, TaskType)>, used: set<Token>, log: seq<Entry>)

  const NO_ROWS: Meeting := Meeting(None, None, map[])

  function At(db: Db, k: Key): Meeting {
    if k in db.meetings then db.meetings[k] else NO_ROWS
  }

  function Put(db: Db, k: Key, m: Meeting): Db {
    db.(meetings := db.meetings[k := m])
  }

  // ----- the two inputs -----

  function NewTask(selected: bool, ready: bool): Task {
    Task(if !selected then Skipped else if ready then TaskReady else WaitingInput, 0, None, None)
  }

  predicate Joinable(s: InputStatus) {
    s == WaitingForOther || s == Ready
  }

  function Released(tasks: map<TaskType, Task>): map<TaskType, Task> {
    map t | t in tasks :: if tasks[t].status == WaitingInput then tasks[t].(status := TaskReady) else tasks[t]
  }

  function Join(m: Meeting): Meeting {
    if m.command.Some? && Joinable(m.command.value.status) && m.recording.Some? && Joinable(m.recording.value.status) then
      Meeting(Some(m.command.value.(status := Ready)), Some(m.recording.value.(status := Ready)), Released(m.tasks))
    else m
  }

  function WithRecording(m: Meeting, info: RecordingInfo): Meeting {
    Join(m.(recording := Some(Recording(info, WaitingForOther))))
  }

  function WithCommand(m: Meeting, info: CommandInfo): Meeting {
    var ready := m.recording.Some? && Joinable(m.recording.value.status);
    Join(m.(command := Some(Command(info, if ready then Ready else WaitingForOther)),
            tasks := map[Summary := NewTask(info.summary, ready), Nodes := NewTask(info.nodes, ready)]))
  }

  predicate SameCommand(k: Key, info: CommandInfo, l: Key, m: Meeting) {
    m.command.Some? && (m.command.value.info.id == info.id || (l.0 == k.0 && m.command.value.info.meeting == info.meeting))
  }

  predicate SameRecording(info: RecordingInfo, m: Meeting) {
    m.recording.Some? && (m.recording.value.info.egress == info.egress || m.recording.value.info.stored == info.stored)
  }

  /** A command seen before changes nothing, whether it repeats or conflicts. */
  function PersistCommand(db: Db, k: Key, info: CommandInfo): Db {
    if exists l :: l in db.meetings && SameCommand(k, info, l, db.meetings[l]) then db
    else Put(db, k, WithCommand(At(db, k), info))
  }

  function PersistRecording(db: Db, k: Key, info: RecordingInfo): Db {
    if exists l :: l in db.meetings && SameRecording(info, db.meetings[l]) then db
    else Put(db, k, WithRecording(At(db, k), info))
  }

  // ----- the coordinator -----

  predicate Selectable(s: InputStatus) {
    s == Ready || s == Processing
  }

  predicate Stale(db: Db, t: Task) {
    t.status == TaskProcessing && t.claimedAt.Some? && t.claimedAt.value < db.now - db.timeout
  }

  predicate Claimable(db: Db, t: Task) {
    t.status == TaskReady || Stale(db, t)
  }

  predicate AllSkipped(m: Meeting) {
    forall t :: t in m.tasks ==> m.tasks[t].status == Skipped
  }

  predicate SomeClaimable(db: Db, m: Meeting) {
    exists t :: t in m.tasks && Claimable(db, m.tasks[t])
  }

  predicate Workable(db: Db, k: Key) {
    var m := At(db, k);
    && m.command.Some? && Selectable(m.command.value.status)
    && m.recording.Some? && Selectable(m.recording.value.status)
    && (SomeClaimable(db, m) || AllSkipped(m))
  }

  function Taken(db: Db, t: Task, token: Token): Task {
    if Claimable(db, t) then Task(TaskProcessing, t.attempts + 1, Some(token), Some(db.now)) else t
  }

  function Claim(db: Db, k: Key, token: Token): Db {
    if !Workable(db, k) then db
    else
      var m := At(db, k);
      Put(db, k, Meeting(Some(m.command.value.(status := Processing)), Some(m.recording.value.(status := Processing)),
                         map t | t in m.tasks :: Taken(db, m.tasks[t], token))).(used := db.used + {token})
  }

  predicate Owned(db: Db, k: Key, t: TaskType, token: Token) {
    && t in At(db, k).tasks && At(db, k).tasks[t].status == TaskProcessing
    && At(db, k).tasks[t].token == Some(token)
  }

  function SetTask(db: Db, k: Key, t: TaskType, task: Task): Db {
    Put(db, k, At(db, k).(tasks := At(db, k).tasks[t := task]))
  }

  function Succeed(db: Db, k: Key, t: TaskType, token: Token): Db {
    if !Owned(db, k, t, token) then db
    else
      SetTask(db, k, t, At(db, k).tasks[t].(status := Succeeded, token := None, claimedAt := None))
      .(log := db.log + [Ended(k, t, token, Success)])
  }

  function Fail(db: Db, k: Key, t: TaskType, token: Token, retryable: bool, emit: bool): Db {
    if !Owned(db, k, t, token) then db
    else
      var task := At(db, k).tasks[t].(token := None, claimedAt := None);
      if !retryable || task.attempts >= MAX_TASK_ATTEMPTS then
        SetTask(db, k, t, task.(status := Failed))
        .(log := db.log + [Ended(k, t, token, GiveUp(emit))], events := if emit then db.events + [(k, t)] else db.events)
      else
        SetTask(db, k, t, task.(status := TaskReady)).(log := db.log + [Ended(k, t, token, Retry)])
  }

  predicate Terminal(s: TaskStatus) {
    s == Succeeded || s == Failed || s == Skipped
  }

  predicate AllTerminal(m: Meeting) {
    forall t :: t in m.tasks ==> Terminal(m.tasks[t].status)
  }

  predicate SomeReady(m: Meeting) {
    exists t :: t in m.tasks && m.tasks[t].status == TaskReady
  }

  function Finished(m: Meeting): Meeting
    requires m.command.Some? && m.recording.Some?
  {
    if AllTerminal(m) then
      m.(command := Some(m.command.value.(status := Completed)), recording := Some(m.recording.value.(status := Completed)))
    else if SomeReady(m) then
      m.(command := Some(m.command.value.(status := Ready)), recording := Some(m.recording.value.(status := Ready)))
    else m
  }

  function Finish(db: Db, k: Key): Db {
    if At(db, k).command.None? || At(db, k).recording.None? then db else Put(db, k, Finished(At(db, k)))
  }

  // ----- runs -----

  datatype Step =
    | CommandStep(key: Key, command: CommandInfo)
    | RecordingStep(key: Key, recording: RecordingInfo)
    | ClaimStep(key: Key, token: Token)
    | SucceedStep(key: Key, task: TaskType, token: Token)
    | FailStep(key: Key, task: TaskType, token: Token, retryable: bool, emit: bool)
    | FinishStep(key: Key)
    | Wait(delta: nat)

  function Do(db: Db, step: Step): Db {
    match step
    case CommandStep(k, info) => PersistCommand(db, k, info)
    case RecordingStep(k, info) => PersistRecording(db, k, info)
    case ClaimStep(k, token) => Claim(db, k, token)
    case SucceedStep(k, t, token) => Succeed(db, k, t, token)
    case FailStep(k, t, token, retryable, emit) => Fail(db, k, t, token, retryable, emit)
    case FinishStep(k) => Finish(db, k)
    case Wait(delta) => db.(now := db.now + delta)
  }

  /** Tokens are fresh, and a project's room has one command and one recording. */
  ghost predicate Possible(db: Db, step: Step) {
    match step
    case ClaimStep(_, token) => token !in db.used
    case CommandStep(k, info) =>
      (forall l :: l in db.meetings ==> !SameCommand(k, info, l, db.meetings[l])) ==> At(db, k).command.None?
    case RecordingStep(k, info) =>
      (forall l :: l in db.meetings ==> !SameRecording(info, db.meetings[l])) ==> At(db, k).recording.None?
    case _ => true
  }

  function Run(db: Db, steps: seq<Step>): Db
    decreases |steps|
  {
    if steps == [] then db else Run(Do(db, steps[0]), steps[1..])
  }

  ghost predicate PossibleRun(db: Db, steps: seq<Step>)
    decreases |steps|
  {
    steps == [] || (Possible(db, steps[0]) && PossibleRun(Do(db, steps[0]), steps[1..]))
  }

  // ----- the invariant -----

  predicate On(e: Entry, k: Key, t: TaskType) {
    e.key == k && e.task == t
  }

  /** How often the history records this outcome for a task. */
  function Count(log: seq<Entry>, k: Key, t: TaskType, o: Outcome): nat {
    if log == [] then 0
    else Count(log[..|log| - 1], k, t, o) + (if On(log[|log| - 1], k, t) && log[|log| - 1].outcome == o then 1 else 0)
  }

  /** How often the stored events report the failure of a task. */
  function Raised(events: seq<(Key, TaskType)>, k: Key, t: TaskType): nat {
    if events == [] then 0
    else Raised(events[..|events| - 1], k, t) + (if events[|events| - 1] == (k, t) then 1 else 0)
  }

  predicate WellClaimed(db: Db, t: Task) {
    if t.status == TaskProcessing then t.token.Some? && t.claimedAt.Some? && t.claimedAt.value <= db.now && t.token.value in db.used
    else t.token.None? && t.claimedAt.None?
  }

  ghost predicate TaskOk(db: Db, k: Key, t: TaskType, task: Task) {
    && WellClaimed(db, task)
    && Count(db.log, k, t, Success) == (if task.status == Succeeded then 1 else 0)
    && Count(db.log, k, t, GiveUp(true)) + Count(db.log, k, t, GiveUp(false)) == (if task.status == Failed then 1 else 0)
    && Count(db.log, k, t, Retry) <= task.attempts && Count(db.log, k, t, Retry) < MAX_TASK_ATTEMPTS
    && (task.status == TaskProcessing ==> Count(db.log, k, t, Retry) < task.attempts)
  }

  ghost predicate NoHistory(log: seq<Entry>, k: Key, t: TaskType) {
    forall o :: Count(log, k, t, o) == 0
  }

  /** The stored failure events are the failures that asked for one. */
  ghost predicate EventsOk(db: Db) {
    forall k, t :: Raised(db.events, k, t) == Count(db.log, k, t, GiveUp(true))
  }

  predicate Joined(m: Meeting) {
    m.command.Some? && m.recording.Some?
  }

  /** Which statuses occur together. */
  predicate Shape(m: Meeting) {
    && (m.command.None? ==> m.tasks == map[])
    && (m.command.Some? ==> m.tasks.Keys == {Summary, Nodes})
    && (m.command.Some? && m.recording.None? ==> m.command.value.status == WaitingForOther)
    && (m.command.None? && m.recording.Some? ==> m.recording.value.status == WaitingForOther)
    && (m.command.Some? && m.recording.None? ==>
          forall t :: t in m.tasks ==> m.tasks[t].status == WaitingInput || m.tasks[t].status == Skipped)
    && (Joined(m) ==>
          && m.command.value.status == m.recording.value.status != WaitingForOther
          && (forall t :: t in m.tasks ==> m.tasks[t].status != WaitingInput)
          && (m.command.value.status == Completed ==> AllTerminal(m)))
  }

  ghost predicate MeetingOk(db: Db, k: Key) {
    Shape(At(db, k)) && forall t :: t in At(db, k).tasks ==> TaskOk(db, k, t, At(db, k).tasks[t])
  }

  ghost predicate JoinInv(db: Db) {
    && (forall k :: MeetingOk(db, k))
    && (forall k, t :: t !in At(db, k).tasks ==> NoHistory(db.log, k, t))
    && EventsOk(db)
  }

  lemma SnocLog(log: seq<Entry>, e: Entry, k: Key, t: TaskType)
    ensures forall o :: Count(log + [e], k, t, o) == Count(log, k, t, o) + (if On(e, k, t) && e.outcome == o then 1 else 0)
  {
    assert (log + [e])[..|log|] == log;
  }

  lemma SnocEvent(events: seq<(Key, TaskType)>, e: (Key, TaskType), k: Key, t: TaskType)
    ensures Raised(events + [e], k, t) == Raised(events, k, t) + (if e == (k, t) then 1 else 0)
  {
    assert (events + [e])[..|events|] == events;
  }

  /** Replacing one room's rows, without ending a task, keeps the invariant when the new rows fit. */
  lemma PutKeeps(db: Db, k: Key, m: Meeting, used: set<Token>)
    requires JoinInv(db) && db.used <= used && Shape(m) && At(db, k).tasks.Keys <= m.tasks.Keys
    requires forall t :: t in m.tasks ==> TaskOk(Put(db, k, m).(used := used), k, t, m.tasks[t])
    ensures JoinInv(Put(db, k, m).(used := used))
  {
    var to := Put(db, k, m).(used := used);
    forall l
      ensures MeetingOk(to, l)
    {
      assert MeetingOk(db, l);
      if l != k {
        assert At(to, l) == At(db, l);
      }
    }
  }

  lemma PersistShape(before: Meeting, m: Meeting, info: CommandInfo, rec: RecordingInfo)
    requires Shape(before)
    requires (before.command.None? && m == WithCommand(before, info)) || (before.recording.None? && m == WithRecording(before, rec))
    ensures Shape(m) && before.tasks.Keys <= m.tasks.Keys
  {
  }

  lemma PersistKeeps(db: Db, k: Key, m: Meeting, info: CommandInfo, rec: RecordingInfo)
    requires JoinInv(db)
    requires (At(db, k).command.None? && m == WithCommand(At(db, k), info)) || (At(db, k).recording.None? && m == WithRecording(At(db, k), rec))
    ensures JoinInv(Put(db, k, m))
  {
    var before := At(db, k);
    assert MeetingOk(db, k);
    PersistShape(before, m, info, rec);
    forall t | t in m.tasks
      ensures TaskOk(db, k, t, m.tasks[t])
    {
      if t in before.tasks { assert TaskOk(db, k, t, before.tasks[t]); }
      PersistTask(db, k, before, m, info, rec, t);
    }
    hide Shape, JoinInv, WithCommand, WithRecording, TaskOk;
    assert Put(db, k, m).(used := db.used) == Put(db, k, m);
    forall t | t in m.tasks
      ensures TaskOk(Put(db, k, m), k, t, m.tasks[t])
    {
      SameHistory(db, Put(db, k, m), k, t, m.tasks[t]);
    }
    PutKeeps(db, k, m, db.used);
  }

  /** A stored task is sound by the history alone. */
  lemma SameHistory(db: Db, to: Db, k: Key, t: TaskType, task: Task)
    requires TaskOk(db, k, t, task) && to.log == db.log && to.now == db.now && to.used == db.used
    ensures TaskOk(to, k, t, task)
  {
  }

  lemma PersistTask(db: Db, k: Key, before: Meeting, m: Meeting, info: CommandInfo, rec: RecordingInfo, t: TaskType)
    requires (before.command.None? && m == WithCommand(before, info)) || (before.recording.None? && m == WithRecording(before, rec))
    requires t in m.tasks && Shape(before)
    requires if t in before.tasks then TaskOk(db, k, t, before.tasks[t]) else NoHistory(db.log, k, t)
    ensures TaskOk(db, k, t, m.tasks[t])
  {
  }

  lemma ClaimKeeps(db: Db, k: Key, token: Token)
    requires JoinInv(db) && Workable(db, k)
    ensures JoinInv(Claim(db, k, token))
  {
    var before := At(db, k);
    var to := Claim(db, k, token);
    var m := At(to, k);
    assert MeetingOk(db, k);
    assert Shape(m) by {
      assert before.command.value.status == Completed ==> AllTerminal(before);
    }
    forall t | t in m.tasks
      ensures TaskOk(Put(db, k, m).(used := db.used + {token}), k, t, m.tasks[t])
    {
      assert TaskOk(db, k, t, before.tasks[t]);
    }
    PutKeeps(db, k, m, db.used + {token});
  }

  /** Ending a claim under its own token. */
  ghost predicate Ends(db: Db, to: Db, k: Key, t: TaskType, token: Token, task: Task, outcome: Outcome) {
    && Owned(db, k, t, token)
    && task == At(db, k).tasks[t].(status := task.status, token := None, claimedAt := None)
    && (match outcome
        case Success => task.status == Succeeded
        case Retry => task.status == TaskReady && task.attempts < MAX_TASK_ATTEMPTS
        case GiveUp(_) => task.status == Failed)
    && to == SetTask(db, k, t, task).(log := db.log + [Ended(k, t, token, outcome)],
                                      events := db.events + (if outcome == GiveUp(true) then [(k, t)] else []))
  }

  lemma EndKeepsMeeting(db: Db, to: Db, k: Key, t: TaskType, token: Token, task: Task, outcome: Outcome, l: Key)
    requires Ends(db, to, k, t, token, task, outcome) && MeetingOk(db, l)
    ensures MeetingOk(to, l)
  {
    if l == k {
      EndKeepsShape(At(db, k), t, task);
    } else {
      assert At(to, l) == At(db, l);
    }
    hide Shape;
    forall u | u in At(to, l).tasks
      ensures TaskOk(to, l, u, At(to, l).tasks[u])
    {
      assert TaskOk(db, l, u, At(db, l).tasks[u]);
      EndKeepsTask(db, to, k, t, token, task, outcome, l, u);
    }
  }

  lemma EndKeepsTask(db: Db, to: Db, k: Key, t: TaskType, token: Token, task: Task, outcome: Outcome, l: Key, u: TaskType)
    requires Ends(db, to, k, t, token, task, outcome) && u in At(db, l).tasks && TaskOk(db, l, u, At(db, l).tasks[u])
    ensures u in At(to, l).tasks && TaskOk(to, l, u, At(to, l).tasks[u])
  {
    SnocLog(db.log, Ended(k, t, token, outcome), l, u);
    hide Count;
  }

  lemma EndKeeps(db: Db, to: Db, k: Key, t: TaskType, token: Token, task: Task, outcome: Outcome)
    requires JoinInv(db) && Ends(db, to, k, t, token, task, outcome)
    ensures JoinInv(to)
  {
    hide MeetingOk, Count, Raised;
    forall l
      ensures MeetingOk(to, l)
    {
      EndKeepsMeeting(db, to, k, t, token, task, outcome, l);
    }
    forall l, u
      ensures u !in At(to, l).tasks ==> NoHistory(to.log, l, u)
      ensures Raised(to.events, l, u) == Count(to.log, l, u, GiveUp(true))
    {
      assert Raised(db.events, l, u) == Count(db.log, l, u, GiveUp(true));
      EndKeepsHistory(db, to, k, t, token, task, outcome, l, u);
    }
    hide Ends;
  }

  lemma EndKeepsHistory(db: Db, to: Db, k: Key, t: TaskType, token: Token, task: Task, outcome: Outcome, l: Key, u: TaskType)
    requires Ends(db, to, k, t, token, task, outcome) && Raised(db.events, l, u) == Count(db.log, l, u, GiveUp(true))
    ensures u !in At(to, l).tasks && NoHistory(db.log, l, u) ==> NoHistory(to.log, l, u)
    ensures Raised(to.events, l, u) == Count(to.log, l, u, GiveUp(true))
    ensures u !in At(to, l).tasks ==> u !in At(db, l).tasks
  {
    SnocLog(db.log, Ended(k, t, token, outcome), l, u);
    SnocEvent(db.events, (k, t), l, u);
    assert db.events + [] == db.events;
    hide Count, Raised;
  }

  lemma EndKeepsShape(m: Meeting, t: TaskType, task: Task)
    requires Shape(m) && t in m.tasks && m.tasks[t].status == TaskProcessing
    requires task.status == Succeeded || task.status == Failed || task.status == TaskReady
    ensures Shape(m.(tasks := m.tasks[t := task]))
  {
  }

  lemma FinishKeeps(db: Db, k: Key)
    requires JoinInv(db)
    ensures JoinInv(Finish(db, k))
  {
    if Joined(At(db, k)) {
      assert MeetingOk(db, k);
      var m := Finished(At(db, k));
      forall t | t in m.tasks
        ensures TaskOk(Put(db, k, m), k, t, m.tasks[t])
      {
        assert TaskOk(db, k, t, At(db, k).tasks[t]);
      }
      assert Put(db, k, m).(used := db.used) == Put(db, k, m);
      PutKeeps(db, k, m, db.used);
    }
  }

  lemma WaitKeeps(db: Db, delta: nat)
    requires JoinInv(db)
    ensures JoinInv(db.(now := db.now + delta))
  {
    var to := db.(now := db.now + delta);
    forall k
      ensures MeetingOk(to, k)
    {
      assert MeetingOk(db, k);
    }
  }

  lemma DoKeeps(db: Db, step: Step)
    requires JoinInv(db) && Possible(db, step)
    ensures JoinInv(Do(db, step))
  {
    hide JoinInv, WithCommand, WithRecording, Workable;
    match step
    case CommandStep(k, info) =>
      if PersistCommand(db, k, info) != db { PersistKeeps(db, k, WithCommand(At(db, k), info), info, RecordingInfo(0, 0, 0)); }
    case RecordingStep(k, info) =>
      if PersistRecording(db, k, info) != db { PersistKeeps(db, k, WithRecording(At(db, k), info), CommandInfo(0, 0, false, false, 0), info); }
    case ClaimStep(k, token) =>
      if Workable(db, k) { ClaimKeeps(db, k, token); }
    case SucceedStep(k, t, token) =>
      if Owned(db, k, t, token) {
        EndKeeps(db, Do(db, step), k, t, token, At(db, k).tasks[t].(status := Succeeded, token := None, claimedAt := None), Success);
        assert db.events + [] == db.events;
      }
    case FailStep(k, t, token, retryable, emit) =>
      if Owned(db, k, t, token) {
        var task := At(db, k).tasks[t].(token := None, claimedAt := None);
        assert db.events + [] == db.events;
        if !retryable || task.attempts >= MAX_TASK_ATTEMPTS {
          EndKeeps(db, Do(db, step), k, t, token, task.(status := Failed), GiveUp(emit));
        } else {
          EndKeeps(db, Do(db, step), k, t, token, task.(status := TaskReady), Retry);
        }
      }
    case FinishStep(k) => FinishKeeps(db, k);
    case Wait(delta) => WaitKeeps(db, delta);
  }

  lemma {:induction false} RunKeeps(db: Db, steps: seq<Step>)
    requires JoinInv(db) && PossibleRun(db, steps)
    ensures JoinInv(Run(db, steps))
    decreases |steps|
  {
    hide JoinInv, Do, Possible;
    if steps != [] {
      DoKeeps(db, steps[0]);
      RunKeeps(Do(db, steps[0]), steps[1..]);
    }
  }

  predicate Empty(db: Db) {
    db.meetings == map[] && db.events == [] && db.log == []
  }

  // ----- what the invariant means -----

  /** What the stored status of a task says about the history and the stored events. */
  ghost predicate Accounted(db: Db, k: Key, t: TaskType) {
    var m := At(db, k);
    var failures := Count(db.log, k, t, GiveUp(true)) + Count(db.log, k, t, GiveUp(false));
    && Count(db.log, k, t, Success) == (if t in m.tasks && m.tasks[t].status == Succeeded then 1 else 0)
    && failures == (if t in m.tasks && m.tasks[t].status == Failed then 1 else 0)
    && Count(db.log, k, t, Retry) <= 2
    && Raised(db.events, k, t) == Count(db.log, k, t, GiveUp(true)) <= 1
    && ((k, t) in db.events <==> Raised(db.events, k, t) == 1)
  }

  /**
   Every run from empty tables, with any interleaving and any crash: COMPLETED
   means every task is terminal; a task is SUCCEEDED or FAILED exactly when the
   history holds its one outcome of that sort, and is retried at most twice; the
   stored failure events name a task at most once, only while it is FAILED, and
   exactly when its failure asked for emission; and an unfinished task of a joined
   meeting is READY, or PROCESSING under a token and a start time, while command
   and recording stay selectable.
   */
  lemma CoordinatorIsSafe(db: Db, steps: seq<Step>, k: Key, t: TaskType)
    requires Empty(db) && PossibleRun(db, steps)
    ensures var r := Run(db, steps); var m := At(r, k);
            && (m.command.Some? && m.command.value.status == Completed ==> AllTerminal(m))
            && Accounted(r, k, t)
            && ((k, t) in r.events ==> t in m.tasks && m.tasks[t].status == Failed)
            && (t in m.tasks && m.tasks[t].status == Failed ==> ((k, t) in r.events <==> Count(r.log, k, t, GiveUp(true)) == 1))
            && (Joined(m) && t in m.tasks && !Terminal(m.tasks[t].status) ==>
                  && Selectable(m.command.value.status) && Selectable(m.recording.value.status)
                  && (|| m.tasks[t].status == TaskReady
                      || (m.tasks[t].status == TaskProcessing && m.tasks[t].token.Some? && m.tasks[t].claimedAt.Some?)))
  {
    EmptyInv(db);
    RunKeeps(db, steps);
    var r := Run(db, steps);
    assert MeetingOk(r, k);
    RaisedIff(r.events, k, t);
    if t in At(r, k).tasks {
      assert TaskOk(r, k, t, At(r, k).tasks[t]);
    } else {
      assert NoHistory(r.log, k, t);
    }
    assert Raised(r.events, k, t) == Count(r.log, k, t, GiveUp(true));
  }

  lemma EmptyInv(db: Db)
    requires Empty(db)
    ensures JoinInv(db)
  {
    assert forall k :: At(db, k) == NO_ROWS;
  }

  lemma {:induction false} RaisedIff(events: seq<(Key, TaskType)>, k: Key, t: TaskType)
    ensures (k, t) in events <==> Raised(events, k, t) > 0
  {
    if events != [] {
      var n := |events| - 1;
      RaisedIff(events[..n], k, t);
      assert events == events[..n] + [events[n]];
    }
  }

  predicate HasFailed(db: Db, k: Key, t: TaskType) {
    t in At(db, k).tasks && At(db, k).tasks[t].status == Failed
  }

  /** A failure event commits in exactly the step that makes its task FAILED with emission requested. */
  lemma EventCommitsWithFailure(db: Db, step: Step, k: Key, t: TaskType)
    requires JoinInv(db) && Possible(db, step)
    ensures Raised(Do(db, step).events, k, t) == Raised(db.events, k, t) +
              (if !HasFailed(db, k, t) && HasFailed(Do(db, step), k, t) && step.FailStep? && step.emit then 1 else 0)
    ensures !HasFailed(db, k, t) && HasFailed(Do(db, step), k, t) ==> step.FailStep? && step.key == k && step.task == t
    ensures HasFailed(db, k, t) ==> HasFailed(Do(db, step), k, t)
  {
    if step.FailStep? {
      FailStepEvent(db, step.key, step.task, step.token, step.retryable, step.emit, k, t);
    } else {
      QuietStep(db, step, k, t);
    }
  }

  lemma FailStepEvent(db: Db, l: Key, u: TaskType, token: Token, retryable: bool, emit: bool, k: Key, t: TaskType)
    ensures var to := Fail(db, l, u, token, retryable, emit);
            var became := !HasFailed(db, k, t) && HasFailed(to, k, t);
            && Raised(to.events, k, t) == Raised(db.events, k, t) + (if became && emit then 1 else 0)
            && (became ==> (l, u) == (k, t)) && (HasFailed(db, k, t) ==> HasFailed(to, k, t))
  {
    SnocEvent(db.events, (l, u), k, t);
    hide Raised;
  }

  /** No other step stages an event or changes which tasks are FAILED. */
  lemma QuietStep(db: Db, step: Step, k: Key, t: TaskType)
    requires JoinInv(db) && Possible(db, step) && !step.FailStep?
    ensures Do(db, step).events == db.events && (HasFailed(Do(db, step), k, t) <==> HasFailed(db, k, t))
  {
    match step
    case CommandStep(l, info) => assert MeetingOk(db, l);
    case RecordingStep(l, info) =>
    case ClaimStep(l, token) =>
    case SucceedStep(l, u, token) =>
    case FinishStep(l) =>
    case Wait(_) =>
  }

  /** A new command and a new recording give the same rows in either order, and redelivering either changes nothing. */
  lemma ArrivalOrderIrrelevant(db: Db, k: Key, c: CommandInfo, r: RecordingInfo)
    requires At(db, k) == NO_ROWS
    requires forall l :: l in db.meetings ==> !SameCommand(k, c, l, db.meetings[l]) && !SameRecording(r, db.meetings[l])
    ensures var both := PersistRecording(PersistCommand(db, k, c), k, r);
            && both == PersistCommand(PersistRecording(db, k, r), k, c)
            && Joined(At(both, k)) && At(both, k).command.value.status == Ready && At(both, k).recording.value.status == Ready
            && PersistCommand(both, k, c) == both && PersistRecording(both, k, r) == both
  {
    var cFirst, rFirst := WithCommand(NO_ROWS, c), WithRecording(NO_ROWS, r);
    JoinCommutes(c, r);
    KnownAfterPut(db, k, c, r);
    hide WithCommand, WithRecording;
    assert PersistCommand(db, k, c) == Put(db, k, cFirst) && PersistRecording(db, k, r) == Put(db, k, rFirst);
    var both := PersistRecording(PersistCommand(db, k, c), k, r);
    assert both == Put(Put(db, k, cFirst), k, WithRecording(cFirst, r)) == Put(Put(db, k, rFirst), k, WithCommand(rFirst, c));
    assert k in both.meetings && SameCommand(k, c, k, both.meetings[k]) && SameRecording(r, both.meetings[k]);
  }

  lemma JoinCommutes(c: CommandInfo, r: RecordingInfo)
    ensures var both := WithRecording(WithCommand(NO_ROWS, c), r);
            && both == WithCommand(WithRecording(NO_ROWS, r), c)
            && both.command == Some(Command(c, Ready)) && both.recording == Some(Recording(r, Ready))
  {
  }

  /** Storing one input does not make the other look like a repeat. */
  lemma KnownAfterPut(db: Db, k: Key, c: CommandInfo, r: RecordingInfo)
    requires At(db, k) == NO_ROWS
    requires forall l :: l in db.meetings ==> !SameCommand(k, c, l, db.meetings[l]) && !SameRecording(r, db.meetings[l])
    ensures var a := Put(db, k, WithCommand(NO_ROWS, c)); forall l :: l in a.meetings ==> !SameRecording(r, a.meetings[l])
    ensures var b := Put(db, k, WithRecording(NO_ROWS, r)); forall l :: l in b.meetings ==> !SameCommand(k, c, l, b.meetings[l])
  {
  }

  /** No task is stranded: once the claim timeout has passed, a room with an unfinished task can be claimed. */
  lemma NeverStranded(db: Db, k: Key, t: TaskType, delta: nat)
    requires JoinInv(db) && Joined(At(db, k)) && t in At(db, k).tasks && !Terminal(At(db, k).tasks[t].status)
    requires delta > db.timeout
    ensures Workable(Do(db, Wait(delta)), k)
  {
    var to := Do(db, Wait(delta));
    assert MeetingOk(db, k) && TaskOk(db, k, t, At(db, k).tasks[t]);
    assert Claimable(to, At(to, k).tasks[t]);
    assert SomeClaimable(to, At(to, k));
  }

  /** A claim takes a PROCESSING task only after its timeout, and never a terminal one. */
  lemma ClaimRespectsLease(db: Db, k: Key, token: Token, t: TaskType)
    requires JoinInv(db) && t in At(db, k).tasks && At(Claim(db, k, token), k).tasks[t] != At(db, k).tasks[t]
    ensures var task := At(db, k).tasks[t];
            task.status == TaskReady || (task.status == TaskProcessing && task.claimedAt.Some? && task.claimedAt.value + db.timeout < db.now)
  {
  }

  predicate StuckAt(db: Db, k: Key) {
    && Joined(At(db, k)) && At(db, k).command.value.status == Processing
    && AllTerminal(At(db, k)) && !AllSkipped(At(db, k))
  }

  predicate Finishes(step: Step, k: Key) {
    step.FinishStep? && step.key == k
  }

  lemma StuckStep(db: Db, step: Step, k: Key)
    requires JoinInv(db) && Possible(db, step) && StuckAt(db, k) && !Finishes(step, k)
    ensures At(Do(db, step), k) == At(db, k)
  {
  }

  /**
   The converse of "COMPLETED implies terminal" fails: when the last outcome is
   recorded and no coordinator gets to the finish step, no later claim can repair
   it and the command stays PROCESSING for ever.
   */
  lemma {:induction false} StuckForever(db: Db, steps: seq<Step>, k: Key)
    requires JoinInv(db) && PossibleRun(db, steps) && StuckAt(db, k)
    requires forall i :: 0 <= i < |steps| ==> !Finishes(steps[i], k)
    ensures At(Run(db, steps), k) == At(db, k)
    decreases |steps|
  {
    hide JoinInv, Possible, Do;
    if steps != [] {
      DoKeeps(db, steps[0]);
      StuckStep(db, steps[0], k);
      assert forall i :: 0 <= i < |steps[1..]| ==> steps[1..][i] == steps[i + 1];
      StuckForever(Do(db, steps[0]), steps[1..], k);
    }
  }

  const ROOM: Key := (0, 0)
  const SUMMARY_ONLY: CommandInfo := CommandInfo(1, 1, true, false, 0)
  const RECORDED: RecordingInfo := RecordingInfo(1, 1, 1)

  /** Command, recording, claim and the only outcome; then the coordinator dies. */
  function LastOutcomeOnly(): seq<Step> {
    [CommandStep(ROOM, SUMMARY_ONLY)] + ([RecordingStep(ROOM, RECORDED)] + ([ClaimStep(ROOM, 1)] + ([SucceedStep(ROOM, Summary, 1)] + [])))
  }

  lemma RunCons(db: Db, s: Step, rest: seq<Step>)
    requires Possible(db, s) && PossibleRun(Do(db, s), rest)
    ensures PossibleRun(db, [s] + rest) && Run(db, [s] + rest) == Run(Do(db, s), rest)
  {
    assert ([s] + rest)[1..] == rest;
  }

  function SampleRows(status: InputStatus, recording: Option<Recording>, summary: Task): Meeting {
    Meeting(Some(Command(SUMMARY_ONLY, status)), recording, map[Summary := summary, Nodes := Task(Skipped, 0, None, None)])
  }

  lemma SampleInputs(db: Db)
    requires db.meetings == map[]
    ensures var a := Do(db, CommandStep(ROOM, SUMMARY_ONLY));
            && a == Put(db, ROOM, SampleRows(WaitingForOther, None, Task(WaitingInput, 0, None, None)))
            && Do(a, RecordingStep(ROOM, RECORDED)) == Put(a, ROOM, SampleRows(Ready, Some(Recording(RECORDED, Ready)), Task(TaskReady, 0, None, None)))
  {
    var tasks := map[Summary := Task(WaitingInput, 0, None, None), Nodes := Task(Skipped, 0, None, None)];
    assert Released(tasks) == map[Summary := Task(TaskReady, 0, None, None), Nodes := Task(Skipped, 0, None, None)];
  }

  lemma SampleClaim(b: Db)
    requires At(b, ROOM) == SampleRows(Ready, Some(Recording(RECORDED, Ready)), Task(TaskReady, 0, None, None))
    ensures At(Do(b, ClaimStep(ROOM, 1)), ROOM) ==
            SampleRows(Processing, Some(Recording(RECORDED, Processing)), Task(TaskProcessing, 1, Some(1), Some(b.now)))
  {
    var m := At(b, ROOM);
    assert Claimable(b, m.tasks[Summary]) && Workable(b, ROOM);
    assert (map t | t in m.tasks :: Taken(b, m.tasks[t], 1)) ==
           map[Summary := Task(TaskProcessing, 1, Some(1), Some(b.now)), Nodes := Task(Skipped, 0, None, None)];
  }

  lemma SampleStuck(c: Db, at: int)
    requires At(c, ROOM) == SampleRows(Processing, Some(Recording(RECORDED, Processing)), Task(TaskProcessing, 1, Some(1), Some(at)))
    ensures StuckAt(Do(c, SucceedStep(ROOM, Summary, 1)), ROOM)
  {
    var m := At(Do(c, SucceedStep(ROOM, Summary, 1)), ROOM);
    assert m.tasks[Summary].status == Succeeded && m.tasks[Nodes].status == Skipped;
  }

  /** The state the previous lemma is about does arise from empty tables. */
  lemma StuckIsReachable(db: Db)
    requires Empty(db) && db.used == {}
    ensures PossibleRun(db, LastOutcomeOnly()) && StuckAt(Run(db, LastOutcomeOnly()), ROOM)
  {
    var a := Do(db, CommandStep(ROOM, SUMMARY_ONLY));
    var b := Do(a, RecordingStep(ROOM, RECORDED));
    var c := Do(b, ClaimStep(ROOM, 1));
    SampleInputs(db);
    SampleClaim(b);
    SampleStuck(c, b.now);
    assert Possible(db, CommandStep(ROOM, SUMMARY_ONLY)) && Possible(a, RecordingStep(ROOM, RECORDED)) && Possible(b, ClaimStep(ROOM, 1));
    hide Do, Possible, StuckAt;
    var s3: seq<Step> := [SucceedStep(ROOM, Summary, 1)] + [];
    var s2 := [ClaimStep(ROOM, 1)] + s3;
    SucceedIsPossible(c);
    RunCons(c, SucceedStep(ROOM, Summary, 1), []);
    RunCons(b, ClaimStep(ROOM, 1), s3);
    RunCons(a, RecordingStep(ROOM, RECORDED), s2);
    RunCons(db, CommandStep(ROOM, SUMMARY_ONLY), [RecordingStep(ROOM, RECORDED)] + s2);
  }

  lemma SucceedIsPossible(c: Db)
    ensures Possible(c, SucceedStep(ROOM, Summary, 1))
  {
  }

  /** Exactly the finish step completes it. */
  lemma FinishCompletesIff(db: Db, k: Key)
    requires JoinInv(db) && Joined(At(db, k))
    ensures At(Finish(db, k), k).command.value.status == Completed <==> AllTerminal(At(db, k))
  {
    assert MeetingOk(db, k);
  }

  // ----- the tables -----

  class Coordinator {
    var meetings: map<Key, Meeting>
    var now: int
    const timeout: nat
    var events: seq<(Key, TaskType)>
    ghost var used: set<Token>
    ghost var log: seq<Entry>

    ghost function Value(): Db
      reads this
    {
      Db(meetings, now, timeout, events, used, log)
    }

    constructor (timeout: nat, now: int)
      ensures Empty(Value()) && JoinInv(Value())
    {
      this.timeout, this.now, meetings, events, used, log := timeout, now, map[], [], {}, [];
    }

    /** Try the join of one room. */
    method JoinRoom(k: Key) returns (joined: bool)
      requires k in meetings
      modifies this`meetings
      ensures meetings == old(meetings)[k := Join(old(meetings)[k])]
      ensures joined <==> (var m := old(meetings)[k];
                           && m.command.Some? && (m.command.value.status == WaitingForOther || m.command.value.status == Ready)
                           && m.recording.Some? && (m.recording.value.status == WaitingForOther || m.recording.value.status == Ready))
      ensures joined ==> Joined(meetings[k]) && meetings[k].command.value.status == Ready
    {
      var m := meetings[k];
      if m.command.None? || !Joinable(m.command.value.status) || m.recording.None? || !Joinable(m.recording.value.status) {
        return false;
      }
      var tasks := m.tasks;
      var todo := m.tasks.Keys;
      while todo != {}
        invariant todo <= m.tasks.Keys && tasks.Keys == m.tasks.Keys
        invariant forall t :: t in m.tasks ==>
          tasks[t] == if t !in todo && m.tasks[t].status == WaitingInput then m.tasks[t].(status := TaskReady) else m.tasks[t]
        decreases todo
      {
        var t :| t in todo;
        if tasks[t].status == WaitingInput {
          tasks := tasks[t := tasks[t].(status := TaskReady)];
        }
        todo := todo - {t};
      }
      assert tasks == Released(m.tasks);
      meetings := meetings[k := Meeting(Some(m.command.value.(status := Ready)), Some(m.recording.value.(status := Ready)), tasks)];
      joined := true;
    }

    method PersistRecordingReady(k: Key, info: RecordingInfo) returns (created: bool)
      modifies this`meetings
      ensures Value() == old(PersistRecording(Value(), k, info))
      ensures created <==> forall l :: l in old(meetings) ==> !SameRecording(info, old(meetings)[l])
    {
      if exists l :: l in meetings && SameRecording(info, meetings[l]) { return false; }
      var m := if k in meetings then meetings[k] else NO_ROWS;
      meetings := meetings[k := m.(recording := Some(Recording(info, WaitingForOther)))];
      var _ := JoinRoom(k);
      created := true;
    }

    method PersistAnalysisCommand(k: Key, info: CommandInfo) returns (created: bool)
      modifies this`meetings
      ensures Value() == old(PersistCommand(Value(), k, info))
      ensures created <==> forall l :: l in old(meetings) ==> !SameCommand(k, info, l, old(meetings)[l])
    {
      if exists l :: l in meetings && SameCommand(k, info, l, meetings[l]) { return false; }
      var m := if k in meetings then meetings[k] else NO_ROWS;
      var ready := m.recording.Some? && Joinable(m.recording.value.status);
      meetings := meetings[k := m.(command := Some(Command(info, if ready then Ready else WaitingForOther)),
                                   tasks := map[Summary := NewTask(info.summary, ready), Nodes := NewTask(info.nodes, ready)])];
      var _ := JoinRoom(k);
      created := true;
    }

    /** Walk the selectable commands in request order and take the first that has work. */
    method ClaimReady(order: seq<Key>, token: Token) returns (claimed: Option<Key>)
      modifies this
      ensures claimed.None? ==> Value() == old(Value()) && forall i :: 0 <= i < |order| ==> !Workable(old(Value()), order[i])
      ensures claimed.Some? ==> Value() == Claim(old(Value()), claimed.value, token) && Workable(old(Value()), claimed.value)
      ensures claimed.Some? ==> exists i :: 0 <= i < |order| && order[i] == claimed.value
                                         && forall j :: 0 <= j < i ==> !Workable(old(Value()), order[j])
    {
      ghost var q := Value();
      var staleBefore := now - timeout;
      for i := 0 to |order|
        invariant Value() == q && forall j :: 0 <= j < i ==> !Workable(q, order[j])
      {
        var k := order[i];
        if k in meetings {
          var m := meetings[k];
          if m.command.Some? && Selectable(m.command.value.status) && m.recording.Some? && Selectable(m.recording.value.status) {
            var claimable := set t | t in m.tasks && (m.tasks[t].status == TaskReady
              || (m.tasks[t].status == TaskProcessing && m.tasks[t].claimedAt.Some? && m.tasks[t].claimedAt.value < staleBefore));
            assert forall t :: t in m.tasks ==> (t in claimable <==> Claimable(q, m.tasks[t]));
            if claimable != {} || AllSkipped(m) {
              assert Workable(q, k) by {
                if claimable != {} {
                  var t :| t in claimable;
                  assert Claimable(q, m.tasks[t]);
                }
              }
              var tasks := map t | t in m.tasks ::
                if t in claimable then Task(TaskProcessing, m.tasks[t].attempts + 1, Some(token), Some(now)) else m.tasks[t];
              assert tasks == map t | t in m.tasks :: Taken(q, m.tasks[t], token);
              meetings := meetings[k := Meeting(Some(m.command.value.(status := Processing)), Some(m.recording.value.(status := Processing)), tasks)];
              used := used + {token};
              return Some(k);
            }
          }
        }
      }
      claimed := None;
    }

    method RecordSuccess(k: Key, t: TaskType, token: Token) returns (ok: bool)
      modifies this
      ensures ok == old(Owned(Value(), k, t, token)) && Value() == old(Succeed(Value(), k, t, token))
    {
      if !(k in meetings && t in meetings[k].tasks && meetings[k].tasks[t].status == TaskProcessing && meetings[k].tasks[t].token == Some(token)) {
        return false;
      }
      var m := meetings[k];
      meetings := meetings[k := m.(tasks := m.tasks[t := m.tasks[t].(status := Succeeded, token := None, claimedAt := None)])];
      log := log + [Ended(k, t, token, Success)];
      ok := true;
    }

    /** `terminal` is None when the claim is no longer held. */
    method RecordFailure(k: Key, t: TaskType, token: Token, retryable: bool, emit: bool) returns (terminal: Option<bool>)
      modifies this
      ensures Value() == old(Fail(Value(), k, t, token, retryable, emit))
      ensures terminal.Some? == old(Owned(Value(), k, t, token))
      ensures terminal.Some? ==> terminal.value == (At(Value(), k).tasks[t].status == Failed)
    {
      if !(k in meetings && t in meetings[k].tasks && meetings[k].tasks[t].status == TaskProcessing && meetings[k].tasks[t].token == Some(token)) {
        return None;
      }
      var m := meetings[k];
      var task := m.tasks[t].(token := None, claimedAt := None);
      if !retryable || task.attempts >= MAX_TASK_ATTEMPTS {
        meetings := meetings[k := m.(tasks := m.tasks[t := task.(status := Failed)])];
        if emit { events := events + [(k, t)]; }
        log := log + [Ended(k, t, token, GiveUp(emit))];
        return Some(true);
      }
      meetings := meetings[k := m.(tasks := m.tasks[t := task.(status := TaskReady)])];
      log := log + [Ended(k, t, token, Retry)];
      terminal := Some(false);
    }

    method FinishInputsIfTerminal(k: Key)
      modifies this`meetings
      ensures Value() == old(Finish(Value(), k))
    {
      if k !in meetings || meetings[k].command.None? || meetings[k].recording.None? { return; }
      var m := meetings[k];
      if AllTerminal(m) {
        m := m.(command := Some(m.command.value.(status := Completed)), recording := Some(m.recording.value.(status := Completed)));
      } else if SomeReady(m) {
        m := m.(command := Some(m.command.value.(status := Ready)), recording := Some(m.recording.value.(status := Ready)));
      }
      meetings := meetings[k := m];
    }
  }
}

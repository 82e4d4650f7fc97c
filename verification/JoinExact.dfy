/** What each transaction of the meeting join and its coordinator writes, exactly, and what a final failure means over runs. */
module JoinExact {
  import opened Options
  import opened Claiming
  import opened MeetingJoin

  /** Only room k differs, and neither clock, tokens nor events nor history do. */
  predicate OnlyRoom(db: Db, to: Db, k: Key) {
    && to.now == db.now && to.timeout == db.timeout && to.used == db.used && to.events == db.events && to.log == db.log
    && k in to.meetings && to.meetings.Keys == db.meetings.Keys + {k}
    && forall l :: l in db.meetings && l != k ==> to.meetings[l] == db.meetings[l]
  }

  /** A claim is held: the task is PROCESSING under this token. */
  predicate Holds(db: Db, k: Key, t: TaskType, token: Token) {
    && k in db.meetings && t in db.meetings[k].tasks
    && db.meetings[k].tasks[t].status == TaskProcessing && db.meetings[k].tasks[t].token == Some(token)
  }

  /** Room k differs only in task t, which has ended: no token, no start time, attempts kept. */
  predicate EndedAs(db: Db, to: Db, k: Key, t: TaskType, status: TaskStatus) {
    && k in db.meetings && k in to.meetings && t in db.meetings[k].tasks && t in to.meetings[k].tasks
    && to.meetings.Keys == db.meetings.Keys
    && (forall l :: l in db.meetings && l != k ==> to.meetings[l] == db.meetings[l])
    && to.meetings[k].command == db.meetings[k].command && to.meetings[k].recording == db.meetings[k].recording
    && to.meetings[k].tasks.Keys == db.meetings[k].tasks.Keys
    && (forall u :: u in db.meetings[k].tasks && u != t ==> to.meetings[k].tasks[u] == db.meetings[k].tasks[u])
    && to.meetings[k].tasks[t] == Task(status, db.meetings[k].tasks[t].attempts, None, None)
    && to.now == db.now && to.timeout == db.timeout && to.used == db.used
  }

  /**
   A failure under a held claim: FAILED exactly when it is not retryable or three
   attempts were made, READY otherwise, with an event exactly when it is final and
   one was asked for.  Without the claim nothing changes.
   */
  lemma FailExactly(db: Db, k: Key, t: TaskType, token: Token, retryable: bool, emit: bool)
    ensures !Holds(db, k, t, token) ==> Fail(db, k, t, token, retryable, emit) == db
    ensures Holds(db, k, t, token) ==>
              var to := Fail(db, k, t, token, retryable, emit);
              var final := !retryable || db.meetings[k].tasks[t].attempts >= 3;
              && EndedAs(db, to, k, t, if final then Failed else TaskReady)
              && to.events == (if final && emit then db.events + [(k, t)] else db.events)
              && to.log == db.log + [Ended(k, t, token, if final then GiveUp(emit) else Retry)]
  {
  }

  /** A success under a held claim ends the task SUCCEEDED, without an event; without the claim nothing changes. */
  lemma SucceedExactly(db: Db, k: Key, t: TaskType, token: Token)
    ensures !Holds(db, k, t, token) ==> Succeed(db, k, t, token) == db
    ensures Holds(db, k, t, token) ==>
              var to := Succeed(db, k, t, token);
              && EndedAs(db, to, k, t, Succeeded) && to.events == db.events && to.log == db.log + [Ended(k, t, token, Success)]
  {
  }

  /** READY, or PROCESSING since before the timeout. */
  predicate Due(db: Db, t: Task) {
    t.status == TaskReady || (t.status == TaskProcessing && t.claimedAt.Some? && t.claimedAt.value + db.timeout < db.now)
  }

  predicate Open(s: InputStatus) {
    s == Ready || s == Processing
  }

  /** Both inputs are open, and some task is due or every one is skipped. */
  ghost predicate HasWork(db: Db, k: Key) {
    && k in db.meetings && db.meetings[k].command.Some? && db.meetings[k].recording.Some?
    && Open(db.meetings[k].command.value.status) && Open(db.meetings[k].recording.value.status)
    && ((exists t :: t in db.meetings[k].tasks && Due(db, db.meetings[k].tasks[t]))
        || forall t :: t in db.meetings[k].tasks ==> db.meetings[k].tasks[t].status == Skipped)
  }

  /** A claim takes exactly the due tasks of a room with work, all under the one token from now on, and both inputs become PROCESSING. */
  lemma ClaimExactly(db: Db, k: Key, token: Token)
    ensures !HasWork(db, k) ==> Claim(db, k, token) == db
    ensures HasWork(db, k) ==>
              var to := Claim(db, k, token);
              && OnlyRoom(db.(used := to.used), to, k) && to.used == db.used + {token}
              && var m, n := db.meetings[k], to.meetings[k];
              && n.command == Some(Command(m.command.value.info, Processing)) && n.recording == Some(Recording(m.recording.value.info, Processing))
              && n.tasks.Keys == m.tasks.Keys
              && forall t :: t in m.tasks ==>
                   n.tasks[t] == if Due(db, m.tasks[t]) then Task(TaskProcessing, m.tasks[t].attempts + 1, Some(token), Some(db.now)) else m.tasks[t]
  {
    WorkableIs(db, k);
    hide Workable;
  }

  lemma WorkableIs(db: Db, k: Key)
    ensures Workable(db, k) <==> HasWork(db, k)
  {
    var m := At(db, k);
    assert forall t :: t in m.tasks ==> (Claimable(db, m.tasks[t]) <==> Due(db, m.tasks[t]));
    hide Claimable, Due;
  }

  /** The finish step: COMPLETED once every task is terminal, READY while one is READY, otherwise as it was. */
  lemma FinishExactly(db: Db, k: Key)
    ensures !(k in db.meetings && Joined(db.meetings[k])) ==> Finish(db, k) == db
    ensures k in db.meetings && Joined(db.meetings[k]) ==>
              var to := Finish(db, k);
              && OnlyRoom(db, to, k)
              && var m, n := db.meetings[k], to.meetings[k];
              && n.tasks == m.tasks && n.command.Some? && n.recording.Some?
              && n.command.value.info == m.command.value.info && n.recording.value.info == m.recording.value.info
              && if forall t :: t in m.tasks ==> m.tasks[t].status == Succeeded || m.tasks[t].status == Failed || m.tasks[t].status == Skipped
                 then n.command.value.status == Completed && n.recording.value.status == Completed
                 else if exists t :: t in m.tasks && m.tasks[t].status == TaskReady
                 then n.command.value.status == Ready && n.recording.value.status == Ready
                 else n == m
  {
  }

  /** The two tasks of a stored command: one that was not asked for is SKIPPED for good. */
  predicate Fresh(tasks: map<TaskType, Task>, info: CommandInfo, status: TaskStatus) {
    tasks == map[Summary := Task(if info.summary then status else Skipped, 0, None, None),
                 Nodes := Task(if info.nodes then status else Skipped, 0, None, None)]
  }

  /** The same command id anywhere, or the same meeting of the project. */
  ghost predicate SeenCommand(db: Db, k: Key, info: CommandInfo) {
    exists l :: l in db.meetings && db.meetings[l].command.Some?
      && (db.meetings[l].command.value.info.id == info.id || (l.0 == k.0 && db.meetings[l].command.value.info.meeting == info.meeting))
  }

  /** The same egress or the same stored object, anywhere. */
  ghost predicate SeenRecording(db: Db, info: RecordingInfo) {
    exists l :: l in db.meetings && db.meetings[l].recording.Some?
      && (db.meetings[l].recording.value.info.egress == info.egress || db.meetings[l].recording.value.info.stored == info.stored)
  }

  lemma SeenMeans(db: Db, k: Key, c: CommandInfo, r: RecordingInfo)
    ensures SeenCommand(db, k, c) <==> exists l :: l in db.meetings && SameCommand(k, c, l, db.meetings[l])
    ensures SeenRecording(db, r) <==> exists l :: l in db.meetings && SameRecording(r, db.meetings[l])
  {
    if SeenCommand(db, k, c) {
      var l :| l in db.meetings && db.meetings[l].command.Some?
        && (db.meetings[l].command.value.info.id == c.id || (l.0 == k.0 && db.meetings[l].command.value.info.meeting == c.meeting));
      assert SameCommand(k, c, l, db.meetings[l]);
    }
    if SeenRecording(db, r) {
      var l :| l in db.meetings && db.meetings[l].recording.Some?
        && (db.meetings[l].recording.value.info.egress == r.egress || db.meetings[l].recording.value.info.stored == r.stored);
      assert SameRecording(r, db.meetings[l]);
    }
  }

  /**
   A command not seen before: with a waiting recording both become READY and its
   tasks are READY, without one it waits and so do its tasks.  A repeat or a
   conflict changes nothing.
   */
  lemma CommandExactly(db: Db, k: Key, info: CommandInfo)
    requires JoinInv(db) && Possible(db, CommandStep(k, info))
    ensures var to := PersistCommand(db, k, info);
            if SeenCommand(db, k, info) then to == db
            else
              && OnlyRoom(db, to, k)
              && var m := At(db, k);
              && if m.recording.Some? then
                   && to.meetings[k].command == Some(Command(info, Ready)) && to.meetings[k].recording == Some(Recording(m.recording.value.info, Ready))
                   && Fresh(to.meetings[k].tasks, info, TaskReady)
                 else to.meetings[k].command == Some(Command(info, WaitingForOther)) && to.meetings[k].recording.None?
                      && Fresh(to.meetings[k].tasks, info, WaitingInput)
  {
    assert MeetingOk(db, k);
    SeenMeans(db, k, info, RecordingInfo(0, 0, 0));
    hide SameCommand, SameRecording, SeenCommand, SeenRecording;
  }

  /**
   A recording not seen before: with a waiting command both become READY and every
   waiting task READY, without one it waits.  A repeat or a conflict changes
   nothing.
   */
  lemma RecordingExactly(db: Db, k: Key, info: RecordingInfo)
    requires JoinInv(db) && Possible(db, RecordingStep(k, info))
    ensures var to := PersistRecording(db, k, info);
            if SeenRecording(db, info) then to == db
            else
              && OnlyRoom(db, to, k)
              && var m, n := At(db, k), to.meetings[k];
              && n.tasks.Keys == m.tasks.Keys
              && if m.command.Some? then
                   && n.recording == Some(Recording(info, Ready)) && n.command == Some(Command(m.command.value.info, Ready))
                   && forall t :: t in m.tasks ==> n.tasks[t] == Task(if m.tasks[t].status == WaitingInput then TaskReady else Skipped, m.tasks[t].attempts, None, None)
                 else n.recording == Some(Recording(info, WaitingForOther)) && n.command.None?
  {
    assert MeetingOk(db, k);
    assert forall t :: t in At(db, k).tasks ==> TaskOk(db, k, t, At(db, k).tasks[t]);
    SeenMeans(db, k, CommandInfo(0, 0, false, false, 0), info);
    hide SameRecording, SameCommand, SeenCommand, SeenRecording;
  }

  // ----- over runs -----

  /** FAILED is final. */
  lemma {:induction false} FailedForever(db: Db, steps: seq<Step>, k: Key, t: TaskType)
    requires JoinInv(db) && PossibleRun(db, steps) && HasFailed(db, k, t)
    ensures HasFailed(Run(db, steps), k, t)
    decreases |steps|
  {
    hide JoinInv, Possible, Do, HasFailed;
    if steps != [] {
      DoKeeps(db, steps[0]);
      EventCommitsWithFailure(db, steps[0], k, t);
      FailedForever(Do(db, steps[0]), steps[1..], k, t);
    }
  }

  /**
   A failure that the holder of the claim records as not retryable, or on the third
   attempt, leaves the task FAILED whatever is done afterwards; any other failure
   leaves it READY, and the room can be claimed at once.
   */
  lemma FailureIsFinalIff(db: Db, k: Key, t: TaskType, token: Token, retryable: bool, emit: bool, steps: seq<Step>)
    requires JoinInv(db) && Holds(db, k, t, token) && PossibleRun(Do(db, FailStep(k, t, token, retryable, emit)), steps)
    ensures var to := Do(db, FailStep(k, t, token, retryable, emit));
            && (!retryable || db.meetings[k].tasks[t].attempts >= 3 ==> HasFailed(Run(to, steps), k, t))
            && (retryable && db.meetings[k].tasks[t].attempts < 3 ==> At(to, k).tasks[t].status == TaskReady && Workable(to, k))
  {
    var step := FailStep(k, t, token, retryable, emit);
    var to := Do(db, step);
    FailExactly(db, k, t, token, retryable, emit);
    assert Possible(db, step);
    hide JoinInv, Workable, Possible, Fail;
    DoKeeps(db, step);
    if !retryable || db.meetings[k].tasks[t].attempts >= 3 {
      FailedForever(to, steps, k, t);
    } else {
      RetryHasWork(db, to, k, t);
    }
  }

  lemma RetryHasWork(db: Db, to: Db, k: Key, t: TaskType)
    requires JoinInv(db) && EndedAs(db, to, k, t, TaskReady) && At(db, k).tasks[t].status == TaskProcessing
    ensures Workable(to, k)
  {
    assert MeetingOk(db, k);
    assert Claimable(to, At(to, k).tasks[t]);
    assert SomeClaimable(to, At(to, k));
  }
}

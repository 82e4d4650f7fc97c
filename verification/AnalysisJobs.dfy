/**
 Durable analysis jobs.  A worker owns a job by a fresh claim token; a RUNNING
 row whose worker died is claimed again once its lease has run out.  Workers may
 interleave in any way and die between any two transactions.
 */
module AnalysisJobs {
  import opened Options
  import opened Claiming

  type JobId = nat

  datatype Status = Pending | Running | Succeeded | Failed

  // One row per node; the row is named by its node.
  datatype Job = Job(
    nodeVersion: nat,
    status: Status,
    attempts: nat,
    maxAttempts: nat,
    token: Option<Token>,
    claimedAt: Option<int>,
    availableAt: int,
    createdAt: int)

  datatype Outcome = Success | Retry | GiveUp

  datatype Entry =
    | Enqueued(job: JobId)
    | Claimed(job: JobId, token: Token, at: int)
    | Ended(job: JobId, token: Token, outcome: Outcome)

  // `log` is the commit history; the code does not store it.
  datatype Queue = Queue(jobs: map<JobId, Job>, now: int, timeout: nat, used: set<Token>, log: seq<Entry>)

  const CLAIM_LIMIT := 10

  // ----- transactions -----

  function Revived(job: Job, version: nat, now: int): Job {
    job.(status := Pending, nodeVersion := version, attempts := 0, token := None, claimedAt := None, availableAt := now)
  }

  function Enqueue(q: Queue, j: JobId, version: nat, maxAttempts: nat, nodeExists: bool): Option<Queue> {
    if !nodeExists then None
    else if j in q.jobs then
      Some(q.(jobs := q.jobs[j := Revived(q.jobs[j], version, q.now)], log := q.log + [Enqueued(j)]))
    else if maxAttempts < 1 then None
    else
      Some(q.(jobs := q.jobs[j := Job(version, Pending, 0, maxAttempts, None, None, q.now, q.now)], log := q.log + [Enqueued(j)]))
  }

  predicate Claimable(q: Queue, j: JobId) {
    j in q.jobs && (q.jobs[j].status == Pending || q.jobs[j].status == Running) && q.jobs[j].availableAt <= q.now
  }

  predicate Before(a: Job, b: Job) {
    a.availableAt < b.availableAt || (a.availableAt == b.availableAt && a.createdAt <= b.createdAt)
  }

  /** `rows` is an answer to the claim query: the first ten claimable rows that no other transaction holds. */
  ghost predicate Selected(q: Queue, locked: set<JobId>, rows: seq<JobId>) {
    && |rows| <= CLAIM_LIMIT
    && (forall i :: 0 <= i < |rows| ==> Claimable(q, rows[i]) && rows[i] !in locked)
    && (forall i, k :: 0 <= i < k < |rows| ==> rows[i] != rows[k] && Before(q.jobs[rows[i]], q.jobs[rows[k]]))
    && (forall j :: Claimable(q, j) && j !in locked && j !in rows ==>
          |rows| == CLAIM_LIMIT && forall i :: 0 <= i < |rows| ==> Before(q.jobs[rows[i]], q.jobs[j]))
  }

  /** The guard that would leave a RUNNING row to its worker. */
  predicate StillOwned(q: Queue, job: Job) {
    job.status == Running && job.claimedAt.Some? && job.claimedAt.value > q.now - q.timeout
  }

  function Lease(q: Queue, j: JobId, token: Token): Queue
    requires j in q.jobs
  {
    var job := q.jobs[j];
    q.(jobs := q.jobs[j := job.(status := Running, attempts := job.attempts + 1, token := Some(token), claimedAt := Some(q.now),
                                availableAt := q.now + q.timeout)],
       used := q.used + {token}, log := q.log + [Claimed(j, token, q.now)])
  }

  /** The row the claim loop settles on. */
  function Pick(q: Queue, rows: seq<JobId>): (r: Option<JobId>)
    ensures r.Some? ==> r.value in rows && r.value in q.jobs
  {
    if rows == [] then None
    else if rows[0] !in q.jobs || StillOwned(q, q.jobs[rows[0]]) then Pick(q, rows[1..])
    else Some(rows[0])
  }

  function Claim(q: Queue, rows: seq<JobId>, token: Token): Queue {
    var pick := Pick(q, rows);
    if pick.Some? then Lease(q, pick.value, token) else q
  }

  predicate Owned(q: Queue, j: JobId, token: Token) {
    j in q.jobs && q.jobs[j].token == Some(token) && q.jobs[j].status == Running
  }

  function Complete(q: Queue, j: JobId, token: Token): Queue {
    if !Owned(q, j, token) then q
    else q.(jobs := q.jobs[j := q.jobs[j].(status := Succeeded, token := None)], log := q.log + [Ended(j, token, Success)])
  }

  function Fail(q: Queue, j: JobId, token: Token, retryable: bool): Queue {
    if !Owned(q, j, token) then q
    else
      var job := q.jobs[j];
      if retryable && job.attempts < job.maxAttempts then
        q.(jobs := q.jobs[j := job.(status := Pending, token := None, availableAt := q.now + Backoff(job.attempts))],
           log := q.log + [Ended(j, token, Retry)])
      else
        q.(jobs := q.jobs[j := job.(status := Failed, token := None)], log := q.log + [Ended(j, token, GiveUp)])
  }

  // ----- reading the history -----

  predicate About(e: Entry, j: JobId) {
    e.job == j
  }

  /** The claim that currently owns the job, with its time. */
  function Holder(log: seq<Entry>, j: JobId): Option<(Token, int)> {
    if log == [] then None
    else
      var e := log[|log| - 1];
      if !About(e, j) then Holder(log[..|log| - 1], j)
      else if e.Claimed? then Some((e.token, e.at))
      else None
  }

  /** Retries since the job was last enqueued. */
  function Retries(log: seq<Entry>, j: JobId): nat {
    if log == [] then 0
    else
      var e := log[|log| - 1];
      if !About(e, j) then Retries(log[..|log| - 1], j)
      else if e.Enqueued? then 0
      else Retries(log[..|log| - 1], j) + (if e.Ended? && e.outcome == Retry then 1 else 0)
  }

  /** Entry `e` may follow the history `log`. */
  ghost predicate Lawful(timeout: nat, log: seq<Entry>, e: Entry) {
    match e
    case Enqueued(_) => true
    case Claimed(j, t, at) => Holder(log, j).Some? ==> Holder(log, j).value.1 + timeout <= at
    case Ended(j, t, _) => Holder(log, j).Some? && Holder(log, j).value.0 == t
  }

  predicate SameClaim(e: Entry, f: Entry) {
    e.Claimed? && f.Claimed? && e.token == f.token
  }

  /** No lease is taken over early, only the holder ends a claim, and no token is issued twice. */
  ghost predicate LawfulLog(timeout: nat, log: seq<Entry>) {
    && (forall n :: 0 <= n < |log| ==> Lawful(timeout, log[..n], log[n]))
    && (forall m, n :: 0 <= m < n < |log| ==> !SameClaim(log[m], log[n]))
  }

  ghost predicate JobOk(q: Queue, j: JobId)
    requires j in q.jobs
  {
    var job := q.jobs[j];
    var retries := Retries(q.log, j);
    && job.maxAttempts >= 1 && retries < job.maxAttempts && retries <= job.attempts
    && (if job.status == Running then
          && job.token.Some? && job.claimedAt.Some?
          && Holder(q.log, j) == Some((job.token.value, job.claimedAt.value))
          && job.claimedAt.value <= q.now && job.availableAt == job.claimedAt.value + q.timeout
          && retries + 1 <= job.attempts
        else job.token.None? && Holder(q.log, j).None?)
  }

  ghost predicate QueueInv(q: Queue) {
    && (forall j :: j in q.jobs ==> JobOk(q, j))
    && (forall j :: j !in q.jobs ==> Retries(q.log, j) == 0 && Holder(q.log, j).None?)
    && (forall n :: 0 <= n < |q.log| && q.log[n].Claimed? ==> q.log[n].token in q.used)
    && LawfulLog(q.timeout, q.log)
  }

  lemma SnocHistory(log: seq<Entry>, e: Entry, j: JobId)
    ensures Holder(log + [e], j) ==
            if e.job != j then Holder(log, j) else if e.Claimed? then Some((e.token, e.at)) else None
    ensures Retries(log + [e], j) ==
            if e.job != j then Retries(log, j) else if e.Enqueued? then 0
            else Retries(log, j) + (if e.Ended? && e.outcome == Retry then 1 else 0)
  {
  }

  /** Rewriting one row and appending one lawful entry about it keeps the invariant. */
  lemma WriteKeeps(q: Queue, to: Queue, e: Entry)
    requires QueueInv(q) && to.log == q.log + [e] && to.now == q.now && to.timeout == q.timeout
    requires e.job in to.jobs && to.jobs == q.jobs[e.job := to.jobs[e.job]]
    requires Lawful(q.timeout, q.log, e)
    requires to.used == if e.Claimed? then q.used + {e.token} else q.used
    requires e.Claimed? ==> e.token !in q.used
    requires JobOk(to, e.job)
    ensures QueueInv(to)
  {
    forall j | j != e.job
      ensures Holder(to.log, j) == Holder(q.log, j) && Retries(to.log, j) == Retries(q.log, j)
    {
      SnocHistory(q.log, e, j);
    }
    forall j | j in to.jobs
      ensures JobOk(to, j)
    {
      if j != e.job {
        assert JobOk(q, j);
      }
    }
    forall n | 0 <= n < |to.log|
      ensures Lawful(to.timeout, to.log[..n], to.log[n])
    {
      if n < |q.log| {
        assert to.log[..n] == q.log[..n];
      } else {
        assert to.log[..n] == q.log;
      }
    }
    forall m, n | 0 <= m < n < |to.log|
      ensures !SameClaim(to.log[m], to.log[n])
    {
      if n < |q.log| {
        assert !SameClaim(q.log[m], q.log[n]);
      }
    }
  }

  /** With one fixed timeout, a RUNNING row inside the claim window is already stale. */
  lemma SkipIsDead(q: Queue, j: JobId)
    requires QueueInv(q) && Claimable(q, j)
    ensures !StillOwned(q, q.jobs[j])
  {
  }

  /**
   A claim takes a row that sorts first among all claimable rows not held by
   another transaction, and takes nothing only when there is none.
   */
  lemma ClaimTakesEarliest(q: Queue, locked: set<JobId>, rows: seq<JobId>)
    requires QueueInv(q) && Selected(q, locked, rows)
    ensures var pick := Pick(q, rows);
            && (pick.None? <==> forall j :: Claimable(q, j) ==> j in locked)
            && (pick.Some? ==>
                  && Claimable(q, pick.value) && pick.value !in locked
                  && forall j :: Claimable(q, j) && j !in locked ==> Before(q.jobs[pick.value], q.jobs[j]))
  {
  }

  lemma EnqueueKeeps(q: Queue, j: JobId, version: nat, maxAttempts: nat, nodeExists: bool)
    requires QueueInv(q) && Enqueue(q, j, version, maxAttempts, nodeExists).Some?
    ensures QueueInv(Enqueue(q, j, version, maxAttempts, nodeExists).value)
  {
    SnocHistory(q.log, Enqueued(j), j);
    if j in q.jobs { assert JobOk(q, j); }
    WriteKeeps(q, Enqueue(q, j, version, maxAttempts, nodeExists).value, Enqueued(j));
  }

  lemma ClaimKeeps(q: Queue, locked: set<JobId>, rows: seq<JobId>, token: Token)
    requires QueueInv(q) && Selected(q, locked, rows) && token !in q.used
    ensures QueueInv(Claim(q, rows, token))
  {
    var pick := Pick(q, rows);
    if pick.Some? {
      ClaimTakesEarliest(q, locked, rows);
      var j := pick.value;
      assert JobOk(q, j);
      SnocHistory(q.log, Claimed(j, token, q.now), j);
      WriteKeeps(q, Lease(q, j, token), Claimed(j, token, q.now));
    }
  }

  lemma EndKeeps(q: Queue, j: JobId, token: Token, outcome: Outcome, job: Job)
    requires QueueInv(q) && Owned(q, j, token)
    requires job == q.jobs[j].(status := job.status, token := None, availableAt := job.availableAt) && job.status != Running
    requires outcome == Retry ==> q.jobs[j].attempts < q.jobs[j].maxAttempts
    ensures QueueInv(q.(jobs := q.jobs[j := job], log := q.log + [Ended(j, token, outcome)]))
  {
    assert JobOk(q, j);
    SnocHistory(q.log, Ended(j, token, outcome), j);
    WriteKeeps(q, q.(jobs := q.jobs[j := job], log := q.log + [Ended(j, token, outcome)]), Ended(j, token, outcome));
  }

  // ----- runs -----

  datatype Step =
    | EnqueueStep(job: JobId, version: nat, maxAttempts: nat, nodeExists: bool)
    | ClaimStep(locked: set<JobId>, rows: seq<JobId>, token: Token)
    | CompleteStep(job: JobId, token: Token)
    | FailStep(job: JobId, token: Token, retryable: bool)
    | Wait(delta: nat)

  function Do(q: Queue, step: Step): Queue {
    match step
    case EnqueueStep(j, version, maxAttempts, nodeExists) =>
      var r := Enqueue(q, j, version, maxAttempts, nodeExists); if r.Some? then r.value else q
    case ClaimStep(_, rows, token) => Claim(q, rows, token)
    case CompleteStep(j, token) => Complete(q, j, token)
    case FailStep(j, token, retryable) => Fail(q, j, token, retryable)
    case Wait(delta) => q.(now := q.now + delta)
  }

  /** What the database guarantees of a claim: a true query answer and a token never issued before. */
  ghost predicate Possible(q: Queue, step: Step) {
    step.ClaimStep? ==> Selected(q, step.locked, step.rows) && step.token !in q.used
  }

  function Run(q: Queue, steps: seq<Step>): Queue
    decreases |steps|
  {
    if steps == [] then q else Run(Do(q, steps[0]), steps[1..])
  }

  ghost predicate PossibleRun(q: Queue, steps: seq<Step>)
    decreases |steps|
  {
    steps == [] || (Possible(q, steps[0]) && PossibleRun(Do(q, steps[0]), steps[1..]))
  }

  lemma DoKeeps(q: Queue, step: Step)
    requires QueueInv(q) && Possible(q, step)
    ensures QueueInv(Do(q, step))
  {
    hide QueueInv, Selected, Lawful;
    match step
    case EnqueueStep(j, version, maxAttempts, nodeExists) =>
      if Enqueue(q, j, version, maxAttempts, nodeExists).Some? { EnqueueKeeps(q, j, version, maxAttempts, nodeExists); }
    case ClaimStep(locked, rows, token) => ClaimKeeps(q, locked, rows, token);
    case CompleteStep(j, token) =>
      if Owned(q, j, token) { EndKeeps(q, j, token, Success, q.jobs[j].(status := Succeeded, token := None)); }
    case FailStep(j, token, retryable) =>
      if Owned(q, j, token) {
        var job := q.jobs[j];
        if retryable && job.attempts < job.maxAttempts {
          EndKeeps(q, j, token, Retry, job.(status := Pending, token := None, availableAt := q.now + Backoff(job.attempts)));
        } else {
          EndKeeps(q, j, token, GiveUp, job.(status := Failed, token := None));
        }
      }
    case Wait(delta) => WaitKeeps(q, delta);
  }

  lemma WaitKeeps(q: Queue, delta: nat)
    requires QueueInv(q)
    ensures QueueInv(q.(now := q.now + delta))
  {
  }

  lemma {:induction false} RunKeeps(q: Queue, steps: seq<Step>)
    requires QueueInv(q) && PossibleRun(q, steps)
    ensures QueueInv(Run(q, steps))
    decreases |steps|
  {
    hide QueueInv, Do, Possible;
    if steps != [] {
      DoKeeps(q, steps[0]);
      RunKeeps(Do(q, steps[0]), steps[1..]);
    }
  }

  lemma EmptyQueueInv(q: Queue)
    requires q.jobs == map[] && q.log == []
    ensures QueueInv(q)
  {
  }

  /** A holder was claimed, and nothing has happened to the job since. */
  lemma {:induction false} HolderWasClaimed(log: seq<Entry>, j: JobId, n: nat) returns (m: nat)
    requires n <= |log| && Holder(log[..n], j).Some?
    ensures m < n && log[m].Claimed? && log[m].job == j
    ensures Holder(log[..n], j) == Some((log[m].token, log[m].at))
    ensures forall k :: m < k < n ==> log[k].job != j
    decreases n
  {
    assert log[..n][..n - 1] == log[..n - 1] && log[..n][n - 1] == log[n - 1];
    if log[n - 1].job == j {
      m := n - 1;
    } else {
      m := HolderWasClaimed(log, j, n - 1);
    }
  }

  /**
   In every history: an outcome belongs to a claim of the same job and token,
   with no other event of that job between the two.
   */
  lemma OutcomeFollowsItsClaim(timeout: nat, log: seq<Entry>, n: nat) returns (m: nat)
    requires LawfulLog(timeout, log) && n < |log| && log[n].Ended?
    ensures m < n && log[m].Claimed? && log[m].job == log[n].job && log[m].token == log[n].token
    ensures forall k :: m < k < n ==> log[k].job != log[n].job
  {
    assert Lawful(timeout, log[..n], log[n]);
    m := HolderWasClaimed(log, log[n].job, n);
  }

  lemma TokensDiffer(timeout: nat, log: seq<Entry>, a: nat, b: nat)
    requires LawfulLog(timeout, log) && a < |log| && b < |log| && SameClaim(log[a], log[b])
    ensures a == b
  {
  }

  /** A claim token records at most one outcome. */
  lemma OneOutcomePerToken(timeout: nat, log: seq<Entry>, i: nat, n: nat)
    requires LawfulLog(timeout, log) && i < |log| && n < |log| && log[i].Ended? && log[n].Ended? && log[i].token == log[n].token
    ensures i == n
  {
    hide LawfulLog;
    var a := OutcomeFollowsItsClaim(timeout, log, i);
    var b := OutcomeFollowsItsClaim(timeout, log, n);
    TokensDiffer(timeout, log, a, b);
    assert log[i].job == log[n].job;
  }

  /** A second claim of a job that nothing has ended or revived comes no earlier than the timeout. */
  lemma LeaseHonoured(timeout: nat, log: seq<Entry>, m: nat, n: nat)
    requires LawfulLog(timeout, log) && m < n < |log| && log[m].Claimed? && log[n].Claimed? && log[m].job == log[n].job
    requires forall k :: m < k < n ==> log[k].job != log[m].job
    ensures log[m].at + timeout <= log[n].at
  {
    assert Lawful(timeout, log[..n], log[n]);
    HolderSince(log, m, n);
  }

  lemma {:induction false} HolderSince(log: seq<Entry>, m: nat, n: nat)
    requires m < n <= |log| && log[m].Claimed?
    requires forall k :: m < k < n ==> log[k].job != log[m].job
    ensures Holder(log[..n], log[m].job) == Some((log[m].token, log[m].at))
    decreases n
  {
    assert log[..n][..n - 1] == log[..n - 1] && log[..n][n - 1] == log[n - 1];
    if m < n - 1 {
      HolderSince(log, m, n - 1);
    }
  }

  /**
   Every run of workers from an empty table: leases are honoured, only the
   latest token ends a claim, and since its last enqueue no job has been retried
   as often as max_attempts.
   */
  lemma WorkersAreSafe(q: Queue, steps: seq<Step>, j: JobId)
    requires q.jobs == map[] && q.log == [] && PossibleRun(q, steps) && j in Run(q, steps).jobs
    ensures var r := Run(q, steps);
            && LawfulLog(r.timeout, r.log)
            && Retries(r.log, j) <= r.jobs[j].maxAttempts - 1
            && (r.jobs[j].status == Running <==> Holder(r.log, j).Some?)
            && (forall t :: Owned(r, j, t) <==> Holder(r.log, j).Some? && Holder(r.log, j).value.0 == t)
  {
    EmptyQueueInv(q);
    RunKeeps(q, steps);
    assert JobOk(Run(q, steps), j);
  }

  // ----- the table -----

  class Table {
    var jobs: map<JobId, Job>
    var now: int
    const timeout: nat
    ghost var used: set<Token>
    ghost var log: seq<Entry>

    ghost function Value(): Queue
      reads this
    {
      Queue(jobs, now, timeout, used, log)
    }

    constructor (timeout: nat, now: int)
      ensures Value() == Queue(map[], now, timeout, {}, []) && QueueInv(Value())
    {
      this.timeout, this.now, jobs, used, log := timeout, now, map[], {}, [];
      new;
      EmptyQueueInv(Value());
    }

    method EnqueueAnalysisJob(j: JobId, version: nat, maxAttempts: nat, nodeExists: bool) returns (ok: bool)
      modifies this
      ensures ok == old(Enqueue(Value(), j, version, maxAttempts, nodeExists)).Some?
      ensures Value() == if ok then old(Enqueue(Value(), j, version, maxAttempts, nodeExists)).value else old(Value())
    {
      if !nodeExists { return false; }
      if j in jobs {
        jobs := jobs[j := jobs[j].(status := Pending, nodeVersion := version, attempts := 0, token := None, claimedAt := None, availableAt := now)];
      } else {
        if maxAttempts < 1 { return false; }
        jobs := jobs[j := Job(version, Pending, 0, maxAttempts, None, None, now, now)];
      }
      log := log + [Enqueued(j)];
      ok := true;
    }

    /** The claim loop over the selected rows. */
    method ClaimNextAnalysisJob(rows: seq<JobId>, token: Token) returns (claimed: Option<JobId>)
      requires forall i :: 0 <= i < |rows| ==> rows[i] in jobs
      modifies this
      ensures Value() == old(Claim(Value(), rows, token)) && claimed == old(Pick(Value(), rows))
    {
      ghost var q := Value();
      var staleBefore := now - timeout;
      var i := 0;
      while i < |rows|
        invariant i <= |rows| && Value() == q && Pick(q, rows[i..]) == Pick(q, rows)
      {
        var j := rows[i];
        var job := jobs[j];
        if !(job.status == Running && job.claimedAt.Some? && job.claimedAt.value > staleBefore) {
          jobs := jobs[j := job.(status := Running, attempts := job.attempts + 1, token := Some(token), claimedAt := Some(now),
                                 availableAt := now + timeout)];
          used := used + {token};
          log := log + [Claimed(j, token, now)];
          return Some(j);
        }
        assert rows[i..][1..] == rows[i + 1..];
        i := i + 1;
      }
      return None;
    }

    method CompleteAnalysisJob(j: JobId, token: Token) returns (ok: bool)
      modifies this
      ensures ok == old(Owned(Value(), j, token)) && Value() == old(Complete(Value(), j, token))
    {
      if !(j in jobs && jobs[j].token == Some(token) && jobs[j].status == Running) { return false; }
      jobs := jobs[j := jobs[j].(status := Succeeded, token := None)];
      log := log + [Ended(j, token, Success)];
      ok := true;
    }

    method FailAnalysisJob(j: JobId, token: Token, retryable: bool) returns (status: Option<Status>)
      modifies this
      ensures Value() == old(Fail(Value(), j, token, retryable))
      ensures status == if old(Owned(Value(), j, token)) then Some(Value().jobs[j].status) else None
    {
      if !(j in jobs && jobs[j].token == Some(token) && jobs[j].status == Running) { return None; }
      var job := jobs[j];
      if retryable && job.attempts < job.maxAttempts {
        jobs := jobs[j := job.(status := Pending, token := None, availableAt := now + Backoff(job.attempts))];
        log := log + [Ended(j, token, Retry)];
      } else {
        jobs := jobs[j := job.(status := Failed, token := None)];
        log := log + [Ended(j, token, GiveUp)];
      }
      status := Some(jobs[j].status);
    }
  }
}

/** What each job transaction writes, exactly, and the delay before a retry over every run. */
module JobsExact {
  import opened Options
  import opened Claiming
  import opened AnalysisJobs

  /** Only the row of j differs, among rows, clock and tokens. */
  predicate OnlyJob(q: Queue, to: Queue, j: JobId) {
    && j in to.jobs && to.jobs.Keys == q.jobs.Keys + {j} && (forall k :: k in q.jobs && k != j ==> to.jobs[k] == q.jobs[k])
    && to.now == q.now && to.timeout == q.timeout
  }

  /**
   Enqueueing needs the node, and a limit of at least one for a new row.  A new row
   is PENDING and due at once; a known one is revived whatever its status, with its
   attempts back at zero, its owner gone and its limit and age kept.
   */
  lemma EnqueueExactly(q: Queue, j: JobId, version: nat, maxAttempts: nat, nodeExists: bool)
    ensures Enqueue(q, j, version, maxAttempts, nodeExists).Some? <==> nodeExists && (j in q.jobs || maxAttempts >= 1)
    ensures Enqueue(q, j, version, maxAttempts, nodeExists).Some? ==>
              var to := Enqueue(q, j, version, maxAttempts, nodeExists).value;
              && OnlyJob(q, to, j) && to.used == q.used && to.log == q.log + [Enqueued(j)]
              && var m := to.jobs[j];
              && m.nodeVersion == version && m.status == Pending && m.attempts == 0 && m.token.None? && m.claimedAt.None? && m.availableAt == q.now
              && m.maxAttempts == (if j in q.jobs then q.jobs[j].maxAttempts else maxAttempts)
              && m.createdAt == (if j in q.jobs then q.jobs[j].createdAt else q.now)
  {
  }

  /** PENDING or RUNNING, and due. */
  predicate IsDue(q: Queue, j: JobId) {
    j in q.jobs && (q.jobs[j].status == Pending || q.jobs[j].status == Running) && q.jobs[j].availableAt <= q.now
  }

  /**
   A claim takes exactly one row, the due one that sorts first among those no
   other transaction holds: it is RUNNING under the token from now on, one attempt
   more, and not due again before the timeout.  With no such row nothing changes.
   */
  lemma ClaimExactly(q: Queue, locked: set<JobId>, rows: seq<JobId>, token: Token)
    requires QueueInv(q) && Selected(q, locked, rows)
    ensures (forall j :: IsDue(q, j) ==> j in locked) ==> Claim(q, rows, token) == q
    ensures (exists j :: IsDue(q, j) && j !in locked) ==>
              exists j :: && IsDue(q, j) && j !in locked && ClaimedAs(q, Claim(q, rows, token), j, token)
                          && forall k :: IsDue(q, k) && k !in locked ==> Sooner(q.jobs[j], q.jobs[k])
  {
    assert forall j :: IsDue(q, j) <==> Claimable(q, j);
    ClaimTakesEarliest(q, locked, rows);
    hide QueueInv, Selected, IsDue, Claimable;
    if Pick(q, rows).Some? {
      LeaseExactly(q, Pick(q, rows).value, token);
    }
  }

  predicate Sooner(a: Job, b: Job) {
    a.availableAt < b.availableAt || (a.availableAt == b.availableAt && a.createdAt <= b.createdAt)
  }

  predicate ClaimedAs(q: Queue, to: Queue, j: JobId, token: Token) {
    && j in q.jobs && OnlyJob(q, to, j) && to.used == q.used + {token} && to.log == q.log + [Claimed(j, token, q.now)]
    && var n, m := q.jobs[j], to.jobs[j];
    && m.status == Running && m.attempts == n.attempts + 1 && m.token == Some(token) && m.claimedAt == Some(q.now)
    && m.availableAt == q.now + q.timeout
    && m.nodeVersion == n.nodeVersion && m.maxAttempts == n.maxAttempts && m.createdAt == n.createdAt
  }

  lemma LeaseExactly(q: Queue, j: JobId, token: Token)
    requires j in q.jobs
    ensures ClaimedAs(q, Lease(q, j, token), j, token)
  {
  }

  /** The job is RUNNING under this token. */
  predicate IsOwned(q: Queue, j: JobId, token: Token) {
    j in q.jobs && q.jobs[j].status == Running && q.jobs[j].token == Some(token)
  }

  /** Completion by the owner: SUCCEEDED without an owner, everything else kept.  By anybody else: nothing. */
  lemma CompleteExactly(q: Queue, j: JobId, token: Token)
    ensures !IsOwned(q, j, token) ==> Complete(q, j, token) == q
    ensures IsOwned(q, j, token) ==>
              var to := Complete(q, j, token);
              && OnlyJob(q, to, j) && to.used == q.used && to.log == q.log + [Ended(j, token, Success)]
              && to.jobs[j] == q.jobs[j].(status := Succeeded, token := None)
  {
  }

  /**
   A failure reported by the owner: PENDING again, due after the delay for the
   attempts made, exactly when it is retryable and attempts are left; otherwise
   FAILED.  Attempts are kept, the owner is gone.  By anybody else: nothing.
   */
  lemma FailExactly(q: Queue, j: JobId, token: Token, retryable: bool)
    ensures !IsOwned(q, j, token) ==> Fail(q, j, token, retryable) == q
    ensures IsOwned(q, j, token) ==>
              var to := Fail(q, j, token, retryable);
              var again := retryable && q.jobs[j].attempts < q.jobs[j].maxAttempts;
              && OnlyJob(q, to, j) && to.used == q.used && to.log == q.log + [Ended(j, token, if again then Retry else GiveUp)]
              && var n, m := q.jobs[j], to.jobs[j];
              && m.status == (if again then Pending else Failed) && m.token.None?
              && m.availableAt == (if again then q.now + Backoff(n.attempts) else n.availableAt)
              && m.attempts == n.attempts && m.maxAttempts == n.maxAttempts && m.nodeVersion == n.nodeVersion
              && m.claimedAt == n.claimedAt && m.createdAt == n.createdAt
  {
  }

  // ----- the delay over runs -----

  ghost predicate EnqueuedSince(log: seq<Entry>, base: nat, j: JobId, n: nat) {
    exists m :: base <= m < n && m < |log| && log[m] == Enqueued(j)
  }

  /** Since `base`, j was not claimed before `until` unless it was enqueued anew first. */
  ghost predicate DelayKept(log: seq<Entry>, base: nat, j: JobId, until: int) {
    forall n :: base <= n < |log| && log[n].Claimed? && log[n].job == j && log[n].at < until ==> EnqueuedSince(log, base, j, n)
  }

  /** The delay is still running, or over. */
  ghost predicate Delayed(q: Queue, base: nat, j: JobId, until: int) {
    || q.now >= until
    || EnqueuedSince(q.log, base, j, |q.log|)
    || (j in q.jobs && q.jobs[j].status == Pending && q.jobs[j].availableAt >= until)
  }

  lemma DelaySnoc(log: seq<Entry>, e: Entry, base: nat, j: JobId, until: int)
    requires DelayKept(log, base, j, until) && base <= |log|
    requires e.Claimed? && e.job == j && e.at < until ==> EnqueuedSince(log, base, j, |log|)
    ensures DelayKept(log + [e], base, j, until)
    ensures EnqueuedSince(log, base, j, |log|) || e == Enqueued(j) ==> EnqueuedSince(log + [e], base, j, |log| + 1)
  {
    var to := log + [e];
    forall n | base <= n < |to| && to[n].Claimed? && to[n].job == j && to[n].at < until
      ensures EnqueuedSince(to, base, j, n)
    {
      if n < |log| {
        assert EnqueuedSince(log, base, j, n);
        var m :| base <= m < n && m < |log| && log[m] == Enqueued(j);
        assert to[m] == Enqueued(j);
      } else {
        var m :| base <= m < |log| && log[m] == Enqueued(j);
        assert to[m] == Enqueued(j);
      }
    }
    if EnqueuedSince(log, base, j, |log|) {
      var m :| base <= m < |log| && log[m] == Enqueued(j);
      assert to[m] == Enqueued(j);
    } else if e == Enqueued(j) {
      assert to[|log|] == e;
    }
  }

  lemma DelayStep(q: Queue, step: Step, base: nat, j: JobId, until: int)
    requires QueueInv(q) && Possible(q, step) && base <= |q.log| && DelayKept(q.log, base, j, until) && Delayed(q, base, j, until)
    ensures base <= |Do(q, step).log| && DelayKept(Do(q, step).log, base, j, until) && Delayed(Do(q, step), base, j, until)
  {
    hide QueueInv, DelayKept, EnqueuedSince;
    match step
    case EnqueueStep(k, version, maxAttempts, nodeExists) =>
      DelaySnoc(q.log, Enqueued(k), base, j, until);
    case ClaimStep(locked, rows, token) =>
      if Pick(q, rows).Some? {
        ClaimTakesEarliest(q, locked, rows);
        DelaySnoc(q.log, Claimed(Pick(q, rows).value, token, q.now), base, j, until);
      }
    case CompleteStep(k, token) =>
      DelaySnoc(q.log, Ended(k, token, Success), base, j, until);
    case FailStep(k, token, retryable) =>
      DelaySnoc(q.log, Ended(k, token, Retry), base, j, until);
      DelaySnoc(q.log, Ended(k, token, GiveUp), base, j, until);
    case Wait(_) =>
  }

  lemma {:induction false} DelayRun(q: Queue, steps: seq<Step>, base: nat, j: JobId, until: int)
    requires QueueInv(q) && PossibleRun(q, steps) && base <= |q.log| && DelayKept(q.log, base, j, until) && Delayed(q, base, j, until)
    ensures DelayKept(Run(q, steps).log, base, j, until)
    decreases |steps|
  {
    hide QueueInv, Do, Possible, DelayKept, Delayed;
    if steps != [] {
      DoKeeps(q, steps[0]);
      DelayStep(q, steps[0], base, j, until);
      DelayRun(Do(q, steps[0]), steps[1..], base, j, until);
    }
  }

  /** After a failure that is to be retried, whatever the workers do, the job is not claimed before its delay has passed, unless it is enqueued anew. */
  lemma DelayHonoured(q: Queue, j: JobId, token: Token, steps: seq<Step>)
    requires QueueInv(q) && IsOwned(q, j, token) && q.jobs[j].attempts < q.jobs[j].maxAttempts
    requires PossibleRun(Do(q, FailStep(j, token, true)), steps)
    ensures DelayKept(Run(Do(q, FailStep(j, token, true)), steps).log, |q.log| + 1, j, q.now + Backoff(q.jobs[j].attempts))
  {
    var to := Do(q, FailStep(j, token, true));
    DoKeeps(q, FailStep(j, token, true));
    FailExactly(q, j, token, true);
    hide QueueInv, Fail;
    DelayRun(to, steps, |q.log| + 1, j, q.now + Backoff(q.jobs[j].attempts));
  }

  // ----- no job is stranded -----

  /** Every unfinished job is due again within the timeout or the longest delay. */
  ghost predicate SoonDue(q: Queue) {
    forall j :: j in q.jobs && (q.jobs[j].status == Pending || q.jobs[j].status == Running) ==>
      q.jobs[j].availableAt <= q.now + q.timeout || q.jobs[j].availableAt <= q.now + 3600
  }

  lemma StepKeepsSoon(q: Queue, step: Step)
    requires SoonDue(q)
    ensures SoonDue(Do(q, step))
  {
    match step
    case FailStep(j, token, retryable) =>
      if j in q.jobs {
        BackoffBounds(q.jobs[j].attempts, q.jobs[j].attempts);
      }
      hide Backoff;
    case _ =>
  }

  lemma {:induction false} RunKeepsSoon(q: Queue, steps: seq<Step>)
    requires SoonDue(q)
    ensures SoonDue(Run(q, steps)) && Run(q, steps).timeout == q.timeout
    decreases |steps|
  {
    if steps != [] {
      StepKeepsSoon(q, steps[0]);
      RunKeepsSoon(Do(q, steps[0]), steps[1..]);
    }
  }

  /** However workers died, an unfinished job of any run is due once the timeout and the longest delay have passed. */
  lemma NeverStranded(q: Queue, steps: seq<Step>, j: JobId, delta: nat)
    requires q.jobs == map[] && j in Run(q, steps).jobs
    requires Run(q, steps).jobs[j].status != Succeeded && Run(q, steps).jobs[j].status != Failed
    requires delta >= 3600 && delta >= q.timeout
    ensures IsDue(Do(Run(q, steps), Wait(delta)), j)
  {
    RunKeepsSoon(q, steps);
  }
}

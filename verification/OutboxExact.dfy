/** What each relay transaction writes, and the leases and delays that every interleaving of publishers honours. */
module OutboxExact {
  import opened Options
  import opened Claiming
  import opened Outbox

  // ----- one transaction -----

  /** Only the row of e differs, among rows, clock and claims in flight. */
  predicate OnlyEvent(q: Relay, to: Relay, e: EventId) {
    && e in q.rows && to.rows.Keys == q.rows.Keys && (forall f :: f in q.rows && f != e ==> to.rows[f] == q.rows[f])
    && to.now == q.now && to.stall == q.stall && to.flights == q.flights
  }

  /** A staged event waits, due at once, with no attempt made; a known event or a limit below one stages nothing. */
  lemma StageExactly(q: Relay, e: EventId, schema: nat, maxAttempts: nat)
    ensures e in q.rows || maxAttempts < 1 ==> Stage(q, e, schema, maxAttempts) == q
    ensures e !in q.rows && maxAttempts >= 1 ==>
              var to := Stage(q, e, schema, maxAttempts);
              && to == q.(rows := to.rows) && to.rows.Keys == q.rows.Keys + {e} && (forall f :: f in q.rows ==> to.rows[f] == q.rows[f])
              && to.rows[e].schema == schema && to.rows[e].status == Waiting && to.rows[e].attempts == 0 && to.rows[e].maxAttempts == maxAttempts
              && to.rows[e].token.None? && to.rows[e].availableAt == q.now && to.rows[e].createdAt == q.now
  {
  }

  /** A claimed row is PUBLISHING under its token and not due again until the stall time has passed; nothing else about it changes. */
  predicate ClaimedAs(q: Relay, n: Row, m: Row, token: Token) {
    && m.status == Publishing && m.token == Some(token) && m.availableAt == q.now + q.stall
    && m.schema == n.schema && m.attempts == n.attempts && m.maxAttempts == n.maxAttempts && m.createdAt == n.createdAt
  }

  ghost predicate ClaimedRows(q: Relay, to: Relay, events: seq<EventId>, tokens: seq<Token>)
    requires |events| == |tokens| && forall i :: 0 <= i < |events| ==> events[i] in q.rows
  {
    && to.rows.Keys == q.rows.Keys
    && (forall e :: e in q.rows && e !in events ==> to.rows[e] == q.rows[e])
    && (forall i :: 0 <= i < |events| ==> ClaimedAs(q, q.rows[events[i]], to.rows[events[i]], tokens[i]))
  }

  ghost predicate ClaimedFlights(q: Relay, to: Relay, events: seq<EventId>, tokens: seq<Token>)
    requires |events| == |tokens|
  {
    && (forall t :: t in to.flights <==> t in q.flights || t in tokens)
    && (forall t :: t in q.flights && t !in tokens ==> to.flights[t] == q.flights[t])
    && (forall i :: 0 <= i < |tokens| ==> tokens[i] in to.flights && to.flights[tokens[i]] == Flight(events[i], None))
  }

  /** A batch claim takes exactly its events, each under its own token, and leaves every other row, the clock and the history alone. */
  lemma {:induction false} ClaimExactly(q: Relay, events: seq<EventId>, tokens: seq<Token>)
    requires |events| == |tokens| && forall i :: 0 <= i < |events| ==> events[i] in q.rows
    requires NoTwice(events) && NoTwice(tokens)
    ensures var to := ClaimBatch(q, events, tokens);
            && to.now == q.now && to.stall == q.stall && to.history == q.history
            && ClaimedRows(q, to, events, tokens) && ClaimedFlights(q, to, events, tokens)
    decreases |events|
  {
    if events != [] {
      hide ClaimedRows, ClaimedFlights, NoTwice, ClaimOne;
      var n := |events| - 1;
      var es, ts := events[..n], tokens[..n];
      LastIsNew(events);
      LastIsNew(tokens);
      ClaimExactly(q, es, ts);
      ClaimOneFrame(ClaimBatch(q, es, ts), events[n], tokens[n]);
      ClaimLastRow(q, ClaimBatch(q, es, ts), es, ts, events[n], tokens[n]);
      ClaimLastFlight(q, ClaimBatch(q, es, ts), es, ts, events[n], tokens[n]);
    }
  }

  ghost predicate NoTwice(s: seq<nat>) {
    forall i, k :: 0 <= i < k < |s| ==> s[i] != s[k]
  }

  lemma LastIsNew(s: seq<nat>)
    requires s != [] && NoTwice(s)
    ensures s == s[..|s| - 1] + [s[|s| - 1]] && NoTwice(s[..|s| - 1]) && s[|s| - 1] !in s[..|s| - 1]
  {
  }

  lemma ClaimOneFrame(q: Relay, e: EventId, token: Token)
    requires e in q.rows
    ensures ClaimOne(q, e, token).now == q.now && ClaimOne(q, e, token).stall == q.stall && ClaimOne(q, e, token).history == q.history
  {
  }

  lemma ClaimLastRow(q: Relay, m: Relay, es: seq<EventId>, ts: seq<Token>, e: EventId, t: Token)
    requires |es| == |ts| && e in q.rows && e !in es && forall i :: 0 <= i < |es| ==> es[i] in q.rows
    requires m.now == q.now && m.stall == q.stall && ClaimedRows(q, m, es, ts)
    ensures ClaimedRows(q, ClaimOne(m, e, t), es + [e], ts + [t])
  {
    var to, events, tokens := ClaimOne(m, e, t), es + [e], ts + [t];
    assert ClaimedAs(q, q.rows[e], to.rows[e], t);
    hide ClaimedAs;
    forall i | 0 <= i < |events|
      ensures ClaimedAs(q, q.rows[events[i]], to.rows[events[i]], tokens[i])
    {
      assert i < |es| ==> events[i] == es[i] && tokens[i] == ts[i] && es[i] in es;
    }
  }

  lemma ClaimLastFlight(q: Relay, m: Relay, es: seq<EventId>, ts: seq<Token>, e: EventId, t: Token)
    requires |es| == |ts| && e in m.rows && t !in ts && ClaimedFlights(q, m, es, ts)
    ensures ClaimedFlights(q, ClaimOne(m, e, t), es + [e], ts + [t])
  {
    var to, events, tokens := ClaimOne(m, e, t), es + [e], ts + [t];
    forall i | 0 <= i < |tokens|
      ensures tokens[i] in to.flights && to.flights[tokens[i]] == Flight(events[i], None)
    {
      assert i < |ts| ==> tokens[i] == ts[i] && events[i] == es[i] && ts[i] in ts;
    }
  }

  /** Unsettled, due by now and of a wanted schema. */
  predicate IsDue(q: Relay, schemas: Option<set<nat>>, e: EventId) {
    && e in q.rows && q.rows[e].status != Published && q.rows[e].status != Dead && q.rows[e].availableAt <= q.now
    && (schemas.None? || q.rows[e].schema in schemas.value)
  }

  predicate Later(a: Row, b: Row) {
    a.availableAt > b.availableAt || (a.availableAt == b.availableAt && a.createdAt > b.createdAt)
  }

  /** A batch takes due, unlocked events only, none twice, in order of due time and age; it leaves one out only when it is full, and then nothing later. */
  lemma BatchExactly(q: Relay, step: Step, e: EventId)
    requires step.ClaimStep? && Possible(q, step)
    ensures |step.events| <= step.limit && NoTwice(step.events)
    ensures e in step.events ==> IsDue(q, step.schemas, e) && e !in step.locked
    ensures forall i, k :: 0 <= i < k < |step.events| ==>
              step.events[i] in q.rows && step.events[k] in q.rows && !Later(q.rows[step.events[i]], q.rows[step.events[k]])
    ensures IsDue(q, step.schemas, e) && e !in step.locked && e !in step.events ==>
              |step.events| == step.limit && forall i :: 0 <= i < |step.events| ==>
                step.events[i] in q.rows && !Later(q.rows[step.events[i]], q.rows[e])
  {
    assert Due(q, step.schemas, e) <==> IsDue(q, step.schemas, e);
    assert forall i :: 0 <= i < |step.events| ==> Due(q, step.schemas, step.events[i]);
    assert forall a: Row, b: Row :: Earlier(a, b) <==> !Later(a, b);
    hide Due, IsDue, Earlier, Later;
  }

  /** A claim is held: the row is PUBLISHING under this token. */
  predicate IsHeld(q: Relay, e: EventId, token: Token) {
    e in q.rows && q.rows[e].status == Publishing && q.rows[e].token == Some(token)
  }

  /** A success under a held claim publishes the row for good and counts the attempt; without the claim nothing changes. */
  lemma SuccessExactly(q: Relay, e: EventId, token: Token)
    ensures !IsHeld(q, e, token) ==> RecordSuccess(q, e, token) == q
    ensures IsHeld(q, e, token) ==>
              var to := RecordSuccess(q, e, token);
              && OnlyEvent(q, to, e) && to.history == q.history + [Recorded(e, token, Sent)]
              && to.rows[e] == q.rows[e].(status := Published, token := None, attempts := q.rows[e].attempts + 1)
  {
  }

  /**
   A failure under a held claim counts the attempt; the row is DEAD exactly when
   that reaches its limit, and otherwise waits, due after the delay for that many
   attempts.  Without the claim nothing changes.
   */
  lemma FailureExactly(q: Relay, e: EventId, token: Token)
    ensures !IsHeld(q, e, token) ==> RecordFailure(q, e, token) == q
    ensures IsHeld(q, e, token) ==>
              var to := RecordFailure(q, e, token);
              && OnlyEvent(q, to, e)
              && var n, m := q.rows[e], to.rows[e];
              && m.attempts == n.attempts + 1 && m.token.None?
              && m.schema == n.schema && m.maxAttempts == n.maxAttempts && m.createdAt == n.createdAt
              && if m.attempts >= n.maxAttempts then
                   m.status == Dead && m.availableAt == n.availableAt && to.history == q.history + [Recorded(e, token, Killed)]
                 else m.status == Waiting && m.availableAt == q.now + Backoff(m.attempts) && to.history == q.history + [Recorded(e, token, Missed)]
  {
  }

  // ----- the trace of a run -----

  /** A claim of an event or a recorded outcome for it, with its time. */
  datatype Mark = Claimed(event: EventId, token: Token, at: int) | Ended(event: EventId, at: int)

  function ClaimMarks(now: int, events: seq<EventId>, tokens: seq<Token>): seq<Mark>
    requires |events| == |tokens|
  {
    seq(|events|, i requires 0 <= i < |events| => Claimed(events[i], tokens[i], now))
  }

  function StepMarks(q: Relay, step: Step): seq<Mark>
    requires Possible(q, step)
  {
    match step
    case ClaimStep(_, _, _, events, tokens) => ClaimMarks(q.now, events, tokens)
    case RecordStep(token) =>
      var to := Do(q, step);
      if |to.history| > |q.history| && to.history[|q.history|].Recorded? then [Ended(to.history[|q.history|].event, q.now)] else []
    case _ => []
  }

  /** Everything claimed and recorded in a run, in order. */
  function Trace(q: Relay, steps: seq<Step>): seq<Mark>
    requires PossibleRun(q, steps)
    decreases |steps|
  {
    if steps == [] then [] else StepMarks(q, steps[0]) + Trace(Do(q, steps[0]), steps[1..])
  }

  predicate ClaimOf(m: Mark, e: EventId) {
    m.Claimed? && m.event == e
  }

  predicate EndOf(m: Mark, e: EventId) {
    m.Ended? && m.event == e
  }

  ghost predicate EndedBefore(t: seq<Mark>, e: EventId, k: nat) {
    exists j :: 0 <= j < k && j < |t| && EndOf(t[j], e)
  }

  /** No claim of e before `until`, unless an outcome was recorded for e first. */
  ghost predicate NotClaimedBefore(t: seq<Mark>, e: EventId, until: int) {
    forall k :: 0 <= k < |t| && ClaimOf(t[k], e) && t[k].at < until ==> EndedBefore(t, e, k)
  }

  /** The row is not due before `until`. */
  predicate Leased(q: Relay, e: EventId, until: int) {
    e in q.rows && (q.rows[e].status == Publishing || q.rows[e].status == Waiting) ==> q.rows[e].availableAt >= until
  }

  lemma TimesRise(q: Relay, step: Step)
    requires Possible(q, step)
    ensures Do(q, step).now >= q.now && forall k :: 0 <= k < |StepMarks(q, step)| ==> StepMarks(q, step)[k].at == q.now
  {
    if step.ClaimStep? {
      ClaimBatchNow(q, step.events, step.tokens);
    }
  }

  lemma {:induction false} ClaimBatchNow(q: Relay, events: seq<EventId>, tokens: seq<Token>)
    requires |events| == |tokens| && forall i :: 0 <= i < |events| ==> events[i] in q.rows
    ensures ClaimBatch(q, events, tokens).now == q.now
    decreases |events|
  {
    if events != [] {
      ClaimBatchNow(q, events[..|events| - 1], tokens[..|events| - 1]);
    }
  }

  lemma {:induction false} TraceTimes(q: Relay, steps: seq<Step>)
    requires PossibleRun(q, steps)
    ensures forall k :: 0 <= k < |Trace(q, steps)| ==> Trace(q, steps)[k].at >= q.now
    decreases |steps|
  {
    hide Do, Possible, StepMarks;
    if steps != [] {
      TimesRise(q, steps[0]);
      TraceTimes(Do(q, steps[0]), steps[1..]);
    }
  }

  lemma ClaimTakesDue(q: Relay, step: Step, e: EventId)
    requires step.ClaimStep? && Possible(q, step)
    ensures e in step.events ==> Due(q, step.schemas, e)
  {
  }

  /** One step either leaves the lease on e in place, or ends it by an outcome, or comes after it. */
  lemma StepLease(q: Relay, step: Step, e: EventId, until: int)
    requires RelayInv(q) && Possible(q, step) && e in q.rows && Leased(q, e, until) && q.now < until
    ensures e in Do(q, step).rows
    ensures forall k :: 0 <= k < |StepMarks(q, step)| ==> !ClaimOf(StepMarks(q, step)[k], e)
    ensures Leased(Do(q, step), e, until) || (|StepMarks(q, step)| == 1 && EndOf(StepMarks(q, step)[0], e))
  {
    match step
    case ClaimStep(_, _, _, events, tokens) =>
      ClaimTakesDue(q, step, e);
      PossibleClaim(q, step);
      ClaimBatchRows(q, events, tokens);
    case RecordStep(token) =>
    case DeliverStep(_, _) =>
    case StageStep(_, _, _) =>
    case Wait(_) =>
  }

  lemma NotClaimedAppend(a: seq<Mark>, b: seq<Mark>, e: EventId, until: int)
    requires forall k :: 0 <= k < |a| ==> !ClaimOf(a[k], e)
    requires NotClaimedBefore(b, e, until) || (|a| == 1 && EndOf(a[0], e)) || forall k :: 0 <= k < |b| ==> b[k].at >= until
    ensures NotClaimedBefore(a + b, e, until)
  {
    var t := a + b;
    forall k | 0 <= k < |t| && ClaimOf(t[k], e) && t[k].at < until
      ensures EndedBefore(t, e, k)
    {
      assert k >= |a| && t[k] == b[k - |a|];
      if NotClaimedBefore(b, e, until) {
        assert EndedBefore(b, e, k - |a|);
        var j :| 0 <= j < k - |a| && j < |b| && EndOf(b[j], e);
        assert EndOf(t[|a| + j], e);
      } else if |a| == 1 && EndOf(a[0], e) {
        assert EndOf(t[0], e);
      }
    }
  }

  lemma LateMarks(t: seq<Mark>, e: EventId, until: int)
    requires forall k :: 0 <= k < |t| ==> t[k].at >= until
    ensures NotClaimedBefore(t, e, until)
  {
  }

  lemma {:induction false} LeaseKept(q: Relay, steps: seq<Step>, e: EventId, until: int)
    requires RelayInv(q) && PossibleRun(q, steps) && e in q.rows && Leased(q, e, until)
    ensures NotClaimedBefore(Trace(q, steps), e, until)
    decreases |steps|
  {
    hide RelayInv, Do, Possible, StepMarks, Leased, NotClaimedBefore;
    TraceTimes(q, steps);
    if q.now >= until || steps == [] {
      LateMarks(Trace(q, steps), e, until);
    } else {
      var m := Do(q, steps[0]);
      StepLease(q, steps[0], e, until);
      DoKeeps(q, steps[0]);
      if Leased(m, e, until) {
        LeaseKept(m, steps[1..], e, until);
      }
      NotClaimedAppend(StepMarks(q, steps[0]), Trace(m, steps[1..]), e, until);
    }
  }

  /**
   A claim is a lease: whatever all publishers do afterwards, the event is not
   claimed again before the stall time has passed, unless an outcome was recorded
   for it in between.
   */
  lemma LeaseHonoured(q: Relay, claim: Step, steps: seq<Step>, e: EventId)
    requires RelayInv(q) && claim.ClaimStep? && Possible(q, claim) && e in claim.events && PossibleRun(Do(q, claim), steps)
    ensures NotClaimedBefore(Trace(Do(q, claim), steps), e, q.now + q.stall)
  {
    DoKeeps(q, claim);
    PossibleClaim(q, claim);
    ClaimExactly(q, claim.events, claim.tokens);
    var i :| 0 <= i < |claim.events| && claim.events[i] == e;
    hide RelayInv, Possible, Trace;
    LeaseKept(Do(q, claim), steps, e, q.now + q.stall);
  }

  /** After a failure that is to be retried the event is not claimed before its delay has passed. */
  lemma DelayHonoured(q: Relay, e: EventId, token: Token, steps: seq<Step>)
    requires RelayInv(q) && IsHeld(q, e, token) && RelayInv(RecordFailure(q, e, token)) && PossibleRun(RecordFailure(q, e, token), steps)
    requires q.rows[e].attempts + 1 < q.rows[e].maxAttempts
    ensures forall k :: 0 <= k < |Trace(RecordFailure(q, e, token), steps)| && ClaimOf(Trace(RecordFailure(q, e, token), steps)[k], e)
              ==> Trace(RecordFailure(q, e, token), steps)[k].at >= q.now + Backoff(q.rows[e].attempts + 1)
  {
    FailureExactly(q, e, token);
    var to := RecordFailure(q, e, token);
    var until := q.now + Backoff(q.rows[e].attempts + 1);
    hide RelayInv, Trace, RecordFailure;
    WaitingLease(to, steps, e, until);
  }

  /** While a row waits, no outcome can come before a claim. */
  lemma WaitingStep(q: Relay, step: Step, e: EventId, until: int)
    requires RelayInv(q) && Possible(q, step) && e in q.rows && q.rows[e].status == Waiting && q.rows[e].availableAt >= until && q.now < until
    ensures e in Do(q, step).rows && Do(q, step).rows[e] == q.rows[e]
    ensures forall k :: 0 <= k < |StepMarks(q, step)| ==> !ClaimOf(StepMarks(q, step)[k], e)
  {
    match step
    case ClaimStep(_, _, _, events, tokens) =>
      ClaimTakesDue(q, step, e);
      PossibleClaim(q, step);
      ClaimBatchRows(q, events, tokens);
    case RecordStep(token) =>
    case DeliverStep(_, _) =>
    case StageStep(_, _, _) =>
    case Wait(_) =>
  }

  lemma {:induction false} WaitingLease(q: Relay, steps: seq<Step>, e: EventId, until: int)
    requires RelayInv(q) && PossibleRun(q, steps) && e in q.rows && q.rows[e].status == Waiting && q.rows[e].availableAt >= until
    ensures forall k :: 0 <= k < |Trace(q, steps)| && ClaimOf(Trace(q, steps)[k], e) ==> Trace(q, steps)[k].at >= until
    decreases |steps|
  {
    hide RelayInv, Do, Possible, StepMarks;
    TraceTimes(q, steps);
    if q.now < until && steps != [] {
      WaitingStep(q, steps[0], e, until);
      DoKeeps(q, steps[0]);
      WaitingLease(Do(q, steps[0]), steps[1..], e, until);
    }
  }

  lemma DoKeepsStall(q: Relay, step: Step)
    requires Possible(q, step)
    ensures Do(q, step).stall == q.stall
  {
    if step.ClaimStep? {
      ClaimBatchStall(q, step.events, step.tokens);
    }
  }

  lemma ClaimMarksDiffer(q: Relay, step: Step, i: nat, k: nat)
    requires Possible(q, step) && i < k < |StepMarks(q, step)| && StepMarks(q, step)[i].Claimed? && StepMarks(q, step)[k].Claimed?
    ensures StepMarks(q, step)[i].event != StepMarks(q, step)[k].event
  {
  }

  lemma MarkIsClaim(q: Relay, step: Step, i: nat)
    requires Possible(q, step) && i < |StepMarks(q, step)| && StepMarks(q, step)[i].Claimed?
    ensures step.ClaimStep? && StepMarks(q, step)[i].event in step.events && StepMarks(q, step)[i].at == q.now
  {
  }

  /** In every run, two claims of one event with no recorded outcome between them are at least the stall time apart. */
  lemma {:induction false} LeasesApart(q: Relay, steps: seq<Step>, e: EventId, i: nat, k: nat)
    requires RelayInv(q) && PossibleRun(q, steps) && i < k < |Trace(q, steps)|
    requires ClaimOf(Trace(q, steps)[i], e) && ClaimOf(Trace(q, steps)[k], e)
    requires forall j :: i < j < k ==> !EndOf(Trace(q, steps)[j], e)
    ensures Trace(q, steps)[k].at >= Trace(q, steps)[i].at + q.stall
    decreases |steps|
  {
    hide RelayInv, Do, Possible, StepMarks, NotClaimedBefore, EndOf;
    var m, rest := StepMarks(q, steps[0]), Trace(Do(q, steps[0]), steps[1..]);
    var t := Trace(q, steps);
    assert t == m + rest;
    DoKeeps(q, steps[0]);
    DoKeepsStall(q, steps[0]);
    if i >= |m| {
      NoEndInTail(m, rest, e, i, k);
      LeasesApart(Do(q, steps[0]), steps[1..], e, i - |m|, k - |m|);
    } else {
      assert t[i] == m[i];
      MarkIsClaim(q, steps[0], i);
      if k < |m| {
        assert t[k] == m[k];
        ClaimMarksDiffer(q, steps[0], i, k);
      } else {
        LeaseHonoured(q, steps[0], steps[1..], e);
        assert rest[k - |m|] == t[k];
        NoEndBetween(m, rest, e, i, k, q.now + q.stall);
      }
    }
  }

  lemma NoEndInTail(m: seq<Mark>, rest: seq<Mark>, e: EventId, i: nat, k: nat)
    requires |m| <= i < k < |m + rest| && forall j :: i < j < k ==> !EndOf((m + rest)[j], e)
    ensures rest[i - |m|] == (m + rest)[i] && rest[k - |m|] == (m + rest)[k]
    ensures forall j :: i - |m| < j < k - |m| ==> !EndOf(rest[j], e)
  {
    forall j | i - |m| < j < k - |m|
      ensures !EndOf(rest[j], e)
    {
      assert (m + rest)[|m| + j] == rest[j];
    }
  }

  lemma NoEndBetween(m: seq<Mark>, rest: seq<Mark>, e: EventId, i: nat, k: nat, until: int)
    requires NotClaimedBefore(rest, e, until) && i < |m| <= k < |m + rest| && ClaimOf((m + rest)[k], e)
    requires forall j :: i < j < k ==> !EndOf((m + rest)[j], e)
    ensures (m + rest)[k].at >= until
  {
    var t := m + rest;
    var c := k - |m|;
    assert rest[c] == t[k];
    forall j | 0 <= j < c
      ensures !EndOf(rest[j], e)
    {
      assert t[|m| + j] == rest[j];
    }
  }

  // ----- no event is stranded -----

  predicate Unsettled(row: Row) {
    row.status == Waiting || row.status == Publishing
  }

  /** Every unsettled row is due again within the stall time or the longest delay. */
  ghost predicate SoonDue(q: Relay) {
    forall e :: e in q.rows && Unsettled(q.rows[e]) ==> DueSoon(q, q.rows[e])
  }

  predicate DueSoon(q: Relay, row: Row) {
    row.availableAt <= q.now + q.stall || row.availableAt <= q.now + 3600
  }

  lemma ClaimKeepsSoon(q: Relay, events: seq<EventId>, tokens: seq<Token>)
    requires SoonDue(q) && |events| == |tokens| && (forall i :: 0 <= i < |events| ==> events[i] in q.rows) && NoTwice(events) && NoTwice(tokens)
    ensures SoonDue(ClaimBatch(q, events, tokens))
  {
    ClaimExactly(q, events, tokens);
    var to := ClaimBatch(q, events, tokens);
    hide ClaimBatch, NoTwice;
    forall e | e in to.rows && Unsettled(to.rows[e])
      ensures DueSoon(to, to.rows[e])
    {
      if e in events {
        var i :| 0 <= i < |events| && events[i] == e;
        assert ClaimedAs(q, q.rows[events[i]], to.rows[events[i]], tokens[i]);
      }
    }
  }

  lemma NoteKeepsSoon(q: Relay, token: Token)
    requires SoonDue(q)
    ensures SoonDue(Note(q, token))
  {
    if token in q.flights && q.flights[token].event in q.rows {
      BackoffBounds(q.rows[q.flights[token].event].attempts + 1, q.rows[q.flights[token].event].attempts + 1);
    }
    hide Backoff;
  }

  lemma StepKeepsSoon(q: Relay, step: Step)
    requires RelayInv(q) && Possible(q, step) && SoonDue(q)
    ensures SoonDue(Do(q, step))
  {
    hide RelayInv, ClaimBatch, Note;
    match step
    case ClaimStep(_, _, _, events, tokens) =>
      PossibleClaim(q, step);
      assert NoTwice(events) && NoTwice(tokens);
      ClaimKeepsSoon(q, events, tokens);
    case RecordStep(token) => NoteKeepsSoon(q, token);
    case DeliverStep(_, _) =>
    case StageStep(_, _, _) =>
    case Wait(_) =>
  }

  lemma {:induction false} RunKeepsSoon(q: Relay, steps: seq<Step>)
    requires RelayInv(q) && PossibleRun(q, steps) && SoonDue(q)
    ensures SoonDue(Run(q, steps))
    decreases |steps|
  {
    hide RelayInv, Do, Possible, SoonDue;
    if steps != [] {
      DoKeeps(q, steps[0]);
      StepKeepsSoon(q, steps[0]);
      RunKeepsSoon(Do(q, steps[0]), steps[1..]);
    }
  }

  /** However publishers died, an unsettled event of any run is due once the stall time and the longest delay have passed. */
  lemma NeverStranded(q: Relay, steps: seq<Step>, e: EventId, delta: nat)
    requires q.rows == map[] && q.flights == map[] && q.history == [] && PossibleRun(q, steps)
    requires e in Run(q, steps).rows && Run(q, steps).rows[e].status != Published && Run(q, steps).rows[e].status != Dead
    requires delta >= 3600 && delta >= q.stall
    ensures Due(Do(Run(q, steps), Wait(delta)), None, e)
  {
    RunKeepsSoon(q, steps);
    RunKeepsStall(q, steps);
  }
}

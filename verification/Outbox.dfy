/**
 The outbox relay.  Any number of publishers claim batches, hand events to the
 transport and record the outcome under their claim token; each may be slow or
 die anywhere in between.
 */
module Outbox {
  import opened Options
  import opened Claiming

  type EventId = nat

  datatype RowStatus = Waiting | Publishing | Published | Dead

  datatype Row = Row(
    schema: nat,
    status: RowStatus,
    attempts: nat,
    maxAttempts: nat,
    token: Option<Token>,
    availableAt: int,
    createdAt: int)

  datatype Verdict = Sent | Missed | Killed

  datatype Record = Accepted(event: EventId, token: Token) | Recorded(event: EventId, token: Token, verdict: Verdict)

  // What a publisher holds in memory for one claim: the event and the transport's answer so far.
  datatype Flight = Flight(event: EventId, answer: Option<bool>)

  // `flights` and `history` are not stored by the code.
  datatype Relay = Relay(
    rows: map<EventId, Row>, now: int, stall: nat, flights: map<Token, Flight>, history: seq<Record>)

  // ----- transactions -----

  function Stage(q: Relay, e: EventId, schema: nat, maxAttempts: nat): Relay {
    if e in q.rows || maxAttempts < 1 then q
    else q.(rows := q.rows[e := Row(schema, Waiting, 0, maxAttempts, None, q.now, q.now)])
  }

  predicate Due(q: Relay, schemas: Option<set<nat>>, e: EventId) {
    && e in q.rows && (q.rows[e].status == Waiting || q.rows[e].status == Publishing) && q.rows[e].availableAt <= q.now
    && (schemas.Some? ==> q.rows[e].schema in schemas.value)
  }

  predicate Earlier(a: Row, b: Row) {
    a.availableAt < b.availableAt || (a.availableAt == b.availableAt && a.createdAt <= b.createdAt)
  }

  ghost predicate Batch(q: Relay, schemas: Option<set<nat>>, locked: set<EventId>, limit: nat, events: seq<EventId>) {
    && |events| <= limit
    && (forall i :: 0 <= i < |events| ==> Due(q, schemas, events[i]) && events[i] !in locked)
    && (forall i, k :: 0 <= i < k < |events| ==> events[i] != events[k] && Earlier(q.rows[events[i]], q.rows[events[k]]))
    && (forall e :: Due(q, schemas, e) && e !in locked && e !in events ==>
          |events| == limit && forall i :: 0 <= i < |events| ==> Earlier(q.rows[events[i]], q.rows[e]))
  }

  function ClaimOne(q: Relay, e: EventId, token: Token): Relay
    requires e in q.rows
  {
    q.(rows := q.rows[e := q.rows[e].(status := Publishing, token := Some(token), availableAt := q.now + q.stall)],
       flights := q.flights[token := Flight(e, None)])
  }

  function ClaimBatch(q: Relay, events: seq<EventId>, tokens: seq<Token>): (r: Relay)
    requires |events| == |tokens| && forall i :: 0 <= i < |events| ==> events[i] in q.rows
    ensures r.rows.Keys == q.rows.Keys
    decreases |events|
  {
    if events == [] then q
    else
      var n := |events| - 1;
      ClaimOne(ClaimBatch(q, events[..n], tokens[..n]), events[n], tokens[n])
  }

  /** The transport answers the publisher holding `token`. */
  function Deliver(q: Relay, token: Token, accepted: bool): Relay {
    if token !in q.flights then q
    else
      var f := q.flights[token];
      q.(flights := q.flights[token := f.(answer := Some(accepted))],
         history := if accepted then q.history + [Accepted(f.event, token)] else q.history)
  }

  predicate Holds(q: Relay, e: EventId, token: Token) {
    e in q.rows && q.rows[e].status == Publishing && q.rows[e].token == Some(token)
  }

  function RecordSuccess(q: Relay, e: EventId, token: Token): Relay {
    if !Holds(q, e, token) then q
    else
      q.(rows := q.rows[e := q.rows[e].(status := Published, token := None, attempts := q.rows[e].attempts + 1)],
         history := q.history + [Recorded(e, token, Sent)])
  }

  function RecordFailure(q: Relay, e: EventId, token: Token): Relay {
    if !Holds(q, e, token) then q
    else
      var row := q.rows[e];
      if row.attempts + 1 >= row.maxAttempts then
        q.(rows := q.rows[e := row.(status := Dead, token := None, attempts := row.attempts + 1)],
           history := q.history + [Recorded(e, token, Killed)])
      else
        q.(rows := q.rows[e := row.(status := Waiting, token := None, attempts := row.attempts + 1,
                                    availableAt := q.now + Backoff(row.attempts + 1))],
           history := q.history + [Recorded(e, token, Missed)])
  }

  datatype Step =
    | StageStep(event: EventId, schema: nat, maxAttempts: nat)
    | ClaimStep(schemas: Option<set<nat>>, locked: set<EventId>, limit: nat, events: seq<EventId>, tokens: seq<Token>)
    | DeliverStep(token: Token, accepted: bool)
    | RecordStep(token: Token)
    | Wait(delta: nat)

  /** A publisher records what the transport told it; without an answer it has nothing to record. */
  function Note(q: Relay, token: Token): Relay {
    if token !in q.flights || q.flights[token].answer.None? then q
    else if q.flights[token].answer.value then RecordSuccess(q, q.flights[token].event, token)
    else RecordFailure(q, q.flights[token].event, token)
  }

  ghost predicate Possible(q: Relay, step: Step) {
    step.ClaimStep? ==>
      && Batch(q, step.schemas, step.locked, step.limit, step.events)
      && |step.tokens| == |step.events|
      && (forall i :: 0 <= i < |step.tokens| ==> step.tokens[i] !in q.flights)
      && (forall i, k :: 0 <= i < k < |step.tokens| ==> step.tokens[i] != step.tokens[k])
  }

  function Do(q: Relay, step: Step): Relay
    requires Possible(q, step)
  {
    match step
    case StageStep(e, schema, maxAttempts) => Stage(q, e, schema, maxAttempts)
    case ClaimStep(_, _, _, events, tokens) => ClaimBatch(q, events, tokens)
    case DeliverStep(token, accepted) => Deliver(q, token, accepted)
    case RecordStep(token) => Note(q, token)
    case Wait(delta) => q.(now := q.now + delta)
  }

  ghost predicate PossibleRun(q: Relay, steps: seq<Step>)
    decreases |steps|
  {
    steps == [] || (Possible(q, steps[0]) && PossibleRun(Do(q, steps[0]), steps[1..]))
  }

  function Run(q: Relay, steps: seq<Step>): Relay
    requires PossibleRun(q, steps)
    decreases |steps|
  {
    if steps == [] then q else Run(Do(q, steps[0]), steps[1..])
  }

  // ----- the invariant -----

  ghost predicate WasAccepted(history: seq<Record>, e: EventId) {
    exists i :: 0 <= i < |history| && history[i].Accepted? && history[i].event == e
  }

  predicate FailureOf(r: Record, e: EventId) {
    r.Recorded? && r.event == e && r.verdict != Sent
  }

  function Failures(history: seq<Record>, e: EventId): nat {
    if history == [] then 0
    else Failures(history[..|history| - 1], e) + (if FailureOf(history[|history| - 1], e) then 1 else 0)
  }

  ghost predicate RowOk(q: Relay, e: EventId)
    requires e in q.rows
  {
    var row := q.rows[e];
    && row.maxAttempts >= 1
    && (row.status == Publishing <==> row.token.Some?)
    && (row.token.Some? ==> row.token.value in q.flights && q.flights[row.token.value].event == e)
    && match row.status
       case Waiting => row.attempts == Failures(q.history, e) < row.maxAttempts
       case Publishing => row.attempts == Failures(q.history, e) < row.maxAttempts
       case Published => row.attempts == Failures(q.history, e) + 1 <= row.maxAttempts && WasAccepted(q.history, e)
       case Dead => row.attempts == Failures(q.history, e) == row.maxAttempts
  }

  ghost predicate FlightsOk(q: Relay) {
    forall t :: t in q.flights && q.flights[t].answer == Some(true) ==> WasAccepted(q.history, q.flights[t].event)
  }

  ghost predicate RelayInv(q: Relay) {
    && (forall e :: e in q.rows ==> RowOk(q, e))
    && (forall e :: e !in q.rows ==> Failures(q.history, e) == 0)
    && FlightsOk(q)
    && (forall i :: 0 <= i < |q.history| ==> q.history[i].token in q.flights)
  }

  lemma SnocFailures(history: seq<Record>, r: Record, e: EventId)
    ensures Failures(history + [r], e) == Failures(history, e) + (if FailureOf(r, e) then 1 else 0)
    ensures WasAccepted(history, e) ==> WasAccepted(history + [r], e)
    ensures r.Accepted? && r.event == e ==> WasAccepted(history + [r], e)
  {
  }

  lemma ClaimOneKeeps(q: Relay, e: EventId, token: Token)
    requires RelayInv(q) && e in q.rows && token !in q.flights
    requires q.rows[e].status == Waiting || q.rows[e].status == Publishing
    ensures RelayInv(ClaimOne(q, e, token))
  {
  }

  ghost predicate Unsettled(q: Relay, events: seq<EventId>) {
    forall i :: 0 <= i < |events| ==> events[i] in q.rows && (q.rows[events[i]].status == Waiting || q.rows[events[i]].status == Publishing)
  }

  ghost predicate NewTokens(q: Relay, tokens: seq<Token>) {
    && (forall i :: 0 <= i < |tokens| ==> tokens[i] !in q.flights)
    && (forall i, k :: 0 <= i < k < |tokens| ==> tokens[i] != tokens[k])
  }

  /** A batch claim rewrites exactly its rows and hands each its own token. */
  lemma {:induction false} ClaimBatchRows(q: Relay, events: seq<EventId>, tokens: seq<Token>)
    requires |events| == |tokens| && Unsettled(q, events)
    ensures var r := ClaimBatch(q, events, tokens);
            && r.history == q.history
            && (forall e :: e in q.rows && e !in events ==> r.rows[e] == q.rows[e])
            && (forall e :: e in q.rows ==> r.rows[e] == q.rows[e] || r.rows[e].status == Publishing)
            && (forall t :: t in r.flights ==> t in q.flights || t in tokens)
    decreases |events|
  {
    if events != [] {
      var n := |events| - 1;
      ClaimBatchRows(q, events[..n], tokens[..n]);
      assert events == events[..n] + [events[n]] && tokens == tokens[..n] + [tokens[n]];
    }
  }

  lemma {:induction false} ClaimBatchKeeps(q: Relay, events: seq<EventId>, tokens: seq<Token>)
    requires RelayInv(q) && |events| == |tokens| && Unsettled(q, events) && NewTokens(q, tokens)
    ensures RelayInv(ClaimBatch(q, events, tokens))
    decreases |events|
  {
    hide RelayInv;
    if events != [] {
      var n := |events| - 1;
      ClaimBatchKeeps(q, events[..n], tokens[..n]);
      ClaimBatchRows(q, events[..n], tokens[..n]);
      assert tokens[n] !in tokens[..n];
      ClaimOneKeeps(ClaimBatch(q, events[..n], tokens[..n]), events[n], tokens[n]);
    }
  }

  lemma DeliverKeeps(q: Relay, token: Token, accepted: bool)
    requires RelayInv(q)
    ensures RelayInv(Deliver(q, token, accepted))
  {
    var to := Deliver(q, token, accepted);
    if token in q.flights {
      var r := Accepted(q.flights[token].event, token);
      forall e
        ensures Failures(to.history, e) == Failures(q.history, e)
        ensures WasAccepted(q.history, e) ==> WasAccepted(to.history, e)
        ensures accepted && e == r.event ==> WasAccepted(to.history, e)
      {
        SnocFailures(q.history, r, e);
      }
      forall e | e in to.rows
        ensures RowOk(to, e)
      {
        assert RowOk(q, e);
      }
    }
  }

  /** Recording an outcome for one event keeps all other rows as they were. */
  lemma SettleKeeps(q: Relay, e: EventId, token: Token, verdict: Verdict, row: Row)
    requires RelayInv(q) && e in q.rows && token in q.flights && row.token.None? && row.maxAttempts == q.rows[e].maxAttempts
    requires var to := q.(rows := q.rows[e := row], history := q.history + [Recorded(e, token, verdict)]); RowOk(to, e)
    ensures RelayInv(q.(rows := q.rows[e := row], history := q.history + [Recorded(e, token, verdict)]))
  {
  }

  lemma NoteKeeps(q: Relay, token: Token)
    requires RelayInv(q)
    ensures RelayInv(Note(q, token))
  {
    if token in q.flights && q.flights[token].answer.Some? && Holds(q, q.flights[token].event, token) {
      var e := q.flights[token].event;
      var row := q.rows[e];
      assert RowOk(q, e);
      var accepted := q.flights[token].answer.value;
      assert accepted ==> WasAccepted(q.history, e);
      hide RelayInv;
      var verdict := if accepted then Sent else if row.attempts + 1 >= row.maxAttempts then Killed else Missed;
      SnocFailures(q.history, Recorded(e, token, verdict), e);
      SettleKeeps(q, e, token, verdict, Note(q, token).rows[e]);
    }
  }

  lemma StageKeeps(q: Relay, e: EventId, schema: nat, maxAttempts: nat)
    requires RelayInv(q)
    ensures RelayInv(Stage(q, e, schema, maxAttempts))
  {
  }

  lemma PossibleClaim(q: Relay, step: Step)
    requires step.ClaimStep? && Possible(q, step)
    ensures |step.events| == |step.tokens| && Unsettled(q, step.events) && NewTokens(q, step.tokens)
  {
  }

  lemma DoKeeps(q: Relay, step: Step)
    requires RelayInv(q) && Possible(q, step)
    ensures RelayInv(Do(q, step))
  {
    hide RelayInv, Note, Deliver, Stage;
    match step
    case StageStep(e, schema, maxAttempts) => StageKeeps(q, e, schema, maxAttempts);
    case ClaimStep(_, _, _, events, tokens) => PossibleClaim(q, step); ClaimBatchKeeps(q, events, tokens);
    case DeliverStep(token, accepted) => DeliverKeeps(q, token, accepted);
    case RecordStep(token) => NoteKeeps(q, token);
    case Wait(delta) => WaitKeeps(q, delta);
  }

  lemma WaitKeeps(q: Relay, delta: nat)
    requires RelayInv(q)
    ensures RelayInv(q.(now := q.now + delta))
  {
  }

  /** Over every interleaving of publishers, crashes included. */
  lemma {:induction false} RunKeeps(q: Relay, steps: seq<Step>)
    requires RelayInv(q) && PossibleRun(q, steps)
    ensures RelayInv(Run(q, steps))
    decreases |steps|
  {
    hide RelayInv, Do, Possible;
    if steps != [] {
      DoKeeps(q, steps[0]);
      RunKeeps(Do(q, steps[0]), steps[1..]);
    }
  }

  predicate Settled(row: Row) {
    row.status == Published || row.status == Dead
  }

  lemma DoKeepsSettled(q: Relay, step: Step, e: EventId)
    requires RelayInv(q) && Possible(q, step) && e in q.rows && Settled(q.rows[e])
    ensures e in Do(q, step).rows && Do(q, step).rows[e] == q.rows[e]
  {
    hide RelayInv, RowOk;
    if step.ClaimStep? {
      PossibleClaim(q, step);
      ClaimBatchRows(q, step.events, step.tokens);
      assert e !in step.events;
    }
  }

  /** PUBLISHED and DEAD are never left. */
  lemma {:induction false} SettledForever(q: Relay, steps: seq<Step>, e: EventId)
    requires RelayInv(q) && PossibleRun(q, steps) && e in q.rows && (q.rows[e].status == Published || q.rows[e].status == Dead)
    ensures e in Run(q, steps).rows && Run(q, steps).rows[e] == q.rows[e]
    decreases |steps|
  {
    hide RelayInv, Do, Possible;
    if steps != [] {
      DoKeeps(q, steps[0]);
      DoKeepsSettled(q, steps[0], e);
      SettledForever(Do(q, steps[0]), steps[1..], e);
    }
  }

  /** What a row's status says about the past, in every run from an empty outbox. */
  lemma StatusMeaning(q: Relay, steps: seq<Step>, e: EventId)
    requires q.rows == map[] && q.flights == map[] && q.history == []
    requires PossibleRun(q, steps) && e in Run(q, steps).rows
    ensures var r := Run(q, steps);
            && (r.rows[e].status == Published ==> WasAccepted(r.history, e))
            && (r.rows[e].status == Waiting || r.rows[e].status == Publishing ==> r.rows[e].attempts < r.rows[e].maxAttempts)
            && (r.rows[e].status == Dead <==> Failures(r.history, e) == r.rows[e].maxAttempts)
            && Failures(r.history, e) <= r.rows[e].maxAttempts
  {
    RunKeeps(q, steps);
    assert RowOk(Run(q, steps), e);
  }

  // ----- one call of the publisher, with others at work around it -----

  predicate Counts(r: Record, mine: seq<Token>, verdict: Verdict) {
    r.Recorded? && r.token in mine && r.verdict == verdict
  }

  function Tally(history: seq<Record>, mine: seq<Token>, verdict: Verdict): nat {
    if history == [] then 0
    else Tally(history[..|history| - 1], mine, verdict) + (if Counts(history[|history| - 1], mine, verdict) then 1 else 0)
  }

  lemma SnocTally(history: seq<Record>, r: Record, mine: seq<Token>, verdict: Verdict)
    ensures Tally(history + [r], mine, verdict) == Tally(history, mine, verdict) + (if Counts(r, mine, verdict) then 1 else 0)
  {
  }

  /** A step of another publisher: it neither uses nor reissues my tokens. */
  ghost predicate Foreign(step: Step, mine: seq<Token>) {
    match step
    case DeliverStep(t, _) => t !in mine
    case RecordStep(t) => t !in mine
    case ClaimStep(_, _, _, _, tokens) => forall i :: 0 <= i < |tokens| ==> tokens[i] !in mine
    case _ => true
  }

  ghost predicate AllForeign(steps: seq<Step>, mine: seq<Token>) {
    forall i :: 0 <= i < |steps| ==> Foreign(steps[i], mine)
  }

  lemma ForeignStepKeepsTally(q: Relay, step: Step, mine: seq<Token>)
    requires RelayInv(q) && Possible(q, step) && Foreign(step, mine)
    ensures forall v :: Tally(Do(q, step).history, mine, v) == Tally(q.history, mine, v)
    ensures forall t :: t in mine && t in q.flights ==> t in Do(q, step).flights && Do(q, step).flights[t] == q.flights[t]
  {
    hide RelayInv, RowOk;
    match step
    case ClaimStep(_, _, _, events, tokens) =>
      PossibleClaim(q, step);
      ClaimBatchRows(q, events, tokens);
      ClaimBatchFlights(q, events, tokens);
    case DeliverStep(t, accepted) =>
      if t in q.flights {
        forall v
          ensures Tally(Do(q, step).history, mine, v) == Tally(q.history, mine, v)
        {
          SnocTally(q.history, Accepted(q.flights[t].event, t), mine, v);
        }
      }
    case RecordStep(t) =>
      var to := Note(q, t);
      if to != q {
        forall v
          ensures Tally(to.history, mine, v) == Tally(q.history, mine, v)
        {
          SnocTally(q.history, to.history[|q.history|], mine, v);
        }
      }
    case StageStep(_, _, _) =>
    case Wait(_) =>
  }

  lemma {:induction false} ClaimBatchFlights(q: Relay, events: seq<EventId>, tokens: seq<Token>)
    requires |events| == |tokens| && forall i :: 0 <= i < |events| ==> events[i] in q.rows
    ensures forall t :: t in q.flights && t !in tokens ==>
              t in ClaimBatch(q, events, tokens).flights && ClaimBatch(q, events, tokens).flights[t] == q.flights[t]
    decreases |events|
  {
    if events != [] {
      var n := |events| - 1;
      ClaimBatchFlights(q, events[..n], tokens[..n]);
      assert tokens == tokens[..n] + [tokens[n]];
    }
  }

  lemma {:induction false} ForeignRunKeepsTally(q: Relay, steps: seq<Step>, mine: seq<Token>)
    requires RelayInv(q) && PossibleRun(q, steps) && AllForeign(steps, mine)
    ensures RelayInv(Run(q, steps))
    ensures forall v :: Tally(Run(q, steps).history, mine, v) == Tally(q.history, mine, v)
    ensures forall t :: t in mine && t in q.flights ==> t in Run(q, steps).flights && Run(q, steps).flights[t] == q.flights[t]
    decreases |steps|
  {
    hide RelayInv, Do, Possible, Foreign;
    if steps != [] {
      DoKeeps(q, steps[0]);
      ForeignStepKeepsTally(q, steps[0], mine);
      assert forall i :: 0 <= i < |steps[1..]| ==> steps[1..][i] == steps[i + 1];
      ForeignRunKeepsTally(Do(q, steps[0]), steps[1..], mine);
    }
  }

  lemma {:induction false} FreshTally(history: seq<Record>, mine: seq<Token>, verdict: Verdict)
    requires forall i :: 0 <= i < |history| ==> history[i].token !in mine
    ensures Tally(history, mine, verdict) == 0
  {
    if history != [] {
      FreshTally(history[..|history| - 1], mine, verdict);
    }
  }

  lemma {:induction false} RunSplit(q: Relay, a: seq<Step>, b: seq<Step>)
    requires PossibleRun(q, a + b)
    ensures PossibleRun(q, a) && PossibleRun(Run(q, a), b) && Run(q, a + b) == Run(Run(q, a), b)
    decreases |a|
  {
    hide Possible, Do;
    if a == [] {
      assert a + b == b;
    } else {
      assert (a + b)[0] == a[0] && (a + b)[1..] == a[1..] + b;
      RunSplit(Do(q, a[0]), a[1..], b);
    }
  }

  lemma RunCons(q: Relay, s: Step, b: seq<Step>)
    requires PossibleRun(q, [s] + b)
    ensures Possible(q, s) && PossibleRun(Do(q, s), b) && Run(q, [s] + b) == Run(Do(q, s), b)
  {
  }

  lemma {:induction false} ClaimBatchStall(q: Relay, events: seq<EventId>, tokens: seq<Token>)
    requires |events| == |tokens| && forall i :: 0 <= i < |events| ==> events[i] in q.rows
    ensures ClaimBatch(q, events, tokens).stall == q.stall
    decreases |events|
  {
    if events != [] {
      ClaimBatchStall(q, events[..|events| - 1], tokens[..|events| - 1]);
    }
  }

  lemma {:induction false} RunKeepsStall(q: Relay, steps: seq<Step>)
    requires PossibleRun(q, steps)
    ensures Run(q, steps).stall == q.stall
    decreases |steps|
  {
    if steps != [] {
      if steps[0].ClaimStep? { ClaimBatchStall(q, steps[0].events, steps[0].tokens); }
      RunKeepsStall(Do(q, steps[0]), steps[1..]);
    }
  }

  /** One publishing call: what the transport answers, and what others commit before each of its own steps. */
  datatype Call = Call(events: seq<EventId>, tokens: seq<Token>, answers: seq<bool>, before: seq<seq<Step>>, between: seq<seq<Step>>)

  ghost predicate WellFormed(c: Call) {
    && |c.tokens| == |c.events| && |c.answers| == |c.events| && |c.before| == |c.events| && |c.between| == |c.events|
    && (forall i :: 0 <= i < |c.events| ==> AllForeign(c.before[i], c.tokens) && AllForeign(c.between[i], c.tokens))
  }

  /** The steps committed from the i-th event of the call on. */
  function Turns(c: Call, i: nat): seq<Step>
    requires WellFormed(c) && i <= |c.events|
    decreases |c.events| - i
  {
    if i == |c.events| then []
    else c.before[i] + ([DeliverStep(c.tokens[i], c.answers[i])] + (c.between[i] + ([RecordStep(c.tokens[i])] + Turns(c, i + 1))))
  }

  ghost predicate InFlight(q: Relay, c: Call, k: int) {
    && 0 <= k < |c.tokens| && k < |c.events|
    && c.tokens[k] in q.flights && q.flights[c.tokens[k]] == Flight(c.events[k], None)
  }

  lemma StayInFlight(q: Relay, r: Relay, c: Call, from: nat)
    requires forall k :: from <= k < |c.events| ==> InFlight(q, c, k)
    requires forall t :: t in c.tokens && t in q.flights ==> t in r.flights && r.flights[t] == q.flights[t]
    ensures forall k :: from <= k < |c.events| ==> InFlight(r, c, k)
  {
    forall k | from <= k < |c.events|
      ensures InFlight(r, c, k)
    {
      assert InFlight(q, c, k) && c.tokens[k] in c.tokens;
    }
  }

  ghost predicate DistinctTokens(c: Call) {
    forall k, l :: 0 <= k < l < |c.tokens| ==> c.tokens[k] != c.tokens[l]
  }

  /** Before the i-th event of a call: the rest of the call leads to `goal`, and its events are claimed and unanswered. */
  ghost predicate Underway(q: Relay, c: Call, i: int, goal: Relay) {
    && WellFormed(c) && DistinctTokens(c) && 0 <= i <= |c.events| && RelayInv(q)
    && PossibleRun(q, Turns(c, i)) && Run(q, Turns(c, i)) == goal
    && forall k :: i <= k < |c.events| ==> InFlight(q, c, k)
  }

  /** Between the transport's answer for the i-th event and its record. */
  ghost predicate Halfway(q: Relay, c: Call, i: int, goal: Relay) {
    && WellFormed(c) && DistinctTokens(c) && 0 <= i < |c.events| && RelayInv(q)
    && c.tokens[i] in q.flights && q.flights[c.tokens[i]] == Flight(c.events[i], Some(c.answers[i]))
    && (var n := i + 1;
        var rest := c.between[i] + ([RecordStep(c.tokens[i])] + Turns(c, n));
        && PossibleRun(q, rest) && Run(q, rest) == goal
        && forall k :: n <= k < |c.events| ==> InFlight(q, c, k))
  }

  lemma UnderwayTurn(q: Relay, c: Call, i: nat, goal: Relay)
    requires i < |c.events| && Underway(q, c, i, goal)
    ensures |c.before| == |c.answers| == |c.tokens| == |c.events| && RelayInv(q) && PossibleRun(q, c.before[i]) && AllForeign(c.before[i], c.tokens)
  {
    hide RelayInv, PossibleRun, Run, AllForeign;
    RunSplit(q, c.before[i], [DeliverStep(c.tokens[i], c.answers[i])] + (c.between[i] + ([RecordStep(c.tokens[i])] + Turns(c, i + 1))));
  }

  lemma DeliverTurn(q: Relay, m: Relay, c: Call, i: nat, goal: Relay)
    requires i < |c.events| && Underway(q, c, i, goal) && RelayInv(m) && PossibleRun(q, c.before[i]) && m == Run(q, c.before[i])
    requires forall t :: t in c.tokens && t in q.flights ==> t in m.flights && m.flights[t] == q.flights[t]
    ensures var to := m.(flights := m.flights[c.tokens[i] := Flight(c.events[i], Some(c.answers[i]))],
                         history := if c.answers[i] then m.history + [Accepted(c.events[i], c.tokens[i])] else m.history);
            Halfway(to, c, i, goal) && forall v :: Tally(to.history, c.tokens, v) == Tally(m.history, c.tokens, v)
  {
    hide RelayInv, PossibleRun, Run, AllForeign, Tally;
    var rest := c.between[i] + ([RecordStep(c.tokens[i])] + Turns(c, i + 1));
    RunSplit(q, c.before[i], [DeliverStep(c.tokens[i], c.answers[i])] + rest);
    StayInFlight(q, m, c, i);
    RunCons(m, DeliverStep(c.tokens[i], c.answers[i]), rest);
    DeliverMine(m, c, i);
    var to := Deliver(m, c.tokens[i], c.answers[i]);
    var n := i + 1;
    forall k | n <= k < |c.events|
      ensures InFlight(to, c, k)
    {
      assert InFlight(m, c, k) && c.tokens[i] != c.tokens[k];
    }
  }

  lemma HalfwayTurn(q: Relay, c: Call, i: nat, goal: Relay)
    requires i < |c.events| && Halfway(q, c, i, goal)
    ensures |c.between| == |c.answers| == |c.tokens| == |c.events| && RelayInv(q) && PossibleRun(q, c.between[i]) && AllForeign(c.between[i], c.tokens)
  {
    hide RelayInv, PossibleRun, Run, AllForeign;
    RunSplit(q, c.between[i], [RecordStep(c.tokens[i])] + Turns(c, i + 1));
  }

  lemma NoteTurn(q: Relay, m: Relay, c: Call, i: nat, goal: Relay)
    requires i < |c.events| && Halfway(q, c, i, goal) && RelayInv(m) && PossibleRun(q, c.between[i]) && m == Run(q, c.between[i])
    requires forall t :: t in c.tokens && t in q.flights ==> t in m.flights && m.flights[t] == q.flights[t]
    ensures var t := c.tokens[i]; var e := c.events[i];
            var to := if c.answers[i] then RecordSuccess(m, e, t) else RecordFailure(m, e, t);
            && Underway(to, c, i + 1, goal)
            && forall v :: Tally(to.history, c.tokens, v) == Tally(m.history, c.tokens, v) +
                 (if Holds(m, e, t) && v == OutcomeOf(m, e, c.answers[i]) then 1 else 0)
  {
    hide RelayInv, PossibleRun, Run, AllForeign, Tally;
    RunSplit(q, c.between[i], [RecordStep(c.tokens[i])] + Turns(c, i + 1));
    StayInFlight(q, m, c, i + 1);
    assert c.tokens[i] in c.tokens;
    RunCons(m, RecordStep(c.tokens[i]), Turns(c, i + 1));
    NoteMine(m, c, i);
    StayInFlight(m, Note(m, c.tokens[i]), c, i + 1);
  }

  lemma UnderwayEnds(q: Relay, c: Call, goal: Relay)
    requires Underway(q, c, |c.events|, goal)
    ensures RelayInv(q) && q == goal
  {
  }

  function OutcomeOf(q: Relay, e: EventId, accepted: bool): Verdict
    requires e in q.rows
  {
    if accepted then Sent else if q.rows[e].attempts + 1 >= q.rows[e].maxAttempts then Killed else Missed
  }

  lemma StartCall(q: Relay, schemas: Option<set<nat>>, locked: set<EventId>, limit: nat, c: Call)
    requires RelayInv(q) && WellFormed(c) && PossibleRun(q, [ClaimStep(schemas, locked, limit, c.events, c.tokens)] + Turns(c, 0))
    ensures forall i :: 0 <= i < |c.events| ==> c.events[i] in q.rows
    ensures var m := ClaimBatch(q, c.events, c.tokens);
            && Underway(m, c, 0, Run(q, [ClaimStep(schemas, locked, limit, c.events, c.tokens)] + Turns(c, 0)))
            && (forall v :: Tally(m.history, c.tokens, v) == 0)
  {
    hide PossibleRun, Run, Tally, ClaimBatch, RowOk;
    RunCons(q, ClaimStep(schemas, locked, limit, c.events, c.tokens), Turns(c, 0));
    PossibleClaim(q, ClaimStep(schemas, locked, limit, c.events, c.tokens));
    ClaimBatchKeeps(q, c.events, c.tokens);
    ClaimBatchRows(q, c.events, c.tokens);
    ClaimBatchInFlight(q, c.events, c.tokens);
    forall v
      ensures Tally(q.history, c.tokens, v) == 0
    {
      FreshTally(q.history, c.tokens, v);
    }
  }

  lemma {:induction false} ClaimBatchInFlight(q: Relay, events: seq<EventId>, tokens: seq<Token>)
    requires |events| == |tokens| && forall i :: 0 <= i < |events| ==> events[i] in q.rows
    requires forall k, l :: 0 <= k < l < |tokens| ==> tokens[k] != tokens[l]
    ensures forall k :: 0 <= k < |tokens| ==>
              tokens[k] in ClaimBatch(q, events, tokens).flights && ClaimBatch(q, events, tokens).flights[tokens[k]] == Flight(events[k], None)
    decreases |events|
  {
    if events != [] {
      var n := |events| - 1;
      ClaimBatchInFlight(q, events[..n], tokens[..n]);
      var m := ClaimBatch(q, events[..n], tokens[..n]);
      assert forall k :: 0 <= k < n ==> tokens[..n][k] == tokens[k] && events[..n][k] == events[k] && tokens[k] != tokens[n];
    }
  }

  lemma DeliverMine(q: Relay, c: Call, i: nat)
    requires RelayInv(q) && InFlight(q, c, i) && i < |c.answers|
    ensures var to := Deliver(q, c.tokens[i], c.answers[i]);
            && RelayInv(to) && to.flights == q.flights[c.tokens[i] := Flight(c.events[i], Some(c.answers[i]))]
            && to.rows == q.rows && to.now == q.now && to.stall == q.stall
            && to.history == (if c.answers[i] then q.history + [Accepted(c.events[i], c.tokens[i])] else q.history)
            && (forall v :: Tally(to.history, c.tokens, v) == Tally(q.history, c.tokens, v))
  {
    DeliverKeeps(q, c.tokens[i], c.answers[i]);
    forall v
      ensures Tally(q.history + [Accepted(c.events[i], c.tokens[i])], c.tokens, v) == Tally(q.history, c.tokens, v)
    {
      SnocTally(q.history, Accepted(c.events[i], c.tokens[i]), c.tokens, v);
    }
    hide RelayInv, Tally;
  }

  /** Recording my own outcome moves exactly one counter, and none if the claim was lost. */
  lemma NoteMine(q: Relay, c: Call, i: nat)
    requires RelayInv(q) && i < |c.tokens| && i < |c.events| && i < |c.answers|
    requires c.tokens[i] in q.flights && q.flights[c.tokens[i]] == Flight(c.events[i], Some(c.answers[i]))
    ensures var t := c.tokens[i]; var e := c.events[i];
            var to := Note(q, t);
            && RelayInv(to) && to.flights == q.flights
            && to == (if c.answers[i] then RecordSuccess(q, e, t) else RecordFailure(q, e, t))
            && forall v :: Tally(to.history, c.tokens, v) == Tally(q.history, c.tokens, v) +
                 (if Holds(q, e, t) && v == OutcomeOf(q, e, c.answers[i]) then 1 else 0)
  {
    hide RelayInv, Tally;
    NoteKeeps(q, c.tokens[i]);
    var t, e := c.tokens[i], c.events[i];
    if Holds(q, e, t) {
      var r := Recorded(e, t, OutcomeOf(q, e, c.answers[i]));
      forall v
        ensures Tally(q.history + [r], c.tokens, v) == Tally(q.history, c.tokens, v) + (if v == r.verdict then 1 else 0)
      {
        SnocTally(q.history, r, c.tokens, v);
      }
    }
  }

  class Publisher {
    var rows: map<EventId, Row>
    var now: int
    const stall: nat
    var flights: map<Token, Flight>
    var history: seq<Record>

    function Value(): Relay
      reads this
    {
      Relay(rows, now, stall, flights, history)
    }

    constructor (stall: nat, now: int)
      ensures Value() == Relay(map[], now, stall, map[], []) && RelayInv(Value())
    {
      this.stall, this.now, rows, flights, history := stall, now, map[], map[], [];
    }

    method ClaimRows(events: seq<EventId>, tokens: seq<Token>)
      requires |events| == |tokens| && forall i :: 0 <= i < |events| ==> events[i] in rows
      modifies this
      ensures Value() == old(ClaimBatch(Value(), events, tokens))
    {
      ghost var q := Value();
      for i := 0 to |events|
        invariant Value() == ClaimBatch(q, events[..i], tokens[..i])
      {
        assert events[..i + 1][..i] == events[..i] && tokens[..i + 1][..i] == tokens[..i];
        var e := events[i];
        rows := rows[e := rows[e].(status := Publishing, token := Some(tokens[i]), availableAt := now + stall)];
        flights := flights[tokens[i] := Flight(e, None)];
      }
      assert events[..|events|] == events && tokens[..|tokens|] == tokens;
    }

    method MarkSuccess(e: EventId, token: Token) returns (ok: bool)
      modifies this
      ensures ok == old(Holds(Value(), e, token)) && Value() == old(RecordSuccess(Value(), e, token))
    {
      if !(e in rows && rows[e].status == Publishing && rows[e].token == Some(token)) { return false; }
      rows := rows[e := rows[e].(status := Published, token := None, attempts := rows[e].attempts + 1)];
      history := history + [Recorded(e, token, Sent)];
      ok := true;
    }

    method MarkFailure(e: EventId, token: Token) returns (outcome: Option<RowStatus>)
      modifies this
      ensures Value() == old(RecordFailure(Value(), e, token))
      ensures outcome == if !old(Holds(Value(), e, token)) then None
                         else if old(rows[e].attempts + 1 >= rows[e].maxAttempts) then Some(Dead) else Some(Waiting)
    {
      if !(e in rows && rows[e].status == Publishing && rows[e].token == Some(token)) { return None; }
      var row := rows[e];
      if row.attempts + 1 >= row.maxAttempts {
        rows := rows[e := row.(status := Dead, token := None, attempts := row.attempts + 1)];
        history := history + [Recorded(e, token, Killed)];
        return Some(Dead);
      }
      rows := rows[e := row.(status := Waiting, token := None, attempts := row.attempts + 1, availableAt := now + Backoff(row.attempts + 1))];
      history := history + [Recorded(e, token, Missed)];
      outcome := Some(Waiting);
    }

    /** Whatever other publishers commit meanwhile. */
    method Meanwhile(steps: seq<Step>, ghost mine: seq<Token>)
      requires RelayInv(Value()) && PossibleRun(Value(), steps) && AllForeign(steps, mine)
      modifies this
      ensures RelayInv(Value()) && Value() == old(Run(Value(), steps))
      ensures forall v :: Tally(history, mine, v) == old(Tally(history, mine, v))
      ensures forall t :: t in mine && t in old(flights) ==> t in flights && flights[t] == old(flights)[t]
    {
      hide RelayInv, PossibleRun, AllForeign;
      ForeignRunKeepsTally(Value(), steps, mine);
      RunKeepsStall(Value(), steps);
      var to := Run(Value(), steps);
      rows, now, flights, history := to.rows, to.now, to.flights, to.history;
    }

    /** Hand the i-th event to the transport, after whatever others did first. */
    method SendOne(c: Call, i: nat, ghost goal: Relay)
      requires i < |c.events| && Underway(Value(), c, i, goal)
      modifies this
      ensures Halfway(Value(), c, i, goal)
      ensures forall v :: Tally(history, c.tokens, v) == old(Tally(history, c.tokens, v))
    {
      hide Underway, Halfway, RelayInv, PossibleRun, Run, AllForeign, Tally, RecordSuccess, RecordFailure;
      ghost var q := Value();
      UnderwayTurn(q, c, i, goal);
      Meanwhile(c.before[i], c.tokens);
      ghost var m := Value();
      DeliverTurn(q, m, c, i, goal);
      flights := flights[c.tokens[i] := Flight(c.events[i], Some(c.answers[i]))];
      history := if c.answers[i] then history + [Accepted(c.events[i], c.tokens[i])] else history;
    }

    /** Record its outcome, after whatever others did meanwhile; None means that the claim was lost. */
    method RecordOne(c: Call, i: nat, ghost goal: Relay) returns (verdict: Option<Verdict>)
      requires i < |c.events| && Halfway(Value(), c, i, goal)
      modifies this
      ensures Underway(Value(), c, i + 1, goal)
      ensures forall v :: Tally(history, c.tokens, v) == old(Tally(history, c.tokens, v)) + (if verdict == Some(v) then 1 else 0)
    {
      hide Underway, Halfway, RelayInv, PossibleRun, Run, AllForeign, Tally, RecordSuccess, RecordFailure;
      ghost var q := Value();
      HalfwayTurn(q, c, i, goal);
      Meanwhile(c.between[i], c.tokens);
      ghost var m := Value();
      NoteTurn(q, m, c, i, goal);
      verdict := None;
      if c.answers[i] {
        var ok := MarkSuccess(c.events[i], c.tokens[i]);
        if ok { verdict := Some(Sent); }
      } else {
        var outcome := MarkFailure(c.events[i], c.tokens[i]);
        if outcome == Some(Dead) { verdict := Some(Killed); }
        else if outcome == Some(Waiting) { verdict := Some(Missed); }
      }
    }

    /** The loop over the claimed events. */
    method PublishClaimed(c: Call, ghost goal: Relay) returns (published: nat, failed: nat, dead: nat)
      requires Underway(Value(), c, 0, goal) && forall v :: Tally(history, c.tokens, v) == 0
      modifies this
      ensures RelayInv(Value()) && Value() == goal && published + failed + dead <= |c.events|
      ensures published == Tally(history, c.tokens, Sent) && failed == Tally(history, c.tokens, Missed) && dead == Tally(history, c.tokens, Killed)
    {
      hide RelayInv, Tally, Underway, Halfway;
      published, failed, dead := 0, 0, 0;
      for i := 0 to |c.events|
        invariant Underway(Value(), c, i, goal) && published + failed + dead <= i
        invariant published == Tally(history, c.tokens, Sent) && failed == Tally(history, c.tokens, Missed) && dead == Tally(history, c.tokens, Killed)
      {
        SendOne(c, i, goal);
        var verdict := RecordOne(c, i, goal);
        if verdict == Some(Sent) { published := published + 1; }
        else if verdict == Some(Missed) { failed := failed + 1; }
        else if verdict == Some(Killed) { dead := dead + 1; }
      }
      UnderwayEnds(Value(), c, goal);
    }

    /**
     Claim, publish each event, record each outcome.  However other publishers
     interleave, the counters are exactly the outcomes committed under this
     call's tokens, and they never add up to more than was claimed.
     */
    method PublishPendingEvents(schemas: Option<set<nat>>, ghost locked: set<EventId>, limit: nat, c: Call)
      returns (claimed: nat, published: nat, failed: nat, dead: nat)
      requires RelayInv(Value()) && WellFormed(c)
      requires PossibleRun(Value(), [ClaimStep(schemas, locked, limit, c.events, c.tokens)] + Turns(c, 0))
      modifies this
      ensures RelayInv(Value())
      ensures Value() == old(Run(Value(), [ClaimStep(schemas, locked, limit, c.events, c.tokens)] + Turns(c, 0)))
      ensures claimed == |c.events| && published + failed + dead <= claimed
      ensures published == Tally(history, c.tokens, Sent) && failed == Tally(history, c.tokens, Missed) && dead == Tally(history, c.tokens, Killed)
    {
      assert |c.events| == |c.tokens|;
      hide PossibleRun, Run, Tally, RelayInv, ClaimBatch, WellFormed, Turns, Underway;
      ghost var goal := Run(Value(), [ClaimStep(schemas, locked, limit, c.events, c.tokens)] + Turns(c, 0));
      StartCall(Value(), schemas, locked, limit, c);
      ClaimRows(c.events, c.tokens);
      claimed := |c.events|;
      published, failed, dead := PublishClaimed(c, goal);
    }
  }
}

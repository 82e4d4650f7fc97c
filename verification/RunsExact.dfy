/** What each transaction on analysis runs writes, and when it is refused, exactly. */
module RunsExact {
  import opened Options
  import opened AnalysisRuns

  /** The run is the one its node works on: same version, same hash, and the node is still unattached. */
  predicate Current(db: Db, r: RunId) {
    && r in db.runs && db.runs[r].node in db.nodes
    && var n := db.nodes[db.runs[r].node];
    && n.current == Some(r) && n.version == db.runs[r].version && n.hash == Some(db.runs[r].hash) && n.unattached
  }

  predicate Live(run: Run) {
    run.status == Pending || run.status == Running || run.status == Completed
  }

  /** Run r is SUPERSEDED if it was live; nothing else changes. */
  predicate Dropped(db: Db, to: Db, r: Option<RunId>) {
    && to.nodes == db.nodes && to.runs.Keys == db.runs.Keys
    && forall q :: q in db.runs ==>
         to.runs[q] == if Some(q) == r && Live(db.runs[q]) then db.runs[q].(status := Superseded) else db.runs[q]
  }

  /** Run r and the status of its node change as given; nothing else does. */
  predicate MovesTo(db: Db, to: Db, r: RunId, run: Run, s: NodeStatus) {
    && r in db.runs && db.runs[r].node in db.nodes
    && to.runs.Keys == db.runs.Keys && to.nodes.Keys == db.nodes.Keys
    && (forall q :: q in db.runs && q != r ==> to.runs[q] == db.runs[q]) && to.runs[r] == run
    && (forall x :: x in db.nodes && x != db.runs[r].node ==> to.nodes[x] == db.nodes[x])
    && to.nodes[db.runs[r].node] == db.nodes[db.runs[r].node].(status := s)
  }

  /** Run r changes as given; nothing else does. */
  predicate Rewritten(db: Db, to: Db, r: RunId, run: Run) {
    && to.nodes == db.nodes && to.runs.Keys == db.runs.Keys && r in db.runs && to.runs[r] == run
    && forall q :: q in db.runs && q != r ==> to.runs[q] == db.runs[q]
  }

  // ----- the transition tables, read by target -----

  /** From which statuses a node may become b: STALE from all, the others from few; so analysis starts only from PENDING and ends only from ANALYZING. */
  lemma NodeTableByTarget(a: NodeStatus, b: NodeStatus)
    ensures NodeMayMove(a, b) <==>
            a in match b
                 case NodePending => {NodePending, Stale, NodeFailed}
                 case Analyzing => {Analyzing, NodePending}
                 case Analyzed => {Analyzed, Analyzing}
                 case Stale => {NodePending, Analyzing, Analyzed, Stale, NodeFailed}
                 case NodeFailed => {NodeFailed, NodePending, Analyzing}
  {
  }

  /** From which statuses a run may become b: nothing leaves FAILED or SUPERSEDED, and nothing returns to PENDING. */
  lemma RunTableByTarget(a: RunStatus, b: RunStatus)
    ensures RunMayMove(a, b) <==>
            a in match b
                 case Pending => {Pending}
                 case Running => {Running, Pending}
                 case Completed => {Completed, Running}
                 case Failed => {Failed, Pending, Running}
                 case Superseded => {Superseded, Pending, Running, Completed}
  {
  }

  // ----- edits -----

  /**
   A user edit steps the version and stores the text.  A changed text leaves the
   node STALE and without a hash, and supersedes its current run if that is live,
   so no live run of the node remains; an unchanged one leaves the analysis alone.
   */
  lemma EditExactly(db: Db, x: NodeId, text: nat)
    requires RunsInv(db)
    ensures x !in db.nodes ==> EditText(db, x, text) == db
    ensures x in db.nodes ==>
              var to, n := EditText(db, x, text), db.nodes[x];
              && to.nodes.Keys == db.nodes.Keys && (forall y :: y in db.nodes && y != x ==> to.nodes[y] == db.nodes[y])
              && var m := to.nodes[x];
              && m.version == n.version + 1 && m.text == text && m.unattached == n.unattached && m.current == n.current
              && if text == n.text then m.status == n.status && m.hash == n.hash && to.runs == db.runs
                 else
                   && m.status == Stale && m.hash.None? && Dropped(db.(nodes := to.nodes), to, n.current)
                   && forall r :: r in to.runs && to.runs[r].node == x ==> !Live(to.runs[r])
  {
  }

  // ----- requests -----

  /** The node's current run can be kept: live, at this version and hash, and either unfinished or the latest attempt with an undrifted candidate. */
  predicate Keepable(db: Db, x: NodeId, h: Hash, latest: Option<RunId>, drifted: bool)
    requires x in db.nodes
  {
    && db.nodes[x].current.Some? && db.nodes[x].current.value in db.runs
    && var c := db.nodes[x].current.value;
    && Live(db.runs[c]) && db.runs[c].hash == h && db.runs[c].version == db.nodes[x].version
    && (db.runs[c].status != Completed || (latest == Some(c) && !drifted))
  }

  lemma KeepableMeans(db: Db, x: NodeId, h: Hash, active: Option<RunId>, latest: Option<RunId>, drifted: bool)
    requires RunsInv(db) && x in db.nodes && IsActive(db, x, h, active) && IsLatest(db, x, db.nodes[x].version, h, latest)
    ensures Keepable(db, x, h, latest, drifted) <==>
            || (active.Some? && db.runs[active.value].version == db.nodes[x].version)
            || (latest.Some? && (active.None? || active != latest) && IsLive(db.runs[latest.value].status) && !drifted)
    ensures active.Some? ==> db.nodes[x].current == active
    ensures latest.Some? && IsLive(db.runs[latest.value].status) ==> db.nodes[x].current == latest
  {
    if db.nodes[x].current.Some? {
      var c := db.nodes[x].current.value;
      assert c in db.runs && db.runs[c].node == x;
      assert Unfinished(db, x, h, c) ==> active == Some(c) by {
        if Unfinished(db, x, h, c) && active.Some? {
          assert Unfinished(db, x, h, active.value);
        }
      }
    }
  }

  /**
   A request is accepted exactly for an unattached node at the expected version.
   It keeps a keepable current run as it is and only notes the hash; otherwise it
   supersedes the current run if live and starts a PENDING one, one attempt after
   the latest for this version and hash, which the node now shows.
   */
  lemma RequestExactly(db: Db, x: NodeId, expected: nat, config: nat, active: Option<RunId>, latest: Option<RunId>, drifted: bool, id: RunId)
    requires RunsInv(db) && Possible(db, Request(x, expected, config, active, latest, drifted, id))
    ensures Reanalyze(db, x, expected, config, active, latest, drifted, id).Some? <==>
            x in db.nodes && db.nodes[x].unattached && db.nodes[x].version == expected
    ensures Reanalyze(db, x, expected, config, active, latest, drifted, id).Some? ==>
              RequestedAs(db, Reanalyze(db, x, expected, config, active, latest, drifted, id).value, x, Hash(db.nodes[x].text, config), latest, drifted, id)
  {
    ReanalyzeKeeps(db, x, expected, config, active, latest, drifted, id);
    if x in db.nodes && db.nodes[x].unattached && db.nodes[x].version == expected {
      var h := Hash(db.nodes[x].text, config);
      KeepableMeans(db, x, h, active, latest, drifted);
      if active.Some? && db.runs[active.value].version == db.nodes[x].version {
        ReuseKeeps(db, x, active.value);
      } else {
        RequestRest(db, x, h, active, latest, drifted, id);
      }
    }
  }

  predicate RequestedAs(db: Db, to: Db, x: NodeId, h: Hash, latest: Option<RunId>, drifted: bool, id: RunId) {
    && x in db.nodes && to.nodes.Keys == db.nodes.Keys && (forall y :: y in db.nodes && y != x ==> to.nodes[y] == db.nodes[y])
    && var n, m := db.nodes[x], to.nodes[x];
    && m.version == n.version && m.text == n.text && m.unattached == n.unattached && m.hash == Some(h)
    && if Keepable(db, x, h, latest, drifted) then to.runs == db.runs && m.status == n.status && m.current == n.current
       else
         && m.status == NodePending && m.current == Some(id) && to.runs.Keys == db.runs.Keys + {id}
         && (forall q :: q in db.runs && q != id ==>
               to.runs[q] == if Some(q) == n.current && Live(db.runs[q]) then db.runs[q].(status := Superseded) else db.runs[q])
         && var run := to.runs[id];
         && run.node == x && run.version == n.version && run.hash == h && run.status == Pending
         && run.attempt == (if latest.Some? && latest.value in db.runs then db.runs[latest.value].attempt + 1 else 1)
         && run.retrieval == NotRetrieved && run.rows == 0 && run.model == ModelPending
         && run.results == 0 && run.candidates == 0 && run.calls == 0
  }

  /** The branch without an unfinished run at the node's version. */
  lemma RequestRest(db: Db, x: NodeId, h: Hash, active: Option<RunId>, latest: Option<RunId>, drifted: bool, id: RunId)
    requires RunsInv(db) && x in db.nodes && id !in db.runs && IsActive(db, x, h, active) && IsLatest(db, x, db.nodes[x].version, h, latest)
    requires active.Some? ==> db.runs[active.value].version != db.nodes[x].version
    ensures var d := db.(runs := Supersede(db.runs, active));
            && (latest.Some? ==> latest.value in d.runs)
            && (latest.Some? && IsLive(d.runs[latest.value].status) && !drifted ==>
                  Reuse(d, x, latest.value).Some? && RequestedAs(db, Reuse(d, x, latest.value).value, x, h, latest, drifted, id))
            && (!(latest.Some? && IsLive(d.runs[latest.value].status) && !drifted) ==>
                  Renew(d, x, h, latest, id).Some? && RequestedAs(db, Renew(d, x, h, latest, id).value, x, h, latest, drifted, id))
  {
    KeepableMeans(db, x, h, active, latest, drifted);
    var d := db.(runs := Supersede(db.runs, active));
    SupersedeKeeps(db, active);
    SupersedeTwice(db.runs, active, db.nodes[x].current);
    SupersedeRuns(db.runs, db.nodes[x].current);
    LatestSurvives(db, x, h, active, latest);
    hide RunsInv, IsActive, IsLatest, Supersede, Keepable, RequestedAs, Reuse, Renew;
    if latest.Some? && IsLive(d.runs[latest.value].status) && !drifted {
      ReuseKeeps(d, x, latest.value);
      KeptAsRequested(db, d, x, h, latest, drifted, id);
    } else {
      RenewIs(d, x, h, latest, id);
      RenewedAsRequested(db, x, h, latest, drifted, id, Renew(d, x, h, latest, id).value);
    }
  }

  /** Superseding the unfinished run leaves a live latest run only if there was none to supersede. */
  lemma LatestSurvives(db: Db, x: NodeId, h: Hash, active: Option<RunId>, latest: Option<RunId>)
    requires RunsInv(db) && x in db.nodes && IsActive(db, x, h, active) && IsLatest(db, x, db.nodes[x].version, h, latest)
    requires active.Some? ==> db.nodes[x].current == active && db.runs[active.value].version != db.nodes[x].version
    requires latest.Some? && IsLive(db.runs[latest.value].status) ==> db.nodes[x].current == latest
    ensures latest.Some? ==> latest.value in db.runs && db.runs[latest.value].node == x && db.runs[latest.value].hash == h
    ensures latest.Some? && IsLive(Supersede(db.runs, active)[latest.value].status) ==>
              active.None? && IsLive(db.runs[latest.value].status)
    ensures latest.Some? ==> Supersede(db.runs, active)[latest.value].attempt == db.runs[latest.value].attempt
    ensures latest.Some? && IsLive(db.runs[latest.value].status) ==> active.None?
  {
  }

  lemma KeptAsRequested(db: Db, d: Db, x: NodeId, h: Hash, latest: Option<RunId>, drifted: bool, id: RunId)
    requires x in db.nodes && d == db && latest.Some? && latest.value in db.runs && db.runs[latest.value].hash == h
    requires Keepable(db, x, h, latest, drifted)
    ensures RequestedAs(db, db.(nodes := db.nodes[x := db.nodes[x].(hash := Some(h))]), x, h, latest, drifted, id)
  {
  }

  lemma RenewedAsRequested(db: Db, x: NodeId, h: Hash, latest: Option<RunId>, drifted: bool, id: RunId, to: Db)
    requires x in db.nodes && id !in db.runs && !Keepable(db, x, h, latest, drifted) && (latest.Some? ==> latest.value in db.runs)
    requires var attempt := if latest.None? then 1 else db.runs[latest.value].attempt + 1;
             to == Db(db.nodes[x := db.nodes[x].(current := Some(id), hash := Some(h), status := NodePending)],
                      Supersede(db.runs, db.nodes[x].current)[id := NewRun(x, db.nodes[x].version, h, attempt)])
    ensures RequestedAs(db, to, x, h, latest, drifted, id)
  {
    hide Keepable;
  }

  lemma SupersedeTwice(runs: map<RunId, Run>, a: Option<RunId>, c: Option<RunId>)
    requires a.Some? ==> a == c
    ensures Supersede(Supersede(runs, a), c) == Supersede(runs, c)
  {
  }

  // ----- the worker's transactions -----

  /** Taking up a run: a PENDING current run becomes RUNNING and its node ANALYZING, a RUNNING one is left, a run that is not current is dropped. */
  lemma ClaimExactly(db: Db, r: RunId)
    requires RunsInv(db)
    ensures var to := MarkRunning(db, r);
            && (to.Some? <==> Known(db, r) && (Current(db, r) ==> db.runs[r].status == Pending || db.runs[r].status == Running))
            && (to.Some? ==>
                  if !Current(db, r) then Dropped(db, to.value, Some(r))
                  else if db.runs[r].status == Running then to.value == db
                  else MovesTo(db, to.value, r, db.runs[r].(status := Running), Analyzing))
  {
  }

  /** Giving up a run: an unfinished current run and its node FAIL, with the retrieval marked failed unless it was stored; a failed one is left, a completed one cannot fail. */
  lemma FailExactly(db: Db, r: RunId)
    requires RunsInv(db)
    ensures var to := MarkFailed(db, r);
            && (to.Some? <==> Known(db, r) && (Current(db, r) ==>
                                                 db.runs[r].status == Pending || db.runs[r].status == Running || db.runs[r].status == Failed))
            && (to.Some? ==>
                  if !Current(db, r) then Dropped(db, to.value, Some(r))
                  else if db.runs[r].status == Failed then to.value == db
                  else MovesTo(db, to.value, r,
                               db.runs[r].(status := Failed, retrieval := if db.runs[r].retrieval.Retrieved? then db.runs[r].retrieval else RetrievalFailed),
                               NodeFailed))
  {
  }

  /** Storing a retrieval: once, for a current RUNNING run whose text is still the embedded one. */
  lemma StoreExactly(db: Db, r: RunId, count: nat, sameText: bool)
    ensures var to := StoreRetrieval(db, r, count, sameText);
            && (to.Some? <==> Known(db, r) && (db.runs[r].retrieval.Retrieved? || (db.runs[r].status == Running && Current(db, r) && sameText)))
            && (to.Some? ==>
                  if db.runs[r].retrieval.Retrieved? then to.value == db
                  else Rewritten(db, to.value, r, db.runs[r].(retrieval := Retrieved(count), rows := count)))
  {
  }

  /**
   Before the provider call: with no retrieval rows the run completes with a
   skipped model and no call; with some, a run that has not called yet records the
   call; one whose call is out or done is left, one that is not current dropped.
   */
  lemma CallExactly(db: Db, r: RunId)
    requires RunsInv(db)
    ensures var (to, call) := ModelClaim(db, r);
            && (to.Some? <==> Known(db, r) && (Current(db, r) ==>
                                 db.runs[r].status == Completed || (db.runs[r].status == Running && db.runs[r].retrieval.Retrieved?)))
            && (to.Some? ==>
                  if db.runs[r].status == Completed then to.value == db && !call
                  else if !Current(db, r) then Dropped(db, to.value, Some(r)) && !call
                  else if db.runs[r].rows == 0 then
                    MovesTo(db, to.value, r, db.runs[r].(status := Completed, model := ModelSkipped), Analyzed) && !call
                  else if db.runs[r].model == ModelRunning then to.value == db && !call
                  else Rewritten(db, to.value, r, db.runs[r].(model := ModelRunning, calls := db.runs[r].calls + 1)) && call)
            && (to.None? ==> !call)
  {
    if r in db.runs {
      assert RunOk(db.runs[r]);
    }
  }

  /** After the provider answered: a valid answer to the call that is out completes run and node with one result and one candidate more. */
  lemma SaveExactly(db: Db, r: RunId, valid: bool)
    requires RunsInv(db)
    ensures var to := ModelPersist(db, r, valid);
            && (to.Some? <==> Known(db, r) && (Current(db, r) ==> db.runs[r].status == Running && db.runs[r].model == ModelRunning && valid))
            && (to.Some? ==>
                  if !Current(db, r) then Dropped(db, to.value, Some(r))
                  else MovesTo(db, to.value, r,
                               db.runs[r].(status := Completed, model := ModelSucceeded, results := db.runs[r].results + 1, candidates := db.runs[r].candidates + 1),
                               Analyzed))
  {
    if r in db.runs {
      assert RunOk(db.runs[r]);
    }
  }

  /** After a failed call: an unfinished current run and its node FAIL with the model stage; one that succeeded meanwhile is left. */
  lemma FailModelExactly(db: Db, r: RunId)
    requires RunsInv(db) && Known(db, r)
    ensures var to := ModelFail(db, r);
            && (!Current(db, r) ==> to.Some? && Dropped(db, to.value, Some(r)))
            && (Current(db, r) && db.runs[r].model == ModelSucceeded ==> to == Some(db))
            && (Current(db, r) && (db.runs[r].status == Pending || db.runs[r].status == Running) ==>
                  to.Some? && MovesTo(db, to.value, r, db.runs[r].(status := Failed, model := ModelFailed), NodeFailed))
            && (Current(db, r) && (db.runs[r].status == Completed || db.runs[r].status == Superseded) && db.runs[r].model != ModelSucceeded ==> to.None?)
  {
    assert RunOk(db.runs[r]);
    CurrentStatus(db, r);
    hide RunsInv;
  }

  /** The node shows the status of a live current run. */
  lemma CurrentStatus(db: Db, r: RunId)
    requires RunsInv(db) && Known(db, r)
    ensures Current(db, r) && Live(db.runs[r]) ==> db.nodes[db.runs[r].node].status == NodeStatusFor(db.runs[r].status)
  {
  }
}

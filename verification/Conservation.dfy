/**
 No event the queue ever admitted is lost without a trace: over every run it is
 still queued, or acked, or dead-lettered, or among the dead letters retention
 or an operator removed.
 */
module Conservation {
  import opened Prelude
  import opened Tables
  import opened Retention
  import opened Daemon

  ghost predicate Tracked(s: State, id: string) {
    || InQueue(s.tables.pending, id)
    || id in s.log.acked
    || DeadLettered(s.tables.dead, id)
    || id in s.log.dropped
  }

  /** A copy of a row taken earlier: its id was used for this event and, if still present, still is. */
  ghost predicate RowKnown(t: Tables, r: PendingRow) {
    && r.rowId < t.nextRow
    && RowWellFormed(r)
    && (forall p :: p in t.pending && p.rowId == r.rowId ==> p.eventId == r.eventId)
  }

  ghost predicate CopiesKnown(s: State) {
    && (forall t, r :: IsDrain(s, t) && r in s.tasks[t].rows ==> RowKnown(s.tables, r))
    && (forall a :: a in s.waiters && s.waiters[a].row.Some? ==> RowKnown(s.tables, s.waiters[a].row.value))
  }

  /** A drain about to remove an exhausted row has already dead-lettered its event. */
  ghost predicate RemovalsRecorded(s: State) {
    forall t :: IsDrain(s, t) && s.tasks[t].phase.Removing? ==>
      s.tasks[t].rows != []
      && (DeadLettered(s.tables.dead, s.tasks[t].rows[0].eventId) || s.tasks[t].rows[0].eventId in s.log.dropped)
  }

  ghost predicate Conserved(s: State) {
    forall id :: id in s.log.admitted ==> Tracked(s, id)
  }

  ghost predicate Inv(s: State) {
    ValidTables(s.tables) && CopiesKnown(s) && RemovalsRecorded(s) && Conserved(s)
  }

  // ── how tables evolve ──────────────────────────────────────────────────────

  /** Row ids are never reused: a row is either an old row with its old event or a brand-new id. */
  ghost predicate Evolves(t: Tables, t': Tables) {
    && t.nextRow <= t'.nextRow
    && (forall p' :: p' in t'.pending && p'.rowId < t.nextRow ==>
          exists p :: p in t.pending && p.rowId == p'.rowId && p.eventId == p'.eventId)
  }

  lemma KnownStays(t: Tables, t': Tables, r: PendingRow)
    requires Evolves(t, t') && RowKnown(t, r)
    ensures RowKnown(t', r)
  {
  }

  lemma EnqueueEvolves(t: Tables, lim: Limits, e: Event, destination: Option<string>, now: real)
    requires ValidTables(t)
    ensures Evolves(t, Enqueue(t, lim, e, destination, now))
    ensures forall id :: InQueue(t.pending, id) ==> InQueue(Enqueue(t, lim, e, destination, now).pending, id)
    ensures Enqueue(t, lim, e, destination, now) != t ==>
              InQueue(Enqueue(t, lim, e, destination, now).pending, e.id)
    ensures Enqueue(t, lim, e, destination, now).dead == t.dead
  {
    var t' := Enqueue(t, lim, e, destination, now);
    forall id | InQueue(t.pending, id) ensures InQueue(t'.pending, id) {
      var i :| 0 <= i < |t.pending| && t.pending[i].eventId == id;
      assert t'.pending[i].eventId == id;
    }
    if t' != t { assert t'.pending[|t.pending|].eventId == e.id; }
  }

  lemma {:induction false} EnqueueAllEvolves(t: Tables, lim: Limits, e: Event, names: seq<string>, now: real)
    requires ValidTables(t)
    ensures var t' := EnqueueAll(t, lim, e, names, now);
      && ValidTables(t') && Evolves(t, t') && t'.dead == t.dead
      && (forall id :: InQueue(t.pending, id) ==> InQueue(t'.pending, id))
      && (t' != t ==> InQueue(t'.pending, e.id))
    decreases |names|
  {
    if names != [] {
      var mid := Enqueue(t, lim, e, Some(names[0]), now);
      EnqueueEvolves(t, lim, e, Some(names[0]), now);
      EnqueueValid(t, lim, e, Some(names[0]), now);
      EnqueueAllEvolves(mid, lim, e, names[1..], now);
    }
  }

  lemma ClaimedKnown(t: Tables, name: string, now: real, k: nat)
    requires ValidTables(t) && k < |Claim(t, name, now).1|
    ensures RowKnown(Claim(t, name, now).0, Claim(t, name, now).1[k])
  {
    var (t', rows) := Claim(t, name, now);
    var chosen := Selected(t.pending, name, now, CLAIM_LIMIT);
    assert chosen[k] in chosen && chosen[k] in t.pending;
    forall p' | p' in t'.pending && p'.rowId == rows[k].rowId ensures p'.eventId == rows[k].eventId {
      var i :| 0 <= i < |t'.pending| && t'.pending[i] == p';
      SameIdSameRow(t.pending, t.pending[i], chosen[k]);
    }
  }

  lemma ClaimEvolves(t: Tables, name: string, now: real)
    requires ValidTables(t)
    ensures Evolves(t, Claim(t, name, now).0)
    ensures forall id :: InQueue(t.pending, id) ==> InQueue(Claim(t, name, now).0.pending, id)
    ensures forall r :: r in Claim(t, name, now).1 ==> RowKnown(Claim(t, name, now).0, r)
  {
    var (t', rows) := Claim(t, name, now);
    forall i | 0 <= i < |t'.pending|
      ensures t'.pending[i].rowId == t.pending[i].rowId && t'.pending[i].eventId == t.pending[i].eventId
      ensures t.pending[i] in t.pending
    {
    }
    forall id | InQueue(t.pending, id) ensures InQueue(t'.pending, id) {
      var i :| 0 <= i < |t.pending| && t.pending[i].eventId == id;
      assert t'.pending[i].eventId == id;
    }
    forall r | r in rows ensures RowKnown(t', r) {
      var k :| 0 <= k < |rows| && rows[k] == r;
      ClaimedKnown(t, name, now, k);
    }
  }

  /** Deleting by row id takes away one event at most, the one the id was used for. */
  lemma RemoveEvolves(t: Tables, r: PendingRow)
    requires ValidTables(t) && RowKnown(t, r)
    ensures Evolves(t, RemovePending(t, r.rowId))
    ensures forall id :: InQueue(t.pending, id) && id != r.eventId ==>
              InQueue(RemovePending(t, r.rowId).pending, id)
  {
    var t' := RemovePending(t, r.rowId);
    assert forall p' :: p' in t'.pending ==> p' in t.pending;
    forall id | InQueue(t.pending, id) && id != r.eventId ensures InQueue(t'.pending, id) {
      OthersQueued(t, r, id);
    }
  }

  lemma OthersQueued(t: Tables, r: PendingRow, id: string)
    requires RowKnown(t, r) && InQueue(t.pending, id) && id != r.eventId
    ensures InQueue(RemovePending(t, r.rowId).pending, id)
  {
    var t' := RemovePending(t, r.rowId);
    var i :| 0 <= i < |t.pending| && t.pending[i].eventId == id;
    assert t.pending[i] in t'.pending;
    var j :| 0 <= j < |t'.pending| && t'.pending[j] == t.pending[i];
  }

  lemma SweepEvolves(t: Tables, lim: Limits, now: real, ids: set<string>, letters: set<nat>)
    requires ValidTables(t)
    ensures var t' := Pruned(t, lim, now, ids, letters);
      && Evolves(t, t')
      && (forall id :: InQueue(t.pending, id) ==> InQueue(t'.pending, id) || DeadLettered(t'.dead, id))
  {
    var t' := Pruned(t, lim, now, ids, letters);
    forall id | InQueue(t.pending, id)
      ensures InQueue(t'.pending, id) || DeadLettered(t'.dead, id)
    {
      var i :| 0 <= i < |t.pending| && t.pending[i].eventId == id;
      var r := t.pending[i];
      if r.expiresAt <= now {
        assert r in Expired(t, now);
        var d := PruneKeepsPromotions(t, lim, now, ids, letters, r);
      } else {
        assert r in t'.pending;
        var j :| 0 <= j < |t'.pending| && t'.pending[j] == r;
      }
    }
  }

  // ── the invariant over one step ────────────────────────────────────────────

  /**
   Frame rule: if rows evolve, copies and pending removals are old ones or
   accounted for, and tracked events stay tracked, the invariant holds after.
   */
  lemma Frame(s: State, s': State)
    requires Inv(s) && ValidTables(s'.tables) && Evolves(s.tables, s'.tables)
    requires forall t, r :: IsDrain(s', t) && r in s'.tasks[t].rows ==>
               RowKnown(s'.tables, r) || (IsDrain(s, t) && r in s.tasks[t].rows)
    requires forall a :: a in s'.waiters && s'.waiters[a].row.Some? ==>
               RowKnown(s.tables, s'.waiters[a].row.value)
    requires forall t :: IsDrain(s', t) && s'.tasks[t].phase.Removing? ==>
               s'.tasks[t].rows != []
               && (DeadLettered(s'.tables.dead, s'.tasks[t].rows[0].eventId)
                   || s'.tasks[t].rows[0].eventId in s'.log.dropped)
    requires forall id :: Tracked(s, id) ==> Tracked(s', id)
    requires forall id :: id in s'.log.admitted ==> id in s.log.admitted || Tracked(s', id)
    ensures Inv(s')
  {
    forall t, r | IsDrain(s', t) && r in s'.tasks[t].rows ensures RowKnown(s'.tables, r) {
      if !RowKnown(s'.tables, r) { KnownStays(s.tables, s'.tables, r); }
    }
    forall a | a in s'.waiters && s'.waiters[a].row.Some? ensures RowKnown(s'.tables, s'.waiters[a].row.value) {
      KnownStays(s.tables, s'.tables, s'.waiters[a].row.value);
    }
  }

  /** Letters that leave the table are noted, so whatever was recorded stays recorded. */
  lemma DroppedKept(s: State, s': State)
    requires s'.log.dropped == s.log.dropped + DroppedIds(s.tables.dead, s'.tables.dead)
    requires forall d :: d in s.tables.dead && d in s'.tables.dead ==>
               s'.tables.dead[d].kind == s.tables.dead[d].kind && s'.tables.dead[d].refId == s.tables.dead[d].refId
    ensures forall id :: DeadLettered(s.tables.dead, id) || id in s.log.dropped ==>
              DeadLettered(s'.tables.dead, id) || id in s'.log.dropped
  {
    forall id | DeadLettered(s.tables.dead, id) ensures DeadLettered(s'.tables.dead, id) || id in s'.log.dropped {
      var d :| d in s.tables.dead && s.tables.dead[d].kind == NextSession && s.tables.dead[d].refId == id;
      if d in s'.tables.dead { assert s'.tables.dead[d].refId == id; }
    }
  }

  lemma AddDeadKeeps(t: Tables, d: DeadRow)
    requires ValidTables(t) && (d.kind == NextSession ==> d.refId == d.event.id)
    ensures ValidTables(AddDead(t, d)) && Evolves(t, AddDead(t, d))
    ensures forall id :: DeadLettered(t.dead, id) ==> DeadLettered(AddDead(t, d).dead, id)
    ensures d.kind == NextSession ==> DeadLettered(AddDead(t, d).dead, d.refId)
  {
    var t' := AddDead(t, d);
    assert t'.dead[t.nextDead] == d;
    forall id | DeadLettered(t.dead, id) ensures DeadLettered(t'.dead, id) {
      var k :| k in t.dead && t.dead[k].kind == NextSession && t.dead[k].refId == id;
      assert t'.dead[k].refId == id;
    }
  }

  lemma StepFanFinish(env: Env, s: State, t: nat, now: real)
    requires Inv(s) && Enabled(env, s, FanFinish(t, now))
    ensures Inv(DoFanFinish(env, s, t, now))
  {
    var task := s.tasks[t];
    EnqueueAllEvolves(s.tables, env.lim, task.event, UntakenNames(task.dests, task.done), now);
    Frame(s, DoFanFinish(env, s, t, now));
  }

  /** Steps that leave the queue, its history and every claimed copy as they are. */
  ghost predicate Quiet(s: State, s': State) {
    && s'.tables.pending == s.tables.pending && s'.tables.dead == s.tables.dead
    && s'.tables.nextRow == s.tables.nextRow && s'.tables.nextDead == s.tables.nextDead
    && s'.log.admitted == s.log.admitted && s'.log.acked == s.log.acked && s'.log.dropped == s.log.dropped
    && (forall t :: IsDrain(s', t) ==>
          (s'.tasks[t].rows == [] && !s'.tasks[t].phase.Removing?)
          || (IsDrain(s, t)
              && (forall r :: r in s'.tasks[t].rows ==> r in s.tasks[t].rows)
              && (s'.tasks[t].phase.Removing? ==> s.tasks[t].phase.Removing? && s'.tasks[t].rows == s.tasks[t].rows)))
    && (forall a :: a in s'.waiters && s'.waiters[a].row.Some? ==>
          (a in s.waiters && s'.waiters[a] == s.waiters[a])
          || (exists t :: IsDrain(s, t) && s'.waiters[a].row.value in s.tasks[t].rows))
  }

  lemma QuietKeeps(s: State, s': State)
    requires Inv(s) && Quiet(s, s')
    ensures Inv(s')
  {
    Frame(s, s');
  }

  lemma QuietFanout(env: Env, s: State, l: Label)
    requires Enabled(env, s, l) && (l.FanNext? || l.FanSent? || l.FanFailed?)
    ensures Quiet(s, Next(env, s, l))
  {
  }

  lemma QuietDrain(env: Env, s: State, l: Label)
    requires Enabled(env, s, l) && (l.DrainStart? || l.DrainSent? || l.DrainFailed?)
    ensures Quiet(s, Next(env, s, l))
  {
    if l.DrainSent? {
      assert s.tasks[l.t].rows[0] in s.tasks[l.t].rows;
    }
  }

  lemma QuietSession(env: Env, s: State, l: Label)
    requires Enabled(env, s, l) && (l.HelloFrame? || l.Closed? || l.AckFrame?)
    ensures Quiet(s, Next(env, s, l))
  {
  }

  lemma QuietOther(env: Env, s: State, l: Label)
    requires Enabled(env, s, l)
    requires l.TaskEnds? || l.RedriveLoad? || l.Restart? || l.Ingest? || l.WaiterGivesUp?
    ensures Quiet(s, Next(env, s, l))
  {
  }

  lemma StepSubmit(env: Env, s: State, e: Event, now: real)
    requires Inv(s)
    ensures Inv(DoSubmit(env, s, e, now))
  {
    var s' := DoSubmit(env, s, e, now);
    if Addressed(env.cfg, e) == Addressing.Resolved([]) && Durable(env.cfg, e) {
      EnqueueEvolves(s.tables, env.lim, e, None, now);
      EnqueueValid(s.tables, env.lim, e, None, now);
      Frame(s, s');
    } else {
      assert Quiet(s, s');
      QuietKeeps(s, s');
    }
  }

  /** What a drain step that claims rows leaves behind. */
  ghost predicate Claimed(s: State, s': State, t: nat, name: string, now: real) {
    && IsDrain(s, t) && s.tasks[t].phase.Ready?
    && s'.tables == Claim(s.tables, name, now).0
    && s'.tasks.Keys == s.tasks.Keys && IsDrain(s', t)
    && s'.tasks[t].rows == Claim(s.tables, name, now).1 && s'.tasks[t].phase.Ready?
    && (forall u :: u in s.tasks && u != t ==> s'.tasks[u] == s.tasks[u])
    && s'.waiters == s.waiters
    && s'.log.admitted == s.log.admitted && s'.log.acked == s.log.acked && s'.log.dropped == s.log.dropped
  }

  lemma ClaimedKeeps(s: State, s': State, t: nat, name: string, now: real)
    requires Inv(s) && Claimed(s, s', t, name, now)
    ensures Inv(s')
  {
    ClaimEvolves(s.tables, name, now);
    ClaimValid(s.tables, name, now);
    Frame(s, s');
  }

  lemma DrainNameClaims(env: Env, s: State, t: nat, now: real)
    requires Enabled(env, s, DrainName(t, now))
    ensures var s' := DoDrainName(env, s, t, now);
      Quiet(s, s') || Claimed(s, s', t, s.tasks[t].names[0], now)
  {
  }

  lemma StepDrainName(env: Env, s: State, t: nat, now: real)
    requires Inv(s) && Enabled(env, s, DrainName(t, now))
    ensures Inv(DoDrainName(env, s, t, now))
  {
    var s' := DoDrainName(env, s, t, now);
    DrainNameClaims(env, s, t, now);
    if Quiet(s, s') { QuietKeeps(s, s'); } else { ClaimedKeeps(s, s', t, s.tasks[t].names[0], now); }
  }

  /** One more letter; rows, waiters and history as before; a removal that starts is for the event the letter names. */
  ghost predicate Buries(s: State, s': State, d: DeadRow) {
    && s'.tables == AddDead(s.tables, d) && (d.kind == NextSession ==> d.refId == d.event.id)
    && s'.waiters == s.waiters
    && s'.log.admitted == s.log.admitted && s'.log.acked == s.log.acked && s'.log.dropped == s.log.dropped
    && (forall u :: IsDrain(s', u) ==> IsDrain(s, u) && s'.tasks[u].rows == s.tasks[u].rows)
    && (forall u :: IsDrain(s', u) && s'.tasks[u].phase.Removing? && !s.tasks[u].phase.Removing? ==>
          s'.tasks[u].rows != [] && d.kind == NextSession && d.refId == s'.tasks[u].rows[0].eventId)
  }

  lemma BuriesKeeps(s: State, s': State, d: DeadRow)
    requires Inv(s) && Buries(s, s', d)
    ensures Inv(s')
  {
    AddDeadKeeps(s.tables, d);
    assert RemovalsRecorded(s');
    Frame(s, s');
  }

  lemma DrainRowBuries(env: Env, s: State, t: nat, now: real)
    requires Inv(s) && Enabled(env, s, DrainRow(t, now)) && s.tasks[t].rows[0].attempts > env.lim.maxAttempts
    ensures Inv(DoDrainRow(env, s, t, now))
  {
    var row := s.tasks[t].rows[0];
    assert RowKnown(s.tables, row);
    BuriesKeeps(s, DoDrainRow(env, s, t, now), Exhausted(row, now));
  }

  lemma StepDrainRow(env: Env, s: State, t: nat, now: real)
    requires Inv(s) && Enabled(env, s, DrainRow(t, now))
    ensures Inv(DoDrainRow(env, s, t, now))
  {
    if s.tasks[t].rows[0].attempts > env.lim.maxAttempts {
      DrainRowBuries(env, s, t, now);
    } else {
      assert Quiet(s, DoDrainRow(env, s, t, now));
      QuietKeeps(s, DoDrainRow(env, s, t, now));
    }
  }

  lemma StepDrainRemove(env: Env, s: State, t: nat)
    requires Inv(s) && Enabled(env, s, DrainRemove(t))
    ensures Inv(DoDrainRemove(s, t))
  {
    var row := s.tasks[t].rows[0];
    assert RowKnown(s.tables, row);
    RemoveEvolves(s.tables, row);
    RemovePendingValid(s.tables, row.rowId);
    Frame(s, DoDrainRemove(s, t));
  }

  lemma StepWaiterDone(env: Env, s: State, a: nat)
    requires Inv(s) && Enabled(env, s, WaiterDone(a))
    ensures Inv(DoWaiterDone(s, a))
  {
    if s.waiters[a].row.Some? {
      RemoveEvolves(s.tables, s.waiters[a].row.value);
      RemovePendingValid(s.tables, s.waiters[a].row.value.rowId);
    }
    Frame(s, DoWaiterDone(s, a));
  }

  lemma StepRedriveEnqueue(env: Env, s: State, t: nat, now: real)
    requires Inv(s) && Enabled(env, s, RedriveEnqueue(t, now))
    ensures Inv(DoRedriveEnqueue(env, s, t, now))
  {
    EnqueueEvolves(s.tables, env.lim, s.tasks[t].entry.event, None, now);
    EnqueueValid(s.tables, env.lim, s.tasks[t].entry.event, None, now);
    Frame(s, DoRedriveEnqueue(env, s, t, now));
  }

  lemma StepRedriveMark(env: Env, s: State, t: nat)
    requires Inv(s) && Enabled(env, s, RedriveMark(t))
    ensures Inv(DoRedriveMark(s, t))
  {
    var s' := DoRedriveMark(s, t);
    assert DroppedIds(s.tables.dead, s'.tables.dead) == {};
    DroppedKept(s, s');
    Frame(s, s');
  }

  lemma StepPurge(env: Env, s: State, cutoff: Option<real>, redrivenOnly: bool)
    requires Inv(s)
    ensures Inv(DoPurge(s, cutoff, redrivenOnly))
  {
    DroppedKept(s, DoPurge(s, cutoff, redrivenOnly));
    Frame(s, DoPurge(s, cutoff, redrivenOnly));
  }

  lemma StepSweep(env: Env, s: State, now: real, ids: set<string>, letters: set<nat>)
    requires Inv(s)
    ensures Inv(DoSweep(env, s, now, ids, letters))
  {
    var s' := DoSweep(env, s, now, ids, letters);
    SweepEvolves(s.tables, env.lim, now, ids, letters);
    PrunedValid(s.tables, env.lim, now, ids, letters);
    DroppedKept(s, s');
    Frame(s, s');
  }

  lemma StepRecord(env: Env, s: State, d: DeadRow)
    requires Inv(s) && Enabled(env, s, RecordDeadLetter(d))
    ensures Inv(Next(env, s, RecordDeadLetter(d)))
  {
    AddDeadKeeps(s.tables, d);
    Frame(s, Next(env, s, RecordDeadLetter(d)));
  }

  lemma StepQuiet(env: Env, s: State, l: Label)
    requires Inv(s) && Enabled(env, s, l)
    requires l.FanNext? || l.FanSent? || l.FanFailed? || l.DrainStart? || l.DrainSent? || l.DrainFailed? || l.HelloFrame?
             || l.Closed? || l.TaskEnds? || l.AckFrame? || l.WaiterGivesUp? || l.RedriveLoad? || l.Ingest? || l.Restart?
    ensures Inv(Next(env, s, l))
  {
    if l.FanNext? || l.FanSent? || l.FanFailed? { QuietFanout(env, s, l); }
    else if l.DrainStart? || l.DrainSent? || l.DrainFailed? { QuietDrain(env, s, l); }
    else if l.HelloFrame? || l.Closed? || l.AckFrame? { QuietSession(env, s, l); }
    else { QuietOther(env, s, l); }
    QuietKeeps(s, Next(env, s, l));
  }

  lemma StepStore(env: Env, s: State, l: Label)
    requires Inv(s) && Enabled(env, s, l)
    requires l.RedriveEnqueue? || l.RedriveMark? || l.RecordDeadLetter? || l.PurgeLetters? || l.Sweep?
    ensures Inv(Next(env, s, l))
  {
    match l
    case RedriveEnqueue(t, now) => StepRedriveEnqueue(env, s, t, now);
    case RedriveMark(t) => StepRedriveMark(env, s, t);
    case RecordDeadLetter(d) => StepRecord(env, s, d);
    case PurgeLetters(cutoff, redrivenOnly) => StepPurge(env, s, cutoff, redrivenOnly);
    case Sweep(now, ids, letters) => StepSweep(env, s, now, ids, letters);
  }

  lemma StepQueue(env: Env, s: State, l: Label)
    requires Inv(s) && Enabled(env, s, l)
    requires l.Submit? || l.FanFinish? || l.DrainName? || l.DrainRow? || l.DrainRemove? || l.WaiterDone?
    ensures Inv(Next(env, s, l))
  {
    match l
    case Submit(e, now) => StepSubmit(env, s, e, now);
    case FanFinish(t, now) => StepFanFinish(env, s, t, now);
    case DrainName(t, now) => StepDrainName(env, s, t, now);
    case DrainRow(t, now) => StepDrainRow(env, s, t, now);
    case DrainRemove(t) => StepDrainRemove(env, s, t);
    case WaiterDone(a) => StepWaiterDone(env, s, a);
  }

  lemma Step(env: Env, s: State, l: Label)
    requires Inv(s) && Enabled(env, s, l)
    ensures Inv(Next(env, s, l))
  {
    if l.Submit? || l.FanFinish? || l.DrainName? || l.DrainRow? || l.DrainRemove? || l.WaiterDone? { StepQueue(env, s, l); }
    else if l.RedriveEnqueue? || l.RedriveMark? || l.RecordDeadLetter? || l.PurgeLetters? || l.Sweep? { StepStore(env, s, l); }
    else { StepQuiet(env, s, l); }
  }

  lemma {:induction false} RunInv(env: Env, run: seq<Label>)
    requires IsRun(env, Initial, run)
    ensures Inv(Final(env, Initial, run))
  {
    if run != [] {
      RunInv(env, run[..|run| - 1]);
      Step(env, Final(env, Initial, run[..|run| - 1]), run[|run| - 1]);
    }
  }

  /** Conservation over every run. */
  lemma NothingLost(env: Env, run: seq<Label>, id: string)
    requires IsRun(env, Initial, run)
    requires id in Final(env, Initial, run).log.admitted
    ensures Tracked(Final(env, Initial, run), id)
  {
    RunInv(env, run);
  }

  // ── stale acks ─────────────────────────────────────────────────────────────

  /** Steps of live tasks that only look at the queue. */
  lemma TaskLeavesQueue(env: Env, s: State, l: Label)
    requires Enabled(env, s, l)
    requires l.FanNext? || l.FanSent? || l.FanFailed? || l.DrainStart? || l.DrainRow? || l.DrainSent? || l.DrainFailed? || l.TaskEnds?
    ensures Next(env, s, l).tables.pending == s.tables.pending && Next(env, s, l).tables.nextRow == s.tables.nextRow
  {
  }

  lemma SessionLeavesQueue(env: Env, s: State, l: Label)
    requires Enabled(env, s, l)
    requires l.HelloFrame? || l.Closed? || l.AckFrame? || l.WaiterGivesUp? || l.Restart?
    ensures Next(env, s, l).tables == s.tables
  {
  }

  lemma StoreLeavesQueue(env: Env, s: State, l: Label)
    requires Enabled(env, s, l)
    requires l.Ingest? || l.RedriveLoad? || l.RedriveMark? || l.RecordDeadLetter? || l.PurgeLetters?
    ensures Next(env, s, l).tables.pending == s.tables.pending && Next(env, s, l).tables.nextRow == s.tables.nextRow
  {
  }

  /** Steps after which the queue is as it was. */
  predicate LooksOnly(l: Label) {
    || l.FanNext? || l.FanSent? || l.FanFailed? || l.DrainStart? || l.DrainRow? || l.DrainSent? || l.DrainFailed? || l.TaskEnds?
    || l.HelloFrame? || l.Closed? || l.AckFrame? || l.WaiterGivesUp? || l.Restart?
    || l.Ingest? || l.RedriveLoad? || l.RedriveMark? || l.RecordDeadLetter? || l.PurgeLetters?
  }

  lemma QueueUntouched(env: Env, s: State, l: Label)
    requires Enabled(env, s, l) && LooksOnly(l)
    ensures Next(env, s, l).tables.pending == s.tables.pending && Next(env, s, l).tables.nextRow == s.tables.nextRow
  {
    if l.HelloFrame? || l.Closed? || l.AckFrame? || l.WaiterGivesUp? || l.Restart? { SessionLeavesQueue(env, s, l); }
    else if l.Ingest? || l.RedriveLoad? || l.RedriveMark? || l.RecordDeadLetter? || l.PurgeLetters? { StoreLeavesQueue(env, s, l); }
    else { TaskLeavesQueue(env, s, l); }
  }

  lemma FinishEvolves(env: Env, s: State, t: nat, now: real)
    requires ValidTables(s.tables) && Enabled(env, s, FanFinish(t, now))
    ensures Evolves(s.tables, DoFanFinish(env, s, t, now).tables)
  {
    EnqueueAllEvolves(s.tables, env.lim, s.tasks[t].event, UntakenNames(s.tasks[t].dests, s.tasks[t].done), now);
  }

  lemma SubmitEvolves(env: Env, s: State, e: Event, now: real)
    requires ValidTables(s.tables)
    ensures Evolves(s.tables, DoSubmit(env, s, e, now).tables)
  {
    EnqueueEvolves(s.tables, env.lim, e, None, now);
  }

  lemma RequeueEvolves(env: Env, s: State, t: nat, now: real)
    requires ValidTables(s.tables) && Enabled(env, s, RedriveEnqueue(t, now))
    ensures Evolves(s.tables, DoRedriveEnqueue(env, s, t, now).tables)
  {
    EnqueueEvolves(s.tables, env.lim, s.tasks[t].entry.event, None, now);
  }

  lemma RemoveStepEvolves(env: Env, s: State, l: Label)
    requires Inv(s) && Enabled(env, s, l) && (l.DrainRemove? || l.WaiterDone?)
    ensures Evolves(s.tables, Next(env, s, l).tables)
  {
    if l.DrainRemove? {
      assert RowKnown(s.tables, s.tasks[l.t].rows[0]);
      RemoveEvolves(s.tables, s.tasks[l.t].rows[0]);
    } else if s.waiters[l.ack].row.Some? {
      RemoveEvolves(s.tables, s.waiters[l.ack].row.value);
    }
  }

  lemma StepEvolves(env: Env, s: State, l: Label)
    requires Inv(s) && Enabled(env, s, l)
    ensures Evolves(s.tables, Next(env, s, l).tables)
  {
    if LooksOnly(l) { QueueUntouched(env, s, l); }
    else if l.DrainName? { ClaimEvolves(s.tables, s.tasks[l.t].names[0], l.now); }
    else if l.Sweep? { SweepEvolves(s.tables, env.lim, l.now, l.ids, l.letters); }
    else if l.DrainRemove? || l.WaiterDone? { RemoveStepEvolves(env, s, l); }
    else if l.Submit? { SubmitEvolves(env, s, l.event, l.now); }
    else if l.FanFinish? { FinishEvolves(env, s, l.t, l.now); }
    else { RequeueEvolves(env, s, l.t, l.now); }
  }

  ghost predicate RowGone(t: Tables, rowId: nat) {
    rowId < t.nextRow && forall p :: p in t.pending ==> p.rowId != rowId
  }

  lemma {:induction false} GoneForGood(env: Env, s: State, run: seq<Label>, rowId: nat)
    requires Inv(s) && IsRun(env, s, run) && RowGone(s.tables, rowId)
    ensures Inv(Final(env, s, run)) && RowGone(Final(env, s, run).tables, rowId)
  {
    if run != [] {
      var front, l := run[..|run| - 1], run[|run| - 1];
      GoneForGood(env, s, front, rowId);
      Step(env, Final(env, s, front), l);
      StepEvolves(env, Final(env, s, front), l);
    }
  }

  lemma {:induction false} WithoutAbsent(rows: seq<PendingRow>, rowId: nat)
    requires forall p :: p in rows ==> p.rowId != rowId
    ensures WithoutRow(rows, rowId) == rows
  {
    if rows != [] {
      WithoutAbsent(rows[..|rows| - 1], rowId);
      assert rows == rows[..|rows| - 1] + [rows[|rows| - 1]];
    }
  }

  /**
   Once a row has left the queue, whatever happens next - including the same
   event being queued again - a late ack for the old row removes nothing.
   */
  lemma StaleAckHarmless(env: Env, s: State, run: seq<Label>, a: nat)
    requires Inv(s) && IsRun(env, s, run)
    requires var s' := Final(env, s, run);
      && Enabled(env, s', WaiterDone(a)) && s'.waiters[a].row.Some?
      && RowGone(s.tables, s'.waiters[a].row.value.rowId)
    ensures Next(env, Final(env, s, run), WaiterDone(a)).tables.pending == Final(env, s, run).tables.pending
  {
    var s' := Final(env, s, run);
    var rowId := s'.waiters[a].row.value.rowId;
    GoneForGood(env, s, run, rowId);
    WithoutAbsent(s'.tables.pending, rowId);
  }

  // ── a sweep cut short ──────────────────────────────────────────────────────

  /** The tables if the process dies after the sweep has committed and written `j` promotions. */
  function CutShort(t: Tables, lim: Limits, now: real, ids: set<string>, letters: set<nat>, j: nat): Tables
    requires j <= |Expired(t, now)|
  {
    Promote(Swept(t, lim, now, ids, letters), Expired(t, now)[..j], now)
  }

  lemma PromoteRecords(t: Tables, rows: seq<PendingRow>, now: real, id: string)
    requires forall d :: d in t.dead ==> d < t.nextDead
    ensures DeadLettered(Promote(t, rows, now).dead, id) <==> DeadLettered(t.dead, id) || InQueue(rows, id)
  {
    var t' := Promote(t, rows, now);
    if DeadLettered(t'.dead, id) {
      var d :| d in t'.dead && t'.dead[d].kind == NextSession && t'.dead[d].refId == id;
      if d in Promotions(t.nextDead, rows, now) {
        assert rows[d - t.nextDead].eventId == id;
      }
    }
    if DeadLettered(t.dead, id) {
      var d :| d in t.dead && t.dead[d].kind == NextSession && t.dead[d].refId == id;
      assert t'.dead[d] == t.dead[d];
    }
    if InQueue(rows, id) {
      var i :| 0 <= i < |rows| && rows[i].eventId == id;
      var d := t.nextDead + i;
      assert Promotions(t.nextDead, rows, now)[d] == PromotedAt(t.nextDead, rows, d, now);
      assert t'.dead[d].refId == id;
    }
  }

  /** A row that expires leaves the queue, event and all. */
  lemma ExpiredNotQueued(t: Tables, now: real, r: PendingRow)
    requires ValidTables(t) && r in Expired(t, now)
    ensures !InQueue(Unexpired(t, now), r.eventId)
  {
    var kept := Unexpired(t, now);
    if InQueue(kept, r.eventId) {
      var k :| 0 <= k < |kept| && kept[k].eventId == r.eventId;
      assert kept[k] in kept;
      SameEventSameRow(t.pending, kept[k], r);
      assert false;
    }
  }

  /**
   The sweep deletes expired rows in one commit and records them one by one
   afterwards: dying in between loses the event of an expired row exactly when
   its promotion was not yet written and no older dead letter names it.
   */
  lemma CutShortLoses(t: Tables, lim: Limits, now: real, ids: set<string>, letters: set<nat>, j: nat, i: nat)
    requires ValidTables(t) && j <= |Expired(t, now)| && i < |Expired(t, now)|
    ensures var t' := CutShort(t, lim, now, ids, letters, j);
      var id := Expired(t, now)[i].eventId;
      (InQueue(t'.pending, id) || DeadLettered(t'.dead, id))
        <==> i < j || DeadLettered(Swept(t, lim, now, ids, letters).dead, id)
  {
    var expired := Expired(t, now);
    ExpiredNotQueued(t, now, expired[i]);
    PromoteRecords(Swept(t, lim, now, ids, letters), expired[..j], now, expired[i].eventId);
    FilterKeepsOrder(t.pending, (r: PendingRow) => r.expiresAt <= now);
    if i < j {
      assert expired[..j][i].eventId == expired[i].eventId;
    } else {
      forall k | 0 <= k < j ensures expired[..j][k].eventId != expired[i].eventId {
        assert expired[..j][k] == expired[k];
      }
    }
  }

  lemma SameEventSameRow(rows: seq<PendingRow>, a: PendingRow, b: PendingRow)
    requires OneRowPerEvent(rows) && a in rows && b in rows && a.eventId == b.eventId
    ensures a == b
  {
    var i :| 0 <= i < |rows| && rows[i] == a;
    var j :| 0 <= j < |rows| && rows[j] == b;
    assert !(i < j) && !(j < i);
  }

  /** A table with one expired row, killed after the sweep's commit and before its first promotion: the event is nowhere. */
  lemma KilledBeforePromotion(row: PendingRow, lim: Limits, now: real)
    requires RowWellFormed(row) && row.rowId == 0 && row.expiresAt <= now
    ensures var t := EmptyTables.(pending := [row], nextRow := 1);
      && ValidTables(t) && LegalVictims(t, lim, now, {}, {})
      && |Expired(t, now)| == 1
      && !InQueue(CutShort(t, lim, now, {}, {}, 0).pending, row.eventId)
      && !DeadLettered(CutShort(t, lim, now, {}, {}, 0).dead, row.eventId)
  {
    var t := EmptyTables.(pending := [row], nextRow := 1);
    assert t.pending[..0] == [];
    assert Expired(t, now) == [row];
    CutShortLoses(t, lim, now, {}, {}, 0, 0);
  }
}

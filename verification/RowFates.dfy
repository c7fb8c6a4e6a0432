/**
 Row by row: what became of every row id the queue ever issued. An event id may
 be queued many times; a row id is issued once.
 */
module RowFates {
  import opened Prelude
  import opened Tables
  import opened Retention
  import opened Daemon
  import Conservation
  import FanOut
  import Subscribers

  ghost predicate HasRow(t: Tables, rowId: nat) {
    exists r :: r in t.pending && r.rowId == rowId
  }

  /** Every row is still there under its id, and every id newly issued is there. */
  ghost predicate RowsKept(t: Tables, t': Tables) {
    && (forall id: nat :: HasRow(t, id) ==> HasRow(t', id))
    && (forall id: nat :: t.nextRow <= id < t'.nextRow ==> HasRow(t', id))
  }

  lemma EnqueueKeeps(t: Tables, lim: Limits, e: Event, destination: Option<string>, now: real)
    ensures RowsKept(t, Enqueue(t, lim, e, destination, now))
  {
    var t' := Enqueue(t, lim, e, destination, now);
    forall id: nat | HasRow(t, id) || t.nextRow <= id < t'.nextRow ensures HasRow(t', id) {
      if HasRow(t, id) {
        var r :| r in t.pending && r.rowId == id;
        assert r in t'.pending;
      } else {
        assert NewRow(t, lim, e, destination, now) in t'.pending;
      }
    }
  }

  lemma {:induction false} EnqueueAllKeeps(t: Tables, lim: Limits, e: Event, names: seq<string>, now: real)
    ensures RowsKept(t, EnqueueAll(t, lim, e, names, now))
    decreases |names|
  {
    if names != [] {
      EnqueueKeeps(t, lim, e, Some(names[0]), now);
      EnqueueAllKeeps(Enqueue(t, lim, e, Some(names[0]), now), lim, e, names[1..], now);
    }
  }

  lemma ClaimKeeps(t: Tables, name: string, now: real)
    ensures RowsKept(t, Claim(t, name, now).0)
  {
    var t' := Claim(t, name, now).0;
    forall id: nat | HasRow(t, id) ensures HasRow(t', id) {
      var i :| 0 <= i < |t.pending| && t.pending[i].rowId == id;
      assert t'.pending[i].rowId == id && t'.pending[i] in t'.pending;
    }
  }

  /** Steps that delete no row. */
  lemma StepKeeps(env: Env, s: State, l: Label)
    requires Enabled(env, s, l) && !l.DrainRemove? && !l.WaiterDone? && !l.Sweep?
    ensures RowsKept(s.tables, Next(env, s, l).tables)
  {
    if Conservation.LooksOnly(l) {
      Conservation.QueueUntouched(env, s, l);
    } else {
      match l
      case Submit(e, now) => EnqueueKeeps(s.tables, env.lim, e, None, now);
      case FanFinish(t, now) =>
        EnqueueAllKeeps(s.tables, env.lim, s.tasks[t].event, UntakenNames(s.tasks[t].dests, s.tasks[t].done), now);
      case RedriveEnqueue(t, now) => EnqueueKeeps(s.tables, env.lim, s.tasks[t].entry.event, None, now);
      case DrainName(t, now) => ClaimKeeps(s.tables, s.tasks[t].names[0], now);
    }
  }

  /** The step settles the row on its own subscriber's ack. */
  predicate AcksRow(s: State, l: Label, rowId: nat) {
    && l.WaiterDone? && l.ack in s.waiters && s.waiters[l.ack].row.Some?
    && s.waiters[l.ack].row.value.rowId == rowId
    && l.ack in s.reg.futures && s.reg.futures[l.ack] == Subscribers.Answered(true)
  }

  /** A row that leaves is acked through that very row, or its event has a dead letter, or had one retention took. */
  ghost predicate LeavesProperly(s: State, l: Label, s': State, rowId: nat) {
    forall r :: r in s.tables.pending && r.rowId == rowId ==>
      || AcksRow(s, l, rowId)
      || DeadLettered(s'.tables.dead, r.eventId)
      || r.eventId in s'.log.dropped
  }

  lemma OthersStay(t: Tables, rowId: nat)
    ensures forall r :: r in t.pending && r.rowId != rowId ==> HasRow(RemovePending(t, rowId), r.rowId)
  {
    forall r | r in t.pending && r.rowId != rowId ensures HasRow(RemovePending(t, rowId), r.rowId) {
      assert r in RemovePending(t, rowId).pending;
    }
  }

  /**
   The step takes the row out of the queue: its own subscriber's ack, the drain
   that gave it up, or a sweep at or after its expiry.
   */
  ghost predicate Takes(s: State, l: Label, rowId: nat) {
    || AcksRow(s, l, rowId)
    || (l.DrainRemove? && IsDrain(s, l.t) && s.tasks[l.t].rows != [] && s.tasks[l.t].rows[0].rowId == rowId)
    || (l.Sweep? && exists r :: r in s.tables.pending && r.rowId == rowId && r.expiresAt <= l.now)
  }

  lemma RemovedRow(t: Tables, rowId: nat)
    ensures !HasRow(RemovePending(t, rowId), rowId)
  {
  }

  lemma AckTakes(env: Env, s: State, a: nat, rowId: nat)
    requires Enabled(env, s, WaiterDone(a)) && HasRow(s.tables, rowId)
    ensures HasRow(DoWaiterDone(s, a).tables, rowId) <==> !Takes(s, WaiterDone(a), rowId)
  {
    if s.waiters[a].row.Some? {
      OthersStay(s.tables, s.waiters[a].row.value.rowId);
      RemovedRow(s.tables, s.waiters[a].row.value.rowId);
    }
  }

  lemma DrainTakes(env: Env, s: State, t: nat, rowId: nat)
    requires Enabled(env, s, DrainRemove(t)) && HasRow(s.tables, rowId)
    ensures HasRow(DoDrainRemove(s, t).tables, rowId) <==> !Takes(s, DrainRemove(t), rowId)
  {
    OthersStay(s.tables, s.tasks[t].rows[0].rowId);
    RemovedRow(s.tables, s.tasks[t].rows[0].rowId);
  }

  lemma SweepTakes(env: Env, s: State, now: real, ids: set<string>, letters: set<nat>, rowId: nat)
    requires ValidTables(s.tables) && HasRow(s.tables, rowId)
    ensures HasRow(DoSweep(env, s, now, ids, letters).tables, rowId) <==> !Takes(s, Sweep(now, ids, letters), rowId)
  {
    var s' := DoSweep(env, s, now, ids, letters);
    var r :| r in s.tables.pending && r.rowId == rowId;
    forall q | q in s.tables.pending && q.rowId == rowId ensures q == r {
      SameIdSameRow(s.tables.pending, q, r);
    }
    assert r in s'.tables.pending <==> r.expiresAt > now;
  }

  /** Exactly those three kinds of step take a queued row away. */
  lemma StepTakesIff(env: Env, s: State, l: Label, rowId: nat)
    requires ValidTables(s.tables) && Enabled(env, s, l) && HasRow(s.tables, rowId)
    ensures HasRow(Next(env, s, l).tables, rowId) <==> !Takes(s, l, rowId)
  {
    if l.WaiterDone? { AckTakes(env, s, l.ack, rowId); }
    else if l.DrainRemove? { DrainTakes(env, s, l.t, rowId); }
    else if l.Sweep? { SweepTakes(env, s, l.now, l.ids, l.letters, rowId); }
    else { StepKeeps(env, s, l); }
  }

  lemma DrainRemoves(env: Env, s: State, t: nat, rowId: nat)
    requires Conservation.Inv(s) && Enabled(env, s, DrainRemove(t)) && s.tasks[t].rows[0].rowId == rowId
    ensures LeavesProperly(s, DrainRemove(t), DoDrainRemove(s, t), rowId)
  {
    assert Conservation.RowKnown(s.tables, s.tasks[t].rows[0]);
  }

  lemma SweepRemoves(env: Env, s: State, now: real, ids: set<string>, letters: set<nat>, rowId: nat)
    requires ValidTables(s.tables) && Takes(s, Sweep(now, ids, letters), rowId)
    ensures LeavesProperly(s, Sweep(now, ids, letters), DoSweep(env, s, now, ids, letters), rowId)
  {
    var s' := DoSweep(env, s, now, ids, letters);
    var gone :| gone in s.tables.pending && gone.rowId == rowId && gone.expiresAt <= now;
    forall r | r in s.tables.pending && r.rowId == rowId ensures DeadLettered(s'.tables.dead, r.eventId) {
      SameIdSameRow(s.tables.pending, r, gone);
      assert r in Expired(s.tables, now);
      var d := PruneKeepsPromotions(s.tables, env.lim, now, ids, letters, r);
      assert s'.tables.dead[d] == Promotion(r, r.attempts, now);
    }
  }

  lemma TakesProperly(env: Env, s: State, l: Label, rowId: nat)
    requires Conservation.Inv(s) && Enabled(env, s, l) && Takes(s, l, rowId)
    ensures LeavesProperly(s, l, Next(env, s, l), rowId)
  {
    if l.DrainRemove? { DrainRemoves(env, s, l.t, rowId); }
    else if l.Sweep? { SweepRemoves(env, s, l.now, l.ids, l.letters, rowId); }
  }

  lemma StepIssues(env: Env, s: State, l: Label, rowId: nat)
    requires Enabled(env, s, l) && s.tables.nextRow <= rowId < Next(env, s, l).tables.nextRow
    ensures HasRow(Next(env, s, l).tables, rowId)
  {
    if !l.DrainRemove? && !l.WaiterDone? && !l.Sweep? { StepKeeps(env, s, l); }
  }

  /** A step only takes a row that was issued before it, and that row is gone after it. */
  lemma TakenIssued(env: Env, s: State, l: Label, rowId: nat)
    requires Conservation.Inv(s) && Enabled(env, s, l) && Takes(s, l, rowId)
    ensures rowId < s.tables.nextRow
  {
    if l.DrainRemove? {
      assert Conservation.RowKnown(s.tables, s.tasks[l.t].rows[0]);
    }
  }

  /** A missing row stays missing. */
  lemma StaysMissing(env: Env, s: State, l: Label, rowId: nat)
    requires Conservation.Inv(s) && Enabled(env, s, l)
    requires rowId < s.tables.nextRow && !HasRow(s.tables, rowId)
    ensures !HasRow(Next(env, s, l).tables, rowId)
  {
    Conservation.StepEvolves(env, s, l);
  }

  /** Step `k` of the run takes the row. */
  ghost predicate TakenAt(env: Env, run: seq<Label>, k: nat, rowId: nat)
    requires IsRun(env, Initial, run) && k < |run|
  {
    Takes(StateAt(env, Initial, run, k), run[k], rowId)
  }

  lemma {:induction false} RowIdsGrow(env: Env, run: seq<Label>, k: nat)
    requires IsRun(env, Initial, run) && k <= |run|
    ensures StateAt(env, Initial, run, k).tables.nextRow <= Final(env, Initial, run).tables.nextRow
    decreases |run|
  {
    if k < |run| {
      var front, n := run[..|run| - 1], |run| - 1;
      RowIdsGrow(env, front, k);
      Conservation.RunInv(env, front);
      Conservation.StepEvolves(env, Final(env, Initial, front), run[n]);
    }
  }

  lemma TakenProperly(env: Env, run: seq<Label>, k: nat, rowId: nat)
    requires IsRun(env, Initial, run) && k < |run| && TakenAt(env, run, k, rowId)
    ensures rowId < StateAt(env, Initial, run, k).tables.nextRow
    ensures LeavesProperly(StateAt(env, Initial, run, k), run[k], StateAt(env, Initial, run, k + 1), rowId)
  {
    PrefixRun(env, Initial, run, k);
    StepAt(env, Initial, run, k);
    Conservation.RunInv(env, run[..k]);
    TakenIssued(env, StateAt(env, Initial, run, k), run[k], rowId);
    TakesProperly(env, StateAt(env, Initial, run, k), run[k], rowId);
  }

  ghost predicate NeverTaken(env: Env, run: seq<Label>, rowId: nat)
    requires IsRun(env, Initial, run)
  {
    forall k: nat :: k < |run| ==> !TakenAt(env, run, k, rowId)
  }

  lemma NeverTakenSnoc(env: Env, run: seq<Label>, rowId: nat)
    requires IsRun(env, Initial, run) && run != []
    ensures NeverTaken(env, run, rowId)
        <==> NeverTaken(env, run[..|run| - 1], rowId)
             && !Takes(Final(env, Initial, run[..|run| - 1]), run[|run| - 1], rowId)
  {
    var front, n := run[..|run| - 1], |run| - 1;
    assert StateAt(env, Initial, run, n) == StateAt(env, Initial, front, n);
    assert forall k: nat :: k < n ==> (TakenAt(env, run, k, rowId) <==> TakenAt(env, front, k, rowId));
    assert TakenAt(env, run, n, rowId) <==> Takes(Final(env, Initial, front), run[n], rowId);
  }

  /** No step of a run takes a row that the run has not issued. */
  lemma UnissuedNotTaken(env: Env, run: seq<Label>, rowId: nat)
    requires IsRun(env, Initial, run) && Final(env, Initial, run).tables.nextRow <= rowId
    ensures NeverTaken(env, run, rowId)
  {
    forall k: nat | k < |run| ensures !TakenAt(env, run, k, rowId) {
      RowIdsGrow(env, run, k);
      if TakenAt(env, run, k, rowId) { TakenProperly(env, run, k, rowId); }
    }
  }

  lemma StillThere(env: Env, s: State, l: Label, rowId: nat)
    requires Conservation.Inv(s) && Enabled(env, s, l) && rowId < s.tables.nextRow
    ensures HasRow(Next(env, s, l).tables, rowId) <==> HasRow(s.tables, rowId) && !Takes(s, l, rowId)
  {
    if HasRow(s.tables, rowId) { StepTakesIff(env, s, l, rowId); } else { StaysMissing(env, s, l, rowId); }
  }

  lemma JustIssued(env: Env, s: State, l: Label, rowId: nat)
    requires Conservation.Inv(s) && Enabled(env, s, l)
    requires s.tables.nextRow <= rowId < Next(env, s, l).tables.nextRow
    ensures HasRow(Next(env, s, l).tables, rowId) && !Takes(s, l, rowId)
  {
    StepIssues(env, s, l, rowId);
    if Takes(s, l, rowId) { TakenIssued(env, s, l, rowId); }
  }

  lemma {:induction false} QueuedIffNeverTaken(env: Env, run: seq<Label>, rowId: nat)
    requires IsRun(env, Initial, run) && rowId < Final(env, Initial, run).tables.nextRow
    ensures HasRow(Final(env, Initial, run).tables, rowId) <==> NeverTaken(env, run, rowId)
  {
    if run != [] {
      var front, last := run[..|run| - 1], run[|run| - 1];
      var s := Final(env, Initial, front);
      Conservation.RunInv(env, front);
      NeverTakenSnoc(env, run, rowId);
      if rowId < s.tables.nextRow {
        QueuedIffNeverTaken(env, front, rowId);
        StillThere(env, s, last, rowId);
      } else {
        UnissuedNotTaken(env, front, rowId);
        JustIssued(env, s, last, rowId);
      }
    }
  }

  /**
   Over every run: a row id that was issued is still queued if and only if no
   step took it - in particular no ack for it - and a step that takes one takes
   it properly.
   */
  lemma IssuedRowAccounted(env: Env, run: seq<Label>, rowId: nat)
    requires IsRun(env, Initial, run) && rowId < Final(env, Initial, run).tables.nextRow
    ensures HasRow(Final(env, Initial, run).tables, rowId)
        <==> forall k: nat :: k < |run| ==> !TakenAt(env, run, k, rowId)
    ensures forall k: nat :: k < |run| && TakenAt(env, run, k, rowId) ==>
              LeavesProperly(StateAt(env, Initial, run, k), run[k], StateAt(env, Initial, run, k + 1), rowId)
  {
    QueuedIffNeverTaken(env, run, rowId);
    forall k: nat | k < |run| && TakenAt(env, run, k, rowId)
      ensures LeavesProperly(StateAt(env, Initial, run, k), run[k], StateAt(env, Initial, run, k + 1), rowId)
    {
      TakenProperly(env, run, k, rowId);
    }
  }

  // ── event by event ─────────────────────────────────────────────────────────

  lemma EnqueueQueues(t: Tables, lim: Limits, e: Event, destination: Option<string>, now: real, id: string)
    ensures InQueue(Enqueue(t, lim, e, destination, now).pending, id) ==>
              InQueue(t.pending, id) || (id == e.id && Enqueue(t, lim, e, destination, now) != t)
  {
    var rows := Enqueue(t, lim, e, destination, now).pending;
    if i :| 0 <= i < |rows| && rows[i].eventId == id {
      if i < |t.pending| {
        assert t.pending[i].eventId == id;
      }
    }
  }

  lemma EnqueueAllQueues(t: Tables, lim: Limits, e: Event, names: seq<string>, now: real, id: string)
    ensures InQueue(EnqueueAll(t, lim, e, names, now).pending, id) ==>
              InQueue(t.pending, id) || (id == e.id && EnqueueAll(t, lim, e, names, now) != t)
  {
    if names != [] {
      FanOut.FirstNameOnly(t, lim, e, names, now);
      EnqueueQueues(t, lim, e, Some(names[0]), now, id);
    }
  }

  lemma FewerQueued(rows: seq<PendingRow>, rows': seq<PendingRow>, id: string)
    requires forall r :: r in rows' ==> r in rows
    requires InQueue(rows', id)
    ensures InQueue(rows, id)
  {
    var i :| 0 <= i < |rows'| && rows'[i].eventId == id;
    assert rows'[i] in rows;
    var j :| 0 <= j < |rows| && rows[j] == rows'[i];
  }

  /** An event id that a step brings into the queue is noted as admitted. */
  lemma QueuedStep(env: Env, s: State, l: Label, id: string)
    requires Enabled(env, s, l) && InQueue(Next(env, s, l).tables.pending, id)
    ensures InQueue(s.tables.pending, id) || id in Next(env, s, l).log.admitted
  {
    if Conservation.LooksOnly(l) {
      Conservation.QueueUntouched(env, s, l);
    } else if l.WaiterDone? || l.DrainRemove? || l.Sweep? {
      FewerQueued(s.tables.pending, Next(env, s, l).tables.pending, id);
    } else if l.DrainName? {
      ClaimQueuesNothing(s.tables, s.tasks[l.t].names[0], l.now, id);
    } else {
      QueueingStep(env, s, l, id);
    }
  }

  lemma QueueingStep(env: Env, s: State, l: Label, id: string)
    requires Enabled(env, s, l) && (l.Submit? || l.FanFinish? || l.RedriveEnqueue?)
    requires InQueue(Next(env, s, l).tables.pending, id)
    ensures InQueue(s.tables.pending, id) || id in Next(env, s, l).log.admitted
  {
    match l
    case Submit(e, now) => EnqueueQueues(s.tables, env.lim, e, None, now, id);
    case FanFinish(t, now) =>
      var task := s.tasks[t];
      EnqueueAllQueues(s.tables, env.lim, task.event, UntakenNames(task.dests, task.done), now, id);
    case RedriveEnqueue(t, now) => EnqueueQueues(s.tables, env.lim, s.tasks[t].entry.event, None, now, id);
  }

  lemma ClaimQueuesNothing(t: Tables, name: string, now: real, id: string)
    ensures InQueue(Claim(t, name, now).0.pending, id) <==> InQueue(t.pending, id)
  {
    var rows' := Claim(t, name, now).0.pending;
    assert forall i :: 0 <= i < |rows'| ==> rows'[i].eventId == t.pending[i].eventId;
  }

  lemma AdmittedKept(env: Env, s: State, l: Label)
    requires Enabled(env, s, l) && !l.Submit? && !l.FanFinish? && !l.RedriveEnqueue? && !l.WaiterDone? && !l.WaiterGivesUp?
    requires !l.PurgeLetters? && !l.Sweep? && !l.Restart?
    ensures Next(env, s, l).log.admitted == s.log.admitted
  {
  }

  lemma AdmittedAdded(env: Env, s: State, l: Label)
    requires Enabled(env, s, l)
    requires l.Submit? || l.FanFinish? || l.RedriveEnqueue? || l.WaiterDone? || l.WaiterGivesUp? || l.PurgeLetters? || l.Sweep?
             || l.Restart?
    ensures s.log.admitted <= Next(env, s, l).log.admitted
  {
  }

  lemma AdmittedGrows(env: Env, s: State, l: Label)
    requires Enabled(env, s, l)
    ensures s.log.admitted <= Next(env, s, l).log.admitted
  {
    if l.Submit? || l.FanFinish? || l.RedriveEnqueue? || l.WaiterDone? || l.WaiterGivesUp? || l.PurgeLetters? || l.Sweep?
       || l.Restart? {
      AdmittedAdded(env, s, l);
    } else {
      AdmittedKept(env, s, l);
    }
  }

  lemma {:induction false} QueuedIsAdmitted(env: Env, run: seq<Label>, k: nat, id: string)
    requires IsRun(env, Initial, run) && k <= |run| && InQueue(StateAt(env, Initial, run, k).tables.pending, id)
    ensures id in Final(env, Initial, run).log.admitted
    decreases |run|
  {
    if run != [] {
      var front, n := run[..|run| - 1], |run| - 1;
      var s := Final(env, Initial, front);
      AdmittedGrows(env, s, run[n]);
      if k < |run| {
        QueuedIsAdmitted(env, front, k, id);
      } else if InQueue(s.tables.pending, id) {
        QueuedIsAdmitted(env, front, n, id);
      } else {
        QueuedStep(env, s, run[n], id);
      }
    }
  }

  /**
   Conservation without its history: over every run, an event that was in the
   queue at any point is still queued at the end, or acked, or dead-lettered, or
   among the letters removed since.
   */
  lemma EverQueuedTracked(env: Env, run: seq<Label>, k: nat, id: string)
    requires IsRun(env, Initial, run) && k <= |run| && InQueue(StateAt(env, Initial, run, k).tables.pending, id)
    ensures Conservation.Tracked(Final(env, Initial, run), id)
  {
    QueuedIsAdmitted(env, run, k, id);
    Conservation.NothingLost(env, run, id);
  }
}

/**
 A drain does its work: it takes the oldest rows waiting for each destination it
 is the latest to serve, and hands every one of them that is within the attempt
 limit to its session exactly once.
 */
module Draining {
  import opened Prelude
  import opened Tables
  import opened Retention
  import opened Addressing
  import opened Subscribers
  import opened Daemon
  import opened SendBound
  import FanOut

  // ── which rows a drain takes ───────────────────────────────────────────────

  /** Ids of the queued rows addressed to `name` and not past their expiry. */
  ghost function Offered(rows: seq<PendingRow>, name: string, now: real): set<nat> {
    set r | r in rows && AddressedTo(r, name) && r.expiresAt > now :: r.rowId
  }

  ghost function Older(ids: set<nat>, rowId: nat): set<nat> {
    set k | k in ids && k < rowId
  }

  ghost predicate Contains(rows: seq<PendingRow>, rowId: nat) {
    exists r :: r in rows && r.rowId == rowId
  }

  /** `taken` are the oldest offered rows up to the limit, oldest first, each with one more attempt. */
  ghost predicate OldestOffered(rows: seq<PendingRow>, taken: seq<PendingRow>, name: string, now: real) {
    && RowsOrdered(taken)
    && (forall r :: r in taken ==> r.rowId in Offered(rows, name, now))
    && (forall r, p :: r in taken && p in rows && p.rowId == r.rowId ==> r == p.(attempts := p.attempts + 1))
    && (forall k :: k in Offered(rows, name, now) ==>
          (Contains(taken, k) <==> |Older(Offered(rows, name, now), k)| < 100))
  }

  /** The same rows in the same places, those taken with one more attempt. */
  ghost predicate CountedUp(rows: seq<PendingRow>, rows': seq<PendingRow>, taken: seq<PendingRow>) {
    && |rows'| == |rows|
    && forall i :: 0 <= i < |rows| ==>
         rows'[i] == if Contains(taken, rows[i].rowId) then rows[i].(attempts := rows[i].attempts + 1) else rows[i]
  }

  lemma OfferedSnoc(front: seq<PendingRow>, last: PendingRow, name: string, now: real)
    ensures Offered(front + [last], name, now)
         == Offered(front, name, now) + (if AddressedTo(last, name) && last.expiresAt > now then {last.rowId} else {})
  {
    forall k ensures k in Offered(front + [last], name, now)
      <==> k in Offered(front, name, now) || (AddressedTo(last, name) && last.expiresAt > now && k == last.rowId)
    {
      if k in Offered(front, name, now) {
        var r :| r in front && AddressedTo(r, name) && r.expiresAt > now && r.rowId == k;
        assert r in front + [last];
      }
      if AddressedTo(last, name) && last.expiresAt > now && k == last.rowId {
        assert last in front + [last];
      }
    }
  }

  lemma OfferedBelow(rows: seq<PendingRow>, name: string, now: real)
    requires RowsOrdered(rows) && rows != []
    ensures var front := rows[..|rows| - 1];
      forall k :: k in Offered(front, name, now) ==> k < rows[|rows| - 1].rowId
  {
  }

  /** A claim takes an offered row exactly when fewer than `limit` offered rows are older. */
  lemma {:induction false} SelectedByRank(rows: seq<PendingRow>, name: string, now: real, limit: nat)
    requires RowsOrdered(rows)
    ensures |Selected(rows, name, now, limit)| < limit ==> |Offered(rows, name, now)| == |Selected(rows, name, now, limit)|
    ensures |Selected(rows, name, now, limit)| == limit ==> |Offered(rows, name, now)| >= limit
    ensures forall k :: k in Offered(rows, name, now) ==>
              (Contains(Selected(rows, name, now, limit), k) <==> |Older(Offered(rows, name, now), k)| < limit)
  {
    if rows == [] {
      assert Offered(rows, name, now) == {};
    } else {
      var front, last := rows[..|rows| - 1], rows[|rows| - 1];
      assert rows == front + [last];
      SelectedByRank(front, name, now, limit);
      OfferedSnoc(front, last, name, now);
      OfferedBelow(rows, name, now);
      RankSnoc(front, last, name, now, limit);
    }
  }

  lemma RankSnoc(front: seq<PendingRow>, last: PendingRow, name: string, now: real, limit: nat)
    requires forall k :: k in Offered(front, name, now) ==> k < last.rowId
    requires |Selected(front, name, now, limit)| < limit ==> |Offered(front, name, now)| == |Selected(front, name, now, limit)|
    requires |Selected(front, name, now, limit)| == limit ==> |Offered(front, name, now)| >= limit
    requires forall k :: k in Offered(front, name, now) ==>
               (Contains(Selected(front, name, now, limit), k) <==> |Older(Offered(front, name, now), k)| < limit)
    requires Offered(front + [last], name, now)
          == Offered(front, name, now) + (if AddressedTo(last, name) && last.expiresAt > now then {last.rowId} else {})
    ensures var rows := front + [last];
      && (|Selected(rows, name, now, limit)| < limit ==>
            |Offered(rows, name, now)| == |Selected(rows, name, now, limit)|)
      && (|Selected(rows, name, now, limit)| == limit ==> |Offered(rows, name, now)| >= limit)
      && forall k :: k in Offered(rows, name, now) ==>
           (Contains(Selected(rows, name, now, limit), k) <==> |Older(Offered(rows, name, now), k)| < limit)
  {
    var rows := front + [last];
    assert rows[..|rows| - 1] == front;
    var before, after := Offered(front, name, now), Offered(rows, name, now);
    var chosen, chosen' := Selected(front, name, now, limit), Selected(rows, name, now, limit);
    forall k | k in after ensures Contains(chosen', k) <==> |Older(after, k)| < limit {
      if k in before {
        assert Older(after, k) == Older(before, k);
        assert Contains(chosen', k) <==> Contains(chosen, k);
      } else {
        assert Older(after, k) == before;
        assert !Contains(chosen, k);
        assert Contains(chosen', k) <==> |chosen| < limit;
      }
    }
  }

  lemma TakenHas(chosen: seq<PendingRow>, k: nat)
    ensures Contains(BumpAll(chosen), k) <==> Contains(chosen, k)
    ensures Contains(chosen, k) <==> k in RowIds(chosen)
  {
    forall i | 0 <= i < |chosen| ensures BumpAll(chosen)[i] in BumpAll(chosen) && chosen[i] in chosen {
    }
    if Contains(BumpAll(chosen), k) {
      var r :| r in BumpAll(chosen) && r.rowId == k;
      var p := BumpAllOf(chosen, r);
    }
    if Contains(chosen, k) {
      var p :| p in chosen && p.rowId == k;
      var i :| 0 <= i < |chosen| && chosen[i] == p;
      assert BumpAll(chosen)[i] in BumpAll(chosen);
    }
  }

  lemma BumpAllOrdered(rows: seq<PendingRow>)
    requires RowsOrdered(rows)
    ensures RowsOrdered(BumpAll(rows))
  {
  }

  lemma BumpAllOf(chosen: seq<PendingRow>, r: PendingRow) returns (p: PendingRow)
    requires r in BumpAll(chosen)
    ensures p in chosen && r == p.(attempts := p.attempts + 1)
  {
    var i :| 0 <= i < |chosen| && BumpAll(chosen)[i] == r;
    p := chosen[i];
  }

  lemma ClaimedIds(t: Tables, name: string, now: real, k: nat)
    requires ValidTables(t)
    ensures Contains(Claim(t, name, now).1, k) <==> k in RowIds(Selected(t.pending, name, now, CLAIM_LIMIT))
    ensures k in Offered(t.pending, name, now) ==>
              (Contains(Claim(t, name, now).1, k) <==> |Older(Offered(t.pending, name, now), k)| < CLAIM_LIMIT)
  {
    TakenHas(Selected(t.pending, name, now, CLAIM_LIMIT), k);
    SelectedByRank(t.pending, name, now, CLAIM_LIMIT);
  }

  lemma ClaimedRow(t: Tables, name: string, now: real, r: PendingRow, p: PendingRow)
    requires ValidTables(t) && r in Claim(t, name, now).1
    ensures r.rowId in Offered(t.pending, name, now)
    ensures p in t.pending && p.rowId == r.rowId ==> r == p.(attempts := p.attempts + 1)
  {
    var q := BumpAllOf(Selected(t.pending, name, now, CLAIM_LIMIT), r);
    if p in t.pending && p.rowId == r.rowId {
      SameIdSameRow(t.pending, p, q);
    }
  }

  lemma ClaimTakesOldest(t: Tables, name: string, now: real)
    requires ValidTables(t)
    ensures OldestOffered(t.pending, Claim(t, name, now).1, name, now)
  {
    SelectedOrdered(t.pending, name, now, CLAIM_LIMIT);
    BumpAllOrdered(Selected(t.pending, name, now, CLAIM_LIMIT));
    forall r, p | r in Claim(t, name, now).1 && p in t.pending && p.rowId == r.rowId
      ensures r == p.(attempts := p.attempts + 1)
    {
      ClaimedRow(t, name, now, r, p);
    }
    forall r | r in Claim(t, name, now).1 ensures r.rowId in Offered(t.pending, name, now) {
      ClaimedRow(t, name, now, r, r);
    }
    forall k | k in Offered(t.pending, name, now)
      ensures Contains(Claim(t, name, now).1, k) <==> |Older(Offered(t.pending, name, now), k)| < CLAIM_LIMIT
    {
      ClaimedIds(t, name, now, k);
    }
  }

  lemma ClaimCountsUp(t: Tables, name: string, now: real)
    requires ValidTables(t)
    ensures CountedUp(t.pending, Claim(t, name, now).0.pending, Claim(t, name, now).1)
  {
    var rows' := Claim(t, name, now).0.pending;
    forall i | 0 <= i < |t.pending|
      ensures rows'[i] == if Contains(Claim(t, name, now).1, t.pending[i].rowId)
                          then t.pending[i].(attempts := t.pending[i].attempts + 1) else t.pending[i]
    {
      ClaimedIds(t, name, now, t.pending[i].rowId);
    }
  }

  /**
   In every reachable state, a drain that comes to a destination its session is
   the latest to serve takes the oldest waiting rows up to the limit, and only
   the attempt counts of those rows change.
   */
  lemma DrainTakesOldest(env: Env, run: seq<Label>, t: nat, now: real, d: Destination)
    requires ValidConfig(env.cfg) && IsRun(env, Initial, run)
    requires var s := Final(env, Initial, run);
      && Enabled(env, s, DrainName(t, now))
      && d in env.cfg.destinations && d.name == s.tasks[t].names[0] && Latest(s.reg, s.tasks[t].session, d)
    ensures var s := Final(env, Initial, run);
      var s' := Next(env, s, DrainName(t, now));
      && IsDrain(s', t) && s'.tasks[t].phase.Ready? && s'.tasks[t].names == s.tasks[t].names[1..]
      && s'.tasks[t].session == s.tasks[t].session && s'.tasks[t].dest == Some(d)
      && OldestOffered(s.tables.pending, s'.tasks[t].rows, d.name, now)
      && CountedUp(s.tables.pending, s'.tables.pending, s'.tasks[t].rows)
      && s'.tables == s.tables.(pending := s'.tables.pending) && s'.reg == s.reg
  {
    RunInv(env, run);
    var s := Final(env, Initial, run);
    SameName(env.cfg, d, Lookup(env.cfg.destinations, d.name).value);
    LatestIsSubscriber(s.reg, s.tasks[t].session, d);
    ClaimTakesOldest(s.tables, d.name, now);
    ClaimCountsUp(s.tables, d.name, now);
  }

  /** Any other name is passed over: a destination that is gone, or that another session serves, or nobody. */
  lemma DrainPassesOver(env: Env, run: seq<Label>, t: nat, now: real)
    requires ValidConfig(env.cfg) && IsRun(env, Initial, run)
    requires var s := Final(env, Initial, run);
      && Enabled(env, s, DrainName(t, now))
      && forall d :: d in env.cfg.destinations && d.name == s.tasks[t].names[0] ==> !Latest(s.reg, s.tasks[t].session, d)
    ensures var s := Final(env, Initial, run);
      Next(env, s, DrainName(t, now)) == s.(tasks := s.tasks[t := s.tasks[t].(names := s.tasks[t].names[1..])])
  {
    RunInv(env, run);
    var s := Final(env, Initial, run);
    match Lookup(env.cfg.destinations, s.tasks[t].names[0])
    case Some(d) => LatestIsSubscriber(s.reg, s.tasks[t].session, d);
    case None =>
  }

  /**
   A row queued at `now` is on offer under the destination it was queued for, or
   its source's when it was queued for none, until the pending time is over, and
   outlives exactly the sweeps before that.
   */
  lemma OnOfferForItsTime(t: Tables, lim: Limits, e: Event, destination: Option<string>, now: real,
                          name: string, at: real, ids: set<string>, letters: set<nat>)
    requires ValidTables(t) && Admits(t, lim, e)
    ensures var t' := Enqueue(t, lim, e, destination, now);
      && (t.nextRow in Offered(t'.pending, name, at)
          <==> at < now + lim.pendingTtl && name == if destination.Some? then destination.value else e.source)
      && (Contains(Pruned(t', lim, at, ids, letters).pending, t.nextRow) <==> at < now + lim.pendingTtl)
  {
    var t', row := Enqueue(t, lim, e, destination, now), NewRow(t, lim, e, destination, now);
    assert row in t'.pending;
    forall r | r in t'.pending && r.rowId == t.nextRow ensures r == row {
      assert r in t.pending ==> r.rowId < t.nextRow;
    }
    SweepKeepsRowIff(t', lim, at, ids, letters, row);
    forall r | r in Pruned(t', lim, at, ids, letters).pending ensures r in t'.pending {
      SweepKeepsRowIff(t', lim, at, ids, letters, r);
    }
  }

  // ── every row taken is sent ────────────────────────────────────────────────

  /** A frame at `from` or later carries the row to the session for the destination. */
  ghost predicate FrameFor(s: State, from: nat, i: int, row: PendingRow, session: nat, d: Destination) {
    && from <= i < |s.log.frames| && s.log.frames[i].origin == FromQueue(row)
    && s.log.frames[i].session == session && s.log.frames[i].dest == d
  }

  ghost predicate SentTo(s: State, from: nat, row: PendingRow, session: nat, d: Destination) {
    exists i :: FrameFor(s, from, i, row, session, d) && s.log.frames[i].ack in s.log.written
  }

  /** The drain is part-way through `rows`: those within the limit that it has left behind are sent. */
  ghost predicate Underway(env: Env, s: State, t: nat, from: nat, rows: seq<PendingRow>, session: nat, d: Destination) {
    && IsDrain(s, t) && s.tasks[t].session == session && s.tasks[t].dest == Some(d)
    && |s.tasks[t].rows| <= |rows| && s.tasks[t].rows == rows[|rows| - |s.tasks[t].rows|..]
    && (forall i :: 0 <= i < |rows| - |s.tasks[t].rows| && rows[i].attempts <= env.lim.maxAttempts ==>
          SentTo(s, from, rows[i], session, d))
    && from <= |s.log.frames|
    && (s.tasks[t].phase.Sending? ==>
          s.tasks[t].rows != []
          && exists i :: FrameFor(s, from, i, s.tasks[t].rows[0], session, d) && s.log.frames[i].ack == s.tasks[t].phase.ack)
    && (s.tasks[t].phase.Removing? ==> s.tasks[t].rows != [] && s.tasks[t].rows[0].attempts > env.lim.maxAttempts)
  }

  /** Steps after which drain `t` is not simply going on with its rows. */
  predicate Cuts(l: Label, t: nat) {
    || (l.DrainFailed? && l.t == t) || (l.TaskEnds? && l.t == t) || (l.DrainName? && l.t == t) || l.Restart?
  }

  ghost predicate LogGrows(s: State, s': State) {
    s.log.frames <= s'.log.frames && s.log.written <= s'.log.written
  }

  lemma TaskLogGrows(env: Env, s: State, l: Label)
    requires Enabled(env, s, l)
    requires l.FanNext? || l.FanSent? || l.FanFailed? || l.DrainStart? || l.DrainName? || l.DrainRow? || l.DrainSent?
             || l.DrainFailed? || l.DrainRemove? || l.TaskEnds?
    ensures LogGrows(s, Next(env, s, l))
  {
  }

  lemma SessionLogGrows(env: Env, s: State, l: Label)
    requires Enabled(env, s, l)
    requires l.HelloFrame? || l.Closed? || l.AckFrame? || l.WaiterDone? || l.WaiterGivesUp? || l.Restart?
    ensures LogGrows(s, Next(env, s, l))
  {
  }

  lemma QueueLogGrows(env: Env, s: State, l: Label)
    requires Enabled(env, s, l) && (l.Submit? || l.FanFinish? || l.RedriveLoad? || l.RedriveEnqueue? || l.RedriveMark?)
    ensures LogGrows(s, Next(env, s, l))
  {
  }

  lemma StoreLogGrows(env: Env, s: State, l: Label)
    requires Enabled(env, s, l) && (l.RecordDeadLetter? || l.PurgeLetters? || l.Sweep? || l.Ingest?)
    ensures LogGrows(s, Next(env, s, l))
  {
  }

  lemma StepLogGrows(env: Env, s: State, l: Label)
    requires Enabled(env, s, l)
    ensures LogGrows(s, Next(env, s, l))
  {
    if l.FanNext? || l.FanSent? || l.FanFailed? || l.DrainStart? || l.DrainName? || l.DrainRow? || l.DrainSent?
       || l.DrainFailed? || l.DrainRemove? || l.TaskEnds? {
      TaskLogGrows(env, s, l);
    } else if l.HelloFrame? || l.Closed? || l.AckFrame? || l.WaiterDone? || l.WaiterGivesUp? || l.Restart? {
      SessionLogGrows(env, s, l);
    } else if l.Submit? || l.FanFinish? || l.RedriveLoad? || l.RedriveEnqueue? || l.RedriveMark? {
      QueueLogGrows(env, s, l);
    } else {
      StoreLogGrows(env, s, l);
    }
  }

  /** The step is the drain's own. */
  predicate OwnStep(l: Label, t: nat) {
    (l.DrainRow? || l.DrainSent? || l.DrainRemove?) && l.t == t
  }

  lemma TasksLeaveDrain(env: Env, s: State, l: Label, t: nat)
    requires Enabled(env, s, l) && IsDrain(s, t) && t < s.nextTask && !Cuts(l, t) && !OwnStep(l, t)
    requires l.FanNext? || l.FanSent? || l.FanFailed? || l.FanFinish? || l.DrainStart? || l.DrainName? || l.DrainRow?
             || l.DrainSent? || l.DrainFailed? || l.DrainRemove? || l.TaskEnds?
    ensures var s' := Next(env, s, l); IsDrain(s', t) && s'.tasks[t] == s.tasks[t]
  {
  }

  lemma OthersLeaveDrain(env: Env, s: State, l: Label, t: nat)
    requires Enabled(env, s, l) && IsDrain(s, t) && t < s.nextTask && !Cuts(l, t)
    requires !(l.FanNext? || l.FanSent? || l.FanFailed? || l.FanFinish? || l.DrainStart? || l.DrainName? || l.DrainRow?
               || l.DrainSent? || l.DrainFailed? || l.DrainRemove? || l.TaskEnds?)
    ensures var s' := Next(env, s, l); IsDrain(s', t) && s'.tasks[t] == s.tasks[t]
  {
  }

  /** A drain is left alone by every step but its own and those that cut it off. */
  lemma DrainLeftAlone(env: Env, s: State, l: Label, t: nat)
    requires Enabled(env, s, l) && IsDrain(s, t) && t < s.nextTask && !Cuts(l, t) && !OwnStep(l, t)
    ensures var s' := Next(env, s, l); IsDrain(s', t) && s'.tasks[t] == s.tasks[t]
  {
    if l.FanNext? || l.FanSent? || l.FanFailed? || l.FanFinish? || l.DrainStart? || l.DrainName? || l.DrainRow?
       || l.DrainSent? || l.DrainFailed? || l.DrainRemove? || l.TaskEnds? {
      TasksLeaveDrain(env, s, l, t);
    } else {
      OthersLeaveDrain(env, s, l, t);
    }
  }

  lemma SentStays(s: State, s': State, from: nat, row: PendingRow, session: nat, d: Destination)
    requires SentTo(s, from, row, session, d) && LogGrows(s, s')
    ensures SentTo(s', from, row, session, d)
  {
    var i :| FrameFor(s, from, i, row, session, d) && s.log.frames[i].ack in s.log.written;
    assert FrameFor(s', from, i, row, session, d);
  }

  lemma UnderwayStays(env: Env, s: State, s': State, t: nat, from: nat, rows: seq<PendingRow>, session: nat, d: Destination)
    requires Underway(env, s, t, from, rows, session, d) && LogGrows(s, s')
    requires IsDrain(s', t) && s'.tasks[t] == s.tasks[t]
    ensures Underway(env, s', t, from, rows, session, d)
  {
    forall i | 0 <= i < |rows| - |s.tasks[t].rows| && rows[i].attempts <= env.lim.maxAttempts
      ensures SentTo(s', from, rows[i], session, d)
    {
      SentStays(s, s', from, rows[i], session, d);
    }
    if s.tasks[t].phase.Sending? {
      var i :| FrameFor(s, from, i, s.tasks[t].rows[0], session, d) && s.log.frames[i].ack == s.tasks[t].phase.ack;
      assert FrameFor(s', from, i, s.tasks[t].rows[0], session, d);
    }
  }

  lemma RowUnderway(env: Env, s: State, t: nat, now: real, from: nat, rows: seq<PendingRow>, session: nat, d: Destination)
    requires Underway(env, s, t, from, rows, session, d) && Enabled(env, s, DrainRow(t, now))
    ensures Underway(env, DoDrainRow(env, s, t, now), t, from, rows, session, d)
  {
    var s' := DoDrainRow(env, s, t, now);
    forall i | 0 <= i < |rows| - |s.tasks[t].rows| && rows[i].attempts <= env.lim.maxAttempts
      ensures SentTo(s', from, rows[i], session, d)
    {
      SentStays(s, s', from, rows[i], session, d);
    }
    if s.tasks[t].rows[0].attempts <= env.lim.maxAttempts {
      assert FrameFor(s', from, |s.log.frames|, s.tasks[t].rows[0], session, d);
    }
  }

  /** The drain has finished with its first row, which is sent if it is within the limit. */
  lemma HeadDone(env: Env, s: State, s': State, t: nat, from: nat, rows: seq<PendingRow>, session: nat, d: Destination)
    requires Underway(env, s, t, from, rows, session, d) && LogGrows(s, s') && s.tasks[t].rows != []
    requires IsDrain(s', t) && s'.tasks[t] == s.tasks[t].(rows := s.tasks[t].rows[1..], phase := Ready)
    requires s.tasks[t].rows[0].attempts <= env.lim.maxAttempts ==> SentTo(s', from, s.tasks[t].rows[0], session, d)
    ensures Underway(env, s', t, from, rows, session, d)
  {
    var n := |rows| - |s.tasks[t].rows|;
    assert rows[n..][1..] == rows[n + 1..] && rows[n..][0] == rows[n];
    forall i | 0 <= i <= n && rows[i].attempts <= env.lim.maxAttempts ensures SentTo(s', from, rows[i], session, d) {
      if i < n { SentStays(s, s', from, rows[i], session, d); }
    }
  }

  lemma SentUnderway(env: Env, s: State, t: nat, from: nat, rows: seq<PendingRow>, session: nat, d: Destination)
    requires Underway(env, s, t, from, rows, session, d) && Enabled(env, s, DrainSent(t))
    ensures Underway(env, DoDrainSent(s, t), t, from, rows, session, d)
  {
    var s', head := DoDrainSent(s, t), s.tasks[t].rows[0];
    var i :| FrameFor(s, from, i, head, session, d) && s.log.frames[i].ack == s.tasks[t].phase.ack;
    assert FrameFor(s', from, i, head, session, d) && s'.log.frames[i].ack in s'.log.written;
    HeadDone(env, s, s', t, from, rows, session, d);
  }

  lemma StepUnderway(env: Env, s: State, l: Label, t: nat, from: nat, rows: seq<PendingRow>, session: nat, d: Destination)
    requires Underway(env, s, t, from, rows, session, d) && t < s.nextTask && Enabled(env, s, l) && !Cuts(l, t)
    ensures Underway(env, Next(env, s, l), t, from, rows, session, d)
  {
    StepLogGrows(env, s, l);
    if l.DrainRow? && l.t == t { RowUnderway(env, s, t, l.now, from, rows, session, d); }
    else if l.DrainSent? && l.t == t { SentUnderway(env, s, t, from, rows, session, d); }
    else if l.DrainRemove? && l.t == t { HeadDone(env, s, Next(env, s, l), t, from, rows, session, d); }
    else {
      DrainLeftAlone(env, s, l, t);
      UnderwayStays(env, s, Next(env, s, l), t, from, rows, session, d);
    }
  }

  /** The run takes the drain's claiming step at `k` and does not cut the drain off afterwards. */
  ghost predicate GoesOn(run: seq<Label>, k: nat, t: nat) {
    && k < |run| && run[k].DrainName? && run[k].t == t
    && forall j :: k < j < |run| ==> !Cuts(run[j], t)
  }

  lemma {:induction false} RunUnderway(env: Env, run: seq<Label>, k: nat, t: nat)
    requires ValidConfig(env.cfg) && IsRun(env, Initial, run) && GoesOn(run, k, t)
    requires IsDrain(StateAt(env, Initial, run, k + 1), t) && StateAt(env, Initial, run, k + 1).tasks[t].rows != []
    ensures var s := StateAt(env, Initial, run, k + 1);
      s.tasks[t].dest.Some?
      && Underway(env, Final(env, Initial, run), t, |s.log.frames|, s.tasks[t].rows, s.tasks[t].session, s.tasks[t].dest.value)
    decreases |run|
  {
    var front, last := run[..|run| - 1], run[|run| - 1];
    var s := Final(env, Initial, front);
    FanOut.RunInv(env, front);
    if k == |front| {
      FreshUnderway(env, s, last);
    } else {
      assert StateAt(env, Initial, run, k + 1) == StateAt(env, Initial, front, k + 1);
      assert GoesOn(front, k, t);
      RunUnderway(env, front, k, t);
      var s1 := StateAt(env, Initial, run, k + 1);
      StepUnderway(env, s, last, t, |s1.log.frames|, s1.tasks[t].rows, s1.tasks[t].session, s1.tasks[t].dest.value);
    }
  }

  lemma FreshUnderway(env: Env, s: State, l: Label)
    requires Enabled(env, s, l) && l.DrainName? && Next(env, s, l).tasks[l.t].rows != []
    ensures var s' := Next(env, s, l);
      s'.tasks[l.t].dest.Some?
      && Underway(env, s', l.t, |s'.log.frames|, s'.tasks[l.t].rows, s'.tasks[l.t].session, s'.tasks[l.t].dest.value)
  {
    var s' := Next(env, s, l);
    assert s'.tasks[l.t].rows[0..] == s'.tasks[l.t].rows;
  }

  /** A send that fails puts the session out; its row stays queued, and the drain goes on to the next. */
  lemma DrainSendFailed(env: Env, s: State, t: nat)
    requires Enabled(env, s, DrainFailed(t))
    ensures var s' := Next(env, s, DrainFailed(t));
      && s'.tables == s.tables && s'.log == s.log && s'.waiters == s.waiters
      && s.tasks[t].session !in s'.reg.subs && s.tasks[t].phase.ack !in s'.reg.futures
      && IsDrain(s', t) && s'.tasks[t] == s.tasks[t].(rows := s.tasks[t].rows[1..], phase := Ready)
  {
  }

  /** The row has been handed out exactly once: in a frame written after `from`, to this session. */
  ghost predicate HandedOverOnce(s: State, from: nat, row: PendingRow, session: nat) {
    exists i :: QueueFrame(s, i) && from <= i && s.log.frames[i].session == session
      && s.log.frames[i].origin == FromQueue(row) && s.log.frames[i].ack in s.log.written
      && forall j :: QueueFrame(s, j) && s.log.frames[j].origin == FromQueue(row) ==> j == i
  }

  /**
   Over every run, whatever interleaves: once a drain that took rows has worked
   through them with no send failing, each of them within the attempt limit has
   been written in exactly one frame, to the drain's own session.
   */
  lemma EveryTakenRowSent(env: Env, run: seq<Label>, k: nat, t: nat)
    requires ValidConfig(env.cfg) && IsRun(env, Initial, run) && GoesOn(run, k, t)
    requires IsDrain(StateAt(env, Initial, run, k + 1), t)
    requires IsDrain(Final(env, Initial, run), t) && Final(env, Initial, run).tasks[t].rows == []
    ensures var s, s' := StateAt(env, Initial, run, k + 1), Final(env, Initial, run);
      forall r :: r in s.tasks[t].rows && r.attempts <= env.lim.maxAttempts ==>
        HandedOverOnce(s', |s.log.frames|, r, s.tasks[t].session)
  {
    var s, s' := StateAt(env, Initial, run, k + 1), Final(env, Initial, run);
    RunInv(env, run);
    if s.tasks[t].rows != [] {
      RunUnderway(env, run, k, t);
      forall r | r in s.tasks[t].rows && r.attempts <= env.lim.maxAttempts
        ensures HandedOverOnce(s', |s.log.frames|, r, s.tasks[t].session)
      {
        SentIsOnce(s', |s.log.frames|, r, s.tasks[t].session, s.tasks[t].dest.value);
      }
    }
  }

  lemma SentIsOnce(s: State, from: nat, row: PendingRow, session: nat, d: Destination)
    requires ClaimsUsedOnce(s) && SentTo(s, from, row, session, d)
    ensures HandedOverOnce(s, from, row, session)
  {
    var i :| FrameFor(s, from, i, row, session, d) && s.log.frames[i].ack in s.log.written;
    assert QueueFrame(s, i);
    forall j | QueueFrame(s, j) && s.log.frames[j].origin == FromQueue(row) ensures j == i {
      assert SameClaim(s.log.frames[i].origin.row, s.log.frames[j].origin.row);
    }
  }
}

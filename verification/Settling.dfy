/**
 Settling a queued row: an ack through the row's own waiter takes it out of the
 queue for good, and nothing short of an ack touches the queue.
 */
module Settling {
  import opened Tables
  import opened Subscribers
  import opened Daemon
  import Conservation
  import RowFates
  import SendBound

  ghost predicate WithoutAt(rows: seq<PendingRow>, rows': seq<PendingRow>, i: int) {
    0 <= i < |rows| && rows' == rows[..i] + rows[i + 1..]
  }

  /** The rows as they were and in their order, but for the one with this id if there was one. */
  ghost predicate TakenOut(rows: seq<PendingRow>, rows': seq<PendingRow>, rowId: nat) {
    if forall r :: r in rows ==> r.rowId != rowId then rows' == rows
    else exists i :: WithoutAt(rows, rows', i) && rows[i].rowId == rowId
  }

  lemma WithoutLast(front: seq<PendingRow>, last: PendingRow)
    ensures WithoutAt(front + [last], front, |front|)
  {
    assert (front + [last])[..|front|] + (front + [last])[|front| + 1..] == front;
  }

  lemma WithoutSooner(front: seq<PendingRow>, rows': seq<PendingRow>, last: PendingRow, i: int)
    requires WithoutAt(front, rows', i)
    ensures WithoutAt(front + [last], rows' + [last], i) && (front + [last])[i] == front[i]
  {
    var rows := front + [last];
    assert rows[..i] == front[..i] && rows[i + 1..] == front[i + 1..] + [last];
  }

  lemma {:induction false} WithoutRowAt(rows: seq<PendingRow>, rowId: nat) returns (i: nat)
    requires RowsOrdered(rows) && exists r :: r in rows && r.rowId == rowId
    ensures WithoutAt(rows, WithoutRow(rows, rowId), i) && rows[i].rowId == rowId
  {
    var n := |rows| - 1;
    var front, last := rows[..n], rows[n];
    assert rows == front + [last];
    if last.rowId == rowId {
      i := n;
      forall r | r in front ensures r.rowId != rowId {
        var j :| 0 <= j < n && front[j] == r;
      }
      Conservation.WithoutAbsent(front, rowId);
      WithoutLast(front, last);
    } else {
      var r :| r in rows && r.rowId == rowId;
      assert r in front;
      i := WithoutRowAt(front, rowId);
      WithoutSooner(front, WithoutRow(front, rowId), last, i);
    }
  }

  lemma WithoutRowTakesOut(rows: seq<PendingRow>, rowId: nat)
    requires RowsOrdered(rows)
    ensures TakenOut(rows, WithoutRow(rows, rowId), rowId)
    ensures forall r :: r in WithoutRow(rows, rowId) ==> r.rowId != rowId
  {
    if r :| r in rows && r.rowId == rowId {
      var i := WithoutRowAt(rows, rowId);
    } else {
      Conservation.WithoutAbsent(rows, rowId);
    }
  }

  /** The first answer to a frame is the one its waiter finds; later ones, and those for other frames, change nothing. */
  lemma FirstAnswerKept(env: Env, s: State, a: nat, answer: bool, b: nat)
    requires b in s.reg.futures
    ensures var s' := Next(env, s, AckFrame(a, answer));
      b in s'.reg.futures
      && s'.reg.futures[b] == if a == b && s.reg.futures[b] == Waiting then Answered(answer) else s.reg.futures[b]
  {
  }

  /**
   In every reachable state, a waiter that settles with an ack takes its own row
   out of the queue and leaves every other row where it was; a nack, or a frame
   that did not come from the queue, leaves the queue alone.
   */
  lemma AckTakesRow(env: Env, run: seq<Label>, a: nat)
    requires IsRun(env, Initial, run) && Enabled(env, Final(env, Initial, run), WaiterDone(a))
    ensures var s := Final(env, Initial, run);
      var rows, rows' := s.tables.pending, Next(env, s, WaiterDone(a)).tables.pending;
      if s.waiters[a].row.Some? && s.reg.futures[a] == Answered(true) then
        && TakenOut(rows, rows', s.waiters[a].row.value.rowId)
        && forall r :: r in rows' ==> r.rowId != s.waiters[a].row.value.rowId
      else rows' == rows
  {
    Conservation.RunInv(env, run);
    var s := Final(env, Initial, run);
    if s.waiters[a].row.Some? {
      WithoutRowTakesOut(s.tables.pending, s.waiters[a].row.value.rowId);
    }
  }

  /** A waiter that times out, or is cancelled, leaves the queue as it is. */
  lemma GiveUpLeavesQueue(env: Env, s: State, a: nat)
    requires Enabled(env, s, WaiterGivesUp(a))
    ensures Next(env, s, WaiterGivesUp(a)).tables == s.tables && a !in Next(env, s, WaiterGivesUp(a)).waiters
  {
  }

  // ── for good ───────────────────────────────────────────────────────────────

  /** The drain holds a copy of the row. */
  ghost predicate Holds(s: State, t: nat, rowId: nat) {
    IsDrain(s, t) && exists r :: r in s.tasks[t].rows && r.rowId == rowId
  }

  lemma ClaimFindsRow(t: Tables, name: string, now: real, r: PendingRow)
    requires r in Claim(t, name, now).1
    ensures RowFates.HasRow(t, r.rowId)
  {
    var chosen := Selected(t.pending, name, now, CLAIM_LIMIT);
    var rows := Claim(t, name, now).1;
    var k :| 0 <= k < |rows| && rows[k] == r;
    assert chosen[k] in chosen;
  }

  lemma DrainNameMisses(env: Env, s: State, t: nat, now: real, rowId: nat)
    requires Enabled(env, s, DrainName(t, now)) && !RowFates.HasRow(s.tables, rowId)
    ensures var s' := Next(env, s, DrainName(t, now));
      !Holds(s', t, rowId) && ClaimsOf(s'.log.claims, rowId) == ClaimsOf(s.log.claims, rowId)
  {
    forall name, r | r in Claim(s.tables, name, now).1 ensures r.rowId != rowId {
      ClaimFindsRow(s.tables, name, now, r);
    }
  }

  /** No step claims a row that is not there. */
  lemma StepMisses(env: Env, s: State, l: Label, rowId: nat)
    requires Enabled(env, s, l) && !RowFates.HasRow(s.tables, rowId)
    ensures ClaimsOf(Next(env, s, l).log.claims, rowId) == ClaimsOf(s.log.claims, rowId)
    ensures l.DrainName? ==> !Holds(Next(env, s, l), l.t, rowId)
  {
    if l.DrainName? { DrainNameMisses(env, s, l.t, l.now, rowId); }
    else if l.DrainRow? { SendBound.DrainRowKind(env, s, l.t, l.now); }
    else { SendBound.QuietStep(env, s, l); }
  }

  lemma {:induction false} GoneNotClaimed(env: Env, s: State, run: seq<Label>, rowId: nat)
    requires Conservation.Inv(s) && IsRun(env, s, run) && Conservation.RowGone(s.tables, rowId)
    ensures ClaimsOf(Final(env, s, run).log.claims, rowId) == ClaimsOf(s.log.claims, rowId)
  {
    if run != [] {
      var front, n := run[..|run| - 1], |run| - 1;
      GoneNotClaimed(env, s, front, rowId);
      Conservation.GoneForGood(env, s, front, rowId);
      StepMisses(env, Final(env, s, front), run[n], rowId);
    }
  }

  lemma GoneNotHeld(env: Env, s: State, run: seq<Label>, rowId: nat, k: nat)
    requires Conservation.Inv(s) && IsRun(env, s, run) && Conservation.RowGone(s.tables, rowId)
    requires k < |run| && run[k].DrainName?
    ensures !Holds(StateAt(env, s, run, k + 1), run[k].t, rowId)
  {
    PrefixRun(env, s, run, k);
    StepAt(env, s, run, k);
    Conservation.GoneForGood(env, s, run[..k], rowId);
    StepMisses(env, StateAt(env, s, run, k), run[k], rowId);
  }

  /**
   Once an ack has settled a row, that row id is never queued, never taken by a
   drain and never counted as claimed again, whatever the daemon does next.
   */
  lemma AckSettlesForGood(env: Env, run: seq<Label>, a: nat, more: seq<Label>)
    requires IsRun(env, Initial, run) && Enabled(env, Final(env, Initial, run), WaiterDone(a))
    requires var s := Final(env, Initial, run); s.waiters[a].row.Some? && s.reg.futures[a] == Answered(true)
    requires IsRun(env, Next(env, Final(env, Initial, run), WaiterDone(a)), more)
    ensures var s := Final(env, Initial, run);
      var rowId, s' := s.waiters[a].row.value.rowId, Next(env, s, WaiterDone(a));
      && (forall r :: r in Final(env, s', more).tables.pending ==> r.rowId != rowId)
      && ClaimsOf(Final(env, s', more).log.claims, rowId) == ClaimsOf(s.log.claims, rowId)
      && (forall k: nat :: k < |more| && more[k].DrainName? ==> !Holds(StateAt(env, s', more, k + 1), more[k].t, rowId))
  {
    var s := Final(env, Initial, run);
    var s', rowId := Next(env, s, WaiterDone(a)), s.waiters[a].row.value.rowId;
    Conservation.RunInv(env, run);
    Conservation.Step(env, s, WaiterDone(a));
    AckTakesRow(env, run, a);
    assert Conservation.RowKnown(s.tables, s.waiters[a].row.value);
    GoneNotClaimed(env, s', more, rowId);
    Conservation.GoneForGood(env, s', more, rowId);
    forall k: nat | k < |more| && more[k].DrainName? ensures !Holds(StateAt(env, s', more, k + 1), more[k].t, rowId) {
      GoneNotHeld(env, s', more, rowId, k);
    }
  }
}

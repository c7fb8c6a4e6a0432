/**
 The durable store object. Each method is one store call; the tables it leaves
 are the ones the table functions give. A method takes the clock reading the
 call makes.
 */
module Store {
  import opened Prelude
  import opened Tables
  import opened Retention

  const PRUNE_INTERVAL: nat := 256

  datatype PruneReport = PruneReport(
    dedupeTtlDeleted: nat,
    dedupeCapDeleted: nat,
    deadTtlDeleted: nat,
    deadCapDeleted: nat,
    pendingExpired: nat)

  /** One more UPDATE extends the set of bumped rows. */
  lemma BumpOneMore(rows: seq<PendingRow>, ids: set<nat>, id: nat)
    requires id !in ids
    ensures BumpRows(BumpRows(rows, ids), {id}) == BumpRows(rows, ids + {id})
  {
  }

  class WakeStore {
    const limits: Limits
    var dedupe: map<string, real>
    var pending: seq<PendingRow>
    var dead: map<nat, DeadRow>
    var nextRow: nat
    var nextDead: nat
    var insertsSincePrune: nat

    ghost function Contents(): Tables
      reads this
    {
      Tables(dedupe, pending, dead, nextRow, nextDead)
    }

    /** The tables are valid and the dedupe window has outgrown its cap by at most the inserts since the last sweep. */
    ghost predicate Valid()
      reads this
    {
      && ValidTables(Contents())
      && insertsSincePrune < PRUNE_INTERVAL
      && |dedupe| <= limits.dedupeMax + insertsSincePrune
    }

    /** Opening a database sweeps it, so a restart starts inside every cap. */
    constructor (stored: Tables, limits: Limits, now: real)
      requires ValidTables(stored)
      ensures Valid() && this.limits == limits && insertsSincePrune == 0
      ensures exists ids, letters :: LegalVictims(stored, limits, now, ids, letters)
                && Contents() == Pruned(stored, limits, now, ids, letters)
    {
      this.limits := limits;
      dedupe, pending, dead := stored.dedupe, stored.pending, stored.dead;
      nextRow, nextDead := stored.nextRow, stored.nextDead;
      insertsSincePrune := 0;
      new;
      var report, ids, letters := Prune(now);
    }

    /**
     INSERT OR IGNORE plus its row count: `seen` is the answer given, and every
     256th call sweeps afterwards.
     */
    method CheckAndRecordEvent(id: string, now: real)
      returns (seen: bool, ghost ids: set<string>, ghost letters: set<nat>)
      requires Valid()
      modifies this
      ensures Valid()
      ensures seen <==> id in old(dedupe)
      ensures old(insertsSincePrune) + 1 < PRUNE_INTERVAL ==>
                Contents() == RecordEvent(old(Contents()), id, now)
                && insertsSincePrune == old(insertsSincePrune) + 1
      ensures old(insertsSincePrune) + 1 == PRUNE_INTERVAL ==>
                LegalVictims(RecordEvent(old(Contents()), id, now), limits, now, ids, letters)
                && Contents() == Pruned(RecordEvent(old(Contents()), id, now), limits, now, ids, letters)
                && insertsSincePrune == 0
    {
      seen := id in dedupe;
      ids, letters := {}, {};
      if !seen {
        dedupe := dedupe[id := now];
      }
      assert Contents() == RecordEvent(old(Contents()), id, now);
      insertsSincePrune := insertsSincePrune + 1;
      var due := insertsSincePrune >= PRUNE_INTERVAL;
      if due {
        var report;
        report, ids, letters := Prune(now);
      }
    }

    method EnqueuePending(e: Event, destination: Option<string>, now: real) returns (queued: bool)
      requires Valid()
      modifies this
      ensures Valid()
      ensures Contents() == Enqueue(old(Contents()), limits, e, destination, now)
      ensures queued <==> Contents() != old(Contents())
      ensures insertsSincePrune == old(insertsSincePrune)
    {
      EnqueueValid(Contents(), limits, e, destination, now);
      if e.id == "" || |pending| >= limits.pendingMax {
        return false;
      }
      if InQueue(pending, e.id) {
        return false;
      }
      pending := pending + [PendingRow(nextRow, e.id, e.source,
                                       if destination.Some? then destination else Some(e.source),
                                       e, now + limits.pendingTtl, 0)];
      nextRow := nextRow + 1;
      queued := true;
    }

    /** Claimed rows stay queued with one more attempt; the caller gets their updated copies, oldest first. */
    method ClaimPending(name: string, now: real) returns (claimed: seq<PendingRow>)
      requires Valid()
      modifies this`pending
      ensures Valid()
      ensures Contents() == Claim(old(Contents()), name, now).0
      ensures claimed == Claim(old(Contents()), name, now).1
    {
      ClaimValid(Contents(), name, now);
      var rows := Selected(pending, name, now, CLAIM_LIMIT);
      SelectedOrdered(pending, name, now, CLAIM_LIMIT);
      CountAttempts(rows);
      claimed := [];
      for i := 0 to |rows|
        invariant claimed == BumpAll(rows[..i])
      {
        claimed := claimed + [Bumped(rows[i])];
      }
    }

    /** One UPDATE per claimed row. */
    method CountAttempts(rows: seq<PendingRow>)
      requires RowsOrdered(rows)
      modifies this`pending
      ensures pending == BumpRows(old(pending), RowIds(rows))
    {
      for i := 0 to |rows|
        invariant pending == BumpRows(old(pending), RowIds(rows[..i]))
      {
        BumpOneMore(old(pending), RowIds(rows[..i]), rows[i].rowId);
        assert RowIds(rows[..i + 1]) == RowIds(rows[..i]) + {rows[i].rowId};
        pending := BumpRows(pending, {rows[i].rowId});
      }
      assert rows[..|rows|] == rows;
    }

    method DeletePending(rowId: nat)
      requires Valid()
      modifies this`pending
      ensures Valid()
      ensures Contents() == RemovePending(old(Contents()), rowId)
    {
      RemovePendingValid(Contents(), rowId);
      pending := WithoutRow(pending, rowId);
    }

    method DeadLetter(d: DeadRow) returns (id: nat)
      requires Valid()
      requires d.kind == NextSession ==> d.refId == d.event.id
      modifies this`dead, this`nextDead
      ensures Valid()
      ensures id == old(nextDead) && Contents() == AddDead(old(Contents()), d)
    {
      id := nextDead;
      dead := dead[nextDead := d];
      nextDead := nextDead + 1;
    }

    method MarkRedriven(id: nat, status: RedriveStatus)
      requires Valid()
      modifies this`dead
      ensures Valid()
      ensures Contents() == SetRedriven(old(Contents()), id, status)
    {
      if id in dead {
        dead := dead[id := dead[id].(status := status)];
      }
    }

    method PurgeDeadLetters(cutoff: Option<real>, redrivenOnly: bool) returns (deleted: nat)
      requires Valid()
      modifies this`dead
      ensures Valid()
      ensures Contents() == Purge(old(Contents()), cutoff, redrivenOnly)
      ensures forall d :: d in dead <==>
                d in old(dead) && ((cutoff.Some? && old(dead)[d].createdAt >= cutoff.value)
                                   || (redrivenOnly && old(dead)[d].status != RedriveOk))
      ensures forall d :: d in dead ==> dead[d] == old(dead)[d]
      ensures deleted == |PurgeKeys(old(Contents()), cutoff, redrivenOnly)|
    {
      var gone := set d | d in dead && Purgeable(dead[d], cutoff, redrivenOnly);
      deleted := |gone|;
      dead := dead - gone;
    }

    /**
     The retention sweep. `ids` and `letters` are the rows its two capped deletes
     happened to pick.
     */
    method Prune(now: real) returns (report: PruneReport, ghost ids: set<string>, ghost letters: set<nat>)
      requires ValidTables(Contents())
      modifies this
      ensures Valid() && insertsSincePrune == 0
      ensures LegalVictims(old(Contents()), limits, now, ids, letters)
      ensures Contents() == Pruned(old(Contents()), limits, now, ids, letters)
      ensures forall d :: d in old(dead) ==>
                (d in dead <==> old(dead)[d].createdAt >= now - limits.deadTtl && d !in letters)
                && (d in dead ==> dead[d] == old(dead)[d])
      ensures IdsSwept(old(dedupe), dedupe, limits, now, ids)
      ensures forall r :: r in pending <==> r in old(pending) && r.expiresAt > now
      ensures |letters| == Overflow(|YoungLetters(old(dead), limits, now)|, limits.deadMax)
      ensures |ids| == Overflow(|YoungIds(old(dedupe), limits, now)|, limits.dedupeMax)
      ensures report.pendingExpired == |Expired(old(Contents()), now)|
      ensures report.deadCapDeleted == |letters| && report.dedupeCapDeleted == |ids|
    {
      var expired;
      report, expired, ids, letters := Sweep(now);
      PromoteAll(expired, now);
      PrunedValid(old(Contents()), limits, now, ids, letters);
      PruneBounds(old(Contents()), limits, now, ids, letters);
      CapTakesExcess(old(Contents()), limits, now, ids, letters);
      forall d | d in old(dead)
        ensures d in dead <==> old(dead)[d].createdAt >= now - limits.deadTtl && d !in letters
        ensures d in dead ==> dead[d] == old(dead)[d]
      {
        SweepKeepsLetterIff(old(Contents()), limits, now, ids, letters, d);
      }
    }

    /** The deletions of the sweep, which commit together. */
    method Sweep(now: real)
      returns (report: PruneReport, expired: seq<PendingRow>, ghost ids: set<string>, ghost letters: set<nat>)
      modifies this
      ensures LegalVictims(old(Contents()), limits, now, ids, letters)
      ensures Contents() == Swept(old(Contents()), limits, now, ids, letters)
      ensures expired == Expired(old(Contents()), now)
      ensures LettersSwept(old(dead), dead, limits, now, letters) && IdsSwept(old(dedupe), dedupe, limits, now, ids)
      ensures forall r :: r in pending <==> r in old(pending) && r.expiresAt > now
      ensures insertsSincePrune == 0
      ensures report.pendingExpired == |expired|
      ensures report.deadCapDeleted == |letters| && report.dedupeCapDeleted == |ids|
    {
      var dedupeTtl, dedupeCap, deadTtl, deadCap;
      dedupeTtl, dedupeCap, ids := SweepDedupe(now);
      expired := PastExpiry(pending, now);
      if expired != [] {
        pending := BeforeExpiry(pending, now);
      } else {
        NoneExpired(pending, now);
      }
      deadTtl, deadCap, letters := SweepDead(now);
      insertsSincePrune := 0;
      report := PruneReport(dedupeTtl, dedupeCap, deadTtl, deadCap, |expired|);
    }

    /** Expired rows become dead letters one at a time, after the sweep has committed. */
    method PromoteAll(expired: seq<PendingRow>, now: real)
      modifies this`dead, this`nextDead
      ensures Contents() == Promote(old(Contents()), expired, now)
    {
      assert Promotions(nextDead, [], now) == map[];
      for i := 0 to |expired|
        invariant Contents() == Promote(old(Contents()), expired[..i], now)
      {
        PromoteOneMore(old(Contents()), expired, i, now);
        dead := dead[nextDead := Promotion(expired[i], expired[i].attempts, now)];
        nextDead := nextDead + 1;
      }
      assert expired[..|expired|] == expired;
    }

    method SweepDedupe(now: real) returns (ttlDeleted: nat, capDeleted: nat, ghost ids: set<string>)
      modifies this`dedupe
      ensures IsLeast(DedupeRanks(FreshDedupe(old(Contents()), limits, now)),
                      Overflow(|FreshDedupe(old(Contents()), limits, now)|, limits.dedupeMax), ids)
      ensures dedupe == FreshDedupe(old(Contents()), limits, now) - ids
      ensures IdsSwept(old(dedupe), dedupe, limits, now, ids)
      ensures ttlDeleted == |old(dedupe)| - |YoungIds(old(dedupe), limits, now)|
      ensures capDeleted == |ids| == Overflow(|YoungIds(old(dedupe), limits, now)|, limits.dedupeMax)
    {
      var kept := map id | id in dedupe && dedupe[id] >= now - limits.dedupeTtl :: dedupe[id];
      assert kept.Keys <= dedupe.Keys;
      SubsetSize(kept.Keys, dedupe.Keys);
      ttlDeleted := |dedupe| - |kept|;
      var victims: set<string> := {};
      if |kept| > limits.dedupeMax {
        var k := |kept| - limits.dedupeMax;
        assert DedupeRanks(kept).Keys == kept.Keys;
        LeastExists(DedupeRanks(kept), k);
        victims :| victims <= kept.Keys && IsLeast(DedupeRanks(kept), k, victims);
      }
      dedupe := kept - victims;
      assert kept.Keys == YoungIds(old(dedupe), limits, now);
      return ttlDeleted, |victims|, victims;
    }

    method SweepDead(now: real) returns (ttlDeleted: nat, capDeleted: nat, ghost letters: set<nat>)
      modifies this`dead
      ensures IsLeast(DeadRanks(FreshDead(old(Contents()), limits, now)),
                      Overflow(|FreshDead(old(Contents()), limits, now)|, limits.deadMax), letters)
      ensures dead == FreshDead(old(Contents()), limits, now) - letters
      ensures LettersSwept(old(dead), dead, limits, now, letters)
      ensures ttlDeleted == |old(dead)| - |YoungLetters(old(dead), limits, now)|
      ensures capDeleted == |letters| == Overflow(|YoungLetters(old(dead), limits, now)|, limits.deadMax)
    {
      var kept := map d | d in dead && dead[d].createdAt >= now - limits.deadTtl :: dead[d];
      assert kept.Keys <= dead.Keys;
      SubsetSize(kept.Keys, dead.Keys);
      ttlDeleted := |dead| - |kept|;
      var victims: set<nat> := {};
      if |kept| > limits.deadMax {
        var k := |kept| - limits.deadMax;
        assert DeadRanks(kept).Keys == kept.Keys;
        LeastExists(DeadRanks(kept), k);
        victims :| victims <= kept.Keys && IsLeast(DeadRanks(kept), k, victims);
      }
      dead := kept - victims;
      assert kept.Keys == YoungLetters(old(dead), limits, now);
      return ttlDeleted, |victims|, victims;
    }
  }

  /** With nothing expired the unexpired rows are all the rows. */
  lemma {:induction false} NoneExpired(rows: seq<PendingRow>, now: real)
    requires PastExpiry(rows, now) == []
    ensures BeforeExpiry(rows, now) == rows
  {
    if rows != [] {
      NoneExpired(rows[..|rows| - 1], now);
      assert rows == rows[..|rows| - 1] + [rows[|rows| - 1]];
    }
  }
}

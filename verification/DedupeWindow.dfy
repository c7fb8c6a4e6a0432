/**
 The replay window over whole runs: which ids a durable store still recognises
 after any sequence of ingest checks and sweeps.
 */
module DedupeWindow {
  import opened Tables
  import opened Retention
  import Store

  /**
   `victims` is what the capped delete picks if this operation sweeps. A sweep
   run by the operator's own process leaves the daemon's insert count alone;
   opening the database sweeps and starts the count at zero.
   */
  datatype Operation =
    | Check(id: string, now: real, victims: set<string>)
    | Sweep(now: real, victims: set<string>, operator: bool)

  datatype Window = Window(seen: map<string, real>, inserts: nat)

  /** The table a sweep in this operation would look at. */
  function Recorded(w: Window, op: Operation): map<string, real> {
    if op.Check? && op.id !in w.seen then w.seen[op.id := op.now] else w.seen
  }

  predicate Sweeps(w: Window, op: Operation) {
    op.Sweep? || w.inserts + 1 >= Store.PRUNE_INTERVAL
  }

  function Step(lim: Limits, w: Window, op: Operation): Window {
    if Sweeps(w, op)
    then Window(FreshIds(Recorded(w, op), lim, op.now) - op.victims,
                if op.Sweep? && op.operator then w.inserts else 0)
    else Window(Recorded(w, op), w.inserts + 1)
  }

  ghost predicate Legal(lim: Limits, w: Window, op: Operation) {
    Sweeps(w, op) ==>
      var kept := FreshIds(Recorded(w, op), lim, op.now);
      IsLeast(DedupeRanks(kept), Overflow(|kept|, lim.dedupeMax), op.victims)
  }

  /** The window after a run that starts from an empty database. */
  function After(lim: Limits, ops: seq<Operation>): Window {
    if ops == [] then Window(map[], 0) else Step(lim, After(lim, ops[..|ops| - 1]), ops[|ops| - 1])
  }

  ghost predicate LegalRun(lim: Limits, ops: seq<Operation>) {
    forall i :: 0 <= i < |ops| ==> Legal(lim, After(lim, ops[..i]), ops[i])
  }

  predicate AnsweredNew(lim: Limits, ops: seq<Operation>, i: nat)
    requires i < |ops|
  {
    ops[i].Check? && ops[i].id !in After(lim, ops[..i]).seen
  }

  /** Operation `k` swept `id` out of the window. */
  predicate SweptOut(lim: Limits, ops: seq<Operation>, k: nat, id: string)
    requires k < |ops|
  {
    var w := After(lim, ops[..k]);
    id in Recorded(w, ops[k]) && id !in After(lim, ops[..k + 1]).seen
  }

  lemma AfterOneMore(lim: Limits, ops: seq<Operation>, i: nat)
    requires i < |ops|
    ensures After(lim, ops[..i + 1]) == Step(lim, After(lim, ops[..i]), ops[i])
  {
    assert ops[..i + 1][..i] == ops[..i];
  }

  /** Between calls the window never outgrows its cap by an amortisation interval or more. */
  lemma {:induction false} WindowBound(lim: Limits, ops: seq<Operation>)
    requires LegalRun(lim, ops)
    ensures var w := After(lim, ops);
            |w.seen| <= lim.dedupeMax + w.inserts && w.inserts < 256
  {
    if ops != [] {
      var front, op := ops[..|ops| - 1], ops[|ops| - 1];
      forall i | 0 <= i < |front| ensures Legal(lim, After(lim, front[..i]), front[i]) {
        assert front[..i] == ops[..i];
      }
      WindowBound(lim, front);
      var w := After(lim, front);
      assert Legal(lim, w, op);
      if Sweeps(w, op) {
        var kept := FreshIds(Recorded(w, op), lim, op.now);
        assert DedupeRanks(kept).Keys == kept.Keys;
        RemovalWithinCap(kept, lim.dedupeMax, op.victims);
      }
    }
  }

  lemma {:induction false} FindSweep(lim: Limits, ops: seq<Operation>, i: nat, j: nat, id: string) returns (k: nat)
    requires i < j <= |ops| && ops[i].Check? && ops[i].id == id
    requires id !in After(lim, ops[..j]).seen
    ensures i <= k < j && SweptOut(lim, ops, k, id)
    decreases j
  {
    AfterOneMore(lim, ops, j - 1);
    if j == i + 1 || id in After(lim, ops[..j - 1]).seen {
      k := j - 1;
    } else {
      k := FindSweep(lim, ops, i, j - 1, id);
    }
  }

  /**
   An id is admitted as new twice only if a sweep in between dropped it, and a
   sweep drops an id only when it is past the TTL or when every id the sweep
   kept was seen no earlier.
   */
  lemma AdmittedTwice(lim: Limits, ops: seq<Operation>, i: nat, j: nat) returns (k: nat)
    requires LegalRun(lim, ops)
    requires i < j < |ops| && AnsweredNew(lim, ops, i) && AnsweredNew(lim, ops, j) && ops[i].id == ops[j].id
    ensures i <= k < j && SweptOut(lim, ops, k, ops[i].id)
    ensures var before := Recorded(After(lim, ops[..k]), ops[k]);
            || before[ops[i].id] < ops[k].now - lim.dedupeTtl
            || (ops[i].id in ops[k].victims
                && forall kept :: kept in After(lim, ops[..k + 1]).seen ==>
                     kept in before && before[ops[i].id] <= before[kept])
  {
    k := FindSweep(lim, ops, i, j, ops[i].id);
    AfterOneMore(lim, ops, k);
    var w := After(lim, ops[..k]);
    var within := FreshIds(Recorded(w, ops[k]), lim, ops[k].now);
    assert Legal(lim, w, ops[k]);
    if ops[i].id in within {
      forall kept | kept in After(lim, ops[..k + 1]).seen
        ensures kept in within && Recorded(w, ops[k])[ops[i].id] <= Recorded(w, ops[k])[kept]
      {
        assert !Before(DedupeRanks(within)[kept], DedupeRanks(within)[ops[i].id]);
      }
    }
  }

  // ── admission order ────────────────────────────────────────────────────────

  ghost predicate ClockMonotone(ops: seq<Operation>) {
    forall i, j :: 0 <= i < j < |ops| ==> ops[i].now <= ops[j].now
  }

  /** `a` is the operation that admitted the copy of `id` now in the window. */
  ghost predicate AdmittedAt(lim: Limits, ops: seq<Operation>, id: string, a: nat) {
    && a < |ops| && AnsweredNew(lim, ops, a) && ops[a].id == id
    && id in After(lim, ops).seen && After(lim, ops).seen[id] == ops[a].now
  }

  /** Every id in the window was put there by some admission, and carries its time. */
  lemma {:induction false} AdmissionExists(lim: Limits, ops: seq<Operation>, id: string) returns (a: nat)
    requires id in After(lim, ops).seen
    ensures AdmittedAt(lim, ops, id, a)
  {
    var n := |ops| - 1;
    var front := ops[..n];
    if id in After(lim, front).seen {
      a := AdmissionExists(lim, front, id);
      assert front[..a] == ops[..a];
    } else {
      a := n;
    }
  }

  /** `a` is the operation, perhaps `op` itself, that admitted the copy of `id` a sweep in `op` would look at. */
  ghost predicate AdmittedBefore(lim: Limits, ops: seq<Operation>, op: Operation, id: string, a: nat) {
    var w := After(lim, ops);
    && id in Recorded(w, op)
    && (if id in w.seen then AdmittedAt(lim, ops, id, a) else a == |ops| && op.Check? && op.id == id)
  }

  lemma RecordedAdmission(lim: Limits, ops: seq<Operation>, op: Operation, id: string) returns (a: nat)
    requires id in Recorded(After(lim, ops), op)
    ensures AdmittedBefore(lim, ops, op, id, a)
  {
    a := |ops|;
    if id in After(lim, ops).seen {
      a := AdmissionExists(lim, ops, id);
    }
  }

  lemma AdmissionTime(lim: Limits, ops: seq<Operation>, op: Operation, id: string, a: nat)
    requires AdmittedBefore(lim, ops, op, id, a)
    ensures a <= |ops| && Recorded(After(lim, ops), op)[id] == (ops + [op])[a].now
  {
  }

  /**
   With a clock that never steps back, a capped sweep keeps the most recently
   admitted ids: whatever it keeps was admitted after whatever it drops, or at
   the very same clock reading. This holds of every sweep, the operator's, the
   one that opens the database and the one a check makes, whose own id may be
   among the candidates.
   */
  lemma SweepKeepsNewest(lim: Limits, ops: seq<Operation>, op: Operation, dropped: string, kept: string, a: nat, b: nat)
    requires ClockMonotone(ops + [op]) && Sweeps(After(lim, ops), op) && Legal(lim, After(lim, ops), op)
    requires AdmittedBefore(lim, ops, op, dropped, a) && AdmittedBefore(lim, ops, op, kept, b)
    requires dropped in op.victims && kept in Step(lim, After(lim, ops), op).seen
    ensures a < b || (ops + [op])[a].now == (ops + [op])[b].now
  {
    SweepDropsOldest(lim, After(lim, ops), op, kept, dropped);
    AdmissionTime(lim, ops, op, dropped, a);
    AdmissionTime(lim, ops, op, kept, b);
    if b < a { assert (ops + [op])[b].now <= (ops + [op])[a].now; }
  }

  lemma SweepDropsOldest(lim: Limits, w: Window, op: Operation, kept: string, dropped: string)
    requires Sweeps(w, op) && Legal(lim, w, op)
    requires dropped in op.victims && kept in Step(lim, w, op).seen
    ensures var recorded := Recorded(w, op);
      dropped in recorded && kept in recorded && recorded[dropped] <= recorded[kept]
  {
    var within := FreshIds(Recorded(w, op), lim, op.now);
    OldestGoFirst(within, Overflow(|within|, lim.dedupeMax), op.victims, kept, dropped);
  }

  lemma OldestGoFirst(within: map<string, real>, overflow: nat, victims: set<string>, kept: string, dropped: string)
    requires IsLeast(DedupeRanks(within), overflow, victims)
    requires kept in within && kept !in victims && dropped in victims
    ensures dropped in within && within[dropped] <= within[kept]
  {
    assert !Before(DedupeRanks(within)[kept], DedupeRanks(within)[dropped]);
  }
}

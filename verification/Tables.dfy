/**
 The durable tables of the daemon and what each store call does to them.

 `pending` is kept in row-id order (an AUTOINCREMENT primary key never reuses an
 id); `dedupe` and `dead` are keyed by their primary keys.
 */
module Tables {
  import opened Prelude

  /** A wake event, as far as routing and storage look at it. */
  datatype Event = Event(
    id: string,
    source: string,
    delivery: Option<string>,
    destination: Option<string>,
    principal: Option<string>,
    content: string)

  /** `destination` is NULL only on rows written before the column existed. */
  datatype PendingRow = PendingRow(
    rowId: nat,
    eventId: string,
    source: string,
    destination: Option<string>,
    event: Event,
    expiresAt: real,
    attempts: nat)

  datatype Kind = NextSession | Reply | HumanDelivery

  datatype RedriveStatus = NeverRedriven | RedriveFailed | RedriveOk

  datatype DeadRow = DeadRow(
    kind: Kind,
    source: string,
    refId: string,
    event: Event,
    attempts: int,
    createdAt: real,
    status: RedriveStatus)

  /** The store's configured bounds; the config loader requires each to be positive. */
  datatype Limits = Limits(
    dedupeTtl: real,
    dedupeMax: nat,
    pendingTtl: real,
    pendingMax: nat,
    maxAttempts: nat,
    deadTtl: real,
    deadMax: nat)

  datatype Tables = Tables(
    dedupe: map<string, real>,
    pending: seq<PendingRow>,
    dead: map<nat, DeadRow>,
    nextRow: nat,
    nextDead: nat)

  const CLAIM_LIMIT: nat := 100

  // ── what the tables always satisfy ─────────────────────────────────────────

  ghost predicate RowsOrdered(rows: seq<PendingRow>) {
    forall i, j :: 0 <= i < j < |rows| ==> rows[i].rowId < rows[j].rowId
  }

  ghost predicate OneRowPerEvent(rows: seq<PendingRow>) {
    forall i, j :: 0 <= i < j < |rows| ==> rows[i].eventId != rows[j].eventId
  }

  ghost predicate RowWellFormed(r: PendingRow) {
    r.eventId == r.event.id && r.source == r.event.source && r.eventId != ""
  }

  /** Keys are unique and below their counters, and payloads match their columns. */
  ghost predicate ValidTables(t: Tables) {
    && RowsOrdered(t.pending)
    && OneRowPerEvent(t.pending)
    && (forall r :: r in t.pending ==> r.rowId < t.nextRow && RowWellFormed(r))
    && (forall d :: d in t.dead ==> d < t.nextDead)
    && (forall d :: d in t.dead && t.dead[d].kind == NextSession ==>
          t.dead[d].refId == t.dead[d].event.id)
  }

  predicate InQueue(rows: seq<PendingRow>, id: string) {
    exists i :: 0 <= i < |rows| && rows[i].eventId == id
  }

  /** A dead letter of the queue's own kind records the event. */
  ghost predicate DeadLettered(dead: map<nat, DeadRow>, id: string) {
    exists d :: d in dead && dead[d].kind == NextSession && dead[d].refId == id
  }

  // ── next-session queue ─────────────────────────────────────────────────────

  predicate Admits(t: Tables, lim: Limits, e: Event) {
    e.id != "" && |t.pending| < lim.pendingMax && !InQueue(t.pending, e.id)
  }

  function NewRow(t: Tables, lim: Limits, e: Event, destination: Option<string>, now: real): PendingRow {
    PendingRow(t.nextRow, e.id, e.source,
               if destination.Some? then destination else Some(e.source),
               e, now + lim.pendingTtl, 0)
  }

  function Enqueue(t: Tables, lim: Limits, e: Event, destination: Option<string>, now: real): Tables {
    if Admits(t, lim, e)
    then t.(pending := t.pending + [NewRow(t, lim, e, destination, now)], nextRow := t.nextRow + 1)
    else t
  }

  /** Rows a drain for `name` may take; the NULL arm serves pre-migration rows. */
  predicate Claimable(r: PendingRow, name: string, now: real) {
    && (r.destination == Some(name) || (r.destination.None? && r.source == name))
    && r.expiresAt > now
  }

  /** The first `limit` claimable rows in row-id order. */
  function Selected(rows: seq<PendingRow>, name: string, now: real, limit: nat): (r: seq<PendingRow>)
    ensures |r| <= limit
    ensures forall x :: x in r ==> x in rows && Claimable(x, name, now)
  {
    if rows == [] then []
    else
      var front := Selected(rows[..|rows| - 1], name, now, limit);
      var last := rows[|rows| - 1];
      if |front| < limit && Claimable(last, name, now) then front + [last] else front
  }

  function Bumped(r: PendingRow): PendingRow {
    r.(attempts := r.attempts + 1)
  }

  function RowIds(rows: seq<PendingRow>): set<nat> {
    set r | r in rows :: r.rowId
  }

  function BumpRows(rows: seq<PendingRow>, ids: set<nat>): (r: seq<PendingRow>)
    ensures |r| == |rows|
  {
    seq(|rows|, i requires 0 <= i < |rows| => if rows[i].rowId in ids then Bumped(rows[i]) else rows[i])
  }

  function BumpAll(rows: seq<PendingRow>): (r: seq<PendingRow>)
    ensures |r| == |rows|
  {
    seq(|rows|, i requires 0 <= i < |rows| => Bumped(rows[i]))
  }

  function Claim(t: Tables, name: string, now: real): (Tables, seq<PendingRow>) {
    var chosen := Selected(t.pending, name, now, CLAIM_LIMIT);
    (t.(pending := BumpRows(t.pending, RowIds(chosen))), BumpAll(chosen))
  }

  function WithoutRow(rows: seq<PendingRow>, rowId: nat): seq<PendingRow> {
    Filter(rows, (r: PendingRow) => r.rowId != rowId)
  }

  function RemovePending(t: Tables, rowId: nat): Tables {
    t.(pending := WithoutRow(t.pending, rowId))
  }

  // ── dead letters ───────────────────────────────────────────────────────────

  function AddDead(t: Tables, d: DeadRow): Tables {
    t.(dead := t.dead[t.nextDead := d], nextDead := t.nextDead + 1)
  }

  function SetRedriven(t: Tables, d: nat, status: RedriveStatus): Tables {
    if d in t.dead then t.(dead := t.dead[d := t.dead[d].(status := status)]) else t
  }

  predicate Purgeable(d: DeadRow, cutoff: Option<real>, redrivenOnly: bool) {
    (cutoff.Some? ==> d.createdAt < cutoff.value) && (redrivenOnly ==> d.status == RedriveOk)
  }

  function PurgeKeys(t: Tables, cutoff: Option<real>, redrivenOnly: bool): set<nat> {
    set d | d in t.dead && Purgeable(t.dead[d], cutoff, redrivenOnly)
  }

  function Purge(t: Tables, cutoff: Option<real>, redrivenOnly: bool): Tables {
    t.(dead := t.dead - PurgeKeys(t, cutoff, redrivenOnly))
  }

  // ── dedupe ─────────────────────────────────────────────────────────────────

  function RecordEvent(t: Tables, id: string, now: real): Tables {
    if id in t.dedupe then t else t.(dedupe := t.dedupe[id := now])
  }

  // ── list facts the proofs lean on ──────────────────────────────────────────

  /** Filtering keeps the row-id order and the one-row-per-event property. */
  lemma {:induction false} FilterKeepsOrder(rows: seq<PendingRow>, keep: PendingRow -> bool)
    requires RowsOrdered(rows) && OneRowPerEvent(rows)
    ensures RowsOrdered(Filter(rows, keep)) && OneRowPerEvent(Filter(rows, keep))
  {
    if rows != [] {
      var n := |rows| - 1;
      FilterKeepsOrder(rows[..n], keep);
      var kept := Filter(rows[..n], keep);
      forall i | 0 <= i < |kept| ensures kept[i].rowId < rows[n].rowId && kept[i].eventId != rows[n].eventId {
        assert kept[i] in kept;
        var j :| 0 <= j < n && rows[..n][j] == kept[i];
      }
    }
  }

  /** Rows of one ordered table with equal ids are the same row. */
  lemma SameIdSameRow(rows: seq<PendingRow>, a: PendingRow, b: PendingRow)
    requires RowsOrdered(rows) && a in rows && b in rows && a.rowId == b.rowId
    ensures a == b
  {
    var i :| 0 <= i < |rows| && rows[i] == a;
    var j :| 0 <= j < |rows| && rows[j] == b;
    assert !(i < j) && !(j < i);
  }

  /** A claim takes distinct rows, oldest first. */
  lemma {:induction false} SelectedOrdered(rows: seq<PendingRow>, name: string, now: real, limit: nat)
    requires RowsOrdered(rows)
    ensures RowsOrdered(Selected(rows, name, now, limit))
  {
    if rows != [] {
      var front := rows[..|rows| - 1];
      SelectedOrdered(front, name, now, limit);
      forall x | x in Selected(front, name, now, limit) ensures x.rowId < rows[|rows| - 1].rowId {
        assert x in front;
      }
    }
  }

  /** A claim skips a claimable row only when the limit is used up by older ones. */
  lemma {:induction false} SelectedOldest(rows: seq<PendingRow>, name: string, now: real, limit: nat, r: PendingRow)
    requires RowsOrdered(rows) && r in rows && Claimable(r, name, now)
    requires r !in Selected(rows, name, now, limit)
    ensures |Selected(rows, name, now, limit)| == limit
    ensures forall x :: x in Selected(rows, name, now, limit) ==> x.rowId < r.rowId
  {
    var front, last := rows[..|rows| - 1], rows[|rows| - 1];
    if r in front {
      SelectedOldest(front, name, now, limit, r);
    } else {
      assert r == last;
      forall x | x in Selected(front, name, now, limit) ensures x.rowId < r.rowId {
        assert x in front;
      }
    }
  }

  // ── every store call keeps the tables valid ────────────────────────────────

  lemma EnqueueValid(t: Tables, lim: Limits, e: Event, destination: Option<string>, now: real)
    requires ValidTables(t)
    ensures ValidTables(Enqueue(t, lim, e, destination, now))
  {
    if Admits(t, lim, e) {
      var rows := t.pending + [NewRow(t, lim, e, destination, now)];
      forall i, j | 0 <= i < j < |rows|
        ensures rows[i].rowId < rows[j].rowId && rows[i].eventId != rows[j].eventId
      {
        assert rows[i] in t.pending;
      }
    }
  }

  lemma ClaimValid(t: Tables, name: string, now: real)
    requires ValidTables(t)
    ensures ValidTables(Claim(t, name, now).0)
  {
    var t' := Claim(t, name, now).0;
    forall r | r in t'.pending ensures r.rowId < t.nextRow && RowWellFormed(r) {
      var i :| 0 <= i < |t'.pending| && t'.pending[i] == r;
      assert t.pending[i] in t.pending;
    }
  }

  lemma RemovePendingValid(t: Tables, rowId: nat)
    requires ValidTables(t)
    ensures ValidTables(RemovePending(t, rowId))
  {
    FilterKeepsOrder(t.pending, (r: PendingRow) => r.rowId != rowId);
  }
}

/**
 Retention: what one `prune` removes, and in which order the dead-letter cap
 gives rows up.

 SQL leaves ties in an ORDER BY ... LIMIT open, so a capped deletion is any
 selection of that many least rows; everything below holds for all of them.
 */
module Retention {
  import opened Prelude
  import opened Tables

  /** The ORDER BY key of the cap eviction. */
  datatype Rank = Rank(tier: nat, kind: nat, at: real)

  /** `(redrive_status = 'ok') DESC`: 1, then 0, then NULL. */
  function Tier(s: RedriveStatus): nat {
    match s
    case RedriveOk => 0
    case RedriveFailed => 1
    case NeverRedriven => 2
  }

  function KindRank(k: Kind): nat {
    match k
    case NextSession => 0
    case Reply => 1
    case HumanDelivery => 2
  }

  function RankOf(d: DeadRow): Rank {
    Rank(Tier(d.status), KindRank(d.kind), d.createdAt)
  }

  predicate Before(a: Rank, b: Rank) {
    || a.tier < b.tier
    || (a.tier == b.tier && a.kind < b.kind)
    || (a.tier == b.tier && a.kind == b.kind && a.at < b.at)
  }

  /** `vs` is an answer to "the k least rows". */
  predicate IsLeast<K(==,!new)>(ranks: map<K, Rank>, k: nat, vs: set<K>) {
    && vs <= ranks.Keys
    && |vs| == k
    && (forall v, r :: v in vs && r in ranks && r !in vs ==> !Before(ranks[r], ranks[v]))
  }

  function DeadRanks(dead: map<nat, DeadRow>): map<nat, Rank> {
    map d | d in dead :: RankOf(dead[d])
  }

  function DedupeRanks(dedupe: map<string, real>): map<string, Rank> {
    map id | id in dedupe :: Rank(0, 0, dedupe[id])
  }

  function Overflow(n: nat, cap: nat): nat {
    if n > cap then n - cap else 0
  }

  // ── the sweep ──────────────────────────────────────────────────────────────

  function FreshIds(dedupe: map<string, real>, lim: Limits, now: real): map<string, real> {
    map id | id in dedupe && dedupe[id] >= now - lim.dedupeTtl :: dedupe[id]
  }

  function FreshDedupe(t: Tables, lim: Limits, now: real): map<string, real> {
    FreshIds(t.dedupe, lim, now)
  }

  function FreshDead(t: Tables, lim: Limits, now: real): map<nat, DeadRow> {
    map d | d in t.dead && t.dead[d].createdAt >= now - lim.deadTtl :: t.dead[d]
  }

  function PastExpiry(rows: seq<PendingRow>, now: real): seq<PendingRow> {
    Filter(rows, (r: PendingRow) => r.expiresAt <= now)
  }

  function BeforeExpiry(rows: seq<PendingRow>, now: real): seq<PendingRow> {
    Filter(rows, (r: PendingRow) => r.expiresAt > now)
  }

  function Expired(t: Tables, now: real): seq<PendingRow> {
    PastExpiry(t.pending, now)
  }

  function Unexpired(t: Tables, now: real): seq<PendingRow> {
    BeforeExpiry(t.pending, now)
  }

  /** The dead letter a queued row becomes. */
  function Promotion(r: PendingRow, attempts: int, now: real): DeadRow {
    DeadRow(NextSession, r.source, r.eventId, r.event, attempts, now, NeverRedriven)
  }

  function PromotedAt(first: nat, rows: seq<PendingRow>, d: nat, now: real): DeadRow
    requires first <= d < first + |rows|
  {
    Promotion(rows[d - first], rows[d - first].attempts, now)
  }

  /** Consecutive fresh ids, one per row, in order. */
  function Promotions(first: nat, rows: seq<PendingRow>, now: real): map<nat, DeadRow> {
    map d: nat | first <= d < first + |rows| :: PromotedAt(first, rows, d, now)
  }

  function Promote(t: Tables, rows: seq<PendingRow>, now: real): Tables {
    t.(dead := t.dead + Promotions(t.nextDead, rows, now), nextDead := t.nextDead + |rows|)
  }

  /** The victim sets one sweep may pick: least-recently seen ids, least-ranked dead letters. */
  ghost predicate LegalVictims(t: Tables, lim: Limits, now: real, ids: set<string>, letters: set<nat>) {
    && IsLeast(DedupeRanks(FreshDedupe(t, lim, now)), Overflow(|FreshDedupe(t, lim, now)|, lim.dedupeMax), ids)
    && IsLeast(DeadRanks(FreshDead(t, lim, now)), Overflow(|FreshDead(t, lim, now)|, lim.deadMax), letters)
  }

  /** The tables after the sweep's single commit, before anything is promoted. */
  function Swept(t: Tables, lim: Limits, now: real, ids: set<string>, letters: set<nat>): Tables {
    t.(dedupe := FreshDedupe(t, lim, now) - ids,
       pending := Unexpired(t, now),
       dead := FreshDead(t, lim, now) - letters)
  }

  function Pruned(t: Tables, lim: Limits, now: real, ids: set<string>, letters: set<nat>): Tables {
    Promote(Swept(t, lim, now, ids, letters), Expired(t, now), now)
  }

  // ── selections exist ───────────────────────────────────────────────────────

  lemma {:induction false} MinimumExists<K(!new)>(ranks: map<K, Rank>) returns (m: K)
    requires |ranks| > 0
    ensures m in ranks && forall r :: r in ranks ==> !Before(ranks[r], ranks[m])
    decreases |ranks|
  {
    m :| m in ranks;
    var rest := ranks - {m};
    assert ranks.Keys == rest.Keys + {m};
    if |rest| > 0 {
      var n := MinimumExists(rest);
      if Before(rest[n], ranks[m]) { m := n; }
      assert forall r :: r in ranks ==> r == m || r in rest || !Before(ranks[r], ranks[m]);
    }
  }

  lemma {:induction false} LeastExists<K(!new)>(ranks: map<K, Rank>, k: nat)
    requires k <= |ranks|
    ensures exists vs :: IsLeast(ranks, k, vs)
  {
    if k == 0 {
      assert IsLeast(ranks, 0, {});
    } else {
      LeastExists(ranks, k - 1);
      var vs :| IsLeast(ranks, k - 1, vs);
      var rest := ranks - vs;
      assert ranks.Keys == rest.Keys + vs;
      var m := MinimumExists(rest);
      assert IsLeast(ranks, k, vs + {m});
    }
  }

  // ── facts about promotion ──────────────────────────────────────────────────

  lemma {:induction false} PromotionsSize(first: nat, rows: seq<PendingRow>, now: real)
    ensures |Promotions(first, rows, now)| == |rows|
  {
    if rows == [] {
      assert Promotions(first, rows, now) == map[];
    } else {
      var n := |rows| - 1;
      PromotionsSize(first, rows[..n], now);
      assert Promotions(first, rows, now)
          == Promotions(first, rows[..n], now)[first + n := Promotion(rows[n], rows[n].attempts, now)];
    }
  }

  /** One more row promoted is one more dead letter written. */
  lemma PromoteOneMore(t: Tables, rows: seq<PendingRow>, n: nat, now: real)
    requires n < |rows|
    ensures Promote(t, rows[..n + 1], now)
         == AddDead(Promote(t, rows[..n], now), Promotion(rows[n], rows[n].attempts, now))
  {
    assert Promotions(t.nextDead, rows[..n + 1], now)
        == Promotions(t.nextDead, rows[..n], now)[t.nextDead + n := Promotion(rows[n], rows[n].attempts, now)];
  }

  lemma PrunedValid(t: Tables, lim: Limits, now: real, ids: set<string>, letters: set<nat>)
    requires ValidTables(t)
    ensures ValidTables(Pruned(t, lim, now, ids, letters))
  {
    FilterKeepsOrder(t.pending, (r: PendingRow) => r.expiresAt > now);
    var t' := Pruned(t, lim, now, ids, letters);
    forall d | d in t'.dead
      ensures d < t'.nextDead && (t'.dead[d].kind == NextSession ==> t'.dead[d].refId == t'.dead[d].event.id)
    {
      if d in Promotions(t.nextDead, Expired(t, now), now) {
        assert Expired(t, now)[d - t.nextDead] in t.pending;
      } else {
        assert d in t.dead && t'.dead[d] == t.dead[d];
      }
    }
  }

  // ── ranked eviction ────────────────────────────────────────────────────────

  ghost function WithStatus(dead: map<nat, DeadRow>, s: RedriveStatus): set<nat> {
    set d | d in dead && dead[d].status == s
  }

  /**
   Capped eviction loses a letter that was never successfully redriven only once
   no redriven letter is left: exactly max(0, overflow - redriven) of them go.
   */
  lemma UnredrivenLosses(dead: map<nat, DeadRow>, k: nat, vs: set<nat>)
    requires IsLeast(DeadRanks(dead), k, vs)
    ensures |vs - WithStatus(dead, RedriveOk)| == Overflow(k, |WithStatus(dead, RedriveOk)|)
  {
    var ok := WithStatus(dead, RedriveOk);
    if vs <= ok {
      SubsetSize(vs, ok);
      assert vs - ok == {};
    } else {
      var v :| v in vs && v !in ok;
      forall r | r in ok ensures r in vs {
        assert Before(DeadRanks(dead)[r], DeadRanks(dead)[v]);
      }
      assert vs == (vs - ok) + ok;
    }
  }

  /**
   One sweep, whatever ties do: no letter that survives ranks before an evicted
   one, and no more un-redriven letters go than must.
   */
  lemma PruneEvictsByRank(t: Tables, lim: Limits, now: real, ids: set<string>, letters: set<nat>)
    requires ValidTables(t) && LegalVictims(t, lim, now, ids, letters)
    ensures forall v, r :: v in letters && r in Pruned(t, lim, now, ids, letters).dead && r < t.nextDead ==>
              r in t.dead && v in t.dead && !Before(RankOf(t.dead[r]), RankOf(t.dead[v]))
    ensures |letters - WithStatus(FreshDead(t, lim, now), RedriveOk)|
         == Overflow(Overflow(|FreshDead(t, lim, now)|, lim.deadMax),
                     |WithStatus(FreshDead(t, lim, now), RedriveOk)|)
  {
    var kept := FreshDead(t, lim, now);
    UnredrivenLosses(kept, Overflow(|kept|, lim.deadMax), letters);
    forall v, r | v in letters && r in Pruned(t, lim, now, ids, letters).dead && r < t.nextDead
      ensures r in t.dead && v in t.dead && !Before(RankOf(t.dead[r]), RankOf(t.dead[v]))
    {
      assert r in kept && r !in letters;
      assert !Before(DeadRanks(kept)[r], DeadRanks(kept)[v]);
    }
  }

  lemma RemovalWithinCap<K, V>(m: map<K, V>, cap: nat, vs: set<K>)
    requires vs <= m.Keys && |vs| == Overflow(|m|, cap)
    ensures |m - vs| <= cap
  {
    assert m.Keys == (m - vs).Keys + vs;
  }

  lemma MapUnionSize<K, V>(a: map<K, V>, b: map<K, V>)
    ensures |a + b| <= |a| + |b|
  {
    UnionSize(a.Keys, b.Keys);
    assert (a + b).Keys == a.Keys + b.Keys;
  }

  /** After a sweep the tables are within their caps but for the sweep's own promotions. */
  lemma PruneBounds(t: Tables, lim: Limits, now: real, ids: set<string>, letters: set<nat>)
    requires LegalVictims(t, lim, now, ids, letters)
    ensures |Pruned(t, lim, now, ids, letters).dead| <= lim.deadMax + |Expired(t, now)|
    ensures |Pruned(t, lim, now, ids, letters).dedupe| <= lim.dedupeMax
  {
    var kept := FreshDead(t, lim, now) - letters;
    RemovalWithinCap(FreshDead(t, lim, now), lim.deadMax, letters);
    RemovalWithinCap(FreshDedupe(t, lim, now), lim.dedupeMax, ids);
    PromotionsSize(t.nextDead, Expired(t, now), now);
    MapUnionSize(kept, Promotions(t.nextDead, Expired(t, now), now));
  }

  /** A row the sweep promotes is in the dead-letter table when the sweep ends. */
  lemma PruneKeepsPromotions(t: Tables, lim: Limits, now: real, ids: set<string>, letters: set<nat>, r: PendingRow)
    returns (d: nat)
    requires r in Expired(t, now)
    ensures t.nextDead <= d && d in Pruned(t, lim, now, ids, letters).dead
    ensures Pruned(t, lim, now, ids, letters).dead[d] == Promotion(r, r.attempts, now)
    ensures Promotion(r, r.attempts, now)
         == DeadRow(NextSession, r.source, r.eventId, r.event, r.attempts, now, NeverRedriven)
  {
    var i :| 0 <= i < |Expired(t, now)| && Expired(t, now)[i] == r;
    d := t.nextDead + i;
    assert Promotions(t.nextDead, Expired(t, now), now)[d] == PromotedAt(t.nextDead, Expired(t, now), d, now);
  }

  // ── row by row ─────────────────────────────────────────────────────────────

  /** The letters no older than the retention of dead letters. */
  function YoungLetters(dead: map<nat, DeadRow>, lim: Limits, now: real): set<nat> {
    set d | d in dead && dead[d].createdAt >= now - lim.deadTtl
  }

  /** The ids last seen within the dedupe retention. */
  function YoungIds(dedupe: map<string, real>, lim: Limits, now: real): set<string> {
    set id | id in dedupe && dedupe[id] >= now - lim.dedupeTtl
  }

  /** Exactly the letters within their retention, but for the cap's victims, are left, as they were. */
  ghost predicate LettersSwept(before: map<nat, DeadRow>, after: map<nat, DeadRow>, lim: Limits, now: real, letters: set<nat>) {
    && (forall d :: d in after <==> d in before && before[d].createdAt >= now - lim.deadTtl && d !in letters)
    && (forall d :: d in after ==> after[d] == before[d])
  }

  /** Exactly the replay ids seen within their retention, but for the cap's victims, are left, with their times. */
  ghost predicate IdsSwept(before: map<string, real>, after: map<string, real>, lim: Limits, now: real, ids: set<string>) {
    && (forall id :: id in after <==> id in before && before[id] >= now - lim.dedupeTtl && id !in ids)
    && (forall id :: id in after ==> after[id] == before[id])
  }

  /** A letter survives a sweep, unchanged, exactly when it is within its retention and not among the cap's victims. */
  lemma SweepKeepsLetterIff(t: Tables, lim: Limits, now: real, ids: set<string>, letters: set<nat>, d: nat)
    requires ValidTables(t) && d in t.dead
    ensures var t' := Pruned(t, lim, now, ids, letters);
      && (d in t'.dead <==> t.dead[d].createdAt >= now - lim.deadTtl && d !in letters)
      && (d in t'.dead ==> t'.dead[d] == t.dead[d])
  {
    assert d !in Promotions(t.nextDead, Expired(t, now), now);
  }

  /** The cap takes letters within their retention, as many as there are too many of: none while they fit. */
  lemma CapTakesExcess(t: Tables, lim: Limits, now: real, ids: set<string>, letters: set<nat>)
    requires LegalVictims(t, lim, now, ids, letters)
    ensures letters <= YoungLetters(t.dead, lim, now)
    ensures |letters| == Overflow(|YoungLetters(t.dead, lim, now)|, lim.deadMax)
    ensures |YoungLetters(t.dead, lim, now)| <= lim.deadMax ==> letters == {}
    ensures ids <= YoungIds(t.dedupe, lim, now)
    ensures |ids| == Overflow(|YoungIds(t.dedupe, lim, now)|, lim.dedupeMax)
    ensures |YoungIds(t.dedupe, lim, now)| <= lim.dedupeMax ==> ids == {}
  {
    assert FreshDead(t, lim, now).Keys == YoungLetters(t.dead, lim, now);
    assert DeadRanks(FreshDead(t, lim, now)).Keys == FreshDead(t, lim, now).Keys;
    assert FreshDedupe(t, lim, now).Keys == YoungIds(t.dedupe, lim, now);
    assert DedupeRanks(FreshDedupe(t, lim, now)).Keys == FreshDedupe(t, lim, now).Keys;
  }

  /** The order of the cap: redriven, then failed, then untried; then by kind; then oldest first. */
  ghost predicate NoDearer(v: DeadRow, r: DeadRow) {
    && (r.status == RedriveOk ==> v.status == RedriveOk)
    && (v.status == NeverRedriven ==> r.status == NeverRedriven)
    && (v.status == r.status && r.kind == NextSession ==> v.kind == NextSession)
    && (v.status == r.status && v.kind == HumanDelivery ==> r.kind == HumanDelivery)
    && (v.status == r.status && v.kind == r.kind ==> v.createdAt <= r.createdAt)
  }

  /** Whatever the cap takes is, in that order, no dearer than any letter within its retention that it leaves. */
  lemma CapTakesCheapest(t: Tables, lim: Limits, now: real, ids: set<string>, letters: set<nat>, v: nat, r: nat)
    requires LegalVictims(t, lim, now, ids, letters)
    requires v in letters && r in YoungLetters(t.dead, lim, now) && r !in letters
    ensures v in t.dead && NoDearer(t.dead[v], t.dead[r])
  {
    CheapestTaken(FreshDead(t, lim, now), |letters|, letters);
  }

  lemma CheapestTaken(kept: map<nat, DeadRow>, k: nat, vs: set<nat>)
    requires IsLeast(DeadRanks(kept), k, vs)
    ensures forall v, r :: v in vs && r in kept && r !in vs ==> v in kept && NoDearer(kept[v], kept[r])
  {
    forall v, r | v in vs && r in kept && r !in vs ensures v in kept && NoDearer(kept[v], kept[r]) {
      assert !Before(DeadRanks(kept)[r], DeadRanks(kept)[v]);
    }
  }

  lemma OldestTaken(kept: map<string, real>, k: nat, vs: set<string>)
    requires IsLeast(DedupeRanks(kept), k, vs)
    ensures forall v, r :: v in vs && r in kept && r !in vs ==> v in kept && kept[v] <= kept[r]
  {
    forall v, r | v in vs && r in kept && r !in vs ensures v in kept && kept[v] <= kept[r] {
      assert !Before(DedupeRanks(kept)[r], DedupeRanks(kept)[v]);
    }
  }

  /** The dedupe cap takes the ids seen longest ago. */
  lemma CapTakesOldestIds(t: Tables, lim: Limits, now: real, ids: set<string>, letters: set<nat>, v: string, r: string)
    requires LegalVictims(t, lim, now, ids, letters)
    requires v in ids && r in YoungIds(t.dedupe, lim, now) && r !in ids
    ensures v in t.dedupe && t.dedupe[v] <= t.dedupe[r]
  {
    OldestTaken(FreshDedupe(t, lim, now), |ids|, ids);
  }

  /** A replay id survives a sweep, with its time, exactly when it was seen within its retention and is no victim. */
  lemma SweepKeepsIdIff(t: Tables, lim: Limits, now: real, ids: set<string>, letters: set<nat>, id: string)
    ensures var t' := Pruned(t, lim, now, ids, letters);
      && (id in t'.dedupe <==> id in t.dedupe && t.dedupe[id] >= now - lim.dedupeTtl && id !in ids)
      && (id in t'.dedupe ==> t'.dedupe[id] == t.dedupe[id])
  {
  }

  /** A queued row survives a sweep exactly when it has not reached its expiry. */
  lemma SweepKeepsRowIff(t: Tables, lim: Limits, now: real, ids: set<string>, letters: set<nat>, r: PendingRow)
    ensures r in Pruned(t, lim, now, ids, letters).pending <==> r in t.pending && r.expiresAt > now
  {
  }

  // ── the documented order, and when it holds ────────────────────────────────

  /** The order the documentation describes: redriven first, then kind, then age. */
  function DocumentedRank(d: DeadRow): Rank {
    Rank(if d.status == RedriveOk then 0 else 1, KindRank(d.kind), d.createdAt)
  }

  function DocumentedRanks(dead: map<nat, DeadRow>): map<nat, Rank> {
    map d | d in dead :: DocumentedRank(dead[d])
  }

  /** No letter whose redrive failed outranks, by the documented order, one never redriven. */
  ghost predicate NoFailedOutranksFresh(dead: map<nat, DeadRow>) {
    forall f, n :: f in dead && n in dead && dead[f].status == RedriveFailed && dead[n].status == NeverRedriven ==>
      !Before(DocumentedRank(dead[n]), DocumentedRank(dead[f]))
  }

  /**
   A NULL status sorts after 'failed', so a failed redrive costs a letter its
   place: every eviction follows the documented order exactly on tables where no
   failed letter documentedly outranks a never-redriven one.
   */
  lemma DocumentedOrderIff(dead: map<nat, DeadRow>)
    ensures (forall k: nat, vs :: IsLeast(DeadRanks(dead), k, vs) ==> IsLeast(DocumentedRanks(dead), k, vs))
        <==> NoFailedOutranksFresh(dead)
  {
    if NoFailedOutranksFresh(dead) {
      forall k: nat, vs | IsLeast(DeadRanks(dead), k, vs) ensures IsLeast(DocumentedRanks(dead), k, vs) {
        forall v, r | v in vs && r in dead && r !in vs
          ensures !Before(DocumentedRanks(dead)[r], DocumentedRanks(dead)[v])
        {
          assert !Before(DeadRanks(dead)[r], DeadRanks(dead)[v]);
        }
      }
    } else {
      var f, n :| f in dead && n in dead && dead[f].status == RedriveFailed && dead[n].status == NeverRedriven
        && Before(DocumentedRank(dead[n]), DocumentedRank(dead[f]));
      var vs := set d | d in dead && dead[d].status != NeverRedriven;
      assert IsLeast(DeadRanks(dead), |vs|, vs);
      assert Before(DocumentedRanks(dead)[n], DocumentedRanks(dead)[f]);
      assert !IsLeast(DocumentedRanks(dead), |vs|, vs);
    }
  }

  /** A human alert whose redrive failed is evicted before a stale queue entry nobody retried. */
  lemma FailedAlertGoesFirst(e: Event)
    ensures var dead := map[0 := DeadRow(HumanDelivery, "s", "a", e, 1, 9.0, RedriveFailed),
                            1 := DeadRow(NextSession, "s", "b", e, 1, 1.0, NeverRedriven)];
      && IsLeast(DeadRanks(dead), 1, {0})
      && !IsLeast(DocumentedRanks(dead), 1, {0})
  {
    var dead := map[0 := DeadRow(HumanDelivery, "s", "a", e, 1, 9.0, RedriveFailed),
                    1 := DeadRow(NextSession, "s", "b", e, 1, 1.0, NeverRedriven)];
    assert 1 in DocumentedRanks(dead) && 1 !in {0} && 0 in {0};
    assert Before(DocumentedRanks(dead)[1], DocumentedRanks(dead)[0]);
  }
}

/**
 How often a queued row is sent: however many drains overlap, never more often
 than it was claimed or than the attempt limit, and only to a session that
 serves its destination.
 */
module SendBound {
  import opened Prelude
  import opened Tables
  import opened Addressing
  import opened Subscribers
  import opened Daemon
  import opened Sessions
  import Conservation

  /** Rows a drain still has to send: a copy being sent is already in the frame log. */
  function Unsent(task: Task): seq<PendingRow>
    requires task.Drain?
  {
    if task.phase.Ready? || task.rows == [] then task.rows else task.rows[1..]
  }

  ghost predicate InHand(s: State, t: nat, r: PendingRow) {
    IsDrain(s, t) && r in Unsent(s.tasks[t])
  }

  ghost predicate QueueFrame(s: State, i: int) {
    0 <= i < |s.log.frames| && s.log.frames[i].origin.FromQueue?
  }

  /** Two copies stand for the same claim. */
  predicate SameClaim(a: PendingRow, b: PendingRow) {
    a.rowId == b.rowId && a.attempts == b.attempts
  }

  predicate AddressedTo(r: PendingRow, name: string) {
    r.destination == Some(name) || (r.destination.None? && r.source == name)
  }

  /** A stored row's attempt count is the number of times it was claimed. */
  ghost predicate AttemptsAreClaims(s: State) {
    && (forall r :: r in s.tables.pending ==> r.attempts == ClaimsOf(s.log.claims, r.rowId))
    && (forall k :: k in s.log.claims ==> k < s.tables.nextRow)
  }

  ghost predicate CopiesAreClaims(s: State) {
    && (forall t, r :: InHand(s, t, r) ==> 1 <= r.attempts <= ClaimsOf(s.log.claims, r.rowId))
    && (forall i :: QueueFrame(s, i) ==>
          1 <= s.log.frames[i].origin.row.attempts <= ClaimsOf(s.log.claims, s.log.frames[i].origin.row.rowId))
  }

  /** No claim is held twice, held and sent, or sent twice. */
  ghost predicate ClaimsUsedOnce(s: State) {
    && (forall t, u, a, b :: InHand(s, t, a) && InHand(s, u, b) && t != u ==> !SameClaim(a, b))
    && (forall t :: IsDrain(s, t) ==> RowsOrdered(s.tasks[t].rows))
    && (forall t, r, i :: InHand(s, t, r) && QueueFrame(s, i) ==> !SameClaim(r, s.log.frames[i].origin.row))
    && (forall i, j :: QueueFrame(s, i) && QueueFrame(s, j) && i < j ==>
          !SameClaim(s.log.frames[i].origin.row, s.log.frames[j].origin.row))
  }

  ghost predicate FramesWithinLimit(env: Env, s: State) {
    forall i :: QueueFrame(s, i) ==> s.log.frames[i].origin.row.attempts <= env.lim.maxAttempts
  }

  /** Claimed rows and sent frames are for a destination their subscriber serves. */
  ghost predicate ServedByClaimant(s: State) {
    && (forall t, r :: IsDrain(s, t) && r in s.tasks[t].rows ==>
          s.tasks[t].dest.Some? && Serves(s.tasks[t].sub, s.tasks[t].dest.value)
          && AddressedTo(r, s.tasks[t].dest.value.name))
    && (forall i :: QueueFrame(s, i) ==>
          Serves(s.log.frames[i].server, s.log.frames[i].dest)
          && AddressedTo(s.log.frames[i].origin.row, s.log.frames[i].dest.name))
  }

  /** A drain's picture of its subscriber is the live one for as long as that lives. */
  ghost predicate SubscribersKnown(s: State) {
    forall t :: IsDrain(s, t) ==>
      && s.tasks[t].session < s.reg.nextSession
      && (s.tasks[t].session in s.reg.subs ==>
            s.reg.subs[s.tasks[t].session].(inFlight := 0) == s.tasks[t].sub.(inFlight := 0))
  }

  ghost predicate Inv(env: Env, s: State) {
    && ValidTables(s.tables)
    && OrderExact(s.reg)
    && AttemptsAreClaims(s) && CopiesAreClaims(s) && ClaimsUsedOnce(s)
    && FramesWithinLimit(env, s) && ServedByClaimant(s) && SubscribersKnown(s)
  }

  // ── frames without queue effects ───────────────────────────────────────────

  /** No new claims, no new queue frames, no new copies; pending rows old or unclaimed. */
  ghost predicate Quiet(s: State, s': State) {
    && s'.log.claims == s.log.claims
    && s.tables.nextRow <= s'.tables.nextRow
    && (forall r :: r in s'.tables.pending ==>
          r in s.tables.pending || (r.attempts == 0 && s.tables.nextRow <= r.rowId))
    && s.log.frames <= s'.log.frames
    && (forall i :: |s.log.frames| <= i < |s'.log.frames| ==> !s'.log.frames[i].origin.FromQueue?)
    && (forall t :: IsDrain(s', t) ==>
          || (s'.tasks[t].rows == []
              && s'.tasks[t].session in s.reg.subs && s'.tasks[t].sub == s.reg.subs[s'.tasks[t].session])
          || (IsDrain(s, t)
              && s'.tasks[t].session == s.tasks[t].session && s'.tasks[t].sub == s.tasks[t].sub
              && (s'.tasks[t].rows == s.tasks[t].rows || (s.tasks[t].rows != [] && s'.tasks[t].rows == s.tasks[t].rows[1..]))
              && s'.tasks[t].dest == s.tasks[t].dest
              && (forall r :: r in Unsent(s'.tasks[t]) ==> r in Unsent(s.tasks[t]))))
  }

  lemma QuietKeeps(env: Env, s: State, s': State)
    requires Inv(env, s) && Quiet(s, s') && SessionsStable(s.reg, s'.reg)
    requires ValidTables(s'.tables) && OrderExact(s'.reg)
    ensures Inv(env, s')
  {
    assert forall t, r :: InHand(s', t, r) ==> InHand(s, t, r);
    assert forall i :: QueueFrame(s', i) ==> QueueFrame(s, i) && s'.log.frames[i] == s.log.frames[i];
    assert AttemptsAreClaims(s') && CopiesAreClaims(s');
    assert FramesWithinLimit(env, s');
    QuietServed(s, s');
    QuietOrdered(s, s');
    QuietSubscribers(s, s');
  }

  lemma QuietServed(s: State, s': State)
    requires ServedByClaimant(s) && Quiet(s, s')
    ensures ServedByClaimant(s')
  {
    forall t, r | IsDrain(s', t) && r in s'.tasks[t].rows ensures IsDrain(s, t) && r in s.tasks[t].rows {
    }
    assert forall i :: QueueFrame(s', i) ==> QueueFrame(s, i) && s'.log.frames[i] == s.log.frames[i];
  }

  lemma QuietOrdered(s: State, s': State)
    requires ClaimsUsedOnce(s) && Quiet(s, s')
    ensures forall t :: IsDrain(s', t) ==> RowsOrdered(s'.tasks[t].rows)
  {
  }

  lemma QuietSubscribers(s: State, s': State)
    requires SubscribersKnown(s) && OrderExact(s.reg) && Quiet(s, s') && SessionsStable(s.reg, s'.reg)
    ensures SubscribersKnown(s')
  {
  }

  // ── the claiming and the sending step ──────────────────────────────────────

  /** A drain step that claims: rows come with one more attempt, counted in the history. */
  ghost predicate Claimed(s: State, s': State, t: nat, d: Destination, now: real) {
    && IsDrain(s, t) && s.tasks[t].phase.Ready? && s.tasks[t].rows == []
    && Serves(s.tasks[t].sub, d)
    && s'.tables == Claim(s.tables, d.name, now).0
    && s'.log == s.log.(claims := BumpClaims(s.log.claims, RowIds(Claim(s.tables, d.name, now).1)))
    && s'.reg == s.reg
    && s'.tasks.Keys == s.tasks.Keys
    && (forall u :: u in s.tasks && u != t ==> s'.tasks[u] == s.tasks[u])
    && IsDrain(s', t) && s'.tasks[t].phase.Ready?
    && s'.tasks[t].rows == Claim(s.tables, d.name, now).1
    && s'.tasks[t].dest == Some(d)
    && s'.tasks[t].session == s.tasks[t].session && s'.tasks[t].sub == s.tasks[t].sub
  }

  /** The rows of a claim carry attempt numbers nobody has used. */
  lemma ClaimedRowsNew(s: State, name: string, now: real, r: PendingRow)
    requires ValidTables(s.tables) && AttemptsAreClaims(s) && r in Claim(s.tables, name, now).1
    ensures r.attempts == ClaimsOf(s.log.claims, r.rowId) + 1 && r.rowId < s.tables.nextRow
    ensures AddressedTo(r, name)
  {
    var chosen := Selected(s.tables.pending, name, now, CLAIM_LIMIT);
    var rows := Claim(s.tables, name, now).1;
    var k :| 0 <= k < |rows| && rows[k] == r;
    assert chosen[k] in chosen && chosen[k] in s.tables.pending;
  }

  lemma ClaimedRowIds(t: Tables, name: string, now: real)
    ensures RowIds(Claim(t, name, now).1) == RowIds(Selected(t.pending, name, now, CLAIM_LIMIT))
  {
    var chosen := Selected(t.pending, name, now, CLAIM_LIMIT);
    var rows := Claim(t, name, now).1;
    forall k | 0 <= k < |rows| ensures chosen[k].rowId in RowIds(rows) && rows[k].rowId in RowIds(chosen) {
      assert rows[k] in rows && chosen[k] in chosen;
    }
  }

  lemma ClaimedAttempts(s: State, s': State, t: nat, d: Destination, now: real)
    requires ValidTables(s.tables) && AttemptsAreClaims(s) && Claimed(s, s', t, d, now)
    ensures AttemptsAreClaims(s')
  {
    var ids := RowIds(Claim(s.tables, d.name, now).1);
    ClaimedRowIds(s.tables, d.name, now);
    forall r | r in s'.tables.pending ensures r.attempts == ClaimsOf(s'.log.claims, r.rowId) {
      var i :| 0 <= i < |s'.tables.pending| && s'.tables.pending[i] == r;
      assert s.tables.pending[i] in s.tables.pending;
    }
    forall k | k in s'.log.claims ensures k < s'.tables.nextRow {
      if k in ids {
        var r :| r in Claim(s.tables, d.name, now).1 && r.rowId == k;
        ClaimedRowsNew(s, d.name, now, r);
      }
    }
  }

  lemma ClaimedInHand(s: State, s': State, t: nat, d: Destination, now: real, u: nat, r: PendingRow)
    requires ValidTables(s.tables) && AttemptsAreClaims(s) && Claimed(s, s', t, d, now) && InHand(s', u, r)
    ensures u == t ==> r.attempts == ClaimsOf(s.log.claims, r.rowId) + 1 == ClaimsOf(s'.log.claims, r.rowId)
    ensures u != t ==> InHand(s, u, r)
  {
    if u == t {
      ClaimedRowsNew(s, d.name, now, r);
      assert r.rowId in RowIds(Claim(s.tables, d.name, now).1);
    }
  }

  lemma ClaimedCopies(s: State, s': State, t: nat, d: Destination, now: real)
    requires ValidTables(s.tables) && AttemptsAreClaims(s) && CopiesAreClaims(s) && Claimed(s, s', t, d, now)
    ensures CopiesAreClaims(s')
  {
    assert forall k :: ClaimsOf(s.log.claims, k) <= ClaimsOf(s'.log.claims, k);
    forall u, r | InHand(s', u, r) ensures 1 <= r.attempts <= ClaimsOf(s'.log.claims, r.rowId) {
      ClaimedInHand(s, s', t, d, now, u, r);
    }
    assert forall i :: QueueFrame(s', i) ==> QueueFrame(s, i);
  }

  lemma ClaimedOnce(s: State, s': State, t: nat, d: Destination, now: real)
    requires ValidTables(s.tables) && AttemptsAreClaims(s) && CopiesAreClaims(s) && ClaimsUsedOnce(s)
    requires Claimed(s, s', t, d, now)
    ensures ClaimsUsedOnce(s')
  {
    assert forall i :: QueueFrame(s', i) ==> QueueFrame(s, i);
    forall u, v, a, b | InHand(s', u, a) && InHand(s', v, b) && u != v ensures !SameClaim(a, b) {
      ClaimedInHand(s, s', t, d, now, u, a);
      ClaimedInHand(s, s', t, d, now, v, b);
    }
    forall u, r, i | InHand(s', u, r) && QueueFrame(s', i) ensures !SameClaim(r, s'.log.frames[i].origin.row) {
      ClaimedInHand(s, s', t, d, now, u, r);
      assert QueueFrame(s, i);
    }
    SelectedOrdered(s.tables.pending, d.name, now, CLAIM_LIMIT);
  }

  lemma ClaimedServed(s: State, s': State, t: nat, d: Destination, now: real)
    requires ValidTables(s.tables) && AttemptsAreClaims(s) && ServedByClaimant(s) && Claimed(s, s', t, d, now)
    ensures ServedByClaimant(s')
  {
    forall u, r | IsDrain(s', u) && r in s'.tasks[u].rows
      ensures s'.tasks[u].dest.Some? && Serves(s'.tasks[u].sub, s'.tasks[u].dest.value)
      ensures AddressedTo(r, s'.tasks[u].dest.value.name)
    {
      if u == t { ClaimedRowsNew(s, d.name, now, r); }
    }
    assert forall i :: QueueFrame(s', i) ==> QueueFrame(s, i);
  }

  lemma ClaimedKeeps(env: Env, s: State, s': State, t: nat, d: Destination, now: real)
    requires Inv(env, s) && Claimed(s, s', t, d, now)
    ensures Inv(env, s')
  {
    ClaimValid(s.tables, d.name, now);
    ClaimedAttempts(s, s', t, d, now);
    ClaimedCopies(s, s', t, d, now);
    ClaimedOnce(s, s', t, d, now);
    ClaimedServed(s, s', t, d, now);
    assert forall i :: QueueFrame(s', i) ==> QueueFrame(s, i);
  }

  /** A drain step that sends its first row. */
  ghost predicate Sent(env: Env, s: State, s': State, t: nat) {
    && IsDrain(s, t) && s.tasks[t].phase.Ready? && s.tasks[t].rows != [] && s.tasks[t].dest.Some?
    && s.tasks[t].rows[0].attempts <= env.lim.maxAttempts
    && s'.tables == s.tables
    && s'.log.claims == s.log.claims
    && (exists a, session, eligible ::
          s'.log.frames == s.log.frames
            + [Frame(a, session, s.tasks[t].dest.value, s.tasks[t].sub, eligible, FromQueue(s.tasks[t].rows[0]))])
    && s'.reg.subs == s.reg.subs && s'.reg.order == s.reg.order && s'.reg.connections == s.reg.connections
    && s'.reg.nextSession == s.reg.nextSession
    && s'.tasks.Keys == s.tasks.Keys
    && (forall u :: u in s.tasks && u != t ==> s'.tasks[u] == s.tasks[u])
    && IsDrain(s', t) && s'.tasks[t] == s.tasks[t].(phase := s'.tasks[t].phase) && !s'.tasks[t].phase.Ready?
  }

  lemma SentOnce(env: Env, s: State, s': State, t: nat)
    requires Inv(env, s) && Sent(env, s, s', t)
    ensures ClaimsUsedOnce(s')
  {
    var head := s.tasks[t].rows[0];
    var n := |s.log.frames|;
    assert InHand(s, t, head);
    assert forall i :: QueueFrame(s', i) ==> i == n || (QueueFrame(s, i) && s'.log.frames[i] == s.log.frames[i]);
    assert s'.log.frames[n].origin == FromQueue(head);
    assert forall u, r :: InHand(s', u, r) ==> InHand(s, u, r);
    forall u, r, i | InHand(s', u, r) && QueueFrame(s', i) ensures !SameClaim(r, s'.log.frames[i].origin.row) {
      if i == n && u == t {
        var k :| 1 <= k < |s.tasks[t].rows| && s.tasks[t].rows[k] == r;
        assert s.tasks[t].rows[0].rowId < s.tasks[t].rows[k].rowId;
      }
    }
  }

  lemma SentServed(s: State, s': State, env: Env, t: nat)
    requires Inv(env, s) && Sent(env, s, s', t)
    ensures ServedByClaimant(s')
  {
    var n, head := |s.log.frames|, s.tasks[t].rows[0];
    assert InHand(s, t, head) && head in s.tasks[t].rows;
    assert forall i :: QueueFrame(s', i) ==> i == n || (QueueFrame(s, i) && s'.log.frames[i] == s.log.frames[i]);
    assert forall u :: IsDrain(s', u) ==> s'.tasks[u].rows == s.tasks[u].rows && s'.tasks[u].dest == s.tasks[u].dest;
  }

  lemma SentKeeps(env: Env, s: State, s': State, t: nat)
    requires Inv(env, s) && Sent(env, s, s', t)
    ensures Inv(env, s')
  {
    var head := s.tasks[t].rows[0];
    var n := |s.log.frames|;
    SentOnce(env, s, s', t);
    SentServed(s, s', env, t);
    assert InHand(s, t, head);
    assert forall i :: QueueFrame(s', i) ==> i == n || (QueueFrame(s, i) && s'.log.frames[i] == s.log.frames[i]);
    assert forall u, r :: InHand(s', u, r) ==> InHand(s, u, r);
  }

  // ── every step ─────────────────────────────────────────────────────────────

  /** Rows of `t'` are rows of `t`, or freshly queued ones. */
  ghost predicate RowsOldOrFresh(t: Tables, t': Tables) {
    && t.nextRow <= t'.nextRow
    && (forall r :: r in t'.pending ==> r in t.pending || (r.attempts == 0 && t.nextRow <= r.rowId))
  }

  lemma {:induction false} EnqueueAllRows(t: Tables, lim: Limits, e: Event, names: seq<string>, now: real)
    ensures RowsOldOrFresh(t, EnqueueAll(t, lim, e, names, now))
    decreases |names|
  {
    if names != [] {
      EnqueueAllRows(Enqueue(t, lim, e, Some(names[0]), now), lim, e, names[1..], now);
    }
  }

  lemma TablesQuiet(env: Env, s: State, l: Label)
    requires Enabled(env, s, l) && !l.DrainName?
    ensures RowsOldOrFresh(s.tables, Next(env, s, l).tables)
  {
    if Conservation.LooksOnly(l) {
      Conservation.QueueUntouched(env, s, l);
    } else if l.FanFinish? {
      var task := s.tasks[l.t];
      EnqueueAllRows(s.tables, env.lim, task.event, UntakenNames(task.dests, task.done), l.now);
    }
  }

  lemma QuietDrainStep(env: Env, s: State, l: Label)
    requires Enabled(env, s, l)
    requires l.DrainStart? || l.DrainSent? || l.DrainFailed? || l.DrainRemove?
    ensures Quiet(s, Next(env, s, l))
  {
    TablesQuiet(env, s, l);
  }

  lemma QuietFanStep(env: Env, s: State, l: Label)
    requires Enabled(env, s, l) && (l.FanNext? || l.FanSent? || l.FanFailed?)
    ensures Quiet(s, Next(env, s, l))
  {
    TablesQuiet(env, s, l);
  }

  lemma QuietAnswerStep(env: Env, s: State, l: Label)
    requires Enabled(env, s, l) && (l.Submit? || l.FanFinish?)
    ensures Quiet(s, Next(env, s, l))
  {
    TablesQuiet(env, s, l);
  }

  lemma QuietLiveStep(env: Env, s: State, l: Label)
    requires Enabled(env, s, l)
    requires l.HelloFrame? || l.Closed? || l.TaskEnds? || l.AckFrame? || l.WaiterDone? || l.WaiterGivesUp? || l.Restart?
    ensures Quiet(s, Next(env, s, l))
  {
    TablesQuiet(env, s, l);
  }

  lemma QuietRedriveStep(env: Env, s: State, l: Label)
    requires Enabled(env, s, l) && (l.RedriveLoad? || l.RedriveEnqueue? || l.RedriveMark?)
    ensures Quiet(s, Next(env, s, l))
  {
    TablesQuiet(env, s, l);
  }

  /** A step that writes the tables and nothing the bound reads. */
  lemma TablesOnlyQuiet(s: State, s': State)
    requires s'.tasks == s.tasks && s'.log.claims == s.log.claims && s'.log.frames == s.log.frames
    requires RowsOldOrFresh(s.tables, s'.tables)
    ensures Quiet(s, s')
  {
  }

  lemma QuietStoreStep(env: Env, s: State, l: Label)
    requires Enabled(env, s, l) && (l.RecordDeadLetter? || l.PurgeLetters? || l.Sweep? || l.Ingest?)
    ensures Quiet(s, Next(env, s, l))
  {
    TablesQuiet(env, s, l);
    TablesOnlyQuiet(s, Next(env, s, l));
  }

  lemma QuietStep(env: Env, s: State, l: Label)
    requires Enabled(env, s, l) && !l.DrainName? && !l.DrainRow?
    ensures Quiet(s, Next(env, s, l))
  {
    match l
    case DrainStart(_) => QuietDrainStep(env, s, l);
    case DrainSent(_) => QuietDrainStep(env, s, l);
    case DrainFailed(_) => QuietDrainStep(env, s, l);
    case DrainRemove(_) => QuietDrainStep(env, s, l);
    case Submit(_, _) => QuietAnswerStep(env, s, l);
    case FanNext(_) => QuietFanStep(env, s, l);
    case FanSent(_) => QuietFanStep(env, s, l);
    case FanFailed(_) => QuietFanStep(env, s, l);
    case FanFinish(_, _) => QuietAnswerStep(env, s, l);
    case RedriveLoad(_) => QuietRedriveStep(env, s, l);
    case RedriveEnqueue(_, _) => QuietRedriveStep(env, s, l);
    case RedriveMark(_) => QuietRedriveStep(env, s, l);
    case RecordDeadLetter(_) => QuietStoreStep(env, s, l);
    case PurgeLetters(_, _) => QuietStoreStep(env, s, l);
    case Sweep(_, _, _) => QuietStoreStep(env, s, l);
    case Ingest(_, _) => QuietStoreStep(env, s, l);
    case _ => QuietLiveStep(env, s, l);
  }

  lemma DrainNameKind(env: Env, s: State, t: nat, now: real)
    requires Enabled(env, s, DrainName(t, now)) && OrderExact(s.reg) && SubscribersKnown(s)
    ensures var s' := DoDrainName(env, s, t, now);
      || Quiet(s, s')
      || (exists d :: Claimed(s, s', t, d, now))
  {
    var task := s.tasks[t];
    match Lookup(env.cfg.destinations, task.names[0])
    case Some(d) =>
      if SubscriberFor(s.reg, d) == Some(task.session) {
        MostRecentServes(s.reg, d);
        assert Serves(s.reg.subs[task.session].(inFlight := 0), d);
        assert Claimed(s, DoDrainName(env, s, t, now), t, d, now);
      }
    case None =>
  }

  lemma DrainRowKind(env: Env, s: State, t: nat, now: real)
    requires Enabled(env, s, DrainRow(t, now))
    ensures var s' := DoDrainRow(env, s, t, now);
      if s.tasks[t].rows[0].attempts > env.lim.maxAttempts then Quiet(s, s') else Sent(env, s, s', t)
  {
    var s' := DoDrainRow(env, s, t, now);
    if s.tasks[t].rows[0].attempts <= env.lim.maxAttempts {
      assert s'.log.frames == s.log.frames
        + [Frame(s.reg.nextAck, s.tasks[t].session, s.tasks[t].dest.value, s.tasks[t].sub, {},
                 FromQueue(s.tasks[t].rows[0]))];
    }
  }

  lemma StepDrainName(env: Env, s: State, t: nat, now: real)
    requires Inv(env, s) && Enabled(env, s, DrainName(t, now))
    requires ValidTables(DoDrainName(env, s, t, now).tables)
    ensures Inv(env, DoDrainName(env, s, t, now))
  {
    var s' := DoDrainName(env, s, t, now);
    DrainNameKind(env, s, t, now);
    if Quiet(s, s') {
      QuietKeeps(env, s, s');
    } else {
      var d :| Claimed(s, s', t, d, now);
      ClaimedKeeps(env, s, s', t, d, now);
    }
  }

  lemma StepDrainRow(env: Env, s: State, t: nat, now: real)
    requires Inv(env, s) && Enabled(env, s, DrainRow(t, now))
    requires ValidTables(DoDrainRow(env, s, t, now).tables)
    ensures Inv(env, DoDrainRow(env, s, t, now))
  {
    var s' := DoDrainRow(env, s, t, now);
    DrainRowKind(env, s, t, now);
    if s.tasks[t].rows[0].attempts > env.lim.maxAttempts {
      QuietKeeps(env, s, s');
    } else {
      SentKeeps(env, s, s', t);
    }
  }

  lemma Step(env: Env, s: State, l: Label)
    requires ValidConfig(env.cfg) && Inv(env, s) && Conservation.Inv(s) && Enabled(env, s, l)
    ensures Inv(env, Next(env, s, l))
  {
    Conservation.Step(env, s, l);
    if l.DrainName? {
      StepDrainName(env, s, l.t, l.now);
    } else if l.DrainRow? {
      StepDrainRow(env, s, l.t, l.now);
    } else {
      Sessions.Step(env, s, l);
      QuietStep(env, s, l);
      QuietKeeps(env, s, Next(env, s, l));
    }
  }

  lemma {:induction false} RunInv(env: Env, run: seq<Label>)
    requires ValidConfig(env.cfg) && IsRun(env, Initial, run)
    ensures Inv(env, Final(env, Initial, run)) && Conservation.Inv(Final(env, Initial, run))
  {
    Conservation.RunInv(env, run);
    if run != [] {
      var front := run[..|run| - 1];
      RunInv(env, front);
      Step(env, Final(env, Initial, front), run[|run| - 1]);
    }
  }

  // ── the bound ──────────────────────────────────────────────────────────────

  predicate IsSendOf(f: Frame, rowId: nat) {
    f.origin.FromQueue? && f.origin.row.rowId == rowId
  }

  /** How many frames were handed to a connection for one row id. */
  function Sends(frames: seq<Frame>, rowId: nat): nat {
    |Filter(frames, (f: Frame) => IsSendOf(f, rowId))|
  }

  /** Sends of one row carry pairwise different attempt numbers. */
  lemma {:induction false} SendsAreAttempts(frames: seq<Frame>, rowId: nat, attempts: set<nat>)
    requires forall i, j :: 0 <= i < j < |frames| && frames[i].origin.FromQueue? && frames[j].origin.FromQueue? ==>
               !SameClaim(frames[i].origin.row, frames[j].origin.row)
    requires forall f :: f in frames && IsSendOf(f, rowId) ==> f.origin.row.attempts in attempts
    ensures Sends(frames, rowId) <= |attempts|
  {
    if frames != [] {
      var front, last := frames[..|frames| - 1], frames[|frames| - 1];
      if IsSendOf(last, rowId) {
        var k := last.origin.row.attempts;
        forall f | f in front && IsSendOf(f, rowId) ensures f.origin.row.attempts in attempts - {k} {
          var i :| 0 <= i < |front| && front[i] == f;
          assert !SameClaim(frames[i].origin.row, frames[|frames| - 1].origin.row);
        }
        SendsAreAttempts(front, rowId, attempts - {k});
        assert last in frames;
      } else {
        SendsAreAttempts(front, rowId, attempts);
      }
    }
  }

  /**
   The send bound: over every run, a row id is sent at most as often as it was
   claimed and at most as often as the attempt limit allows, and every such frame
   went to a session serving the destination the row was addressed to.
   */
  lemma SendsBounded(env: Env, run: seq<Label>, rowId: nat)
    requires ValidConfig(env.cfg) && IsRun(env, Initial, run)
    ensures var s := Final(env, Initial, run);
      && Sends(s.log.frames, rowId) <= ClaimsOf(s.log.claims, rowId)
      && Sends(s.log.frames, rowId) <= env.lim.maxAttempts
      && (forall f :: f in s.log.frames && f.origin.FromQueue? ==>
            Serves(f.server, f.dest) && AddressedTo(f.origin.row, f.dest.name))
  {
    RunInv(env, run);
    var s := Final(env, Initial, run);
    var claims := ClaimsOf(s.log.claims, rowId);
    var m := if claims < env.lim.maxAttempts then claims else env.lim.maxAttempts;
    var attempts := UpTo(m);
    forall i, j | 0 <= i < j < |s.log.frames| && s.log.frames[i].origin.FromQueue? && s.log.frames[j].origin.FromQueue?
      ensures !SameClaim(s.log.frames[i].origin.row, s.log.frames[j].origin.row)
    {
      assert QueueFrame(s, i) && QueueFrame(s, j);
    }
    forall f | f in s.log.frames && f.origin.FromQueue?
      ensures IsSendOf(f, rowId) ==> f.origin.row.attempts in attempts
      ensures Serves(f.server, f.dest) && AddressedTo(f.origin.row, f.dest.name)
    {
      var i :| 0 <= i < |s.log.frames| && s.log.frames[i] == f;
      assert QueueFrame(s, i);
    }
    SendsAreAttempts(s.log.frames, rowId, attempts);
  }

  /**
   A claim past the limit sends nothing: it writes a dead letter for the event
   whose recorded attempts have reached the limit, and the row's frames are
   already as many as they will ever be.
   */
  lemma ExhaustedClaim(env: Env, run: seq<Label>, t: nat, now: real)
    requires ValidConfig(env.cfg) && IsRun(env, Initial, run)
    requires var s := Final(env, Initial, run);
      Enabled(env, s, DrainRow(t, now)) && s.tasks[t].rows[0].attempts > env.lim.maxAttempts
    ensures var s := Final(env, Initial, run);
      var s' := Next(env, s, DrainRow(t, now));
      && s'.log.frames == s.log.frames && s'.waiters == s.waiters && s'.reg == s.reg
      && s.tables.nextDead !in s.tables.dead
      && s'.tables.dead == s.tables.dead[s.tables.nextDead := Exhausted(s.tasks[t].rows[0], now)]
      && Exhausted(s.tasks[t].rows[0], now).refId == s.tasks[t].rows[0].event.id
      && Exhausted(s.tasks[t].rows[0], now).kind == NextSession
      && Exhausted(s.tasks[t].rows[0], now).status == NeverRedriven
      && Exhausted(s.tasks[t].rows[0], now).createdAt == now
      && Exhausted(s.tasks[t].rows[0], now).attempts >= env.lim.maxAttempts
      && ClaimsOf(s.log.claims, s.tasks[t].rows[0].rowId) > env.lim.maxAttempts
  {
    RunInv(env, run);
    var s := Final(env, Initial, run);
    assert s.tasks[t].rows[0] in s.tasks[t].rows;
    assert InHand(s, t, s.tasks[t].rows[0]);
    assert Conservation.RowKnown(s.tables, s.tasks[t].rows[0]);
  }
}

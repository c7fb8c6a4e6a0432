/**
 A drain running by itself comes to an end, and brings a reconnecting session
 everything it is owed.
 */
module Reconnect {
  import opened Tables
  import opened Addressing
  import opened Subscribers
  import opened Daemon
  import opened SendBound
  import opened Draining

  lemma RunStep(env: Env, s: State, run: seq<Label>, l: Label)
    requires IsRun(env, s, run) && Enabled(env, Final(env, s, run), l)
    ensures IsRun(env, s, run + [l]) && Final(env, s, run + [l]) == Next(env, Final(env, s, run), l)
  {
    var all := run + [l];
    assert all[..|all| - 1] == run && all[|all| - 1] == l;
  }

  lemma RunOne(env: Env, s: State, l: Label)
    requires Enabled(env, s, l)
    ensures IsRun(env, s, [l]) && Final(env, s, [l]) == Next(env, s, l)
  {
    assert IsRun(env, s, []) && Final(env, s, []) == s;
    RunStep(env, s, [], l);
    assert [] + [l] == [l];
  }

  // ── what a drain leaves alone ──────────────────────────────────────────────

  /** Rows addressed to `name` are the same, and so are the sessions but for what they have in flight; frames only join. */
  ghost predicate Undisturbed(s: State, s': State, name: string) {
    && LogGrows(s, s')
    && (forall r :: AddressedTo(r, name) ==> (r in s'.tables.pending <==> r in s.tables.pending))
    && s'.reg.subs.Keys == s.reg.subs.Keys
    && (forall sid :: sid in s.reg.subs ==> s'.reg.subs[sid].(inFlight := 0) == s.reg.subs[sid].(inFlight := 0))
  }

  /** What the drain has in hand is not addressed to `name`. */
  ghost predicate Elsewhere(s: State, t: nat, name: string) {
    IsDrain(s, t)
    && forall r, p :: r in s.tasks[t].rows && p in s.tables.pending && p.rowId == r.rowId ==> !AddressedTo(p, name)
  }

  lemma OfferedUndisturbed(s: State, s': State, name: string, now: real)
    requires Undisturbed(s, s', name)
    ensures Offered(s'.tables.pending, name, now) == Offered(s.tables.pending, name, now)
  {
    forall k ensures k in Offered(s'.tables.pending, name, now) <==> k in Offered(s.tables.pending, name, now) {
      if k in Offered(s'.tables.pending, name, now) {
        var r :| r in s'.tables.pending && AddressedTo(r, name) && r.expiresAt > now && r.rowId == k;
        assert r in s.tables.pending;
      }
      if k in Offered(s.tables.pending, name, now) {
        var r :| r in s.tables.pending && AddressedTo(r, name) && r.expiresAt > now && r.rowId == k;
        assert r in s'.tables.pending;
      }
    }
  }

  lemma LatestUndisturbed(s: State, s': State, name: string, sid: nat, d: Destination)
    requires Undisturbed(s, s', name) && Latest(s.reg, sid, d)
    ensures Latest(s'.reg, sid, d)
  {
    forall other | other in s'.reg.subs ensures Serves(s'.reg.subs[other], d) <==> Serves(s.reg.subs[other], d) {
      assert s'.reg.subs[other].(inFlight := 0) == s.reg.subs[other].(inFlight := 0);
    }
  }

  // ── working through the rows in hand ───────────────────────────────────────

  /** What a drain does with its first row when the send, if there is one, returns. */
  function RowSteps(lim: Limits, t: nat, row: PendingRow, now: real): seq<Label> {
    [DrainRow(t, now)] + [if row.attempts > lim.maxAttempts then DrainRemove(t) else DrainSent(t)]
  }

  function RowsSteps(lim: Limits, t: nat, rows: seq<PendingRow>, now: real): seq<Label> {
    if rows == [] then [] else RowSteps(lim, t, rows[0], now) + RowsSteps(lim, t, rows[1..], now)
  }

  ghost predicate Idle(s: State, t: nat) {
    IsDrain(s, t) && s.tasks[t].phase.Ready? && (s.tasks[t].rows != [] ==> s.tasks[t].dest.Some?)
  }

  lemma RowGivenUp(env: Env, s: State, t: nat, now: real, name: string)
    requires Idle(s, t) && s.tasks[t].rows != [] && s.tasks[t].rows[0].attempts > env.lim.maxAttempts
    ensures var steps := RowSteps(env.lim, t, s.tasks[t].rows[0], now);
      && IsRun(env, s, steps)
      && var s' := Final(env, s, steps);
         && Idle(s', t) && s'.tasks[t] == s.tasks[t].(rows := s.tasks[t].rows[1..])
         && (Elsewhere(s, t, name) ==> Undisturbed(s, s', name) && Elsewhere(s', t, name))
  {
    var l, m := DrainRow(t, now), DrainRemove(t);
    RunOne(env, s, l);
    RunStep(env, s, [l], m);
    var s' := Next(env, Next(env, s, l), m);
    var row := s.tasks[t].rows[0];
    if Elsewhere(s, t, name) {
      forall r | AddressedTo(r, name) ensures r in s'.tables.pending <==> r in s.tables.pending {
        assert r in s.tables.pending ==> r.rowId != row.rowId;
      }
    }
  }

  lemma RowHandedOver(env: Env, s: State, t: nat, now: real, name: string)
    requires Idle(s, t) && s.tasks[t].rows != [] && s.tasks[t].rows[0].attempts <= env.lim.maxAttempts
    ensures var steps := RowSteps(env.lim, t, s.tasks[t].rows[0], now);
      && IsRun(env, s, steps)
      && var s' := Final(env, s, steps);
         && Idle(s', t) && s'.tasks[t] == s.tasks[t].(rows := s.tasks[t].rows[1..])
         && (Elsewhere(s, t, name) ==> Undisturbed(s, s', name) && Elsewhere(s', t, name))
  {
    var l, m := DrainRow(t, now), DrainSent(t);
    RunOne(env, s, l);
    RunStep(env, s, [l], m);
  }

  lemma UndisturbedTwice(s: State, s1: State, s2: State, name: string)
    requires Undisturbed(s, s1, name) && Undisturbed(s1, s2, name)
    ensures Undisturbed(s, s2, name)
  {
  }

  /** With every send returning, the drain works through all the rows it has in hand. */
  lemma {:induction false} RowsRun(env: Env, s: State, t: nat, now: real, name: string)
    requires Idle(s, t)
    ensures var steps := RowsSteps(env.lim, t, s.tasks[t].rows, now);
      && IsRun(env, s, steps)
      && var s' := Final(env, s, steps);
         && Idle(s', t) && s'.tasks[t] == s.tasks[t].(rows := [])
         && (Elsewhere(s, t, name) ==> Undisturbed(s, s', name))
    decreases |s.tasks[t].rows|
  {
    var rows := s.tasks[t].rows;
    if rows != [] {
      var head := RowSteps(env.lim, t, rows[0], now);
      if rows[0].attempts > env.lim.maxAttempts {
        RowGivenUp(env, s, t, now, name);
      } else {
        RowHandedOver(env, s, t, now, name);
      }
      var s1 := Final(env, s, head);
      RowsRun(env, s1, t, now, name);
      RunConcat(env, s, head, RowsSteps(env.lim, t, rows[1..], now));
      if Elsewhere(s, t, name) {
        UndisturbedTwice(s, s1, Final(env, s1, RowsSteps(env.lim, t, rows[1..], now)), name);
      }
    }
  }

  // ── name by name ───────────────────────────────────────────────────────────

  /** The drain is between two names. */
  ghost predicate AtName(s: State, t: nat) {
    Idle(s, t) && s.tasks[t].rows == []
  }

  predicate DrainOf(l: Label, t: nat) {
    OwnStep(l, t) || (l.DrainName? && l.t == t)
  }

  ghost predicate AllOf(own: seq<Label>, t: nat) {
    forall l :: l in own ==> DrainOf(l, t)
  }

  lemma Joined(run: seq<Label>, a: seq<Label>, b: seq<Label>, t: nat)
    ensures run + (a + b) == run + a + b
    ensures AllOf(a, t) && AllOf(b, t) ==> AllOf(a + b, t)
  {
  }

  lemma {:induction false} RowsStepsOwn(lim: Limits, t: nat, rows: seq<PendingRow>, now: real)
    ensures forall l :: l in RowsSteps(lim, t, rows, now) ==> OwnStep(l, t)
  {
    if rows != [] {
      RowsStepsOwn(lim, t, rows[1..], now);
    }
  }

  lemma TakenAddressed(rows: seq<PendingRow>, taken: seq<PendingRow>, other: string, now: real, p: PendingRow)
    requires RowsOrdered(rows) && OldestOffered(rows, taken, other, now)
    requires p in rows && Contains(taken, p.rowId)
    ensures AddressedTo(p, other)
  {
    var q :| q in rows && AddressedTo(q, other) && q.expiresAt > now && q.rowId == p.rowId;
    SameIdSameRow(rows, q, p);
  }

  lemma AddressedOnce(p: PendingRow, name: string, other: string)
    requires AddressedTo(p, other) && other != name
    ensures !AddressedTo(p, name)
  {
  }

  lemma OthersNotCounted(rows: seq<PendingRow>, rows': seq<PendingRow>, taken: seq<PendingRow>, other: string, now: real,
                         name: string, i: nat)
    requires RowsOrdered(rows) && other != name && OldestOffered(rows, taken, other, now)
    requires CountedUp(rows, rows', taken) && i < |rows|
    ensures Contains(taken, rows[i].rowId) ==> !AddressedTo(rows[i], name) && !AddressedTo(rows'[i], name)
    ensures !Contains(taken, rows[i].rowId) ==> rows'[i] == rows[i]
    ensures rows'[i].rowId == rows[i].rowId
  {
    if Contains(taken, rows[i].rowId) {
      TakenAddressed(rows, taken, other, now, rows[i]);
      AddressedOnce(rows[i], name, other);
    }
  }

  /** Taking rows for one name leaves those addressed to another alone. */
  lemma TakingElsewhere(s: State, s': State, t: nat, other: string, now: real, name: string)
    requires RowsOrdered(s.tables.pending) && other != name && IsDrain(s', t)
    requires OldestOffered(s.tables.pending, s'.tasks[t].rows, other, now)
    requires CountedUp(s.tables.pending, s'.tables.pending, s'.tasks[t].rows)
    ensures Elsewhere(s', t, name)
    ensures forall r :: AddressedTo(r, name) ==> (r in s'.tables.pending <==> r in s.tables.pending)
  {
    var rows, rows', taken := s.tables.pending, s'.tables.pending, s'.tasks[t].rows;
    forall r | AddressedTo(r, name) ensures r in rows' <==> r in rows {
      if i :| 0 <= i < |rows| && (rows[i] == r || rows'[i] == r) {
        OthersNotCounted(rows, rows', taken, other, now, name, i);
      }
    }
    forall r, p | r in taken && p in rows' && p.rowId == r.rowId ensures !AddressedTo(p, name) {
      var i :| 0 <= i < |rows'| && rows'[i] == p;
      OthersNotCounted(rows, rows', taken, other, now, name, i);
      assert Contains(taken, rows[i].rowId);
    }
  }

  /** Coming to another name, the drain leaves what is addressed to this one alone. */
  lemma NameElsewhere(env: Env, run: seq<Label>, t: nat, now: real, name: string)
    requires ValidConfig(env.cfg) && IsRun(env, Initial, run)
    requires var s := Final(env, Initial, run); AtName(s, t) && s.tasks[t].names != [] && s.tasks[t].names[0] != name
    ensures var s := Final(env, Initial, run);
      && Enabled(env, s, DrainName(t, now))
      && var s' := Next(env, s, DrainName(t, now));
         && Idle(s', t) && s'.tasks[t].names == s.tasks[t].names[1..] && s'.tasks[t].session == s.tasks[t].session
         && Elsewhere(s', t, name) && Undisturbed(s, s', name)
  {
    var s := Final(env, Initial, run);
    var s' := Next(env, s, DrainName(t, now));
    RunInv(env, run);
    StepLogGrows(env, s, DrainName(t, now));
    if d :| d in env.cfg.destinations && d.name == s.tasks[t].names[0] && Latest(s.reg, s.tasks[t].session, d) {
      DrainTakesOldest(env, run, t, now, d);
      TakingElsewhere(s, s', t, d.name, now, name);
    } else {
      DrainPassesOver(env, run, t, now);
    }
  }

  /** What a drain does at its next name, running alone. */
  ghost function NameSteps(env: Env, s: State, t: nat, now: real): seq<Label>
    requires Enabled(env, s, DrainName(t, now))
  {
    [DrainName(t, now)] + RowsSteps(env.lim, t, Next(env, s, DrainName(t, now)).tasks[t].rows, now)
  }

  lemma NameRun(env: Env, run: seq<Label>, t: nat, now: real, name: string)
    requires ValidConfig(env.cfg) && IsRun(env, Initial, run)
    requires var s := Final(env, Initial, run); AtName(s, t) && s.tasks[t].names != [] && s.tasks[t].names[0] != name
    ensures var s := Final(env, Initial, run);
      && Enabled(env, s, DrainName(t, now))
      && IsRun(env, Initial, run + NameSteps(env, s, t, now))
      && var s' := Final(env, Initial, run + NameSteps(env, s, t, now));
         && AtName(s', t) && s'.tasks[t].names == s.tasks[t].names[1..] && s'.tasks[t].session == s.tasks[t].session
         && Undisturbed(s, s', name)
  {
    var s := Final(env, Initial, run);
    var l := DrainName(t, now);
    NameElsewhere(env, run, t, now, name);
    var s1 := Next(env, s, l);
    RunOne(env, s, l);
    RowsRun(env, s1, t, now, name);
    var steps := RowsSteps(env.lim, t, s1.tasks[t].rows, now);
    RunConcat(env, s, [l], steps);
    RunConcat(env, Initial, run, [l] + steps);
    UndisturbedTwice(s, s1, Final(env, s1, steps), name);
  }

  lemma UndisturbedSelf(s: State, name: string)
    ensures Undisturbed(s, s, name)
  {
  }

  /** The drain has moved from one place between names to another, nothing addressed to `name` touched. */
  ghost predicate Passage(s: State, s': State, t: nat, name: string) {
    && AtName(s, t) && AtName(s', t) && s'.tasks[t].session == s.tasks[t].session
    && Undisturbed(s, s', name)
  }

  lemma PassageTwice(s: State, s1: State, s2: State, t: nat, name: string)
    requires Passage(s, s1, t, name) && Passage(s1, s2, t, name)
    ensures Passage(s, s2, t, name)
  {
    UndisturbedTwice(s, s1, s2, name);
  }

  /** The run goes on with steps of this drain alone, over such a passage. */
  ghost predicate Along(env: Env, run: seq<Label>, own: seq<Label>, t: nat, name: string)
    requires IsRun(env, Initial, run)
  {
    && AllOf(own, t)
    && IsRun(env, Initial, run + own)
    && Passage(Final(env, Initial, run), Final(env, Initial, run + own), t, name)
  }

  lemma AlongNothing(env: Env, run: seq<Label>, t: nat, name: string)
    requires IsRun(env, Initial, run) && AtName(Final(env, Initial, run), t)
    ensures Along(env, run, [], t, name)
  {
    assert run + [] == run;
    UndisturbedSelf(Final(env, Initial, run), name);
  }

  lemma AlongName(env: Env, run: seq<Label>, t: nat, now: real, name: string) returns (own: seq<Label>)
    requires ValidConfig(env.cfg) && IsRun(env, Initial, run)
    requires var s := Final(env, Initial, run); AtName(s, t) && s.tasks[t].names != [] && s.tasks[t].names[0] != name
    ensures Along(env, run, own, t, name)
    ensures Final(env, Initial, run + own).tasks[t].names == Final(env, Initial, run).tasks[t].names[1..]
  {
    var s := Final(env, Initial, run);
    NameRun(env, run, t, now, name);
    RowsStepsOwn(env.lim, t, Next(env, s, DrainName(t, now)).tasks[t].rows, now);
    own := NameSteps(env, s, t, now);
  }

  lemma AlongTwice(env: Env, run: seq<Label>, a: seq<Label>, b: seq<Label>, t: nat, name: string)
    requires IsRun(env, Initial, run) && Along(env, run, a, t, name) && Along(env, run + a, b, t, name)
    ensures Along(env, run, a + b, t, name) && run + (a + b) == run + a + b
  {
    Joined(run, a, b, t);
    PassageTwice(Final(env, Initial, run), Final(env, Initial, run + a), Final(env, Initial, run + a + b), t, name);
  }

  /** Running alone, a drain comes to each of its names, with what is addressed there as it was. */
  lemma {:induction false} ReachName(env: Env, run: seq<Label>, t: nat, now: real, name: string) returns (own: seq<Label>)
    requires ValidConfig(env.cfg) && IsRun(env, Initial, run)
    requires AtName(Final(env, Initial, run), t) && name in Final(env, Initial, run).tasks[t].names
    ensures Along(env, run, own, t, name)
    ensures Final(env, Initial, run + own).tasks[t].names != [] && Final(env, Initial, run + own).tasks[t].names[0] == name
    decreases |Final(env, Initial, run).tasks[t].names|
  {
    if Final(env, Initial, run).tasks[t].names[0] == name {
      own := [];
      AlongNothing(env, run, t, name);
      assert run + own == run;
    } else {
      var steps := AlongName(env, run, t, now, name);
      var rest := ReachName(env, run + steps, t, now, name);
      AlongTwice(env, run, steps, rest, t, name);
      own := steps + rest;
    }
  }

  // ── what a reconnecting session gets ───────────────────────────────────────

  /** The row is among the oldest waiting at its destination, with an attempt left. */
  ghost predicate Due(env: Env, s: State, p: PendingRow, name: string, now: real) {
    && p in s.tables.pending && AddressedTo(p, name) && p.expiresAt > now
    && |Older(Offered(s.tables.pending, name, now), p.rowId)| < 100
    && p.attempts < env.lim.maxAttempts
  }

  lemma DueUndisturbed(env: Env, s: State, s': State, p: PendingRow, name: string, now: real)
    requires Due(env, s, p, name, now) && Undisturbed(s, s', name)
    ensures Due(env, s', p, name, now)
  {
    OfferedUndisturbed(s, s', name, now);
  }

  lemma DueTaken(env: Env, s: State, taken: seq<PendingRow>, p: PendingRow, name: string, now: real)
    requires Due(env, s, p, name, now) && OldestOffered(s.tables.pending, taken, name, now)
    ensures p.(attempts := p.attempts + 1) in taken
  {
    assert p.rowId in Offered(s.tables.pending, name, now);
    var r :| r in taken && r.rowId == p.rowId;
  }

  lemma StateAfter(env: Env, run: seq<Label>, l: Label, steps: seq<Label>)
    requires IsRun(env, Initial, run + ([l] + steps)) && IsRun(env, Initial, run)
    ensures Enabled(env, Final(env, Initial, run), l)
    ensures StateAt(env, Initial, run + ([l] + steps), |run| + 1) == Next(env, Final(env, Initial, run), l)
  {
    var all := run + ([l] + steps);
    PrefixRun(env, Initial, all, |run|);
    assert all[..|run|] == run;
    StepAt(env, Initial, all, |run|);
  }

  /** Running alone from a name its session is the latest to serve, the drain claims there and empties its hands. */
  /** Running alone from one of its names, the drain claims there and empties its hands. */
  lemma NameWorked(env: Env, run: seq<Label>, t: nat, now: real)
    requires ValidConfig(env.cfg) && IsRun(env, Initial, run)
    requires AtName(Final(env, Initial, run), t) && Final(env, Initial, run).tasks[t].names != []
    requires Idle(Next(env, Final(env, Initial, run), DrainName(t, now)), t)
    ensures var own := NameSteps(env, Final(env, Initial, run), t, now);
      && IsRun(env, Initial, run + own)
      && IsDrain(Final(env, Initial, run + own), t) && Final(env, Initial, run + own).tasks[t].rows == []
  {
    var s, l := Final(env, Initial, run), DrainName(t, now);
    var steps := RowsSteps(env.lim, t, Next(env, s, l).tasks[t].rows, now);
    RunOne(env, s, l);
    RowsRun(env, Next(env, s, l), t, now, "");
    RunConcat(env, s, [l], steps);
    RunConcat(env, Initial, run, [l] + steps);
  }

  lemma NameStepsGoOn(env: Env, run: seq<Label>, t: nat, now: real)
    requires IsRun(env, Initial, run) && Enabled(env, Final(env, Initial, run), DrainName(t, now))
    ensures var own := NameSteps(env, Final(env, Initial, run), t, now);
      GoesOn(run + own, |run|, t) && AllOf(own, t)
  {
    var s, l := Final(env, Initial, run), DrainName(t, now);
    var steps := RowsSteps(env.lim, t, Next(env, s, l).tasks[t].rows, now);
    RowsStepsOwn(env.lim, t, Next(env, s, l).tasks[t].rows, now);
    var all := run + ([l] + steps);
    forall j | |run| < j < |all| ensures !Cuts(all[j], t) {
      assert all[j] == steps[j - |run| - 1] && steps[j - |run| - 1] in steps;
    }
  }

  lemma TakenIsSent(env: Env, run: seq<Label>, own: seq<Label>, t: nat, r: PendingRow)
    requires ValidConfig(env.cfg) && IsRun(env, Initial, run + own) && GoesOn(run + own, |run|, t)
    requires IsDrain(StateAt(env, Initial, run + own, |run| + 1), t)
    requires r in StateAt(env, Initial, run + own, |run| + 1).tasks[t].rows && r.attempts <= env.lim.maxAttempts
    requires IsDrain(Final(env, Initial, run + own), t) && Final(env, Initial, run + own).tasks[t].rows == []
    ensures HandedOverOnce(Final(env, Initial, run + own), |StateAt(env, Initial, run + own, |run| + 1).log.frames|, r,
                           StateAt(env, Initial, run + own, |run| + 1).tasks[t].session)
  {
    EveryTakenRowSent(env, run + own, |run|, t);
  }

  lemma ClaimFramesNothing(env: Env, s: State, t: nat, now: real)
    requires Enabled(env, s, DrainName(t, now))
    ensures Next(env, s, DrainName(t, now)).log.frames == s.log.frames
  {
  }

  lemma FromEarlier(s: State, from: nat, later: nat, row: PendingRow, session: nat)
    requires HandedOverOnce(s, later, row, session) && from <= later
    ensures HandedOverOnce(s, from, row, session)
  {
    var i :| QueueFrame(s, i) && later <= i && s.log.frames[i].session == session
      && s.log.frames[i].origin == FromQueue(row) && s.log.frames[i].ack in s.log.written
      && forall j :: QueueFrame(s, j) && s.log.frames[j].origin == FromQueue(row) ==> j == i;
  }

  /** With steps of drain `t` alone, the run goes on to one where the row has been handed over once, in a new frame. */
  ghost predicate Delivers(env: Env, run: seq<Label>, own: seq<Label>, t: nat, row: PendingRow, session: nat)
    requires IsRun(env, Initial, run)
  {
    && AllOf(own, t)
    && IsRun(env, Initial, run + own)
    && HandedOverOnce(Final(env, Initial, run + own), |Final(env, Initial, run).log.frames|, row, session)
  }

  lemma AlongFrames(env: Env, run: seq<Label>, way: seq<Label>, t: nat, name: string)
    requires IsRun(env, Initial, run) && Along(env, run, way, t, name)
    ensures |Final(env, Initial, run).log.frames| <= |Final(env, Initial, run + way).log.frames|
  {
  }

  lemma DeliversEarlier(env: Env, run: seq<Label>, way: seq<Label>, last: seq<Label>, t: nat, row: PendingRow, session: nat)
    requires IsRun(env, Initial, run) && IsRun(env, Initial, run + way)
    requires AllOf(way, t)
    requires |Final(env, Initial, run).log.frames| <= |Final(env, Initial, run + way).log.frames|
    requires Delivers(env, run + way, last, t, row, session)
    ensures Delivers(env, run, way + last, t, row, session)
  {
    Joined(run, way, last, t);
    FromEarlier(Final(env, Initial, run + (way + last)), |Final(env, Initial, run).log.frames|,
                |Final(env, Initial, run + way).log.frames|, row, session);
  }

  lemma AlongThenDelivers(env: Env, run: seq<Label>, way: seq<Label>, last: seq<Label>, t: nat, name: string,
                          row: PendingRow, session: nat)
    requires IsRun(env, Initial, run) && Along(env, run, way, t, name) && Delivers(env, run + way, last, t, row, session)
    ensures Delivers(env, run, way + last, t, row, session)
  {
    AlongFrames(env, run, way, t, name);
    DeliversEarlier(env, run, way, last, t, row, session);
  }

  /** The drain is between names, its session the latest at `d`, and the row due there. */
  ghost predicate Owed(env: Env, s: State, t: nat, now: real, d: Destination, p: PendingRow, session: nat) {
    AtName(s, t) && s.tasks[t].session == session && Latest(s.reg, session, d) && Due(env, s, p, d.name, now)
  }

  lemma OwedAlong(env: Env, run: seq<Label>, way: seq<Label>, t: nat, now: real, d: Destination, p: PendingRow, session: nat)
    requires IsRun(env, Initial, run) && Along(env, run, way, t, d.name)
    requires Owed(env, Final(env, Initial, run), t, now, d, p, session)
    ensures Owed(env, Final(env, Initial, run + way), t, now, d, p, session)
  {
    var s, s' := Final(env, Initial, run), Final(env, Initial, run + way);
    LatestUndisturbed(s, s', d.name, session, d);
    DueUndisturbed(env, s, s', p, d.name, now);
  }

  lemma OwedTaken(env: Env, run: seq<Label>, t: nat, now: real, d: Destination, p: PendingRow, session: nat)
    requires ValidConfig(env.cfg) && IsRun(env, Initial, run) && d in env.cfg.destinations
    requires Owed(env, Final(env, Initial, run), t, now, d, p, session)
    requires Final(env, Initial, run).tasks[t].names != [] && Final(env, Initial, run).tasks[t].names[0] == d.name
    ensures var s := Final(env, Initial, run);
      var s' := Next(env, s, DrainName(t, now));
      && Idle(s', t) && s'.tasks[t].session == session && s'.log.frames == s.log.frames
      && p.(attempts := p.attempts + 1) in s'.tasks[t].rows
  {
    var s := Final(env, Initial, run);
    DrainTakesOldest(env, run, t, now, d);
    DueTaken(env, s, Next(env, s, DrainName(t, now)).tasks[t].rows, p, d.name, now);
    ClaimFramesNothing(env, s, t, now);
  }

  /** At its own name, with its session the latest there, the drain sends every row that is due. */
  lemma DueIsSent(env: Env, run: seq<Label>, t: nat, now: real, d: Destination, p: PendingRow, session: nat)
    requires ValidConfig(env.cfg) && IsRun(env, Initial, run) && d in env.cfg.destinations
    requires Owed(env, Final(env, Initial, run), t, now, d, p, session)
    requires Final(env, Initial, run).tasks[t].names != [] && Final(env, Initial, run).tasks[t].names[0] == d.name
    ensures Delivers(env, run, NameSteps(env, Final(env, Initial, run), t, now), t, p.(attempts := p.attempts + 1), session)
  {
    var s := Final(env, Initial, run);
    var own := NameSteps(env, s, t, now);
    OwedTaken(env, run, t, now, d, p, session);
    NameWorked(env, run, t, now);
    NameStepsGoOn(env, run, t, now);
    StateAfter(env, run, DrainName(t, now), RowsSteps(env.lim, t, Next(env, s, DrainName(t, now)).tasks[t].rows, now));
    TakenIsSent(env, run, own, t, p.(attempts := p.attempts + 1));
  }

  /** Running alone from a place between names, a drain comes to the destination and sends every row due there. */
  lemma DueReached(env: Env, run: seq<Label>, t: nat, now: real, d: Destination, p: PendingRow, session: nat)
    returns (own: seq<Label>)
    requires ValidConfig(env.cfg) && IsRun(env, Initial, run) && d in env.cfg.destinations
    requires Owed(env, Final(env, Initial, run), t, now, d, p, session)
    requires d.name in Final(env, Initial, run).tasks[t].names
    ensures Delivers(env, run, own, t, p.(attempts := p.attempts + 1), session)
  {
    var way := ReachName(env, run, t, now, d.name);
    OwedAlong(env, run, way, t, now, d, p, session);
    DueIsSent(env, run + way, t, now, d, p, session);
    var last := NameSteps(env, Final(env, Initial, run + way), t, now);
    AlongThenDelivers(env, run, way, last, t, d.name, p.(attempts := p.attempts + 1), session);
    own := way + last;
  }

  lemma StartsAtNames(env: Env, s: State, session: nat)
    requires Enabled(env, s, DrainStart(session))
    ensures var s' := Next(env, s, DrainStart(session));
      && AtName(s', s.nextTask) && s'.tasks[s.nextTask].session == session
      && s'.tasks[s.nextTask].names == s.reg.subs[session].destinations
      && s'.tables == s.tables && s'.reg == s.reg && s'.log == s.log
  {
  }

  /**
   In every reachable state: let a session that is the latest to serve a
   destination be drained, alone and with every send returning. Then each of the
   oldest rows waiting there, up to the limit of one claim and with an attempt
   left, is written to that session in exactly one new frame.
   */
  lemma ReconnectDelivers(env: Env, run: seq<Label>, session: nat, now: real, d: Destination, p: PendingRow)
    returns (own: seq<Label>)
    requires ValidConfig(env.cfg) && IsRun(env, Initial, run) && d in env.cfg.destinations
    requires Latest(Final(env, Initial, run).reg, session, d) && Due(env, Final(env, Initial, run), p, d.name, now)
    ensures IsRun(env, Initial, run + [DrainStart(session)])
    ensures Delivers(env, run + [DrainStart(session)], own, Final(env, Initial, run).nextTask,
                     p.(attempts := p.attempts + 1), session)
  {
    var s := Final(env, Initial, run);
    StartsAtNames(env, s, session);
    RunStep(env, Initial, run, DrainStart(session));
    own := DueReached(env, run + [DrainStart(session)], s.nextTask, now, d, p, session);
  }
}

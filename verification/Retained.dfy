/**
 Letter by letter: what became of every dead letter over a run, and why a sweep
 took what it took.
 */
module Retained {
  import opened Prelude
  import opened Tables
  import opened Retention
  import opened Daemon
  import Conservation
  import DrainLetters

  /**
   The step takes the letter: an operator's purge that asks for it, or a sweep
   that finds it past its retention or among the cap's victims.
   */
  ghost predicate Discards(env: Env, s: State, l: Label, d: nat) {
    && d in s.tables.dead
    && match l
       case PurgeLetters(cutoff, redrivenOnly) =>
         (cutoff.None? || s.tables.dead[d].createdAt < cutoff.value)
         && (!redrivenOnly || s.tables.dead[d].status == RedriveOk)
       case Sweep(now, _, letters) => s.tables.dead[d].createdAt < now - env.lim.deadTtl || d in letters
       case _ => false
  }

  /** Every letter is still there, and every id newly given out has one. */
  ghost predicate AllStay(t: Tables, t': Tables) {
    && t.nextDead <= t'.nextDead
    && (forall d :: d in t.dead ==> d in t'.dead)
    && (forall d: nat :: t.nextDead <= d < t'.nextDead ==> d in t'.dead)
  }

  lemma SessionsKeepAll(env: Env, s: State, l: Label)
    requires Enabled(env, s, l)
    requires l.HelloFrame? || l.Closed? || l.AckFrame? || l.WaiterGivesUp? || l.WaiterDone? || l.Restart?
    ensures AllStay(s.tables, Next(env, s, l).tables)
  {
  }

  lemma TasksKeepAll(env: Env, s: State, l: Label)
    requires Enabled(env, s, l)
    requires l.FanNext? || l.FanSent? || l.FanFailed? || l.DrainStart? || l.DrainName? || l.DrainRemove? || l.DrainSent?
             || l.DrainFailed? || l.TaskEnds? || l.RedriveLoad?
    ensures AllStay(s.tables, Next(env, s, l).tables)
  {
  }

  lemma QueueingKeepsAll(env: Env, s: State, l: Label)
    requires Enabled(env, s, l) && (l.Submit? || l.FanFinish? || l.RedriveEnqueue? || l.Ingest?)
    ensures AllStay(s.tables, Next(env, s, l).tables)
  {
    if l.FanFinish? {
      var task := s.tasks[l.t];
      DrainLetters.EnqueueAllLetters(s.tables, env.lim, task.event, UntakenNames(task.dests, task.done), l.now);
    }
  }

  lemma WritingKeepsAll(env: Env, s: State, l: Label)
    requires Enabled(env, s, l) && (l.DrainRow? || l.RecordDeadLetter? || l.RedriveMark?)
    ensures AllStay(s.tables, Next(env, s, l).tables)
  {
  }

  /** Steps that delete no letter. */
  lemma OthersKeepAll(env: Env, s: State, l: Label)
    requires Enabled(env, s, l) && !l.PurgeLetters? && !l.Sweep?
    ensures AllStay(s.tables, Next(env, s, l).tables)
  {
    if l.HelloFrame? || l.Closed? || l.AckFrame? || l.WaiterGivesUp? || l.WaiterDone? || l.Restart? {
      SessionsKeepAll(env, s, l);
    } else if l.Submit? || l.FanFinish? || l.RedriveEnqueue? || l.Ingest? {
      QueueingKeepsAll(env, s, l);
    } else if l.DrainRow? || l.RecordDeadLetter? || l.RedriveMark? {
      WritingKeepsAll(env, s, l);
    } else {
      TasksKeepAll(env, s, l);
    }
  }

  lemma SweepIssues(env: Env, s: State, now: real, ids: set<string>, letters: set<nat>, d: nat)
    requires s.tables.nextDead <= d < DoSweep(env, s, now, ids, letters).tables.nextDead
    ensures d in DoSweep(env, s, now, ids, letters).tables.dead
  {
    assert d in Promotions(s.tables.nextDead, Expired(s.tables, now), now);
  }

  /** A letter that is there before a step is there after it unless the step discards it. */
  lemma StepDiscardsIff(env: Env, s: State, l: Label, d: nat)
    requires ValidTables(s.tables) && Enabled(env, s, l) && d in s.tables.dead
    ensures d in Next(env, s, l).tables.dead <==> !Discards(env, s, l, d)
  {
    if l.Sweep? { SweepKeepsLetterIff(s.tables, env.lim, l.now, l.ids, l.letters, d); }
    else if !l.PurgeLetters? { OthersKeepAll(env, s, l); }
  }

  lemma StepIssues(env: Env, s: State, l: Label, d: nat)
    requires Enabled(env, s, l) && s.tables.nextDead <= d < Next(env, s, l).tables.nextDead
    ensures d in Next(env, s, l).tables.dead
  {
    if l.Sweep? { SweepIssues(env, s, l.now, l.ids, l.letters, d); }
    else if !l.PurgeLetters? { OthersKeepAll(env, s, l); }
  }

  /** Step `k` of the run discards the letter. */
  ghost predicate DiscardedAt(env: Env, run: seq<Label>, k: nat, d: nat)
    requires IsRun(env, Initial, run) && k < |run|
  {
    Discards(env, StateAt(env, Initial, run, k), run[k], d)
  }

  ghost predicate NeverDiscarded(env: Env, run: seq<Label>, d: nat)
    requires IsRun(env, Initial, run)
  {
    forall k: nat :: k < |run| ==> !DiscardedAt(env, run, k, d)
  }

  lemma NeverDiscardedSnoc(env: Env, run: seq<Label>, d: nat)
    requires IsRun(env, Initial, run) && run != []
    ensures NeverDiscarded(env, run, d)
        <==> NeverDiscarded(env, run[..|run| - 1], d)
             && !Discards(env, Final(env, Initial, run[..|run| - 1]), run[|run| - 1], d)
  {
    var front, n := run[..|run| - 1], |run| - 1;
    assert StateAt(env, Initial, run, n) == StateAt(env, Initial, front, n);
    assert forall k: nat :: k < n ==> (DiscardedAt(env, run, k, d) <==> DiscardedAt(env, front, k, d));
    assert DiscardedAt(env, run, n, d) <==> Discards(env, Final(env, Initial, front), run[n], d);
  }

  lemma StepAccount(env: Env, s: State, l: Label, d: nat)
    requires ValidTables(s.tables) && Enabled(env, s, l) && d < Next(env, s, l).tables.nextDead
    ensures d in Next(env, s, l).tables.dead
        <==> (d in s.tables.dead || s.tables.nextDead <= d) && !Discards(env, s, l, d)
  {
    DrainLetters.StepKeepsLetters(env, s, l);
    if d in s.tables.dead { StepDiscardsIff(env, s, l, d); }
    else if s.tables.nextDead <= d { StepIssues(env, s, l, d); }
  }

  /**
   Over every run: a letter that was ever written is still there if and only if
   no step discarded it, so only a purge that asks for it or a sweep can.
   */
  lemma {:induction false} LetterAccounted(env: Env, run: seq<Label>, d: nat)
    requires IsRun(env, Initial, run)
    ensures d in Final(env, Initial, run).tables.dead
        <==> d < Final(env, Initial, run).tables.nextDead && NeverDiscarded(env, run, d)
    ensures Final(env, Initial, run).tables.nextDead <= d ==> NeverDiscarded(env, run, d)
  {
    Conservation.RunInv(env, run);
    if run != [] {
      var front, l := run[..|run| - 1], run[|run| - 1];
      var s := Final(env, Initial, front);
      Conservation.RunInv(env, front);
      LetterAccounted(env, front, d);
      NeverDiscardedSnoc(env, run, d);
      DrainLetters.StepKeepsLetters(env, s, l);
      if d < Next(env, s, l).tables.nextDead { StepAccount(env, s, l, d); }
    }
  }

  // ── why a sweep took it ────────────────────────────────────────────────────

  /** The letters within their retention that outlive the sweep. */
  ghost function StayedLetters(t: Tables, t': Tables, lim: Limits, now: real): set<nat> {
    set k | k in YoungLetters(t.dead, lim, now) && k in t'.dead
  }

  /** The replay ids within their retention that outlive the sweep. */
  ghost function StayedIds(t: Tables, t': Tables, lim: Limits, now: real): set<string> {
    set id | id in YoungIds(t.dedupe, lim, now) && id in t'.dedupe
  }

  lemma StayedLettersAre(t: Tables, lim: Limits, now: real, ids: set<string>, letters: set<nat>)
    requires ValidTables(t)
    ensures StayedLetters(t, Pruned(t, lim, now, ids, letters), lim, now) == YoungLetters(t.dead, lim, now) - letters
  {
    var young, t' := YoungLetters(t.dead, lim, now), Pruned(t, lim, now, ids, letters);
    forall k | k in young ensures k in t'.dead <==> k !in letters {
      SweepKeepsLetterIff(t, lim, now, ids, letters, k);
    }
  }

  lemma StayedLettersSize(t: Tables, lim: Limits, now: real, ids: set<string>, letters: set<nat>)
    requires ValidTables(t) && LegalVictims(t, lim, now, ids, letters) && letters != {}
    ensures |StayedLetters(t, Pruned(t, lim, now, ids, letters), lim, now)| == lim.deadMax
  {
    StayedLettersAre(t, lim, now, ids, letters);
    CapTakesExcess(t, lim, now, ids, letters);
    DifferenceSize(YoungLetters(t.dead, lim, now), letters);
  }

  lemma StayedIdsSize(t: Tables, lim: Limits, now: real, ids: set<string>, letters: set<nat>)
    requires LegalVictims(t, lim, now, ids, letters)
    ensures var young, stayed := YoungIds(t.dedupe, lim, now), StayedIds(t, Pruned(t, lim, now, ids, letters), lim, now);
      stayed == young - ids && (ids != {} ==> |stayed| == lim.dedupeMax)
  {
    var young, t' := YoungIds(t.dedupe, lim, now), Pruned(t, lim, now, ids, letters);
    forall k | k in young ensures k in t'.dedupe <==> k !in ids {
      SweepKeepsIdIff(t, lim, now, ids, letters, k);
    }
    assert StayedIds(t, t', lim, now) == young - ids;
    CapTakesExcess(t, lim, now, ids, letters);
    DifferenceSize(young, ids);
  }

  lemma SweptLetter(t: Tables, lim: Limits, now: real, ids: set<string>, letters: set<nat>, d: nat)
    requires ValidTables(t) && LegalVictims(t, lim, now, ids, letters)
    requires d in t.dead && d !in Pruned(t, lim, now, ids, letters).dead
    ensures var stayed := StayedLetters(t, Pruned(t, lim, now, ids, letters), lim, now);
      || t.dead[d].createdAt < now - lim.deadTtl
      || (|stayed| == lim.deadMax && forall k :: k in stayed ==> NoDearer(t.dead[d], t.dead[k]))
  {
    SweepKeepsLetterIff(t, lim, now, ids, letters, d);
    if d in letters {
      StayedLettersSize(t, lim, now, ids, letters);
      StayedLettersAre(t, lim, now, ids, letters);
      forall k | k in StayedLetters(t, Pruned(t, lim, now, ids, letters), lim, now)
        ensures NoDearer(t.dead[d], t.dead[k])
      {
        CapTakesCheapest(t, lim, now, ids, letters, d, k);
      }
    }
  }

  /**
   In every reachable state: a letter a sweep drops was past its retention, or
   the cap's full number of others within theirs stayed, every one of them at
   least as dear.
   */
  lemma SweptLetterJustified(env: Env, run: seq<Label>, now: real, ids: set<string>, letters: set<nat>, d: nat)
    requires IsRun(env, Initial, run) && Enabled(env, Final(env, Initial, run), Sweep(now, ids, letters))
    requires d in Final(env, Initial, run).tables.dead
    requires d !in Next(env, Final(env, Initial, run), Sweep(now, ids, letters)).tables.dead
    ensures var t, t' := Final(env, Initial, run).tables, Next(env, Final(env, Initial, run), Sweep(now, ids, letters)).tables;
      || t.dead[d].createdAt < now - env.lim.deadTtl
      || (|StayedLetters(t, t', env.lim, now)| == env.lim.deadMax
          && forall k :: k in StayedLetters(t, t', env.lim, now) ==> NoDearer(t.dead[d], t.dead[k]))
  {
    Conservation.RunInv(env, run);
    SweptLetter(Final(env, Initial, run).tables, env.lim, now, ids, letters, d);
  }

  lemma {:induction false} QueueingKeepsIds(t: Tables, lim: Limits, e: Event, names: seq<string>, now: real)
    ensures EnqueueAll(t, lim, e, names, now).dedupe == t.dedupe
    decreases |names|
  {
    if names != [] {
      QueueingKeepsIds(Enqueue(t, lim, e, Some(names[0]), now), lim, e, names[1..], now);
    }
  }

  lemma OnlySweepsForget(env: Env, s: State, l: Label, id: string)
    requires Enabled(env, s, l) && id in s.tables.dedupe && !l.Sweep?
    ensures id in Next(env, s, l).tables.dedupe && Next(env, s, l).tables.dedupe[id] == s.tables.dedupe[id]
  {
    if l.FanFinish? {
      var task := s.tasks[l.t];
      QueueingKeepsIds(s.tables, env.lim, task.event, UntakenNames(task.dests, task.done), l.now);
    }
  }

  lemma SweptId(t: Tables, lim: Limits, now: real, ids: set<string>, letters: set<nat>, id: string)
    requires LegalVictims(t, lim, now, ids, letters)
    requires id in t.dedupe && id !in Pruned(t, lim, now, ids, letters).dedupe
    ensures var stayed := StayedIds(t, Pruned(t, lim, now, ids, letters), lim, now);
      || t.dedupe[id] < now - lim.dedupeTtl
      || (|stayed| == lim.dedupeMax && forall k :: k in stayed ==> t.dedupe[id] <= t.dedupe[k])
  {
    SweepKeepsIdIff(t, lim, now, ids, letters, id);
    StayedIdsSize(t, lim, now, ids, letters);
    if id in ids {
      forall k | k in StayedIds(t, Pruned(t, lim, now, ids, letters), lim, now) ensures t.dedupe[id] <= t.dedupe[k] {
        CapTakesOldestIds(t, lim, now, ids, letters, id, k);
      }
    }
  }

  /**
   In every state, only a sweep forgets a replay id, and it forgets one only past
   its retention or when the cap's full number of ids stayed, none of them seen
   before it.
   */
  lemma ForgottenIdJustified(env: Env, s: State, l: Label, id: string)
    requires Enabled(env, s, l) && id in s.tables.dedupe && id !in Next(env, s, l).tables.dedupe
    ensures l.Sweep?
    ensures var t, t' := s.tables, Next(env, s, l).tables;
      || t.dedupe[id] < l.now - env.lim.dedupeTtl
      || (|StayedIds(t, t', env.lim, l.now)| == env.lim.dedupeMax
          && forall k :: k in StayedIds(t, t', env.lim, l.now) ==> t.dedupe[id] <= t.dedupe[k])
  {
    if l.Sweep? {
      SweptId(s.tables, env.lim, l.now, l.ids, l.letters, id);
    } else {
      OnlySweepsForget(env, s, l, id);
    }
  }
}

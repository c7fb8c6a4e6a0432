/**
 A drain removes an exhausted row only after writing a letter for it: the letter
 of this very claim, followed from the step that wrote it to the removal.
 */
module DrainLetters {
  import opened Prelude
  import opened Tables
  import opened Retention
  import opened Daemon
  import Conservation

  /** Letter `d` was written for the event and is still there under that name, or left the table since and is noted as dropped. */
  ghost predicate Stands(s: State, d: nat, id: string) {
    && d < s.tables.nextDead
    && (d in s.tables.dead ==> s.tables.dead[d].kind == NextSession && s.tables.dead[d].refId == id)
    && (d !in s.tables.dead ==> id in s.log.dropped)
  }

  /** Letters keep their kind and name, new ones get new ids, and those of the queue's own kind that leave are noted. */
  ghost predicate LettersKept(s: State, s': State) {
    && s.tables.nextDead <= s'.tables.nextDead
    && s.log.dropped <= s'.log.dropped
    && (forall d :: d in s'.tables.dead && d < s.tables.nextDead ==>
          d in s.tables.dead
          && s'.tables.dead[d].kind == s.tables.dead[d].kind && s'.tables.dead[d].refId == s.tables.dead[d].refId)
    && (forall d :: d in s.tables.dead && d !in s'.tables.dead && s.tables.dead[d].kind == NextSession ==>
          s.tables.dead[d].refId in s'.log.dropped)
  }

  lemma StandsOn(s: State, s': State, d: nat, id: string)
    requires Stands(s, d, id) && LettersKept(s, s')
    ensures Stands(s', d, id)
  {
  }

  lemma SessionsKeepLetters(env: Env, s: State, l: Label)
    requires Enabled(env, s, l)
    requires l.HelloFrame? || l.Closed? || l.AckFrame? || l.WaiterGivesUp? || l.WaiterDone? || l.Restart?
    ensures LettersKept(s, Next(env, s, l))
  {
  }

  lemma TasksKeepLetters(env: Env, s: State, l: Label)
    requires Enabled(env, s, l)
    requires l.FanNext? || l.FanSent? || l.FanFailed? || l.DrainStart? || l.DrainName? || l.DrainRemove? || l.DrainSent?
             || l.DrainFailed? || l.TaskEnds? || l.RedriveLoad?
    ensures LettersKept(s, Next(env, s, l))
  {
  }

  lemma {:induction false} EnqueueAllLetters(t: Tables, lim: Limits, e: Event, names: seq<string>, now: real)
    ensures EnqueueAll(t, lim, e, names, now).dead == t.dead && EnqueueAll(t, lim, e, names, now).nextDead == t.nextDead
    decreases |names|
  {
    if names != [] {
      EnqueueAllLetters(Enqueue(t, lim, e, Some(names[0]), now), lim, e, names[1..], now);
    }
  }

  lemma QueueingKeepsLetters(env: Env, s: State, l: Label)
    requires Enabled(env, s, l) && (l.Submit? || l.FanFinish? || l.RedriveEnqueue? || l.Ingest?)
    ensures LettersKept(s, Next(env, s, l))
  {
    if l.FanFinish? {
      EnqueueAllLetters(s.tables, env.lim, s.tasks[l.t].event, UntakenNames(s.tasks[l.t].dests, s.tasks[l.t].done), l.now);
    }
  }

  lemma AddedLetter(s: State, s': State, d: DeadRow)
    requires s'.tables.dead == AddDead(s.tables, d).dead && s'.tables.nextDead == s.tables.nextDead + 1
    requires s'.log.dropped == s.log.dropped
    ensures LettersKept(s, s')
  {
  }

  lemma WritingKeepsLetters(env: Env, s: State, l: Label)
    requires Enabled(env, s, l) && (l.DrainRow? || l.RecordDeadLetter? || l.RedriveMark?)
    ensures LettersKept(s, Next(env, s, l))
  {
    if l.RecordDeadLetter? {
      AddedLetter(s, Next(env, s, l), l.d);
    } else if l.DrainRow? && s.tasks[l.t].rows[0].attempts > env.lim.maxAttempts {
      AddedLetter(s, Next(env, s, l), Exhausted(s.tasks[l.t].rows[0], l.now));
    }
  }

  lemma PurgeKeepsLetters(s: State, cutoff: Option<real>, redrivenOnly: bool)
    ensures LettersKept(s, DoPurge(s, cutoff, redrivenOnly))
  {
  }

  lemma SweepKeepsLetters(env: Env, s: State, now: real, ids: set<string>, letters: set<nat>)
    ensures LettersKept(s, DoSweep(env, s, now, ids, letters))
  {
    var s' := DoSweep(env, s, now, ids, letters);
    forall d | d in s'.tables.dead && d < s.tables.nextDead
      ensures d in s.tables.dead && s'.tables.dead[d] == s.tables.dead[d]
    {
      assert d !in Promotions(s.tables.nextDead, Expired(s.tables, now), now);
    }
  }

  lemma StepKeepsLetters(env: Env, s: State, l: Label)
    requires Enabled(env, s, l)
    ensures LettersKept(s, Next(env, s, l))
  {
    if l.HelloFrame? || l.Closed? || l.AckFrame? || l.WaiterGivesUp? || l.WaiterDone? || l.Restart? {
      SessionsKeepLetters(env, s, l);
    } else if l.Submit? || l.FanFinish? || l.RedriveEnqueue? || l.Ingest? {
      QueueingKeepsLetters(env, s, l);
    } else if l.DrainRow? || l.RecordDeadLetter? || l.RedriveMark? {
      WritingKeepsLetters(env, s, l);
    } else if l.PurgeLetters? {
      PurgeKeepsLetters(s, l.cutoff, l.redrivenOnly);
    } else if l.Sweep? {
      SweepKeepsLetters(env, s, l.now, l.ids, l.letters);
    } else {
      TasksKeepLetters(env, s, l);
    }
  }

  // ── from the letter to the removal ─────────────────────────────────────────

  ghost predicate AboutToRemove(s: State, t: nat) {
    IsDrain(s, t) && s.tasks[t].phase.Removing?
  }

  /** The step is the drain's own, and gives its first row up. */
  ghost predicate GivesUp(env: Env, s: State, l: Label, t: nat) {
    && l.DrainRow? && l.t == t && Enabled(env, s, l)
    && s.tasks[t].rows[0].attempts > env.lim.maxAttempts
  }

  lemma OtherRemoving(env: Env, s: State, l: Label, t: nat)
    requires Enabled(env, s, l) && AboutToRemove(Next(env, s, l), t) && !l.DrainRow?
    ensures AboutToRemove(s, t) && s.tasks[t] == Next(env, s, l).tasks[t]
  {
  }

  lemma RowRemoving(env: Env, s: State, l: Label, t: nat)
    requires Enabled(env, s, l) && AboutToRemove(Next(env, s, l), t) && l.DrainRow?
    ensures var s' := Next(env, s, l);
      || (AboutToRemove(s, t) && s.tasks[t] == s'.tasks[t])
      || (GivesUp(env, s, l, t) && s'.tasks[t].rows == s.tasks[t].rows)
  {
  }

  lemma LetterWritten(env: Env, s: State, l: Label, t: nat)
    requires Conservation.Inv(s) && GivesUp(env, s, l, t)
    ensures Stands(Next(env, s, l), s.tables.nextDead, s.tasks[t].rows[0].eventId)
  {
    assert Conservation.RowKnown(s.tables, s.tasks[t].rows[0]);
  }

  /** At `before` the drain gave up the row it is now about to remove, and the letter it wrote there stands. */
  ghost predicate WroteOwnLetter(env: Env, before: seq<Label>, l: Label, s: State, t: nat) {
    && IsRun(env, Initial, before)
    && GivesUp(env, Final(env, Initial, before), l, t)
    && IsDrain(s, t) && s.tasks[t].rows == Final(env, Initial, before).tasks[t].rows
    && s.tasks[t].rows != []
    && Stands(s, Final(env, Initial, before).tables.nextDead, s.tasks[t].rows[0].eventId)
  }

  lemma OwnLetterCarries(env: Env, before: seq<Label>, l: Label, s: State, next: Label, t: nat)
    requires WroteOwnLetter(env, before, l, s, t) && Enabled(env, s, next)
    requires IsDrain(Next(env, s, next), t) && s.tasks[t] == Next(env, s, next).tasks[t]
    ensures WroteOwnLetter(env, before, l, Next(env, s, next), t)
  {
    StepKeepsLetters(env, s, next);
    StandsOn(s, Next(env, s, next), Final(env, Initial, before).tables.nextDead, s.tasks[t].rows[0].eventId);
  }

  lemma FreshLetter(env: Env, front: seq<Label>, l: Label, t: nat)
    requires IsRun(env, Initial, front) && GivesUp(env, Final(env, Initial, front), l, t)
    ensures WroteOwnLetter(env, front, l, Next(env, Final(env, Initial, front), l), t)
  {
    Conservation.RunInv(env, front);
    LetterWritten(env, Final(env, Initial, front), l, t);
  }

  /**
   Over every run: whenever a drain is about to remove a row, it gave that row up
   at an earlier step of the run, and the letter it wrote at that step - under an
   id no letter had before - is still there for the event, or has itself been
   removed since.
   */
  lemma {:induction false} OwnLetterFirst(env: Env, run: seq<Label>, t: nat) returns (before: seq<Label>, l: Label)
    requires IsRun(env, Initial, run) && AboutToRemove(Final(env, Initial, run), t)
    ensures before + [l] <= run
    ensures WroteOwnLetter(env, before, l, Final(env, Initial, run), t)
    decreases |run|
  {
    var front, last := run[..|run| - 1], run[|run| - 1];
    assert run == front + [last];
    var s := Final(env, Initial, front);
    if last.DrainRow? { RowRemoving(env, s, last, t); } else { OtherRemoving(env, s, last, t); }
    if GivesUp(env, s, last, t) {
      before, l := front, last;
      FreshLetter(env, front, last, t);
    } else {
      before, l := OwnLetterFirst(env, front, t);
      OwnLetterCarries(env, before, l, s, last, t);
    }
  }
}

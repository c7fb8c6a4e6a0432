/**
 An operator's redrive of a queue letter, in its own process beside the daemon:
 what it re-queues, and whether the letter ends up saying so truthfully.
 */
module Redriving {
  import opened Prelude
  import opened Tables
  import opened Addressing
  import opened Daemon
  import FanOut

  /** One more row, for the event, due at its own source's destination until its time runs out. */
  ghost predicate QueuedAnew(t: Tables, t': Tables, lim: Limits, e: Event, now: real) {
    t'.pending == t.pending
      + [PendingRow(t.nextRow, e.id, e.source, Some(e.source), e, now + lim.pendingTtl, 0)]
  }

  /** There is room for the event, and it is not queued already. */
  ghost predicate Room(t: Tables, lim: Limits, e: Event) {
    && e.id != "" && |t.pending| < lim.pendingMax
    && forall r :: r in t.pending ==> r.eventId != e.id
  }

  /** A redrive works on the letter it was started for, as it was then. */
  lemma RedriveTakesLetter(env: Env, s: State, d: nat)
    requires Enabled(env, s, RedriveLoad(d))
    ensures var s' := Next(env, s, RedriveLoad(d));
      && IsRedrive(s', s.nextTask) && s'.tasks[s.nextTask].letter == d
      && s'.tasks[s.nextTask].entry == s.tables.dead[d] && s'.tasks[s.nextTask].requeued.None?
      && s'.tables == s.tables
  {
  }

  lemma RequeueStep(env: Env, s: State, t: nat, now: real)
    requires Enabled(env, s, RedriveEnqueue(t, now))
    ensures var s', e := Next(env, s, RedriveEnqueue(t, now)), s.tasks[t].entry.event;
      && IsRedrive(s', t) && s'.tasks[t] == s.tasks[t].(requeued := Some(Room(s.tables, env.lim, e)))
      && if Room(s.tables, env.lim, e) then QueuedAnew(s.tables, s'.tables, env.lim, e, now) else s'.tables == s.tables
  {
    var e := s.tasks[t].entry.event;
    if InQueue(s.tables.pending, e.id) {
      var i :| 0 <= i < |s.tables.pending| && s.tables.pending[i].eventId == e.id;
      assert s.tables.pending[i] in s.tables.pending;
    }
  }

  /** The steps that start a task, or run a fan-out or a drain. */
  predicate TaskStep(l: Label) {
    || l.Submit? || l.FanNext? || l.FanSent? || l.FanFailed? || l.FanFinish? || l.DrainStart? || l.DrainName? || l.DrainRow?
    || l.DrainSent? || l.DrainFailed? || l.DrainRemove?
  }

  lemma TaskStepsWait(env: Env, s: State, l: Label, t: nat)
    requires Enabled(env, s, l) && TaskStep(l) && t < s.nextTask
    requires IsRedrive(Next(env, s, l), t) && IsRedrive(s, t) && s.tasks[t].requeued.Some?
    ensures Next(env, s, l).tasks[t] == s.tasks[t]
  {
  }

  lemma OtherStepsWait(env: Env, s: State, l: Label, t: nat)
    requires Enabled(env, s, l) && !TaskStep(l) && t < s.nextTask
    requires IsRedrive(Next(env, s, l), t) && IsRedrive(s, t) && s.tasks[t].requeued.Some?
    ensures Next(env, s, l).tasks[t] == s.tasks[t]
  {
  }

  /** A redrive that has re-queued and not yet marked is left alone by every step but its own. */
  lemma RedriveWaits(env: Env, s: State, l: Label, t: nat)
    requires Enabled(env, s, l) && t < s.nextTask
    requires IsRedrive(Next(env, s, l), t) && IsRedrive(s, t) && s.tasks[t].requeued.Some?
    ensures Next(env, s, l).tasks[t] == s.tasks[t]
  {
    if TaskStep(l) { TaskStepsWait(env, s, l, t); } else { OtherStepsWait(env, s, l, t); }
  }

  lemma TaskStepsRedrive(env: Env, s: State, l: Label, t: nat)
    requires Enabled(env, s, l) && TaskStep(l) && t < s.nextTask && t in Next(env, s, l).tasks
    ensures t in s.tasks && (IsRedrive(Next(env, s, l), t) ==> IsRedrive(s, t))
  {
  }

  lemma OtherStepsRedrive(env: Env, s: State, l: Label, t: nat)
    requires Enabled(env, s, l) && !TaskStep(l) && t < s.nextTask && t in Next(env, s, l).tasks
    ensures t in s.tasks && (IsRedrive(Next(env, s, l), t) ==> IsRedrive(s, t))
  {
  }

  lemma NoNewTask(env: Env, s: State, l: Label, t: nat)
    requires Enabled(env, s, l) && t < s.nextTask && t in Next(env, s, l).tasks
    ensures t in s.tasks && (IsRedrive(Next(env, s, l), t) ==> IsRedrive(s, t))
  {
    if TaskStep(l) { TaskStepsRedrive(env, s, l, t); } else { OtherStepsRedrive(env, s, l, t); }
  }

  lemma {:induction false} RedriveKept(env: Env, run: seq<Label>, k: nat, t: nat)
    requires ValidConfig(env.cfg) && IsRun(env, Initial, run) && k <= |run|
    requires IsRedrive(Final(env, Initial, run), t)
    requires IsRedrive(StateAt(env, Initial, run, k), t) && StateAt(env, Initial, run, k).tasks[t].requeued.Some?
    ensures Final(env, Initial, run).tasks[t] == StateAt(env, Initial, run, k).tasks[t]
    decreases |run|
  {
    if k < |run| {
      var front, l := run[..|run| - 1], run[|run| - 1];
      FanOut.RunInv(env, front);
      NumberKept(env, front, k, t);
      NoNewTask(env, Final(env, Initial, front), l, t);
      RedriveKept(env, front, k, t);
      RedriveWaits(env, Final(env, Initial, front), l, t);
    }
  }

  lemma NumbersGrow(env: Env, s: State, l: Label)
    requires Enabled(env, s, l)
    ensures s.nextTask <= Next(env, s, l).nextTask
  {
  }

  lemma {:induction false} NumberKept(env: Env, run: seq<Label>, k: nat, t: nat)
    requires ValidConfig(env.cfg) && IsRun(env, Initial, run) && k <= |run|
    requires t in StateAt(env, Initial, run, k).tasks
    ensures t < Final(env, Initial, run).nextTask
    decreases |run|
  {
    if k == |run| {
      FanOut.RunInv(env, run);
    } else {
      NumberKept(env, run[..|run| - 1], k, t);
      NumbersGrow(env, Final(env, Initial, run[..|run| - 1]), run[|run| - 1]);
    }
  }

  lemma MarkStep(env: Env, s: State, t: nat)
    requires Enabled(env, s, RedriveMark(t))
    ensures var dead, dead', letter := s.tables.dead, Next(env, s, RedriveMark(t)).tables.dead, s.tasks[t].letter;
      && dead'.Keys == dead.Keys && (forall d :: d in dead && d != letter ==> dead'[d] == dead[d])
      && (letter in dead ==>
            dead'[letter] == dead[letter].(status := if s.tasks[t].requeued == Some(true) then RedriveOk else RedriveFailed))
  {
  }

  /**
   Over every run, whatever the daemon does between the two calls of a redrive:
   the letter, if it is still there when it is marked, is marked redriven exactly
   when the event had room in the queue, and then it was queued anew for its own
   source; otherwise it is marked failed. No other letter changes.
   */
  lemma MarkedTruthfully(env: Env, run: seq<Label>, k: nat, t: nat, now: real)
    requires ValidConfig(env.cfg) && IsRun(env, Initial, run) && k < |run| && run[k] == RedriveEnqueue(t, now)
    requires Enabled(env, Final(env, Initial, run), RedriveMark(t))
    ensures var s := StateAt(env, Initial, run, k);
      var dead, dead' := Final(env, Initial, run).tables.dead, Next(env, Final(env, Initial, run), RedriveMark(t)).tables.dead;
      && IsRedrive(s, t) && dead'.Keys == dead.Keys
      && (forall d :: d in dead && d != s.tasks[t].letter ==> dead'[d] == dead[d])
      && (s.tasks[t].letter in dead ==>
            dead'[s.tasks[t].letter] == dead[s.tasks[t].letter].(status :=
              if Room(s.tables, env.lim, s.tasks[t].entry.event) then RedriveOk else RedriveFailed))
      && (Room(s.tables, env.lim, s.tasks[t].entry.event) ==>
            QueuedAnew(s.tables, StateAt(env, Initial, run, k + 1).tables, env.lim, s.tasks[t].entry.event, now))
  {
    StepAt(env, Initial, run, k);
    RequeueStep(env, StateAt(env, Initial, run, k), t, now);
    RedriveKept(env, run, k + 1, t);
    MarkStep(env, Final(env, Initial, run), t);
  }
}

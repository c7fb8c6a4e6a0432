/**
 The daemon as one labelled transition system. Every step is what runs between
 two suspension points: `deliver` and `drain_pending` stop at each frame they
 send, so any number of fan-outs, drains, ack waiters and operator redrives
 interleave. `Log` is history only; no step looks at it.
 */
module Daemon {
  import opened Prelude
  import opened Tables
  import opened Retention
  import opened Addressing
  import opened Subscribers

  datatype Env = Env(cfg: Config, lim: Limits)

  datatype Origin = FromEvent(task: nat, index: nat) | FromQueue(row: PendingRow)

  /** A wake frame handed to `send_frame`; `server` and `eligible` are what the sender looked at. */
  datatype Frame = Frame(
    ack: nat,
    session: nat,
    dest: Destination,
    server: Subscriber,
    eligible: set<nat>,
    origin: Origin)

  /** What became of one destination of a fan-out. */
  datatype Outcome = Taken(ack: nat) | Untaken

  datatype Flight = Flight(ack: nat, session: nat)

  /** What a drain is doing with the first of its claimed rows. */
  datatype Phase = Ready | Sending(ack: nat) | Removing

  datatype Task =
    | Fanout(event: Event, dests: seq<Destination>, done: seq<Outcome>, sending: Option<Flight>)
    | Drain(session: nat, sub: Subscriber, names: seq<string>, dest: Option<Destination>,
            rows: seq<PendingRow>, phase: Phase)
    | Redrive(letter: nat, entry: DeadRow, requeued: Option<bool>)

  datatype Waiter = Waiter(session: nat, row: Option<PendingRow>)

  datatype Status = Queued | QueuedNextSession | NoSubscriber | Refused(why: Resolution)

  datatype Answer = Answer(event: Event, dests: seq<Destination>, outcomes: seq<Outcome>, status: Status)

  datatype Log = Log(
    admitted: set<string>,
    acked: set<string>,
    dropped: set<string>,
    claims: map<nat, nat>,
    frames: seq<Frame>,
    written: set<nat>,
    abandoned: map<nat, nat>,
    settled: seq<nat>,
    answers: map<nat, Answer>)

  datatype State = State(
    tables: Tables,
    reg: Registry,
    waiters: map<nat, Waiter>,
    tasks: map<nat, Task>,
    nextTask: nat,
    log: Log)

  datatype Label =
    | Submit(event: Event, now: real)
    | FanNext(t: nat)
    | FanSent(t: nat)
    | FanFailed(t: nat)
    | FanFinish(t: nat, now: real)
    | HelloFrame(adapter: string, sources: seq<string>, claimed: seq<string>)
    | Closed(session: nat)
    | DrainStart(session: nat)
    | DrainName(t: nat, now: real)
    | DrainRow(t: nat, now: real)
    | DrainRemove(t: nat)
    | DrainSent(t: nat)
    | DrainFailed(t: nat)
    | TaskEnds(t: nat)
    | AckFrame(ack: nat, answer: bool)
    | WaiterDone(ack: nat)
    | WaiterGivesUp(ack: nat)
    | RedriveLoad(letter: nat)
    | RedriveEnqueue(t: nat, now: real)
    | RedriveMark(t: nat)
    | RecordDeadLetter(d: DeadRow)
    | PurgeLetters(cutoff: Option<real>, redrivenOnly: bool)
    | Sweep(now: real, ids: set<string>, letters: set<nat>)
    | Ingest(id: string, now: real)
    | Restart

  // ── pieces of the steps ────────────────────────────────────────────────────

  const LIVE_ONLY: string := "live_only"

  predicate DurableMode(mode: string) {
    mode == "next_session" || mode == "managed_session"
  }

  /** Per-event delivery wins, then the daemon default; anything unknown is live-only. */
  function DeliveryMode(cfg: Config, e: Event): string {
    var asked := if e.delivery.Some? then e.delivery.value
                 else if cfg.defaultDelivery.Some? then cfg.defaultDelivery.value else LIVE_ONLY;
    if DurableMode(asked) then asked else LIVE_ONLY
  }

  predicate Durable(cfg: Config, e: Event) {
    DurableMode(DeliveryMode(cfg, e))
  }

  /** An empty narrowing field counts as absent. */
  function Narrowing(o: Option<string>): Option<string> {
    if o == Some("") then None else o
  }

  function Addressed(cfg: Config, e: Event): Resolution {
    Resolve(cfg, e.source, Narrowing(e.destination), Narrowing(e.principal))
  }

  function ClaimsOf(claims: map<nat, nat>, row: nat): nat {
    if row in claims then claims[row] else 0
  }

  function BumpClaims(claims: map<nat, nat>, ids: set<nat>): map<nat, nat> {
    map k | k in claims.Keys + ids :: ClaimsOf(claims, k) + if k in ids then 1 else 0
  }

  function AbandonedBy(log: Log, session: nat): nat {
    if session in log.abandoned then log.abandoned[session] else 0
  }

  /** Queue the event for each name in turn, as the loop over undeliverable destinations does. */
  function EnqueueAll(t: Tables, lim: Limits, e: Event, names: seq<string>, now: real): Tables
    decreases |names|
  {
    if names == [] then t
    else EnqueueAll(Enqueue(t, lim, e, Some(names[0]), now), lim, e, names[1..], now)
  }

  function UntakenNames(dests: seq<Destination>, done: seq<Outcome>): seq<string>
    requires |done| <= |dests|
  {
    if done == [] then []
    else
      var n := |done| - 1;
      UntakenNames(dests, done[..n]) + if done[n].Untaken? then [dests[n].name] else []
  }

  predicate AnyTaken(done: seq<Outcome>) {
    exists i :: 0 <= i < |done| && done[i].Taken?
  }

  function AnswerStatus(cfg: Config, e: Event, done: seq<Outcome>): Status {
    if AnyTaken(done) then Queued
    else if Durable(cfg, e) then QueuedNextSession
    else NoSubscriber
  }

  /** `enqueue_pending` answered true exactly when the tables changed. */
  function NoteAdmitted(log: Log, before: Tables, after: Tables, id: string): Log {
    if after == before then log else log.(admitted := log.admitted + {id})
  }

  function DroppedIds(before: map<nat, DeadRow>, after: map<nat, DeadRow>): set<string> {
    set d | d in before && d !in after && before[d].kind == NextSession :: before[d].refId
  }

  function NoteDropped(log: Log, before: Tables, after: Tables): Log {
    log.(dropped := log.dropped + DroppedIds(before.dead, after.dead))
  }

  // ── steps ──────────────────────────────────────────────────────────────────

  predicate IsFanout(s: State, t: nat) { t in s.tasks && s.tasks[t].Fanout? }
  predicate IsDrain(s: State, t: nat) { t in s.tasks && s.tasks[t].Drain? }
  predicate IsRedrive(s: State, t: nat) { t in s.tasks && s.tasks[t].Redrive? }

  ghost predicate Enabled(env: Env, s: State, l: Label) {
    match l
    case Submit(_, _) => true
    case FanNext(t) =>
      IsFanout(s, t) && s.tasks[t].sending.None? && |s.tasks[t].done| < |s.tasks[t].dests|
    case FanSent(t) => IsFanout(s, t) && s.tasks[t].sending.Some?
    case FanFailed(t) => IsFanout(s, t) && s.tasks[t].sending.Some?
    case FanFinish(t, _) =>
      IsFanout(s, t) && s.tasks[t].sending.None? && |s.tasks[t].done| == |s.tasks[t].dests|
    case HelloFrame(_, _, _) => true
    case Closed(_) => true
    case DrainStart(session) => session in s.reg.subs
    case DrainName(t, _) =>
      IsDrain(s, t) && s.tasks[t].phase.Ready? && s.tasks[t].rows == [] && s.tasks[t].names != []
    case DrainRow(t, _) =>
      IsDrain(s, t) && s.tasks[t].phase.Ready? && s.tasks[t].rows != [] && s.tasks[t].dest.Some?
    case DrainRemove(t) => IsDrain(s, t) && s.tasks[t].phase.Removing? && s.tasks[t].rows != []
    case DrainSent(t) => IsDrain(s, t) && s.tasks[t].phase.Sending? && s.tasks[t].rows != []
    case DrainFailed(t) => IsDrain(s, t) && s.tasks[t].phase.Sending? && s.tasks[t].rows != []
    case TaskEnds(t) => t in s.tasks
    case AckFrame(_, _) => true
    case WaiterDone(a) => a in s.waiters && a in s.reg.futures && s.reg.futures[a].Answered?
    case WaiterGivesUp(a) => a in s.waiters
    case RedriveLoad(d) => d in s.tables.dead && s.tables.dead[d].kind == NextSession
    case RedriveEnqueue(t, _) => IsRedrive(s, t) && s.tasks[t].requeued.None?
    case RedriveMark(t) => IsRedrive(s, t) && s.tasks[t].requeued.Some?
    case RecordDeadLetter(d) => d.kind != NextSession
    case PurgeLetters(_, _) => true
    case Sweep(now, ids, letters) => LegalVictims(s.tables, env.lim, now, ids, letters)
    case Ingest(_, _) => true
    case Restart => true
  }

  /** Resolve the event; refusals and unrouted events answer at once, the rest fan out. */
  function DoSubmit(env: Env, s: State, e: Event, now: real): State {
    match Addressed(env.cfg, e)
    case Resolved(ds) =>
      if ds == [] then
        var tables := if Durable(env.cfg, e) then Enqueue(s.tables, env.lim, e, None, now) else s.tables;
        var log := NoteAdmitted(s.log, s.tables, tables, e.id);
        s.(tables := tables, nextTask := s.nextTask + 1,
           log := log.(answers := log.answers[s.nextTask := Answer(e, [], [], AnswerStatus(env.cfg, e, []))]))
      else
        s.(tasks := s.tasks[s.nextTask := Fanout(e, ds, [], None)], nextTask := s.nextTask + 1)
    case why =>
      s.(nextTask := s.nextTask + 1,
         log := s.log.(answers := s.log.answers[s.nextTask := Answer(e, [], [], Refused(why))]))
  }

  function DoFanNext(s: State, t: nat): State
    requires IsFanout(s, t) && |s.tasks[t].done| < |s.tasks[t].dests|
  {
    var task := s.tasks[t];
    var d := task.dests[|task.done|];
    match SubscriberFor(s.reg, d)
    case Some(sid) =>
      if sid !in s.reg.subs then s
      else
        var a := s.reg.nextAck;
        s.(reg := RegisterAck(s.reg),
           tasks := s.tasks[t := task.(sending := Some(Flight(a, sid)))],
           log := s.log.(frames := s.log.frames
             + [Frame(a, sid, d, s.reg.subs[sid], Eligible(s.reg, d), FromEvent(t, |task.done|))]))
    case None =>
      s.(tasks := s.tasks[t := task.(done := task.done + [Untaken])])
  }

  function DoFanSent(s: State, t: nat): State
    requires IsFanout(s, t) && s.tasks[t].sending.Some?
  {
    var task := s.tasks[t];
    var Flight(a, sid) := task.sending.value;
    s.(reg := BeginDelivery(s.reg, sid),
       waiters := s.waiters[a := Waiter(sid, None)],
       tasks := s.tasks[t := task.(done := task.done + [Taken(a)], sending := None)],
       log := s.log.(written := s.log.written + {a}))
  }

  function DoFanFailed(s: State, t: nat): State
    requires IsFanout(s, t) && s.tasks[t].sending.Some?
  {
    var task := s.tasks[t];
    var Flight(a, sid) := task.sending.value;
    s.(reg := Unsubscribe(DropFuture(s.reg, a), sid),
       tasks := s.tasks[t := task.(done := task.done + [Untaken], sending := None)])
  }

  function DoFanFinish(env: Env, s: State, t: nat, now: real): State
    requires IsFanout(s, t) && |s.tasks[t].done| == |s.tasks[t].dests|
  {
    var task := s.tasks[t];
    var tables := if Durable(env.cfg, task.event)
                  then EnqueueAll(s.tables, env.lim, task.event, UntakenNames(task.dests, task.done), now)
                  else s.tables;
    var log := NoteAdmitted(s.log, s.tables, tables, task.event.id);
    s.(tables := tables, tasks := s.tasks - {t},
       log := log.(answers := log.answers[t :=
         Answer(task.event, task.dests, task.done, AnswerStatus(env.cfg, task.event, task.done))]))
  }

  function DoDrainStart(s: State, session: nat): State
    requires session in s.reg.subs
  {
    var sub := s.reg.subs[session];
    s.(tasks := s.tasks[s.nextTask := Drain(session, sub, sub.destinations, None, [], Ready)],
       nextTask := s.nextTask + 1)
  }

  function DoDrainName(env: Env, s: State, t: nat, now: real): State
    requires IsDrain(s, t) && s.tasks[t].names != []
  {
    var task := s.tasks[t];
    var rest := task.(names := task.names[1..]);
    match Lookup(env.cfg.destinations, task.names[0])
    case Some(d) =>
      if SubscriberFor(s.reg, d) != Some(task.session) then s.(tasks := s.tasks[t := rest])
      else
        var (tables, rows) := Claim(s.tables, d.name, now);
        s.(tables := tables,
           tasks := s.tasks[t := rest.(dest := Some(d), rows := rows)],
           log := s.log.(claims := BumpClaims(s.log.claims, RowIds(rows))))
    case None => s.(tasks := s.tasks[t := rest])
  }

  /** The dead letter of a row that has used up its attempts. */
  function Exhausted(r: PendingRow, now: real): DeadRow {
    Promotion(r, r.attempts - 1, now)
  }

  function DoDrainRow(env: Env, s: State, t: nat, now: real): State
    requires IsDrain(s, t) && s.tasks[t].rows != [] && s.tasks[t].dest.Some?
  {
    var task := s.tasks[t];
    var row := task.rows[0];
    if row.attempts > env.lim.maxAttempts then
      s.(tables := AddDead(s.tables, Exhausted(row, now)), tasks := s.tasks[t := task.(phase := Removing)])
    else
      var a := s.reg.nextAck;
      s.(reg := RegisterAck(s.reg),
         tasks := s.tasks[t := task.(phase := Sending(a))],
         log := s.log.(frames := s.log.frames
           + [Frame(a, task.session, task.dest.value, task.sub, {}, FromQueue(row))]))
  }

  function DoDrainRemove(s: State, t: nat): State
    requires IsDrain(s, t) && s.tasks[t].rows != []
  {
    var task := s.tasks[t];
    s.(tables := RemovePending(s.tables, task.rows[0].rowId),
       tasks := s.tasks[t := task.(rows := task.rows[1..], phase := Ready)])
  }

  function DoDrainSent(s: State, t: nat): State
    requires IsDrain(s, t) && s.tasks[t].phase.Sending? && s.tasks[t].rows != []
  {
    var task := s.tasks[t];
    var a := task.phase.ack;
    s.(reg := BeginDelivery(s.reg, task.session),
       waiters := s.waiters[a := Waiter(task.session, Some(task.rows[0]))],
       tasks := s.tasks[t := task.(rows := task.rows[1..], phase := Ready)],
       log := s.log.(written := s.log.written + {a}))
  }

  function DoDrainFailed(s: State, t: nat): State
    requires IsDrain(s, t) && s.tasks[t].phase.Sending? && s.tasks[t].rows != []
  {
    var task := s.tasks[t];
    s.(reg := Unsubscribe(DropFuture(s.reg, task.phase.ack), task.session),
       tasks := s.tasks[t := task.(rows := task.rows[1..], phase := Ready)])
  }

  /** A waiter whose future is set ends the delivery; an ack also settles the row it was for. */
  function DoWaiterDone(s: State, a: nat): State
    requires a in s.waiters && a in s.reg.futures && s.reg.futures[a].Answered?
  {
    var w := s.waiters[a];
    var acked := s.reg.futures[a].ack && w.row.Some?;
    s.(tables := if acked then RemovePending(s.tables, w.row.value.rowId) else s.tables,
       reg := EndDelivery(DropFuture(s.reg, a), w.session),
       waiters := s.waiters - {a},
       log := s.log.(settled := s.log.settled + [a],
                     acked := if acked then s.log.acked + {w.row.value.eventId} else s.log.acked))
  }

  /** Ack timeout, or cancellation at shutdown: the in-flight count is left as it is. */
  function DoWaiterGivesUp(s: State, a: nat): State
    requires a in s.waiters
  {
    var sid := s.waiters[a].session;
    s.(reg := DropFuture(s.reg, a),
       waiters := s.waiters - {a},
       log := s.log.(settled := s.log.settled + [a],
                     abandoned := s.log.abandoned[sid := AbandonedBy(s.log, sid) + 1]))
  }

  function DoRedriveLoad(s: State, d: nat): State
    requires d in s.tables.dead
  {
    s.(tasks := s.tasks[s.nextTask := Redrive(d, s.tables.dead[d], None)], nextTask := s.nextTask + 1)
  }

  function DoRedriveEnqueue(env: Env, s: State, t: nat, now: real): State
    requires IsRedrive(s, t)
  {
    var e := s.tasks[t].entry.event;
    var tables := Enqueue(s.tables, env.lim, e, None, now);
    s.(tables := tables,
       tasks := s.tasks[t := s.tasks[t].(requeued := Some(Admits(s.tables, env.lim, e)))],
       log := NoteAdmitted(s.log, s.tables, tables, e.id))
  }

  function DoRedriveMark(s: State, t: nat): State
    requires IsRedrive(s, t) && s.tasks[t].requeued.Some?
  {
    var task := s.tasks[t];
    s.(tables := SetRedriven(s.tables, task.letter, if task.requeued.value then RedriveOk else RedriveFailed),
       tasks := s.tasks - {t})
  }

  /** Everything volatile goes; the tables, and operator commands in their own processes, stay. */
  function DoRestart(s: State): State {
    s.(reg := Registry(map[], [], {}, s.reg.nextSession, map[], s.reg.nextAck),
       waiters := map[],
       tasks := map t | t in s.tasks && s.tasks[t].Redrive? :: s.tasks[t])
  }

  function DoPurge(s: State, cutoff: Option<real>, redrivenOnly: bool): State {
    var tables := Purge(s.tables, cutoff, redrivenOnly);
    s.(tables := tables, log := NoteDropped(s.log, s.tables, tables))
  }

  function DoSweep(env: Env, s: State, now: real, ids: set<string>, letters: set<nat>): State {
    var tables := Pruned(s.tables, env.lim, now, ids, letters);
    s.(tables := tables, log := NoteDropped(s.log, s.tables, tables))
  }

  ghost function Next(env: Env, s: State, l: Label): State
    requires Enabled(env, s, l)
  {
    match l
    case Submit(e, now) => DoSubmit(env, s, e, now)
    case FanNext(t) => DoFanNext(s, t)
    case FanSent(t) => DoFanSent(s, t)
    case FanFailed(t) => DoFanFailed(s, t)
    case FanFinish(t, now) => DoFanFinish(env, s, t, now)
    case HelloFrame(adapter, sources, claimed) => s.(reg := Hello(env.cfg, s.reg, adapter, sources, claimed))
    case Closed(session) => s.(reg := Disconnect(s.reg, session))
    case DrainStart(session) => DoDrainStart(s, session)
    case DrainName(t, now) => DoDrainName(env, s, t, now)
    case DrainRow(t, now) => DoDrainRow(env, s, t, now)
    case DrainRemove(t) => DoDrainRemove(s, t)
    case DrainSent(t) => DoDrainSent(s, t)
    case DrainFailed(t) => DoDrainFailed(s, t)
    case TaskEnds(t) => s.(tasks := s.tasks - {t})
    case AckFrame(a, answer) => s.(reg := ResolveAck(s.reg, a, answer))
    case WaiterDone(a) => DoWaiterDone(s, a)
    case WaiterGivesUp(a) => DoWaiterGivesUp(s, a)
    case RedriveLoad(d) => DoRedriveLoad(s, d)
    case RedriveEnqueue(t, now) => DoRedriveEnqueue(env, s, t, now)
    case RedriveMark(t) => DoRedriveMark(s, t)
    case RecordDeadLetter(d) => s.(tables := AddDead(s.tables, d))
    case PurgeLetters(cutoff, redrivenOnly) => DoPurge(s, cutoff, redrivenOnly)
    case Sweep(now, ids, letters) => DoSweep(env, s, now, ids, letters)
    case Ingest(id, now) => s.(tables := RecordEvent(s.tables, id, now))
    case Restart => DoRestart(s)
  }

  // ── runs ───────────────────────────────────────────────────────────────────

  const EmptyTables: Tables := Tables(map[], [], map[], 0, 0)

  const Initial: State :=
    State(EmptyTables, Registry(map[], [], {}, 0, map[], 0), map[], map[], 0,
          Log({}, {}, {}, map[], [], {}, map[], [], map[]))

  /** A run: each label enabled where it is taken. */
  ghost predicate IsRun(env: Env, s: State, run: seq<Label>)
    decreases |run|, 0
  {
    run == [] ||
    (IsRun(env, s, run[..|run| - 1])
     && Enabled(env, Final(env, s, run[..|run| - 1]), run[|run| - 1]))
  }

  ghost function Final(env: Env, s: State, run: seq<Label>): State
    requires IsRun(env, s, run)
    decreases |run|, 1
  {
    if run == [] then s else Next(env, Final(env, s, run[..|run| - 1]), run[|run| - 1])
  }

  /** The state before step `k` of a run; the last one for `k == |run|`. */
  ghost function StateAt(env: Env, s: State, run: seq<Label>, k: nat): State
    requires IsRun(env, s, run) && k <= |run|
  {
    if k == |run| then Final(env, s, run) else StateAt(env, s, run[..|run| - 1], k)
  }

  /** Each step of a run is taken where it is enabled, and leads to the next state. */
  lemma {:induction false} StepAt(env: Env, s: State, run: seq<Label>, k: nat)
    requires IsRun(env, s, run) && k < |run|
    ensures Enabled(env, StateAt(env, s, run, k), run[k])
    ensures StateAt(env, s, run, k + 1) == Next(env, StateAt(env, s, run, k), run[k])
    decreases |run|
  {
    if k + 1 < |run| {
      StepAt(env, s, run[..|run| - 1], k);
    }
  }

  lemma {:induction false} PrefixRun(env: Env, s: State, run: seq<Label>, k: nat)
    requires IsRun(env, s, run) && k <= |run|
    ensures IsRun(env, s, run[..k]) && Final(env, s, run[..k]) == StateAt(env, s, run, k)
    decreases |run|
  {
    if k == |run| {
      assert run[..k] == run;
    } else {
      assert run[..|run| - 1][..k] == run[..k];
      PrefixRun(env, s, run[..|run| - 1], k);
    }
  }

  /** A run followed by a run of its final state is a run. */
  lemma {:induction false} RunConcat(env: Env, s: State, a: seq<Label>, b: seq<Label>)
    requires IsRun(env, s, a) && IsRun(env, Final(env, s, a), b)
    ensures IsRun(env, s, a + b) && Final(env, s, a + b) == Final(env, Final(env, s, a), b)
  {
    if b == [] {
      assert a + b == a;
    } else {
      RunConcat(env, s, a, b[..|b| - 1]);
      assert (a + b)[..|a + b| - 1] == a + b[..|b| - 1];
    }
  }
}

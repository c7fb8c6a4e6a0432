/**
 Fan-out: over every run, each destination an event addresses ends up with
 exactly one live frame to its most recent eligible subscriber, or with none and
 counted undeliverable.
 */
module FanOut {
  import opened Prelude
  import opened Tables
  import opened Addressing
  import opened Subscribers
  import opened Daemon
  import InFlight

  /** Position `k` of the frame log is task `t`'s frame for its `i`-th destination. */
  predicate EventFrame(frames: seq<Frame>, k: int, t: nat, i: nat) {
    0 <= k < |frames| && frames[k].origin == FromEvent(t, i)
  }

  /** The outcomes recorded for the first destinations agree with the frames written. */
  ghost predicate Partition(log: Log, t: nat, dests: seq<Destination>, outcomes: seq<Outcome>) {
    && |outcomes| <= |dests|
    && (forall i: nat :: i < |outcomes| && outcomes[i].Taken? ==>
          outcomes[i].ack in log.written
          && exists k :: EventFrame(log.frames, k, t, i) && log.frames[k].ack == outcomes[i].ack)
    && (forall k, i: nat :: EventFrame(log.frames, k, t, i) && i < |outcomes| && outcomes[i].Untaken? ==>
          log.frames[k].ack !in log.written)
  }

  /** Everything task `t` has framed is for a destination of its own, sent to the latest eligible session. */
  ghost predicate FramesFit(frames: seq<Frame>, t: nat, dests: seq<Destination>) {
    forall k, i: nat :: EventFrame(frames, k, t, i) ==>
      && i < |dests| && frames[k].dest == dests[i]
      && frames[k].session in frames[k].eligible
      && (forall other :: other in frames[k].eligible ==> other <= frames[k].session)
  }

  ghost predicate FanoutRight(cfg: Config, log: Log, t: nat, task: Task)
    requires task.Fanout?
  {
    && Addressed(cfg, task.event) == Addressing.Resolved(task.dests) && task.dests != []
    && FramesFit(log.frames, t, task.dests)
    && Partition(log, t, task.dests, task.done)
    && (task.sending.Some? ==>
          && |task.done| < |task.dests|
          && exists k :: EventFrame(log.frames, k, t, |task.done|) && log.frames[k].ack == task.sending.value.ack)
    && (forall k, i: nat :: EventFrame(log.frames, k, t, i) ==>
          i < |task.done|
          || (task.sending.Some? && i == |task.done| && log.frames[k].ack == task.sending.value.ack))
  }

  ghost predicate AnswerRight(cfg: Config, log: Log, t: nat, a: Answer) {
    && FramesFit(log.frames, t, a.dests)
    && Partition(log, t, a.dests, a.outcomes)
    && |a.outcomes| == |a.dests|
    && (a.status.Refused? ==> Addressed(cfg, a.event) == a.status.why && !a.status.why.Resolved? && a.dests == [])
    && (!a.status.Refused? ==>
          Addressed(cfg, a.event) == Addressing.Resolved(a.dests)
          && a.status == AnswerStatus(cfg, a.event, a.outcomes))
  }

  ghost predicate TasksRight(cfg: Config, s: State) {
    && (forall t :: IsFanout(s, t) ==> FanoutRight(cfg, s.log, t, s.tasks[t]))
    && (forall t :: t in s.log.answers ==> AnswerRight(cfg, s.log, t, s.log.answers[t]))
  }

  /** Task numbers are fresh and a finished task is gone. */
  ghost predicate Numbered(s: State) {
    && (forall t :: t in s.tasks ==> t < s.nextTask && t !in s.log.answers)
    && (forall t :: t in s.log.answers ==> t < s.nextTask)
    && (forall k, t: nat, i: nat :: EventFrame(s.log.frames, k, t, i) ==> t < s.nextTask)
  }

  /** Ack ids identify frames, and a send in progress owns the frame that carries its ack id. */
  ghost predicate FramesOnce(s: State) {
    && (forall k :: 0 <= k < |s.log.frames| ==> s.log.frames[k].ack < s.reg.nextAck)
    && (forall k, j :: 0 <= k < j < |s.log.frames| ==> s.log.frames[k].ack != s.log.frames[j].ack)
    && (forall k, j, t: nat, i: nat :: EventFrame(s.log.frames, k, t, i) && EventFrame(s.log.frames, j, t, i) ==> k == j)
    && (forall a :: a in s.log.written ==> a < s.reg.nextAck)
  }

  ghost predicate SendsOwnFrames(s: State) {
    forall t :: InFlight.SendingAt(s, t) ==>
      && InFlight.FlightOf(s, t).ack !in s.log.written
      && (forall k, u: nat, i: nat :: EventFrame(s.log.frames, k, u, i) && s.log.frames[k].ack == InFlight.FlightOf(s, t).ack ==>
            u == t && IsFanout(s, t) && i == |s.tasks[t].done|)
  }

  ghost predicate Inv(env: Env, s: State) {
    TasksRight(env.cfg, s) && Numbered(s) && FramesOnce(s) && SendsOwnFrames(s)
  }

  // ── growing logs ───────────────────────────────────────────────────────────

  /** `log'` extends `log` without touching task `t`: no new frame of its, no ack of its newly written. */
  ghost predicate Untouched(log: Log, log': Log, t: nat) {
    && log.frames <= log'.frames
    && (forall k, i: nat :: EventFrame(log'.frames, k, t, i) ==> EventFrame(log.frames, k, t, i))
    && log.written <= log'.written
    && (forall k, i: nat :: EventFrame(log.frames, k, t, i) && log.frames[k].ack !in log.written ==>
          log.frames[k].ack !in log'.written)
  }

  lemma FramesCarry(frames: seq<Frame>, frames': seq<Frame>)
    requires frames <= frames'
    ensures forall k, t: nat, i: nat :: EventFrame(frames, k, t, i) ==> EventFrame(frames', k, t, i) && frames'[k] == frames[k]
  {
  }

  lemma PartitionCarries(log: Log, log': Log, t: nat, dests: seq<Destination>, outcomes: seq<Outcome>)
    requires Partition(log, t, dests, outcomes) && Untouched(log, log', t)
    ensures Partition(log', t, dests, outcomes)
  {
    FramesCarry(log.frames, log'.frames);
    forall k, i: nat | EventFrame(log'.frames, k, t, i) && i < |outcomes| && outcomes[i].Untaken?
      ensures log'.frames[k].ack !in log'.written
    {
      assert EventFrame(log.frames, k, t, i);
    }
  }

  lemma FitCarries(log: Log, log': Log, t: nat, dests: seq<Destination>)
    requires FramesFit(log.frames, t, dests) && Untouched(log, log', t)
    ensures FramesFit(log'.frames, t, dests)
  {
    FramesCarry(log.frames, log'.frames);
  }

  lemma FanoutCarries(cfg: Config, log: Log, log': Log, t: nat, task: Task)
    requires task.Fanout? && FanoutRight(cfg, log, t, task) && Untouched(log, log', t)
    ensures FanoutRight(cfg, log', t, task)
  {
    PartitionCarries(log, log', t, task.dests, task.done);
    FitCarries(log, log', t, task.dests);
    FramesCarry(log.frames, log'.frames);
    if task.sending.Some? {
      var k :| EventFrame(log.frames, k, t, |task.done|) && log.frames[k].ack == task.sending.value.ack;
      assert EventFrame(log'.frames, k, t, |task.done|);
    }
  }

  lemma AnswerCarries(cfg: Config, log: Log, log': Log, t: nat, a: Answer)
    requires AnswerRight(cfg, log, t, a) && Untouched(log, log', t)
    ensures AnswerRight(cfg, log', t, a)
  {
    PartitionCarries(log, log', t, a.dests, a.outcomes);
    FitCarries(log, log', t, a.dests);
  }

  /** Every task but `t` is untouched and right before: it is right after. */
  lemma OthersCarry(cfg: Config, s: State, s': State, t: nat)
    requires TasksRight(cfg, s)
    requires forall u :: IsFanout(s', u) && u != t ==> IsFanout(s, u) && s'.tasks[u] == s.tasks[u] && Untouched(s.log, s'.log, u)
    requires forall u :: u in s'.log.answers && u != t ==>
               u in s.log.answers && s'.log.answers[u] == s.log.answers[u] && Untouched(s.log, s'.log, u)
    requires IsFanout(s', t) ==> FanoutRight(cfg, s'.log, t, s'.tasks[t])
    requires t in s'.log.answers ==> AnswerRight(cfg, s'.log, t, s'.log.answers[t])
    ensures TasksRight(cfg, s')
  {
    forall u | IsFanout(s', u) ensures FanoutRight(cfg, s'.log, u, s'.tasks[u]) {
      if u != t { FanoutCarries(cfg, s.log, s'.log, u, s.tasks[u]); }
    }
    forall u | u in s'.log.answers ensures AnswerRight(cfg, s'.log, u, s'.log.answers[u]) {
      if u != t { AnswerCarries(cfg, s.log, s'.log, u, s.log.answers[u]); }
    }
  }

  // ── steps that frame or write nothing ──────────────────────────────────────

  ghost predicate Quiet(s: State, s': State) {
    && s'.log.frames == s.log.frames && s'.log.written == s.log.written && s'.log.answers == s.log.answers
    && s'.reg.nextAck == s.reg.nextAck
    && s.nextTask <= s'.nextTask
    && (forall t :: t in s'.tasks ==> t in s.tasks || (s.nextTask <= t < s'.nextTask))
    && (forall t :: IsFanout(s', t) ==> IsFanout(s, t) && s'.tasks[t] == s.tasks[t])
    && (forall t :: InFlight.SendingAt(s', t) ==>
          InFlight.SendingAt(s, t) && InFlight.FlightOf(s', t) == InFlight.FlightOf(s, t)
          && (IsFanout(s, t) ==> IsFanout(s', t) && s'.tasks[t] == s.tasks[t]))
  }

  lemma QuietKeeps(env: Env, s: State, s': State)
    requires Inv(env, s) && Quiet(s, s')
    ensures Inv(env, s')
  {
    assert forall u :: IsFanout(s', u) ==> Untouched(s.log, s'.log, u);
    assert forall u :: u in s'.log.answers ==> Untouched(s.log, s'.log, u);
    assert Numbered(s');
    OthersCarryAll(env.cfg, s, s');
  }

  lemma OthersCarryAll(cfg: Config, s: State, s': State)
    requires TasksRight(cfg, s)
    requires forall u :: IsFanout(s', u) ==> IsFanout(s, u) && s'.tasks[u] == s.tasks[u] && Untouched(s.log, s'.log, u)
    requires forall u :: u in s'.log.answers ==>
               u in s.log.answers && s'.log.answers[u] == s.log.answers[u] && Untouched(s.log, s'.log, u)
    ensures TasksRight(cfg, s')
  {
    forall u | IsFanout(s', u) ensures FanoutRight(cfg, s'.log, u, s'.tasks[u]) {
      FanoutCarries(cfg, s.log, s'.log, u, s.tasks[u]);
    }
    forall u | u in s'.log.answers ensures AnswerRight(cfg, s'.log, u, s'.log.answers[u]) {
      AnswerCarries(cfg, s.log, s'.log, u, s.log.answers[u]);
    }
  }

  lemma QuietSession(env: Env, s: State, l: Label)
    requires Enabled(env, s, l) && (l.HelloFrame? || l.Closed? || l.AckFrame?)
    ensures Quiet(s, Next(env, s, l))
  {
  }

  lemma QuietLive(env: Env, s: State, l: Label)
    requires Enabled(env, s, l) && Numbered(s)
    requires l.WaiterDone? || l.WaiterGivesUp? || l.TaskEnds? || l.Restart?
    ensures Quiet(s, Next(env, s, l))
  {
  }

  lemma TablesOnlyQuiet(s: State, s': State)
    requires s'.tasks == s.tasks && s'.reg == s.reg && s'.nextTask == s.nextTask
    requires s'.log.frames == s.log.frames && s'.log.written == s.log.written && s'.log.answers == s.log.answers
    ensures Quiet(s, s')
  {
  }

  lemma QuietStore(env: Env, s: State, l: Label)
    requires Enabled(env, s, l) && Numbered(s)
    requires l.RecordDeadLetter? || l.PurgeLetters? || l.Sweep? || l.Ingest?
    ensures Quiet(s, Next(env, s, l))
  {
    TablesOnlyQuiet(s, Next(env, s, l));
  }

  lemma QuietRedrive(env: Env, s: State, l: Label)
    requires Enabled(env, s, l) && Numbered(s)
    requires l.RedriveEnqueue? || l.RedriveMark? || l.RedriveLoad?
    ensures Quiet(s, Next(env, s, l))
  {
    if l.RedriveLoad? { assert s.nextTask !in s.tasks; }
  }

  lemma QuietDrain(env: Env, s: State, l: Label)
    requires Enabled(env, s, l) && Numbered(s)
    requires l.DrainRemove? || l.DrainFailed? || l.DrainName? || l.DrainStart?
    ensures Quiet(s, Next(env, s, l))
  {
    if l.DrainStart? { assert s.nextTask !in s.tasks; }
    if l.DrainName? { DrainNameQuiet(env, s, l.t, l.now); }
  }

  lemma DrainNameQuiet(env: Env, s: State, t: nat, now: real)
    requires Enabled(env, s, DrainName(t, now))
    ensures Quiet(s, DoDrainName(env, s, t, now))
  {
  }

  // ── framing ────────────────────────────────────────────────────────────────

  /** One more frame, under the next ack id, now being sent by task `t`. */
  ghost predicate Framed(s: State, s': State, t: nat, f: Frame) {
    && t in s.tasks && InFlight.InSend(s.tasks[t]).None?
    && f.ack == s.reg.nextAck && s'.reg.nextAck == s.reg.nextAck + 1
    && s'.log == s.log.(frames := s.log.frames + [f])
    && s'.nextTask == s.nextTask
    && s'.tasks.Keys == s.tasks.Keys
    && (forall u :: u in s.tasks && u != t ==> s'.tasks[u] == s.tasks[u])
    && (forall u :: InFlight.SendingAt(s', u) && u != t ==>
          InFlight.SendingAt(s, u) && InFlight.FlightOf(s', u) == InFlight.FlightOf(s, u))
    && InFlight.SendingAt(s', t) && InFlight.FlightOf(s', t).ack == f.ack
  }

  lemma FramedSends(s: State, s': State, t: nat, f: Frame)
    requires FramesOnce(s) && SendsOwnFrames(s) && InFlight.AcksOwned(s) && Framed(s, s', t, f)
    requires f.origin.FromEvent? ==>
               f.origin.task == t && IsFanout(s, t) && IsFanout(s', t) && f.origin.index == |s'.tasks[t].done|
    ensures SendsOwnFrames(s')
  {
    var n := |s.log.frames|;
    forall u | InFlight.SendingAt(s', u)
      ensures InFlight.FlightOf(s', u).ack !in s'.log.written
      ensures forall k, v: nat, i: nat :: EventFrame(s'.log.frames, k, v, i) && s'.log.frames[k].ack == InFlight.FlightOf(s', u).ack ==>
                v == u && IsFanout(s', u) && i == |s'.tasks[u].done|
    {
      assert u != t ==> InFlight.FlightOf(s, u).ack < s.reg.nextAck;
      forall k, v: nat, i: nat | EventFrame(s'.log.frames, k, v, i) && s'.log.frames[k].ack == InFlight.FlightOf(s', u).ack
        ensures v == u && IsFanout(s', u) && i == |s'.tasks[u].done|
      {
        if k < n {
          assert EventFrame(s.log.frames, k, v, i);
        }
      }
    }
  }

  lemma FramedOnce(s: State, s': State, t: nat, f: Frame)
    requires FramesOnce(s) && Framed(s, s', t, f)
    requires Numbered(s)
    requires f.origin.FromEvent? ==>
               f.origin.task == t && forall k :: !EventFrame(s.log.frames, k, t, f.origin.index)
    ensures FramesOnce(s') && Numbered(s')
  {
    var n := |s.log.frames|;
    forall k, j, u: nat, i: nat | EventFrame(s'.log.frames, k, u, i) && EventFrame(s'.log.frames, j, u, i)
      ensures k == j
    {
      if k < n { assert EventFrame(s.log.frames, k, u, i); }
      if j < n { assert EventFrame(s.log.frames, j, u, i); }
    }
    forall k, u: nat, i: nat | EventFrame(s'.log.frames, k, u, i) ensures u < s'.nextTask {
      if k < n { assert EventFrame(s.log.frames, k, u, i); }
    }
  }

  /** Framing for task `t` leaves every other task alone. */
  lemma FramedUntouched(s: State, s': State, t: nat, f: Frame, u: nat)
    requires Framed(s, s', t, f) && (f.origin.FromEvent? ==> f.origin.task != u)
    ensures Untouched(s.log, s'.log, u)
  {
    forall k, i: nat | EventFrame(s'.log.frames, k, u, i) ensures EventFrame(s.log.frames, k, u, i) {
    }
  }

  lemma DrainRowExhausted(env: Env, s: State, t: nat, now: real)
    requires Enabled(env, s, DrainRow(t, now)) && s.tasks[t].rows[0].attempts > env.lim.maxAttempts
    ensures Quiet(s, DoDrainRow(env, s, t, now))
  {
  }

  lemma DrainRowFrames(env: Env, s: State, t: nat, now: real)
    requires Inv(env, s) && InFlight.Inv(s) && Enabled(env, s, DrainRow(t, now))
    requires s.tasks[t].rows[0].attempts <= env.lim.maxAttempts
    ensures Inv(env, DoDrainRow(env, s, t, now))
  {
    var s', row := DoDrainRow(env, s, t, now), s.tasks[t].rows[0];
    var f := Frame(s.reg.nextAck, s.tasks[t].session, s.tasks[t].dest.value, s.tasks[t].sub, {}, FromQueue(row));
    assert Framed(s, s', t, f);
    FramedSends(s, s', t, f);
    FramedOnce(s, s', t, f);
    forall u: nat ensures Untouched(s.log, s'.log, u) { FramedUntouched(s, s', t, f, u); }
    OthersCarryAll(env.cfg, s, s');
  }

  lemma DrainRowKeeps(env: Env, s: State, t: nat, now: real)
    requires Inv(env, s) && InFlight.Inv(s) && Enabled(env, s, DrainRow(t, now))
    ensures Inv(env, DoDrainRow(env, s, t, now))
  {
    if s.tasks[t].rows[0].attempts > env.lim.maxAttempts {
      DrainRowExhausted(env, s, t, now);
      QuietKeeps(env, s, DoDrainRow(env, s, t, now));
    } else {
      DrainRowFrames(env, s, t, now);
    }
  }

  /** The frame `FanNext` builds. */
  function NextFrame(s: State, t: nat, sid: nat): Frame
    requires IsFanout(s, t) && |s.tasks[t].done| < |s.tasks[t].dests| && sid in s.reg.subs
  {
    var d := s.tasks[t].dests[|s.tasks[t].done|];
    Frame(s.reg.nextAck, sid, d, s.reg.subs[sid], Eligible(s.reg, d), FromEvent(t, |s.tasks[t].done|))
  }

  lemma FanNextRight(env: Env, s: State, t: nat, sid: nat)
    requires Inv(env, s) && InFlight.Inv(s) && Enabled(env, s, FanNext(t))
    requires SubscriberFor(s.reg, s.tasks[t].dests[|s.tasks[t].done|]) == Some(sid) && sid in s.reg.subs
    ensures FanoutRight(env.cfg, DoFanNext(s, t).log, t, DoFanNext(s, t).tasks[t])
  {
    var s', task, f := DoFanNext(s, t), s.tasks[t], NextFrame(s, t, sid);
    var n := |s.log.frames|;
    MostRecentServes(s.reg, f.dest);
    FramesCarry(s.log.frames, s'.log.frames);
    assert EventFrame(s'.log.frames, n, t, |task.done|);
    forall k, i: nat | EventFrame(s'.log.frames, k, t, i)
      ensures (k == n && i == |task.done|) || EventFrame(s.log.frames, k, t, i)
    {
    }
    assert Partition(s'.log, t, task.dests, task.done);
  }

  lemma FanNextIsFramed(env: Env, s: State, t: nat, sid: nat)
    requires InFlight.Inv(s) && Enabled(env, s, FanNext(t))
    requires SubscriberFor(s.reg, s.tasks[t].dests[|s.tasks[t].done|]) == Some(sid) && sid in s.reg.subs
    ensures Framed(s, DoFanNext(s, t), t, NextFrame(s, t, sid))
  {
  }

  lemma FanNextFramed(env: Env, s: State, t: nat, sid: nat)
    requires Inv(env, s) && InFlight.Inv(s) && Enabled(env, s, FanNext(t))
    requires SubscriberFor(s.reg, s.tasks[t].dests[|s.tasks[t].done|]) == Some(sid) && sid in s.reg.subs
    ensures Framed(s, DoFanNext(s, t), t, NextFrame(s, t, sid))
    ensures SendsOwnFrames(DoFanNext(s, t)) && FramesOnce(DoFanNext(s, t)) && Numbered(DoFanNext(s, t))
  {
    var s', f := DoFanNext(s, t), NextFrame(s, t, sid);
    FanNextIsFramed(env, s, t, sid);
    FramedSends(s, s', t, f);
    FramedOnce(s, s', t, f);
  }

  lemma FanNextFrames(env: Env, s: State, t: nat, sid: nat)
    requires Inv(env, s) && InFlight.Inv(s) && Enabled(env, s, FanNext(t))
    requires SubscriberFor(s.reg, s.tasks[t].dests[|s.tasks[t].done|]) == Some(sid) && sid in s.reg.subs
    ensures Inv(env, DoFanNext(s, t))
  {
    var s', f := DoFanNext(s, t), NextFrame(s, t, sid);
    FanNextRight(env, s, t, sid);
    FanNextFramed(env, s, t, sid);
    forall u: nat | u != t ensures Untouched(s.log, s'.log, u) { FramedUntouched(s, s', t, f, u); }
    OthersCarry(env.cfg, s, s', t);
  }

  lemma FanNextUntaken(env: Env, s: State, t: nat)
    requires Inv(env, s) && Enabled(env, s, FanNext(t))
    requires SubscriberFor(s.reg, s.tasks[t].dests[|s.tasks[t].done|]).None?
    ensures Inv(env, DoFanNext(s, t))
  {
    var s', task := DoFanNext(s, t), s.tasks[t];
    assert forall u: nat :: Untouched(s.log, s'.log, u);
    assert forall k :: !EventFrame(s.log.frames, k, t, |task.done|);
    assert FanoutRight(env.cfg, s'.log, t, s'.tasks[t]);
    OthersCarry(env.cfg, s, s', t);
  }

  lemma FanNextKeeps(env: Env, s: State, t: nat)
    requires Inv(env, s) && InFlight.Inv(s) && Enabled(env, s, FanNext(t))
    ensures Inv(env, DoFanNext(s, t))
  {
    var d := s.tasks[t].dests[|s.tasks[t].done|];
    MostRecentServes(s.reg, d);
    match SubscriberFor(s.reg, d)
    case Some(sid) => FanNextFrames(env, s, t, sid);
    case None => FanNextUntaken(env, s, t);
  }

  // ── landing, failing, starting, finishing ──────────────────────────────────

  /** Writing ack `a` for the frame of `(t, i)` changes nothing for other tasks. */
  lemma WrittenUntouched(s: State, log': Log, a: nat, k: nat, t: nat, u: nat)
    requires FramesOnce(s) && log' == s.log.(written := s.log.written + {a})
    requires k < |s.log.frames| && s.log.frames[k].ack == a
    requires s.log.frames[k].origin.FromEvent? ==> s.log.frames[k].origin.task == t
    requires s.log.frames[k].origin.FromQueue? || u != t
    ensures Untouched(s.log, log', u)
  {
  }

  lemma FanSentSends(env: Env, s: State, t: nat)
    requires Inv(env, s) && InFlight.Inv(s) && Enabled(env, s, FanSent(t))
    ensures SendsOwnFrames(DoFanSent(s, t))
  {
    var s' := DoFanSent(s, t);
    assert InFlight.SendingAt(s, t);
    forall u | InFlight.SendingAt(s', u)
      ensures u != t && InFlight.SendingAt(s, u) && InFlight.FlightOf(s', u) == InFlight.FlightOf(s, u)
    {
    }
  }

  lemma FanSentRight(env: Env, s: State, t: nat)
    requires Inv(env, s) && InFlight.Inv(s) && Enabled(env, s, FanSent(t))
    ensures FanoutRight(env.cfg, DoFanSent(s, t).log, t, DoFanSent(s, t).tasks[t])
  {
    var s', task := DoFanSent(s, t), s.tasks[t];
    var a, n := task.sending.value.ack, |task.done|;
    assert InFlight.SendingAt(s, t) && InFlight.FlightOf(s, t).ack == a;
    var k :| EventFrame(s.log.frames, k, t, n) && s.log.frames[k].ack == a;
    forall j, i: nat | EventFrame(s.log.frames, j, t, i) && i < n ensures s.log.frames[j].ack != a {
      if j == k {}
    }
    assert Partition(s'.log, t, task.dests, task.done + [Taken(a)]);
  }

  lemma FanSentOthers(env: Env, s: State, t: nat, u: nat)
    requires Inv(env, s) && Enabled(env, s, FanSent(t)) && u != t
    ensures Untouched(s.log, DoFanSent(s, t).log, u)
  {
    var task := s.tasks[t];
    var a, n := task.sending.value.ack, |task.done|;
    assert FanoutRight(env.cfg, s.log, t, task);
    var k :| EventFrame(s.log.frames, k, t, n) && s.log.frames[k].ack == a;
    WrittenUntouched(s, DoFanSent(s, t).log, a, k, t, u);
  }

  lemma FanSentCounts(env: Env, s: State, t: nat)
    requires Inv(env, s) && InFlight.Inv(s) && Enabled(env, s, FanSent(t))
    ensures Numbered(DoFanSent(s, t)) && FramesOnce(DoFanSent(s, t))
  {
    assert InFlight.SendingAt(s, t) && InFlight.FlightOf(s, t).ack == s.tasks[t].sending.value.ack;
  }

  lemma FanSentKeeps(env: Env, s: State, t: nat)
    requires Inv(env, s) && InFlight.Inv(s) && Enabled(env, s, FanSent(t))
    ensures Inv(env, DoFanSent(s, t))
  {
    var s' := DoFanSent(s, t);
    FanSentSends(env, s, t);
    FanSentRight(env, s, t);
    FanSentCounts(env, s, t);
    forall u: nat | u != t ensures Untouched(s.log, s'.log, u) { FanSentOthers(env, s, t, u); }
    OthersCarry(env.cfg, s, s', t);
  }

  lemma FanFailedSends(env: Env, s: State, t: nat)
    requires Inv(env, s) && InFlight.Inv(s) && Enabled(env, s, FanFailed(t))
    ensures SendsOwnFrames(DoFanFailed(s, t)) && Numbered(DoFanFailed(s, t)) && FramesOnce(DoFanFailed(s, t))
  {
    var s' := DoFanFailed(s, t);
    forall u | InFlight.SendingAt(s', u)
      ensures u != t && InFlight.SendingAt(s, u) && InFlight.FlightOf(s', u) == InFlight.FlightOf(s, u)
    {
    }
  }

  lemma FanFailedRight(env: Env, s: State, t: nat)
    requires Inv(env, s) && InFlight.Inv(s) && Enabled(env, s, FanFailed(t))
    ensures FanoutRight(env.cfg, DoFanFailed(s, t).log, t, DoFanFailed(s, t).tasks[t])
  {
    var s', task := DoFanFailed(s, t), s.tasks[t];
    assert InFlight.SendingAt(s, t) && InFlight.FlightOf(s, t).ack == task.sending.value.ack;
    assert FanoutRight(env.cfg, s.log, t, task);
    assert Partition(s'.log, t, task.dests, task.done + [Untaken]);
  }

  lemma FanFailedKeeps(env: Env, s: State, t: nat)
    requires Inv(env, s) && InFlight.Inv(s) && Enabled(env, s, FanFailed(t))
    ensures Inv(env, DoFanFailed(s, t))
  {
    var s' := DoFanFailed(s, t);
    FanFailedSends(env, s, t);
    FanFailedRight(env, s, t);
    forall u: nat ensures Untouched(s.log, s'.log, u) {}
    OthersCarry(env.cfg, s, s', t);
  }

  lemma DrainSentKeeps(env: Env, s: State, t: nat)
    requires Inv(env, s) && InFlight.Inv(s) && Enabled(env, s, DrainSent(t))
    ensures Inv(env, DoDrainSent(s, t))
  {
    var s' := DoDrainSent(s, t);
    var a := s.tasks[t].phase.ack;
    assert InFlight.SendingAt(s, t) && InFlight.FlightOf(s, t).ack == a && !IsFanout(s, t);
    forall u: nat ensures Untouched(s.log, s'.log, u) {
      forall k, i: nat | EventFrame(s.log.frames, k, u, i) ensures s.log.frames[k].ack != a {
      }
    }
    forall u | InFlight.SendingAt(s', u)
      ensures u != t && InFlight.SendingAt(s, u) && InFlight.FlightOf(s', u) == InFlight.FlightOf(s, u)
    {
    }
    OthersCarryAll(env.cfg, s, s');
    assert Numbered(s') && FramesOnce(s');
  }

  /** A new number is given out: a fan-out starts under it, or an answer is recorded. */
  ghost predicate Opened(s: State, s': State) {
    && s'.nextTask == s.nextTask + 1
    && s'.log.frames == s.log.frames && s'.log.written == s.log.written
    && s'.reg == s.reg
    && (forall u :: u in s.tasks ==> u in s'.tasks && s'.tasks[u] == s.tasks[u])
    && (forall u :: u in s.log.answers ==> u in s'.log.answers && s'.log.answers[u] == s.log.answers[u])
    && (forall u :: u in s'.tasks && u !in s.tasks ==>
          u == s.nextTask && InFlight.InSend(s'.tasks[u]).None? && u !in s'.log.answers)
    && (forall u :: u in s'.log.answers && u !in s.log.answers ==> u == s.nextTask)
  }

  lemma OpenedByAnswer(s: State, s': State, a: Answer)
    requires Numbered(s) && s'.nextTask == s.nextTask + 1 && s'.reg == s.reg && s'.tasks == s.tasks
    requires s'.log.frames == s.log.frames && s'.log.written == s.log.written
    requires s'.log.answers == s.log.answers[s.nextTask := a]
    ensures Opened(s, s')
  {
    assert s.nextTask !in s.log.answers;
  }

  lemma OpenedByTask(s: State, s': State, task: Task)
    requires Numbered(s) && s'.nextTask == s.nextTask + 1 && s'.reg == s.reg && s'.log == s.log
    requires s'.tasks == s.tasks[s.nextTask := task] && InFlight.InSend(task).None?
    ensures Opened(s, s')
  {
    assert s.nextTask !in s.tasks && s.nextTask !in s.log.answers;
  }

  lemma SubmitAdds(env: Env, s: State, e: Event, now: real)
    requires Numbered(s)
    ensures Opened(s, DoSubmit(env, s, e, now))
  {
    var s' := DoSubmit(env, s, e, now);
    var r := Addressed(env.cfg, e);
    if r.Resolved? && r.destinations != [] {
      OpenedByTask(s, s', Fanout(e, r.destinations, [], None));
    } else {
      OpenedByAnswer(s, s', s'.log.answers[s.nextTask]);
    }
  }

  lemma SubmitRight(env: Env, s: State, e: Event, now: real)
    requires Numbered(s)
    ensures var s' := DoSubmit(env, s, e, now);
      && (IsFanout(s', s.nextTask) ==> FanoutRight(env.cfg, s'.log, s.nextTask, s'.tasks[s.nextTask]))
      && (s.nextTask in s'.log.answers ==> AnswerRight(env.cfg, s'.log, s.nextTask, s'.log.answers[s.nextTask]))
  {
    assert s.nextTask !in s.tasks && s.nextTask !in s.log.answers;
    assert forall k, i: nat :: !EventFrame(s.log.frames, k, s.nextTask, i);
  }

  lemma OpenedKeeps(cfg: Config, s: State, s': State)
    requires TasksRight(cfg, s) && Numbered(s) && FramesOnce(s) && SendsOwnFrames(s) && Opened(s, s')
    requires IsFanout(s', s.nextTask) ==> FanoutRight(cfg, s'.log, s.nextTask, s'.tasks[s.nextTask])
    requires s.nextTask in s'.log.answers ==> AnswerRight(cfg, s'.log, s.nextTask, s'.log.answers[s.nextTask])
    ensures TasksRight(cfg, s') && Numbered(s') && FramesOnce(s') && SendsOwnFrames(s')
  {
    forall u: nat ensures Untouched(s.log, s'.log, u) {}
    forall u | InFlight.SendingAt(s', u)
      ensures InFlight.SendingAt(s, u) && InFlight.FlightOf(s', u) == InFlight.FlightOf(s, u)
    {
    }
    OthersCarry(cfg, s, s', s.nextTask);
  }

  lemma SubmitKeeps(env: Env, s: State, e: Event, now: real)
    requires Inv(env, s)
    ensures Inv(env, DoSubmit(env, s, e, now))
  {
    SubmitAdds(env, s, e, now);
    SubmitRight(env, s, e, now);
    OpenedKeeps(env.cfg, s, DoSubmit(env, s, e, now));
  }

  lemma FinishKeeps(env: Env, s: State, t: nat, now: real)
    requires Inv(env, s) && Enabled(env, s, FanFinish(t, now))
    ensures Inv(env, DoFanFinish(env, s, t, now))
  {
    var s' := DoFanFinish(env, s, t, now);
    forall u: nat ensures Untouched(s.log, s'.log, u) {}
    forall u | InFlight.SendingAt(s', u)
      ensures u != t && InFlight.SendingAt(s, u) && InFlight.FlightOf(s', u) == InFlight.FlightOf(s, u)
    {
    }
    AnswerCarriesDone(env.cfg, s.log, s'.log, t, s.tasks[t]);
    OthersCarry(env.cfg, s, s', t);
  }

  lemma AnswerCarriesDone(cfg: Config, log: Log, log': Log, t: nat, task: Task)
    requires task.Fanout? && FanoutRight(cfg, log, t, task) && |task.done| == |task.dests|
    requires log'.frames == log.frames && log'.written == log.written
    ensures AnswerRight(cfg, log', t, Answer(task.event, task.dests, task.done, AnswerStatus(cfg, task.event, task.done)))
  {
  }

  lemma Step(env: Env, s: State, l: Label)
    requires Inv(env, s) && InFlight.Inv(s) && Enabled(env, s, l)
    ensures Inv(env, Next(env, s, l))
  {
    if l.Submit? { SubmitKeeps(env, s, l.event, l.now); }
    else if l.FanNext? { FanNextKeeps(env, s, l.t); }
    else if l.FanSent? { FanSentKeeps(env, s, l.t); }
    else if l.FanFailed? { FanFailedKeeps(env, s, l.t); }
    else if l.FanFinish? { FinishKeeps(env, s, l.t, l.now); }
    else if l.DrainRow? { DrainRowKeeps(env, s, l.t, l.now); }
    else if l.DrainSent? { DrainSentKeeps(env, s, l.t); }
    else {
      QuietStep(env, s, l);
      QuietKeeps(env, s, Next(env, s, l));
    }
  }

  lemma QuietStep(env: Env, s: State, l: Label)
    requires Enabled(env, s, l) && Numbered(s)
    requires !l.Submit? && !l.FanNext? && !l.FanSent? && !l.FanFailed? && !l.FanFinish? && !l.DrainRow? && !l.DrainSent?
    ensures Quiet(s, Next(env, s, l))
  {
    if l.DrainRemove? || l.DrainFailed? || l.DrainName? || l.DrainStart? { QuietDrain(env, s, l); }
    else if l.RecordDeadLetter? || l.PurgeLetters? || l.Sweep? || l.Ingest? { QuietStore(env, s, l); }
    else if l.RedriveEnqueue? || l.RedriveMark? || l.RedriveLoad? { QuietRedrive(env, s, l); }
    else if l.HelloFrame? || l.Closed? || l.AckFrame? { QuietSession(env, s, l); }
    else { QuietLive(env, s, l); }
  }

  lemma {:induction false} RunInv(env: Env, run: seq<Label>)
    requires ValidConfig(env.cfg) && IsRun(env, Initial, run)
    ensures Inv(env, Final(env, Initial, run)) && InFlight.Inv(Final(env, Initial, run))
  {
    InFlight.AccountingHolds(env, run);
    if run != [] {
      RunInv(env, run[..|run| - 1]);
      Step(env, Final(env, Initial, run[..|run| - 1]), run[|run| - 1]);
    }
  }

  // ── the claims ─────────────────────────────────────────────────────────────

  /** A frame of task `t` for its `i`-th destination that was written out. */
  ghost predicate Live(log: Log, k: int, t: nat, i: nat) {
    EventFrame(log.frames, k, t, i) && log.frames[k].ack in log.written
  }

  /**
   The fan-out partition, over every run and for every answered event: each
   destination the event resolved to was counted taken and got exactly one live
   frame, to the most recently subscribed session then eligible for it, or was
   counted undeliverable and got none; and no frame of the event went anywhere
   else.
   */
  lemma EveryDestinationOnce(env: Env, run: seq<Label>, t: nat)
    requires ValidConfig(env.cfg) && IsRun(env, Initial, run) && t in Final(env, Initial, run).log.answers
    ensures var log := Final(env, Initial, run).log;
      var a := log.answers[t];
      && |a.outcomes| == |a.dests|
      && (!a.status.Refused? ==> Addressed(env.cfg, a.event) == Addressing.Resolved(a.dests))
      && (forall i: nat :: i < |a.dests| && a.outcomes[i].Taken? ==>
            exists k :: Live(log, k, t, i) && forall j :: Live(log, j, t, i) ==> j == k)
      && (forall i: nat, k :: i < |a.dests| && a.outcomes[i].Untaken? ==> !Live(log, k, t, i))
      && (forall k, i: nat :: EventFrame(log.frames, k, t, i) ==>
            i < |a.dests| && log.frames[k].dest == a.dests[i]
            && log.frames[k].session in log.frames[k].eligible
            && forall other :: other in log.frames[k].eligible ==> other <= log.frames[k].session)
  {
    RunInv(env, run);
    var s := Final(env, Initial, run);
    var a := s.log.answers[t];
    assert AnswerRight(env.cfg, s.log, t, a);
    forall i: nat | i < |a.dests| && a.outcomes[i].Taken?
      ensures exists k :: Live(s.log, k, t, i) && forall j :: Live(s.log, j, t, i) ==> j == k
    {
      var k :| EventFrame(s.log.frames, k, t, i) && s.log.frames[k].ack == a.outcomes[i].ack;
      assert Live(s.log, k, t, i);
    }
  }

  /** Running, answered or cut off, a fan-out frames each of its destinations at most once. */
  lemma OneFramePerDestination(env: Env, run: seq<Label>, t: nat, i: nat, j: int, k: int)
    requires ValidConfig(env.cfg) && IsRun(env, Initial, run)
    requires EventFrame(Final(env, Initial, run).log.frames, j, t, i)
    requires EventFrame(Final(env, Initial, run).log.frames, k, t, i)
    ensures j == k
  {
    RunInv(env, run);
  }

  /** The answer is `queued` exactly when some frame of the event was written; otherwise its delivery mode decides. */
  lemma StatusTruthful(env: Env, run: seq<Label>, t: nat)
    requires ValidConfig(env.cfg) && IsRun(env, Initial, run) && t in Final(env, Initial, run).log.answers
    ensures var log := Final(env, Initial, run).log;
      var a := log.answers[t];
      && (a.status == Queued <==> exists k, i: nat :: Live(log, k, t, i))
      && (a.status == QueuedNextSession ==> Durable(env.cfg, a.event))
      && (a.status == NoSubscriber ==> !Durable(env.cfg, a.event))
  {
    RunInv(env, run);
    var s := Final(env, Initial, run);
    var a := s.log.answers[t];
    assert AnswerRight(env.cfg, s.log, t, a);
    if AnyTaken(a.outcomes) {
      var i :| 0 <= i < |a.outcomes| && a.outcomes[i].Taken?;
      var k :| EventFrame(s.log.frames, k, t, i) && s.log.frames[k].ack == a.outcomes[i].ack;
      assert Live(s.log, k, t, i);
    }
    if k, i: nat :| Live(s.log, k, t, i) {
      assert a.outcomes[i].Taken?;
    }
  }

  // ── the queue row of a fan-out ─────────────────────────────────────────────

  /** Queueing an event for several names is queueing it for the first: its id is the queue's only key. */
  lemma {:induction false} FirstNameOnly(t: Tables, lim: Limits, e: Event, names: seq<string>, now: real)
    requires names != []
    ensures EnqueueAll(t, lim, e, names, now) == Enqueue(t, lim, e, Some(names[0]), now)
    decreases |names|
  {
    var t' := Enqueue(t, lim, e, Some(names[0]), now);
    if Admits(t, lim, e) {
      assert t'.pending[|t.pending|].eventId == e.id;
      assert InQueue(t'.pending, e.id);
    }
    if |names| > 1 {
      FirstNameOnly(t', lim, e, names[1..], now);
    }
  }

  lemma {:induction false} UntakenNone(dests: seq<Destination>, done: seq<Outcome>)
    requires |done| <= |dests|
    ensures UntakenNames(dests, done) == [] <==> forall i :: 0 <= i < |done| ==> done[i].Taken?
  {
    if done != [] {
      var n := |done| - 1;
      UntakenNone(dests, done[..n]);
      assert forall i :: 0 <= i < n ==> done[..n][i] == done[i];
    }
  }

  /** Destination `i` is the first one nobody took. */
  ghost predicate FirstUntaken(done: seq<Outcome>, i: int) {
    0 <= i < |done| && done[i].Untaken? && forall j :: 0 <= j < i ==> done[j].Taken?
  }

  lemma {:induction false} UntakenFirst(dests: seq<Destination>, done: seq<Outcome>) returns (first: nat)
    requires |done| <= |dests| && UntakenNames(dests, done) != []
    ensures FirstUntaken(done, first) && UntakenNames(dests, done)[0] == dests[first].name
  {
    var n := |done| - 1;
    UntakenNone(dests, done[..n]);
    assert forall i :: 0 <= i < n ==> done[..n][i] == done[i];
    first := n;
    if UntakenNames(dests, done[..n]) != [] {
      first := UntakenFirst(dests, done[..n]);
    }
  }

  /**
   Finishing a fan-out queues the event at most once: one row, for the first
   undeliverable destination in route order, exactly when the event is durable,
   something was undeliverable, there is room, and its id is not queued already.
   */
  lemma OneRowForFirstUndeliverable(env: Env, s: State, t: nat, now: real)
    requires Enabled(env, s, FanFinish(t, now))
    ensures var task := s.tasks[t];
      var rows, rows' := s.tables.pending, DoFanFinish(env, s, t, now).tables.pending;
      if Durable(env.cfg, task.event) && !(forall i :: 0 <= i < |task.done| ==> task.done[i].Taken?)
         && Admits(s.tables, env.lim, task.event)
      then exists i :: FirstUntaken(task.done, i)
             && |rows'| == |rows| + 1 && rows'[..|rows|] == rows
             && rows'[|rows|].eventId == task.event.id && rows'[|rows|].destination == Some(task.dests[i].name)
      else rows' == rows
  {
    var task := s.tasks[t];
    UntakenNone(task.dests, task.done);
    var names := UntakenNames(task.dests, task.done);
    if names != [] {
      var first := UntakenFirst(task.dests, task.done);
      FirstNameOnly(s.tables, env.lim, task.event, names, now);
    }
  }

  // ── what the answer `queued_next_session` is worth ─────────────────────────

  /** The queue has a place for an event it does not hold yet. */
  predicate HasRoom(t: Tables, lim: Limits, e: Event) {
    e.id != "" && |t.pending| < lim.pendingMax
  }

  lemma EnqueueQueuesIff(t: Tables, lim: Limits, e: Event, destination: Option<string>, now: real)
    ensures InQueue(Enqueue(t, lim, e, destination, now).pending, e.id)
        <==> InQueue(t.pending, e.id) || HasRoom(t, lim, e)
  {
    var t' := Enqueue(t, lim, e, destination, now);
    if Admits(t, lim, e) {
      assert t'.pending[|t.pending|].eventId == e.id;
    }
  }

  lemma SubmitAnswerQueued(env: Env, s: State, e: Event, now: real)
    requires Numbered(s)
    ensures var s' := DoSubmit(env, s, e, now);
      s.nextTask in s'.log.answers && s'.log.answers[s.nextTask].status == QueuedNextSession ==>
        s'.log.answers[s.nextTask].event == e
        && (InQueue(s'.tables.pending, e.id) <==> InQueue(s.tables.pending, e.id) || HasRoom(s.tables, env.lim, e))
  {
    assert s.nextTask !in s.log.answers;
    EnqueueQueuesIff(s.tables, env.lim, e, None, now);
  }

  lemma FinishAnswerQueued(env: Env, s: State, t: nat, now: real)
    requires Inv(env, s) && Enabled(env, s, FanFinish(t, now))
    ensures var s', e := DoFanFinish(env, s, t, now), s.tasks[t].event;
      s'.log.answers[t].status == QueuedNextSession ==>
        s'.log.answers[t].event == e
        && (InQueue(s'.tables.pending, e.id) <==> InQueue(s.tables.pending, e.id) || HasRoom(s.tables, env.lim, e))
  {
    var task := s.tasks[t];
    assert FanoutRight(env.cfg, s.log, t, task);
    UntakenNone(task.dests, task.done);
    var names := UntakenNames(task.dests, task.done);
    if !AnyTaken(task.done) {
      assert task.done[0].Untaken?;
      FirstNameOnly(s.tables, env.lim, task.event, names, now);
      EnqueueQueuesIff(s.tables, env.lim, task.event, Some(names[0]), now);
    }
  }

  /** The number under which a step may record an answer. */
  function AnswerNumber(s: State, l: Label): nat
    requires l.Submit? || l.FanFinish?
  {
    if l.Submit? then s.nextTask else l.t
  }

  /**
   An answer `queued_next_session` says the event is queued exactly when it was
   queued already or the queue had room for it: over every run, for both steps
   that answer.
   */
  lemma QueuedAnswerIff(env: Env, run: seq<Label>, l: Label)
    requires ValidConfig(env.cfg) && IsRun(env, Initial, run) && (l.Submit? || l.FanFinish?)
    requires Enabled(env, Final(env, Initial, run), l)
    ensures var s := Final(env, Initial, run);
      var s', t := Next(env, s, l), AnswerNumber(s, l);
      t in s'.log.answers && s'.log.answers[t].status == QueuedNextSession ==>
        var e := s'.log.answers[t].event;
        InQueue(s'.tables.pending, e.id) <==> InQueue(s.tables.pending, e.id) || HasRoom(s.tables, env.lim, e)
  {
    var s := Final(env, Initial, run);
    RunInv(env, run);
    if l.Submit? { SubmitAnswerQueued(env, s, l.event, l.now); } else { FinishAnswerQueued(env, s, l.t, l.now); }
  }

  const ONE_ROW: Env :=
    Env(Config([], [], Some("next_session")), Limits(1.0, 1, 1.0, 1, 1, 1.0, 1))

  /** With a queue of one row, the second of two unrouted events is answered `queued_next_session` and is not queued. */
  lemma RefusedYetAnsweredQueued(first: Event, second: Event, now: real)
    requires first.id != "" && second.id != "" && first.id != second.id
    requires first.delivery.None? && first.destination.None? && first.principal.None?
    requires second.delivery.None? && second.destination.None? && second.principal.None?
    ensures var run := [Submit(first, now), Submit(second, now)];
      && IsRun(ONE_ROW, Initial, run)
      && var s := Final(ONE_ROW, Initial, run);
         1 in s.log.answers && s.log.answers[1].event == second && s.log.answers[1].status == QueuedNextSession
         && !InQueue(s.tables.pending, second.id)
  {
    var run := [Submit(first, now), Submit(second, now)];
    assert run[..1] == [Submit(first, now)] && run[..1][..0] == [] && run[..|run| - 1] == run[..1];
    var s1 := DoSubmit(ONE_ROW, Initial, first, now);
    assert Final(ONE_ROW, Initial, run[..1]) == s1;
    assert s1.tables.pending == [NewRow(EmptyTables, ONE_ROW.lim, first, None, now)];
    var s2 := DoSubmit(ONE_ROW, s1, second, now);
    assert s2.tables == s1.tables;
  }
}

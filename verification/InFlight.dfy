/**
 Ack bookkeeping: in every reachable state a live subscriber's in-flight count is
 the number of ack waiters it still owes plus those that gave up on it.
 */
module InFlight {
  import opened Prelude
  import opened Addressing
  import opened Subscribers
  import opened Daemon
  import opened Sessions

  /** Ack waiters outstanding for a session. */
  function Owed(waiters: map<nat, Waiter>, session: nat): set<nat> {
    set a | a in waiters && waiters[a].session == session
  }

  /** The send a task is suspended in, if any. */
  function InSend(task: Task): Option<Flight> {
    match task
    case Fanout(_, _, _, sending) => sending
    case Drain(session, _, _, _, _, phase) => if phase.Sending? then Some(Flight(phase.ack, session)) else None
    case Redrive(_, _, _) => None
  }

  ghost predicate SendingAt(s: State, t: nat) {
    t in s.tasks && InSend(s.tasks[t]).Some?
  }

  function FlightOf(s: State, t: nat): Flight
    requires t in s.tasks && InSend(s.tasks[t]).Some?
  {
    InSend(s.tasks[t]).value
  }

  ghost predicate CountsAgree(s: State) {
    forall sid :: sid in s.reg.subs ==>
      s.reg.subs[sid].inFlight == |Owed(s.waiters, sid)| + AbandonedBy(s.log, sid)
  }

  /** Ack ids: fresh, one owner each, and a live future behind every waiter and every send. */
  ghost predicate AcksOwned(s: State) {
    && (forall a :: a in s.waiters ==> a in s.reg.futures)
    && (forall a :: a in s.reg.futures ==> a < s.reg.nextAck)
    && (forall t :: SendingAt(s, t) ==>
          FlightOf(s, t).ack in s.reg.futures && FlightOf(s, t).ack !in s.waiters
          && FlightOf(s, t).ack !in s.log.settled)
    && (forall t, u :: SendingAt(s, t) && SendingAt(s, u) && t != u ==> FlightOf(s, t).ack != FlightOf(s, u).ack)
  }

  /** Each waiter settles once, and not while it still waits. */
  ghost predicate SettledOnce(s: State) {
    && Distinct(s.log.settled)
    && (forall a :: a in s.log.settled ==> a !in s.waiters && a < s.reg.nextAck)
  }

  ghost predicate SessionsBounded(s: State) {
    && (forall a :: a in s.waiters ==> s.waiters[a].session < s.reg.nextSession)
    && (forall sid :: sid in s.log.abandoned ==> sid < s.reg.nextSession)
    && (forall t :: SendingAt(s, t) ==> FlightOf(s, t).session < s.reg.nextSession)
    && (forall t :: IsDrain(s, t) ==> s.tasks[t].session < s.reg.nextSession)
  }

  ghost predicate Inv(s: State) {
    OrderExact(s.reg) && CountsAgree(s) && AcksOwned(s) && SettledOnce(s) && SessionsBounded(s)
  }

  // ── kinds of step ──────────────────────────────────────────────────────────

  /** Waiters, counts and history alone; sends unchanged or gone; sessions join empty or leave; futures keep their keys. */
  ghost predicate Quiet(s: State, s': State) {
    && s'.waiters == s.waiters && s'.log.settled == s.log.settled && s'.log.abandoned == s.log.abandoned
    && s'.reg.nextAck == s.reg.nextAck && s'.reg.futures.Keys == s.reg.futures.Keys
    && s.reg.nextSession <= s'.reg.nextSession
    && (forall sid :: sid in s'.reg.subs ==>
          (sid in s.reg.subs && s'.reg.subs[sid].inFlight == s.reg.subs[sid].inFlight)
          || (s.reg.nextSession <= sid && s'.reg.subs[sid].inFlight == 0))
    && (forall t :: SendingAt(s', t) ==> SendingAt(s, t) && FlightOf(s', t) == FlightOf(s, t))
    && (forall t :: IsDrain(s', t) ==>
          (IsDrain(s, t) && s'.tasks[t].session == s.tasks[t].session) || s'.tasks[t].session in s.reg.subs)
  }

  lemma QuietKeeps(s: State, s': State)
    requires Inv(s) && Quiet(s, s') && OrderExact(s'.reg)
    ensures Inv(s')
  {
    forall sid | sid in s'.reg.subs && s.reg.nextSession <= sid
      ensures |Owed(s'.waiters, sid)| + AbandonedBy(s'.log, sid) == 0
    {
      assert Owed(s'.waiters, sid) == {};
    }
  }

  ghost predicate DrainsStay(s: State, s': State) {
    forall u :: IsDrain(s', u) ==> IsDrain(s, u) && s'.tasks[u].session == s.tasks[u].session
  }

  /** Task `t` starts a send under the next ack id. */
  ghost predicate Starts(s: State, s': State, t: nat) {
    && s'.waiters == s.waiters && s'.log.settled == s.log.settled && s'.log.abandoned == s.log.abandoned
    && s'.reg == RegisterAck(s.reg)
    && (forall u :: SendingAt(s', u) ==>
          if u == t then FlightOf(s', u).ack == s.reg.nextAck && FlightOf(s', u).session < s.reg.nextSession
          else SendingAt(s, u) && FlightOf(s', u) == FlightOf(s, u))
    && DrainsStay(s, s')
  }

  lemma StartsKeeps(s: State, s': State, t: nat)
    requires Inv(s) && Starts(s, s', t)
    ensures Inv(s')
  {
  }

  /** Task `t`'s send returned: the subscriber owes one more ack and a waiter is spawned. */
  ghost predicate Lands(s: State, s': State, t: nat) {
    && SendingAt(s, t)
    && (exists row :: s'.waiters == s.waiters[FlightOf(s, t).ack := Waiter(FlightOf(s, t).session, row)])
    && s'.log.settled == s.log.settled && s'.log.abandoned == s.log.abandoned
    && s'.reg == BeginDelivery(s.reg, FlightOf(s, t).session)
    && (forall u :: SendingAt(s', u) ==> u != t && SendingAt(s, u) && FlightOf(s', u) == FlightOf(s, u))
    && DrainsStay(s, s')
  }

  lemma OwedWith(waiters: map<nat, Waiter>, a: nat, w: Waiter, sid: nat)
    requires a !in waiters
    ensures |Owed(waiters[a := w], sid)| == |Owed(waiters, sid)| + (if w.session == sid then 1 else 0)
  {
    if w.session == sid {
      assert Owed(waiters[a := w], sid) == Owed(waiters, sid) + {a};
    } else {
      assert Owed(waiters[a := w], sid) == Owed(waiters, sid);
    }
  }

  lemma LandsCounts(s: State, s': State, t: nat)
    requires Inv(s) && Lands(s, s', t)
    ensures CountsAgree(s')
  {
    var Flight(a, session) := FlightOf(s, t);
    forall sid | sid in s.reg.subs
      ensures |Owed(s'.waiters, sid)| == |Owed(s.waiters, sid)| + (if sid == session then 1 else 0)
    {
      OwedWith(s.waiters, a, s'.waiters[a], sid);
    }
  }

  lemma LandsAcks(s: State, s': State, t: nat)
    requires Inv(s) && Lands(s, s', t)
    ensures AcksOwned(s') && SettledOnce(s')
  {
  }

  lemma LandsKeeps(s: State, s': State, t: nat)
    requires Inv(s) && Lands(s, s', t)
    ensures Inv(s')
  {
    LandsCounts(s, s', t);
    LandsAcks(s, s', t);
  }

  /** Task `t`'s send failed: its future is dropped and the dead subscriber evicted. */
  ghost predicate Fails(s: State, s': State, t: nat) {
    && SendingAt(s, t)
    && s'.waiters == s.waiters && s'.log.settled == s.log.settled && s'.log.abandoned == s.log.abandoned
    && s'.reg == Unsubscribe(DropFuture(s.reg, FlightOf(s, t).ack), FlightOf(s, t).session)
    && (forall u :: SendingAt(s', u) ==> u != t && SendingAt(s, u) && FlightOf(s', u) == FlightOf(s, u))
    && DrainsStay(s, s')
  }

  lemma FailsOrder(s: State, s': State, t: nat)
    requires OrderExact(s.reg) && Fails(s, s', t)
    ensures OrderExact(s'.reg)
  {
    RemoveFirstMembers(s.reg.order, FlightOf(s, t).session);
  }

  lemma FailsCounts(s: State, s': State, t: nat)
    requires CountsAgree(s) && Fails(s, s', t)
    ensures CountsAgree(s')
  {
    assert forall sid :: sid in s'.reg.subs ==> sid in s.reg.subs && s'.reg.subs[sid].inFlight == s.reg.subs[sid].inFlight;
  }

  lemma FailsKeeps(s: State, s': State, t: nat)
    requires Inv(s) && Fails(s, s', t)
    ensures Inv(s')
  {
    FailsOrder(s, s', t);
    FailsCounts(s, s', t);
    assert AcksOwned(s');
    assert SettledOnce(s') && SessionsBounded(s');
  }

  lemma OwedWithout(waiters: map<nat, Waiter>, a: nat, sid: nat)
    requires a in waiters
    ensures |Owed(waiters - {a}, sid)| == |Owed(waiters, sid)| - (if waiters[a].session == sid then 1 else 0)
  {
    if waiters[a].session == sid {
      assert Owed(waiters, sid) == Owed(waiters - {a}, sid) + {a};
    } else {
      assert Owed(waiters, sid) == Owed(waiters - {a}, sid);
    }
  }

  /**
   An ack that finishes a delivery of a live subscriber always finds a positive
   count: the guard against going below zero never decides.
   */
  lemma GuardNeverDecides(s: State, a: nat)
    requires Inv(s) && a in s.waiters && s.waiters[a].session in s.reg.subs
    ensures s.reg.subs[s.waiters[a].session].inFlight > 0
    ensures EndDelivery(s.reg, s.waiters[a].session).subs[s.waiters[a].session].inFlight
         == s.reg.subs[s.waiters[a].session].inFlight - 1
  {
    assert a in Owed(s.waiters, s.waiters[a].session);
  }

  lemma DoneKeeps(s: State, a: nat)
    requires Inv(s) && a in s.waiters && a in s.reg.futures && s.reg.futures[a].Answered?
    ensures Inv(DoWaiterDone(s, a))
  {
    var s' := DoWaiterDone(s, a);
    if s.waiters[a].session in s.reg.subs { GuardNeverDecides(s, a); }
    forall sid | sid in s'.reg.subs
      ensures s'.reg.subs[sid].inFlight == |Owed(s'.waiters, sid)| + AbandonedBy(s'.log, sid)
    {
      OwedWithout(s.waiters, a, sid);
    }
    assert CountsAgree(s');
    assert forall u :: SendingAt(s', u) ==> SendingAt(s, u) && FlightOf(s', u) == FlightOf(s, u);
    assert DrainsStay(s, s');
  }

  lemma GivesUpKeeps(s: State, a: nat)
    requires Inv(s) && a in s.waiters
    ensures Inv(DoWaiterGivesUp(s, a))
  {
    var s' := DoWaiterGivesUp(s, a);
    forall sid | sid in s'.reg.subs
      ensures s'.reg.subs[sid].inFlight == |Owed(s'.waiters, sid)| + AbandonedBy(s'.log, sid)
    {
      OwedWithout(s.waiters, a, sid);
    }
    assert CountsAgree(s');
    assert forall u :: SendingAt(s', u) ==> SendingAt(s, u) && FlightOf(s', u) == FlightOf(s, u);
    assert DrainsStay(s, s');
  }

  // ── every step ─────────────────────────────────────────────────────────────

  lemma FanNextKind(s: State, t: nat)
    requires Inv(s) && IsFanout(s, t) && s.tasks[t].sending.None? && |s.tasks[t].done| < |s.tasks[t].dests|
    ensures Quiet(s, DoFanNext(s, t)) || Starts(s, DoFanNext(s, t), t)
  {
  }

  lemma DrainRowKind(env: Env, s: State, t: nat, now: real)
    requires Inv(s) && Enabled(env, s, DrainRow(t, now))
    ensures Quiet(s, DoDrainRow(env, s, t, now)) || Starts(s, DoDrainRow(env, s, t, now), t)
  {
  }

  lemma LandsOrFails(env: Env, s: State, l: Label)
    requires Enabled(env, s, l)
    ensures l.FanSent? || l.DrainSent? ==> Lands(s, Next(env, s, l), l.t)
    ensures l.FanFailed? || l.DrainFailed? ==> Fails(s, Next(env, s, l), l.t)
  {
    match l
    case FanSent(t) =>
      var s' := Next(env, s, l);
      assert s'.waiters == s.waiters[FlightOf(s, t).ack := Waiter(FlightOf(s, t).session, None)];
    case DrainSent(t) =>
      var s' := Next(env, s, l);
      assert s'.waiters == s.waiters[FlightOf(s, t).ack := Waiter(FlightOf(s, t).session, Some(s.tasks[t].rows[0]))];
    case _ =>
  }

  lemma QuietFanout(env: Env, s: State, l: Label)
    requires Enabled(env, s, l) && (l.FanFinish? || l.Submit?)
    ensures Quiet(s, Next(env, s, l))
  {
  }

  lemma QuietDrain(env: Env, s: State, l: Label)
    requires Enabled(env, s, l) && (l.DrainStart? || l.DrainName? || l.DrainRemove?)
    ensures Quiet(s, Next(env, s, l))
  {
  }

  lemma QuietRedrive(env: Env, s: State, l: Label)
    requires Enabled(env, s, l) && (l.TaskEnds? || l.RedriveLoad? || l.RedriveEnqueue? || l.RedriveMark?)
    ensures Quiet(s, Next(env, s, l))
  {
  }

  lemma QuietSessions(env: Env, s: State, l: Label)
    requires Enabled(env, s, l) && (l.HelloFrame? || l.Closed? || l.AckFrame?)
    ensures Quiet(s, Next(env, s, l))
  {
  }

  lemma TablesOnlyQuiet(s: State, s': State)
    requires s'.tasks == s.tasks && s'.reg == s.reg && s'.waiters == s.waiters
    requires s'.log.settled == s.log.settled && s'.log.abandoned == s.log.abandoned
    ensures Quiet(s, s')
  {
  }

  lemma QuietStore(env: Env, s: State, l: Label)
    requires Enabled(env, s, l) && (l.RecordDeadLetter? || l.PurgeLetters? || l.Sweep? || l.Ingest?)
    ensures Quiet(s, Next(env, s, l))
  {
    TablesOnlyQuiet(s, Next(env, s, l));
  }

  lemma RestartKeeps(s: State)
    requires Inv(s)
    ensures Inv(DoRestart(s))
  {
  }

  lemma QuietStep(env: Env, s: State, l: Label)
    requires Enabled(env, s, l)
    requires !l.FanNext? && !l.DrainRow? && !l.FanSent? && !l.DrainSent? && !l.FanFailed? && !l.DrainFailed?
    requires !l.WaiterDone? && !l.WaiterGivesUp? && !l.Restart?
    ensures Quiet(s, Next(env, s, l))
  {
    if l.FanFinish? || l.Submit? { QuietFanout(env, s, l); }
    else if l.DrainStart? || l.DrainName? || l.DrainRemove? { QuietDrain(env, s, l); }
    else if l.TaskEnds? || l.RedriveLoad? || l.RedriveEnqueue? || l.RedriveMark? { QuietRedrive(env, s, l); }
    else if l.HelloFrame? || l.Closed? || l.AckFrame? { QuietSessions(env, s, l); }
    else { QuietStore(env, s, l); }
  }

  lemma StepStarts(env: Env, s: State, l: Label)
    requires Inv(s) && Enabled(env, s, l) && (l.FanNext? || l.DrainRow?) && OrderExact(Next(env, s, l).reg)
    ensures Inv(Next(env, s, l))
  {
    var s' := Next(env, s, l);
    if l.FanNext? { FanNextKind(s, l.t); } else { DrainRowKind(env, s, l.t, l.now); }
    if Quiet(s, s') { QuietKeeps(s, s'); } else { StartsKeeps(s, s', l.t); }
  }

  lemma StepEnds(env: Env, s: State, l: Label)
    requires Inv(s) && Enabled(env, s, l) && (l.FanSent? || l.DrainSent? || l.FanFailed? || l.DrainFailed?)
    ensures Inv(Next(env, s, l))
  {
    LandsOrFails(env, s, l);
    if l.FanSent? || l.DrainSent? { LandsKeeps(s, Next(env, s, l), l.t); } else { FailsKeeps(s, Next(env, s, l), l.t); }
  }

  lemma Step(env: Env, s: State, l: Label)
    requires ValidConfig(env.cfg) && Inv(s) && Enabled(env, s, l)
    ensures Inv(Next(env, s, l))
  {
    Sessions.Step(env, s, l);
    if l.FanNext? || l.DrainRow? { StepStarts(env, s, l); }
    else if l.FanSent? || l.DrainSent? || l.FanFailed? || l.DrainFailed? { StepEnds(env, s, l); }
    else if l.WaiterDone? { DoneKeeps(s, l.ack); }
    else if l.WaiterGivesUp? { GivesUpKeeps(s, l.ack); }
    else if l.Restart? { RestartKeeps(s); }
    else {
      QuietStep(env, s, l);
      QuietKeeps(s, Next(env, s, l));
    }
  }

  /** The accounting holds over every run. */
  lemma {:induction false} AccountingHolds(env: Env, run: seq<Label>)
    requires ValidConfig(env.cfg) && IsRun(env, Initial, run)
    ensures Inv(Final(env, Initial, run))
  {
    if run != [] {
      AccountingHolds(env, run[..|run| - 1]);
      Step(env, Final(env, Initial, run[..|run| - 1]), run[|run| - 1]);
    }
  }

  // ── early acks ─────────────────────────────────────────────────────────────

  /** Someone still owns this ack id: its waiter, or whoever is still inside the send. */
  ghost predicate Owned(s: State, a: nat) {
    a in s.waiters || exists t :: SendingAt(s, t) && FlightOf(s, t).ack == a
  }

  ghost predicate HeldAnswer(s: State, a: nat) {
    a in s.reg.futures && s.reg.futures[a].Answered?
  }

  ghost predicate SameAnswer(s: State, s': State, a: nat) {
    a in s.reg.futures && a in s'.reg.futures && s'.reg.futures[a] == s.reg.futures[a]
  }

  lemma SettledDisowns(s: State, s': State, b: nat)
    requires AcksOwned(s) && b in s.waiters && s'.tasks == s.tasks && s'.waiters == s.waiters - {b}
    ensures !Owned(s', b)
  {
    assert forall t :: SendingAt(s', t) ==> SendingAt(s, t) && FlightOf(s', t) == FlightOf(s, t);
  }

  lemma WaiterTakesOwn(s: State, l: Label, env: Env, a: nat)
    requires Inv(s) && Enabled(env, s, l) && (l.WaiterDone? || l.WaiterGivesUp?)
    requires HeldAnswer(s, a) && Owned(Next(env, s, l), a)
    ensures SameAnswer(s, Next(env, s, l), a)
  {
    SettledDisowns(s, Next(env, s, l), l.ack);
  }

  lemma FailsDisowns(s: State, s': State, t: nat)
    requires AcksOwned(s) && Fails(s, s', t)
    ensures !Owned(s', FlightOf(s, t).ack)
  {
  }

  lemma FailureTakesOwn(s: State, l: Label, env: Env, a: nat)
    requires Inv(s) && Enabled(env, s, l) && (l.FanFailed? || l.DrainFailed?)
    requires HeldAnswer(s, a) && Owned(Next(env, s, l), a)
    ensures SameAnswer(s, Next(env, s, l), a)
  {
    LandsOrFails(env, s, l);
    FailsDisowns(s, Next(env, s, l), l.t);
  }

  lemma SendsKeepAnswers(s: State, l: Label, env: Env, a: nat)
    requires Inv(s) && Enabled(env, s, l) && HeldAnswer(s, a)
    requires l.Submit? || l.FanNext? || l.FanSent? || l.FanFinish? || l.DrainStart? || l.DrainName? || l.DrainRow?
             || l.DrainRemove? || l.DrainSent? || l.TaskEnds?
    ensures SameAnswer(s, Next(env, s, l), a)
  {
  }

  lemma SessionsKeepAnswers(s: State, l: Label, env: Env, a: nat)
    requires Enabled(env, s, l) && HeldAnswer(s, a) && (l.HelloFrame? || l.Closed? || l.AckFrame?)
    ensures SameAnswer(s, Next(env, s, l), a)
  {
  }

  lemma StoreKeepsAnswers(s: State, l: Label, env: Env, a: nat)
    requires Enabled(env, s, l) && HeldAnswer(s, a)
    requires l.RedriveLoad? || l.RedriveEnqueue? || l.RedriveMark? || l.RecordDeadLetter? || l.PurgeLetters? || l.Sweep? || l.Ingest?
    ensures SameAnswer(s, Next(env, s, l), a)
  {
    StepCountsStore(env, s, l);
  }

  /** An answer that has arrived stays until its own waiter or sender consumes it. */
  lemma AnswerStays(env: Env, s: State, l: Label, a: nat)
    requires Inv(s) && Enabled(env, s, l) && HeldAnswer(s, a) && Owned(Next(env, s, l), a)
    ensures SameAnswer(s, Next(env, s, l), a)
  {
    if l.WaiterDone? || l.WaiterGivesUp? { WaiterTakesOwn(s, l, env, a); }
    else if l.FanFailed? || l.DrainFailed? { FailureTakesOwn(s, l, env, a); }
    else if l.Submit? || l.FanNext? || l.FanSent? || l.FanFinish? || l.DrainStart? || l.DrainName? || l.DrainRow?
            || l.DrainRemove? || l.DrainSent? || l.TaskEnds? { SendsKeepAnswers(s, l, env, a); }
    else if l.HelloFrame? || l.Closed? || l.AckFrame? { SessionsKeepAnswers(s, l, env, a); }
    else if !l.Restart? { StoreKeepsAnswers(s, l, env, a); }
  }

  /** A used ack id that nobody owns is never owned again. */
  ghost predicate Disowned(s: State, a: nat) {
    a < s.reg.nextAck && !Owned(s, a)
  }

  lemma OwnersCarry(s: State, s': State, a: nat)
    requires forall b :: b in s'.waiters ==> b in s.waiters
    requires forall t :: SendingAt(s', t) ==> SendingAt(s, t) && FlightOf(s', t) == FlightOf(s, t)
    requires Owned(s', a)
    ensures Owned(s, a)
  {
  }

  lemma StartDisowns(env: Env, s: State, l: Label, a: nat)
    requires Inv(s) && Enabled(env, s, l) && (l.FanNext? || l.DrainRow?) && Disowned(s, a)
    ensures Disowned(Next(env, s, l), a)
  {
    if l.FanNext? { FanNextKind(s, l.t); } else { DrainRowKind(env, s, l.t, l.now); }
  }

  lemma SettleDisowns(env: Env, s: State, l: Label, a: nat)
    requires Inv(s) && Enabled(env, s, l) && (l.WaiterDone? || l.WaiterGivesUp? || l.Restart?) && Disowned(s, a)
    ensures Disowned(Next(env, s, l), a)
  {
    if Owned(Next(env, s, l), a) { OwnersCarry(s, Next(env, s, l), a); }
  }

  lemma EndDisowns(env: Env, s: State, l: Label, a: nat)
    requires Inv(s) && Enabled(env, s, l) && Disowned(s, a)
    requires l.FanSent? || l.DrainSent? || l.FanFailed? || l.DrainFailed?
    ensures Disowned(Next(env, s, l), a)
  {
    LandsOrFails(env, s, l);
    assert FlightOf(s, l.t).ack != a;
  }

  lemma StepDisowns(env: Env, s: State, l: Label, a: nat)
    requires Inv(s) && Enabled(env, s, l) && Disowned(s, a)
    ensures Disowned(Next(env, s, l), a)
  {
    if l.FanNext? || l.DrainRow? { StartDisowns(env, s, l, a); }
    else if l.FanSent? || l.DrainSent? || l.FanFailed? || l.DrainFailed? { EndDisowns(env, s, l, a); }
    else if l.WaiterDone? || l.WaiterGivesUp? || l.Restart? { SettleDisowns(env, s, l, a); }
    else { QuietStep(env, s, l); }
  }

  lemma AnswerUsed(s: State, a: nat)
    requires Inv(s) && HeldAnswer(s, a)
    ensures a < s.reg.nextAck
  {
  }

  /** An ack id that is owned in the end was owned all along, and its answer stayed. */
  lemma {:induction false} AnswerStaysRun(env: Env, s: State, run: seq<Label>, a: nat)
    requires ValidConfig(env.cfg) && Inv(s) && IsRun(env, s, run)
    requires HeldAnswer(s, a) && Owned(Final(env, s, run), a)
    ensures Inv(Final(env, s, run))
    ensures SameAnswer(s, Final(env, s, run), a)
  {
    if run != [] {
      var front, l := run[..|run| - 1], run[|run| - 1];
      InvRun(env, s, front);
      var mid := Final(env, s, front);
      AckCounterGrows(env, s, front);
      AnswerUsed(s, a);
      if !Owned(mid, a) { StepDisowns(env, mid, l, a); }
      AnswerStaysRun(env, s, front, a);
      Step(env, mid, l);
      AnswerStays(env, mid, l, a);
    }
  }

  lemma {:induction false} InvRun(env: Env, s: State, run: seq<Label>)
    requires ValidConfig(env.cfg) && Inv(s) && IsRun(env, s, run)
    ensures Inv(Final(env, s, run))
  {
    if run != [] {
      InvRun(env, s, run[..|run| - 1]);
      Step(env, Final(env, s, run[..|run| - 1]), run[|run| - 1]);
    }
  }

  lemma AckCounterStep(env: Env, s: State, l: Label)
    requires Inv(s) && Enabled(env, s, l)
    ensures s.reg.nextAck <= Next(env, s, l).reg.nextAck
  {
    if l.FanNext? { FanNextKind(s, l.t); }
    else if l.DrainRow? { DrainRowKind(env, s, l.t, l.now); }
    else if l.FanSent? || l.DrainSent? || l.FanFailed? || l.DrainFailed? { LandsOrFails(env, s, l); }
    else if !l.WaiterDone? && !l.WaiterGivesUp? && !l.Restart? { QuietStep(env, s, l); }
  }

  lemma {:induction false} AckCounterGrows(env: Env, s: State, run: seq<Label>)
    requires ValidConfig(env.cfg) && Inv(s) && IsRun(env, s, run)
    ensures s.reg.nextAck <= Final(env, s, run).reg.nextAck
  {
    if run != [] {
      AckCounterGrows(env, s, run[..|run| - 1]);
      InvRun(env, s, run[..|run| - 1]);
      AckCounterStep(env, Final(env, s, run[..|run| - 1]), run[|run| - 1]);
    }
  }

  /**
   An ack that arrives while the frame is still being sent is not lost: from the
   moment it arrives to any later moment at which the waiter exists, the waiter
   can finish with exactly that answer.
   */
  lemma EarlyAckNotLost(env: Env, s: State, t: nat, answer: bool, run: seq<Label>)
    requires ValidConfig(env.cfg) && Inv(s) && SendingAt(s, t)
    requires s.reg.futures[FlightOf(s, t).ack].Waiting?
    requires var s1 := Next(env, s, AckFrame(FlightOf(s, t).ack, answer));
      IsRun(env, s1, run) && FlightOf(s, t).ack in Final(env, s1, run).waiters
    ensures var s2 := Final(env, Next(env, s, AckFrame(FlightOf(s, t).ack, answer)), run);
      && Enabled(env, s2, WaiterDone(FlightOf(s, t).ack))
      && s2.reg.futures[FlightOf(s, t).ack] == Answered(answer)
  {
    var s1 := Next(env, s, AckFrame(FlightOf(s, t).ack, answer));
    Step(env, s, AckFrame(FlightOf(s, t).ack, answer));
    AnswerStaysRun(env, s1, run, FlightOf(s, t).ack);
  }
}

/**
 Sessions and admission over whole runs: the caps, the claims and the
 subscription order hold in every reachable state.
 */
module Sessions {
  import opened Addressing
  import opened Subscribers
  import opened Daemon

  /** Live sessions keep their identity; new ones get new numbers. */
  ghost predicate SessionsStable(a: Registry, b: Registry) {
    && a.nextSession <= b.nextSession
    && (forall sid :: sid in b.subs && sid < a.nextSession ==>
          sid in a.subs && b.subs[sid].(inFlight := 0) == a.subs[sid].(inFlight := 0))
  }

  /** Either the sessions are as before but for in-flight counts, or one of the three membership steps happened. */
  ghost predicate CountsOnly(a: Registry, b: Registry) {
    && a.order == b.order && a.connections == b.connections && a.nextSession == b.nextSession
    && a.subs.Keys == b.subs.Keys
    && (forall sid :: sid in a.subs ==> b.subs[sid].(inFlight := 0) == a.subs[sid].(inFlight := 0))
  }

  lemma CountsOnlyKeeps(cfg: Config, a: Registry, b: Registry)
    requires CountsOnly(a, b) && OrderExact(a)
    ensures SessionsStable(a, b) && OrderExact(b)
    ensures Admission(cfg, a) ==> Admission(cfg, b)
  {
    forall sid | sid in a.subs
      ensures b.subs[sid].destinations == a.subs[sid].destinations && b.subs[sid].adapter == a.subs[sid].adapter
    {
      assert b.subs[sid].(inFlight := 0) == a.subs[sid].(inFlight := 0);
    }
    if Admission(cfg, a) { AdmissionFrame(cfg, a, b); }
  }

  lemma LeavesKeeps(cfg: Config, a: Registry, sid: nat)
    requires OrderExact(a)
    ensures SessionsStable(a, Unsubscribe(a, sid)) && OrderExact(Unsubscribe(a, sid))
    ensures SessionsStable(a, Disconnect(a, sid)) && OrderExact(Disconnect(a, sid))
    ensures Admission(cfg, a) ==> Admission(cfg, Unsubscribe(a, sid)) && Admission(cfg, Disconnect(a, sid))
  {
    RemoveFirstMembers(a.order, sid);
    if Admission(cfg, a) { UnsubscribeAdmission(cfg, a, sid); }
  }

  lemma HelloKeeps(cfg: Config, a: Registry, adapter: string, sources: seq<string>, claimed: seq<string>)
    requires ValidConfig(cfg) && OrderExact(a)
    ensures var b := Hello(cfg, a, adapter, sources, claimed);
      SessionsStable(a, b) && OrderExact(b) && (Admission(cfg, a) ==> Admission(cfg, b))
  {
    HelloOrder(cfg, a, adapter, sources, claimed);
    if Admission(cfg, a) { HelloAdmission(cfg, a, adapter, sources, claimed); }
  }

  lemma StepCountsTasks(env: Env, s: State, l: Label)
    requires Enabled(env, s, l)
    requires l.Submit? || l.FanNext? || l.FanSent? || l.FanFinish? || l.DrainStart? || l.DrainName? || l.DrainRow?
             || l.DrainRemove? || l.DrainSent? || l.TaskEnds?
    ensures CountsOnly(s.reg, Next(env, s, l).reg)
  {
  }

  lemma StepCountsAcks(env: Env, s: State, l: Label)
    requires Enabled(env, s, l) && (l.AckFrame? || l.WaiterDone? || l.WaiterGivesUp?)
    ensures CountsOnly(s.reg, Next(env, s, l).reg)
  {
  }

  lemma StepCountsStore(env: Env, s: State, l: Label)
    requires Enabled(env, s, l)
    requires l.RedriveLoad? || l.RedriveEnqueue? || l.RedriveMark? || l.RecordDeadLetter? || l.PurgeLetters? || l.Sweep? || l.Ingest?
    ensures Next(env, s, l).reg == s.reg
  {
  }

  lemma StepFailed(env: Env, s: State, l: Label)
    requires OrderExact(s.reg) && Enabled(env, s, l) && (l.FanFailed? || l.DrainFailed?)
    ensures SessionsStable(s.reg, Next(env, s, l).reg) && OrderExact(Next(env, s, l).reg)
    ensures Admission(env.cfg, s.reg) ==> Admission(env.cfg, Next(env, s, l).reg)
  {
    var ack := if l.FanFailed? then s.tasks[l.t].sending.value.ack else s.tasks[l.t].phase.ack;
    var session := if l.FanFailed? then s.tasks[l.t].sending.value.session else s.tasks[l.t].session;
    var a := DropFuture(s.reg, ack);
    CountsOnlyKeeps(env.cfg, s.reg, a);
    LeavesKeeps(env.cfg, a, session);
  }

  lemma StepOther(env: Env, s: State, l: Label)
    requires OrderExact(s.reg) && Enabled(env, s, l)
    requires !l.FanFailed? && !l.DrainFailed? && !l.HelloFrame? && !l.Closed? && !l.Restart?
    ensures SessionsStable(s.reg, Next(env, s, l).reg) && OrderExact(Next(env, s, l).reg)
    ensures Admission(env.cfg, s.reg) ==> Admission(env.cfg, Next(env, s, l).reg)
  {
    if l.AckFrame? || l.WaiterDone? || l.WaiterGivesUp? {
      StepCountsAcks(env, s, l);
    } else if l.RedriveLoad? || l.RedriveEnqueue? || l.RedriveMark? || l.RecordDeadLetter? || l.PurgeLetters? || l.Sweep? || l.Ingest? {
      StepCountsStore(env, s, l);
    } else {
      StepCountsTasks(env, s, l);
    }
    CountsOnlyKeeps(env.cfg, s.reg, Next(env, s, l).reg);
  }

  lemma StepSession(env: Env, s: State, l: Label)
    requires ValidConfig(env.cfg) && OrderExact(s.reg) && Enabled(env, s, l)
    requires l.HelloFrame? || l.Closed? || l.Restart?
    ensures SessionsStable(s.reg, Next(env, s, l).reg) && OrderExact(Next(env, s, l).reg)
    ensures Admission(env.cfg, s.reg) ==> Admission(env.cfg, Next(env, s, l).reg)
  {
    match l
    case HelloFrame(adapter, sources, claimed) => HelloKeeps(env.cfg, s.reg, adapter, sources, claimed);
    case Closed(session) => LeavesKeeps(env.cfg, s.reg, session);
    case Restart => EmptyAdmission(env.cfg, DoRestart(s).reg);
  }

  lemma Step(env: Env, s: State, l: Label)
    requires ValidConfig(env.cfg) && OrderExact(s.reg) && Enabled(env, s, l)
    ensures SessionsStable(s.reg, Next(env, s, l).reg) && OrderExact(Next(env, s, l).reg)
    ensures Admission(env.cfg, s.reg) ==> Admission(env.cfg, Next(env, s, l).reg)
  {
    if l.FanFailed? || l.DrainFailed? { StepFailed(env, s, l); }
    else if l.HelloFrame? || l.Closed? || l.Restart? { StepSession(env, s, l); }
    else { StepOther(env, s, l); }
  }

  lemma EmptyAdmission(cfg: Config, reg: Registry)
    requires reg.subs == map[] && reg.order == [] && reg.connections == {}
    ensures Admission(cfg, reg)
  {
    forall d | d in cfg.destinations && d.maxConnections.Some? ensures Load(reg, d.name) <= d.maxConnections.value {
      assert Claimants(reg, d.name) == {};
    }
  }

  /**
   Admission over every run: at most sixteen connections, every capped
   destination within its cap, every claim on an existing destination open to
   the adapter, and subscription order listing exactly the live sessions.
   */
  lemma {:induction false} AdmissionHolds(env: Env, run: seq<Label>)
    requires ValidConfig(env.cfg) && IsRun(env, Initial, run)
    ensures Admission(env.cfg, Final(env, Initial, run).reg)
  {
    if run == [] {
      EmptyAdmission(env.cfg, Initial.reg);
    } else {
      AdmissionHolds(env, run[..|run| - 1]);
      Step(env, Final(env, Initial, run[..|run| - 1]), run[|run| - 1]);
    }
  }

  /** In every reachable state, a live session serves a configured destination exactly when it claims its name. */
  lemma ServesWhatItClaims(env: Env, run: seq<Label>, sid: nat, d: Destination)
    requires ValidConfig(env.cfg) && IsRun(env, Initial, run) && d in env.cfg.destinations
    requires sid in Final(env, Initial, run).reg.subs
    ensures Serves(Final(env, Initial, run).reg.subs[sid], d) <==> d.name in Final(env, Initial, run).reg.subs[sid].destinations
  {
    AdmissionHolds(env, run);
    LookupFinds(env.cfg, d);
    var sub := Final(env, Initial, run).reg.subs[sid];
    assert d.name in sub.destinations ==> MayServe(env.cfg, sub.adapter, d.name);
  }

  /** A restart keeps the tables and the operator's own redrives, forgets every session and frame in flight, and reuses no number. */
  lemma RestartForgets(env: Env, s: State)
    ensures var s' := Next(env, s, Restart);
      && s'.tables == s.tables && s'.log == s.log && s'.nextTask == s.nextTask
      && s'.reg.subs == map[] && s'.reg.order == [] && s'.reg.connections == {} && s'.reg.futures == map[]
      && s'.reg.nextSession == s.reg.nextSession && s'.reg.nextAck == s.reg.nextAck && s'.waiters == map[]
      && (forall t :: t in s'.tasks <==> IsRedrive(s, t)) && (forall t :: t in s'.tasks ==> s'.tasks[t] == s.tasks[t])
  {
  }
}

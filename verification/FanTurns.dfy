/**
 One event's way through the fan-out: where it is sent, what each destination's
 turn does, and why a destination is counted undeliverable.
 */
module FanTurns {
  import opened Prelude
  import opened Tables
  import opened Addressing
  import opened Subscribers
  import opened Daemon
  import FanOut
  import InFlight

  /** An event asks for this destination, or for none. */
  predicate AsksFor(o: Option<string>, have: Option<string>) {
    o.None? || o == Some("") || o == have
  }

  /** Some route lets the event's source reach the destination, and it fits what the event asks for. */
  ghost predicate Meant(cfg: Config, e: Event, d: Destination) {
    && d in cfg.destinations
    && (exists r :: r in cfg.routes && Reaches(r, e.source, d))
    && AsksFor(e.destination, Some(d.name)) && AsksFor(e.principal, d.principal)
  }

  /** An event goes to exactly the destinations meant, each once; when none is, it is refused if it asked for something. */
  lemma AddressedExactly(cfg: Config, e: Event)
    requires ValidConfig(cfg)
    ensures match Addressed(cfg, e)
      case Resolved(ds) => NamesDistinct(ds) && forall d :: d in ds <==> Meant(cfg, e, d)
      case _ => (forall d :: !Meant(cfg, e, d)) && !(AsksFor(e.destination, None) && AsksFor(e.principal, None))
  {
    var name, principal := Narrowing(e.destination), Narrowing(e.principal);
    ResolveExactly(cfg, e.source, name, principal);
    forall d ensures Meant(cfg, e, d) <==> Reachable(cfg, cfg.routes, e.source, d) && Fits(d, name, principal) {
    }
  }

  /** An event may wait for a session exactly when it says so itself, or says nothing and the daemon's default does. */
  lemma DurableIff(cfg: Config, e: Event)
    ensures Durable(cfg, e) <==>
      (e.delivery == Some("next_session") || e.delivery == Some("managed_session")
       || (e.delivery.None?
           && (cfg.defaultDelivery == Some("next_session") || cfg.defaultDelivery == Some("managed_session"))))
  {
  }

  /** Taking an event: a fan-out over what it is addressed to, or an answer at once when that is nothing. */
  lemma SubmitOpens(env: Env, s: State, e: Event, now: real)
    ensures var s' := Next(env, s, Submit(e, now));
      && s'.nextTask == s.nextTask + 1 && s'.reg == s.reg && s'.waiters == s.waiters
      && match Addressed(env.cfg, e)
         case Resolved(ds) =>
           if ds != [] then
             s'.tasks == s.tasks[s.nextTask := Fanout(e, ds, [], None)] && s'.tables == s.tables && s'.log == s.log
           else
             && s'.tasks == s.tasks && s.nextTask in s'.log.answers
             && s'.log.answers[s.nextTask].status == (if Durable(env.cfg, e) then QueuedNextSession else NoSubscriber)
             && s'.tables == (if Durable(env.cfg, e) then Enqueue(s.tables, env.lim, e, None, now) else s.tables)
         case why =>
           && s'.tasks == s.tasks && s'.tables == s.tables && s.nextTask in s'.log.answers
           && s'.log.answers[s.nextTask].status == Refused(why)
  {
  }

  // ── a destination's turn ───────────────────────────────────────────────────

  ghost predicate SomebodyServes(reg: Registry, d: Destination) {
    exists sid :: sid in reg.subs && Serves(reg.subs[sid], d)
  }

  /** The destination whose turn it is. */
  function Turn(s: State, t: nat): Destination
    requires IsFanout(s, t) && |s.tasks[t].done| < |s.tasks[t].dests|
  {
    s.tasks[t].dests[|s.tasks[t].done|]
  }

  /**
   In every reachable state: at its turn a destination somebody serves has a new
   frame written to the latest session to serve it, and one nobody serves is
   counted undeliverable at once.
   */
  lemma TurnTaken(env: Env, run: seq<Label>, t: nat)
    requires ValidConfig(env.cfg) && IsRun(env, Initial, run) && Enabled(env, Final(env, Initial, run), FanNext(t))
    ensures var s := Final(env, Initial, run);
      var s' := Next(env, s, FanNext(t));
      && s'.tables == s.tables && s'.reg.subs == s.reg.subs && IsFanout(s', t)
      && if SomebodyServes(s.reg, Turn(s, t)) then
           && s'.tasks[t].done == s.tasks[t].done && s'.tasks[t].sending.Some?
           && Latest(s.reg, s'.tasks[t].sending.value.session, Turn(s, t))
           && |s'.log.frames| == |s.log.frames| + 1 && s.log.frames <= s'.log.frames
           && var f := s'.log.frames[|s.log.frames|];
              f.session == s'.tasks[t].sending.value.session && f.ack == s'.tasks[t].sending.value.ack
              && f.dest == Turn(s, t) && f.origin == FromEvent(t, |s.tasks[t].done|)
              && f.ack !in s.reg.futures && f.ack in s'.reg.futures
         else
           s'.tasks[t].done == s.tasks[t].done + [Untaken] && s'.tasks[t].sending.None? && s'.log == s.log
  {
    InFlight.AccountingHolds(env, run);
    var s := Final(env, Initial, run);
    MostRecentServes(s.reg, Turn(s, t));
    assert forall other :: other in Eligible(s.reg, Turn(s, t)) <==> other in s.reg.subs && Serves(s.reg.subs[other], Turn(s, t));
  }

  /** A send that returns counts its destination taken, and its session has one more delivery in flight. */
  lemma SendReturned(env: Env, s: State, t: nat)
    requires Enabled(env, s, FanSent(t))
    ensures var s' := Next(env, s, FanSent(t));
      var Flight(a, sid) := s.tasks[t].sending.value;
      && IsFanout(s', t) && s'.tasks[t].sending.None? && s'.tasks[t].done == s.tasks[t].done + [Taken(a)]
      && s'.log.written == s.log.written + {a} && s'.waiters == s.waiters[a := Waiter(sid, None)]
      && (sid in s.reg.subs ==> sid in s'.reg.subs && s'.reg.subs[sid].inFlight == s.reg.subs[sid].inFlight + 1)
  {
  }

  /** A send that fails counts its destination undeliverable and puts its session out. */
  lemma SendFailed(env: Env, s: State, t: nat)
    requires Enabled(env, s, FanFailed(t))
    ensures var s' := Next(env, s, FanFailed(t));
      && IsFanout(s', t) && s'.tasks[t].sending.None? && s'.tasks[t].done == s.tasks[t].done + [Untaken]
      && s.tasks[t].sending.value.session !in s'.reg.subs && s.tasks[t].sending.value.ack !in s'.reg.futures
      && s'.log == s.log
  {
  }

  // ── why nobody took it ─────────────────────────────────────────────────────

  /** The outcomes so far of the event numbered `t`, answered or not. */
  function Outcomes(s: State, t: nat): seq<Outcome> {
    if IsFanout(s, t) then s.tasks[t].done
    else if t in s.log.answers then s.log.answers[t].outcomes
    else []
  }

  /** The step counts the event's `i`-th destination undeliverable: nobody served it at its turn, or its send failed. */
  ghost predicate CountsOut(s: State, l: Label, t: nat, i: nat) {
    && IsFanout(s, t) && |s.tasks[t].done| == i
    && ((l == FanNext(t) && i < |s.tasks[t].dests| && !SomebodyServes(s.reg, s.tasks[t].dests[i])) || l == FanFailed(t))
  }

  lemma FanStepOutcomes(env: Env, s: State, l: Label, t: nat)
    requires InFlight.Inv(s) && Enabled(env, s, l) && (l.FanNext? || l.FanSent? || l.FanFailed?)
    ensures Outcomes(Next(env, s, l), t) == Outcomes(s, t)
      || (exists o :: Outcomes(Next(env, s, l), t) == Outcomes(s, t) + [o]
            && (o.Untaken? ==> CountsOut(s, l, t, |Outcomes(s, t)|)))
  {
    var s' := Next(env, s, l);
    if l.t == t {
      if l.FanNext? {
        MostRecentServes(s.reg, Turn(s, t));
        assert forall other :: other in Eligible(s.reg, Turn(s, t)) <==> other in s.reg.subs && Serves(s.reg.subs[other], Turn(s, t));
        if !SomebodyServes(s.reg, Turn(s, t)) { assert Outcomes(s', t) == Outcomes(s, t) + [Untaken]; }
      } else if l.FanSent? {
        assert Outcomes(s', t) == Outcomes(s, t) + [Taken(s.tasks[t].sending.value.ack)];
      } else {
        assert Outcomes(s', t) == Outcomes(s, t) + [Untaken];
      }
    }
  }

  lemma AnswerStepOutcomes(env: Env, s: State, l: Label, t: nat)
    requires FanOut.Numbered(s) && Enabled(env, s, l) && (l.Submit? || l.FanFinish?)
    ensures Outcomes(Next(env, s, l), t) == Outcomes(s, t)
  {
  }

  lemma OtherStepOutcomes(env: Env, s: State, l: Label, t: nat)
    requires FanOut.Numbered(s) && Enabled(env, s, l)
    requires !l.Submit? && !l.FanFinish? && !l.FanNext? && !l.FanSent? && !l.FanFailed? && !l.DrainRow? && !l.DrainSent?
    ensures Outcomes(Next(env, s, l), t) == Outcomes(s, t) || Outcomes(Next(env, s, l), t) == []
  {
    FanOut.QuietStep(env, s, l);
  }

  lemma DrainStepOutcomes(env: Env, s: State, l: Label, t: nat)
    requires Enabled(env, s, l) && (l.DrainRow? || l.DrainSent?)
    ensures Outcomes(Next(env, s, l), t) == Outcomes(s, t)
  {
  }

  /** An undeliverable outcome is there before a step, or the step counts it out. */
  lemma UntakenStep(env: Env, s: State, l: Label, t: nat, i: nat)
    requires InFlight.Inv(s) && FanOut.Numbered(s) && Enabled(env, s, l)
    requires i < |Outcomes(Next(env, s, l), t)| && Outcomes(Next(env, s, l), t)[i].Untaken?
    ensures (i < |Outcomes(s, t)| && Outcomes(s, t)[i].Untaken?) || CountsOut(s, l, t, i)
  {
    if l.FanNext? || l.FanSent? || l.FanFailed? { FanStepOutcomes(env, s, l, t); }
    else if l.Submit? || l.FanFinish? { AnswerStepOutcomes(env, s, l, t); }
    else if l.DrainRow? || l.DrainSent? { DrainStepOutcomes(env, s, l, t); }
    else { OtherStepOutcomes(env, s, l, t); }
  }

  /**
   Over every run: a destination is counted undeliverable only at its own turn,
   because no live session served it then, or because its send failed.
   */
  lemma {:induction false} UndeliverableOnlyIf(env: Env, run: seq<Label>, t: nat, i: nat) returns (k: nat)
    requires ValidConfig(env.cfg) && IsRun(env, Initial, run)
    requires i < |Outcomes(Final(env, Initial, run), t)| && Outcomes(Final(env, Initial, run), t)[i].Untaken?
    ensures k < |run| && CountsOut(StateAt(env, Initial, run, k), run[k], t, i)
    decreases |run|
  {
    var front, n := run[..|run| - 1], |run| - 1;
    var s := Final(env, Initial, front);
    FanOut.RunInv(env, front);
    UntakenStep(env, s, run[n], t, i);
    if CountsOut(s, run[n], t, i) {
      k := n;
      assert StateAt(env, Initial, run, n) == StateAt(env, Initial, front, n);
    } else {
      k := UndeliverableOnlyIf(env, front, t, i);
      assert StateAt(env, Initial, run, k) == StateAt(env, Initial, front, k);
    }
  }
}

/**
 Out-of-band delivery to a person: one dispatch over a principal's channels, the
 ledger of channels already landed, and what chains of retries do with it.
 */
module HumanAlerts {
  import opened Prelude

  /** What a channel call does, should it be made: land, fail or raise, or be cancelled. */
  datatype CallOutcome = Lands | Fails | Cancelled

  datatype ChannelStatus = Delivered | Failed | Skipped

  datatype Result = Result(channel: string, status: ChannelStatus)

  datatype Visit = Visit(results: seq<Result>, cancelled: bool)

  datatype Status = NoTarget | UnknownPrincipal | NoChannels | AllDelivered | Partial | AllFailed | Interrupted

  /** The channel adapters present, and how each channel would answer this time. */
  datatype World = World(registered: set<string>, outcome: map<string, CallOutcome>)

  function CallOf(w: World, channel: string): CallOutcome {
    if channel in w.outcome then w.outcome[channel] else Fails
  }

  predicate Interrupts(w: World, skip: set<string>, channel: string) {
    channel !in skip && channel in w.registered && CallOf(w, channel).Cancelled?
  }

  function StatusOf(w: World, skip: set<string>, channel: string): ChannelStatus {
    if channel in skip then Skipped
    else if channel in w.registered && CallOf(w, channel).Lands? then Delivered
    else Failed
  }

  /** Channels in configured order, up to the first one cancelled. */
  function VisitAll(w: World, skip: set<string>, channels: seq<string>): Visit {
    if channels == [] then Visit([], false)
    else
      var v := VisitAll(w, skip, channels[..|channels| - 1]);
      var c := channels[|channels| - 1];
      if v.cancelled then v
      else if Interrupts(w, skip, c) then v.(cancelled := true)
      else v.(results := v.results + [Result(c, StatusOf(w, skip, c))])
  }

  function WithStatus(results: seq<Result>, status: ChannelStatus): set<string> {
    set r | r in results && r.status == status :: r.channel
  }

  function Overall(v: Visit): Status {
    if v.cancelled then Interrupted
    else if WithStatus(v.results, Failed) == {} then AllDelivered
    else if WithStatus(v.results, Delivered) != {} then Partial
    else AllFailed
  }

  /** The ledger a dead letter of this attempt carries. */
  function Ledger(v: Visit, skip: set<string>): set<string> {
    WithStatus(v.results, Delivered) + skip
  }

  /** The dispatcher with a store: `letters` are the ledgers of the dead letters it has written. */
  class HumanDelivery {
    const delivery: map<string, seq<string>>
    var letters: seq<set<string>>
    var lostAlerts: nat

    constructor (delivery: map<string, seq<string>>)
      ensures this.delivery == delivery && letters == [] && lostAlerts == 0
    {
      this.delivery, letters, lostAlerts := delivery, [], 0;
    }

    /** Never raises: a letter that cannot be written is counted as a lost alert. */
    method DeadLetter(ledger: set<string>, storeOk: bool)
      modifies this`letters, this`lostAlerts
      ensures letters == old(letters) + (if storeOk then [ledger] else [])
      ensures lostAlerts == old(lostAlerts) + (if storeOk then 0 else 1)
    {
      if storeOk {
        letters := letters + [ledger];
      } else {
        lostAlerts := lostAlerts + 1;
      }
    }

    /**
     One dispatch to the principal `target` names. It leaves exactly one durable
     trace - a dead letter or a counted loss - unless it ends delivered or had
     nowhere to go, and that trace carries everything that has landed so far.
     */
    method Deliver(target: Option<string>, skip: set<string>, w: World, storeOk: bool)
      returns (status: Status, results: seq<Result>)
      modifies this
      ensures target.None? || target.value == "" ==> status == NoTarget
      ensures target.Some? && target.value != "" && target.value !in delivery ==> status == UnknownPrincipal
      ensures target.Some? && target.value != "" && target.value in delivery && delivery[target.value] == [] ==>
                status == NoChannels
                && letters == old(letters) + (if storeOk then [{}] else [])
                && lostAlerts == old(lostAlerts) + (if storeOk then 0 else 1)
      ensures target.Some? && target.value != "" && target.value in delivery && delivery[target.value] != [] ==>
                var v := VisitAll(w, skip, delivery[target.value]);
                && status == Overall(v) && results == v.results
                && letters == old(letters) + (if status != AllDelivered && storeOk then [Ledger(v, skip)] else [])
                && lostAlerts == old(lostAlerts) + (if status != AllDelivered && !storeOk then 1 else 0)
      ensures status == NoTarget || status == UnknownPrincipal ==>
                letters == old(letters) && lostAlerts == old(lostAlerts)
    {
      results := [];
      if target.None? || target.value == "" {
        return NoTarget, [];
      }
      if target.value !in delivery {
        return UnknownPrincipal, [];
      }
      var channels := delivery[target.value];
      if channels == [] {
        DeadLetter({}, storeOk);
        return NoChannels, [];
      }
      var anyDelivered, anyFailed := false, false;
      for i := 0 to |channels|
        invariant VisitAll(w, skip, channels[..i]) == Visit(results, false)
        invariant anyDelivered <==> WithStatus(results, Delivered) != {}
        invariant anyFailed <==> WithStatus(results, Failed) != {}
        invariant letters == old(letters) && lostAlerts == old(lostAlerts)
      {
        var c := channels[i];
        assert channels[..i + 1][..i] == channels[..i];
        if c in skip {
          StatusGrows(results, Result(c, Skipped));
          results := results + [Result(c, Skipped)];
          continue;
        }
        if c !in w.registered {
          StatusGrows(results, Result(c, Failed));
          anyFailed := true;
          results := results + [Result(c, Failed)];
          continue;
        }
        match CallOf(w, c)
        case Cancelled =>
          CancelledStops(w, skip, channels, i);
          DeadLetter(WithStatus(results, Delivered) + skip, storeOk);
          return Interrupted, results;
        case Lands =>
          StatusGrows(results, Result(c, Delivered));
          anyDelivered := true;
          results := results + [Result(c, Delivered)];
        case Fails =>
          StatusGrows(results, Result(c, Failed));
          anyFailed := true;
          results := results + [Result(c, Failed)];
      }
      assert channels[..|channels|] == channels;
      if !anyFailed {
        return AllDelivered, results;
      }
      DeadLetter(WithStatus(results, Delivered) + skip, storeOk);
      status := if anyDelivered then Partial else AllFailed;
    }
  }

  lemma StatusGrows(results: seq<Result>, r: Result)
    ensures forall s :: WithStatus(results + [r], s)
              == WithStatus(results, s) + (if r.status == s then {r.channel} else {})
  {
  }

  lemma {:induction false} CancelledStops(w: World, skip: set<string>, channels: seq<string>, i: nat)
    requires i < |channels|
    requires VisitAll(w, skip, channels[..i + 1]).cancelled
    ensures VisitAll(w, skip, channels) == VisitAll(w, skip, channels[..i + 1])
    decreases |channels|
  {
    if i + 1 == |channels| {
      assert channels[..i + 1] == channels;
    } else {
      var front := channels[..|channels| - 1];
      assert front[..i + 1] == channels[..i + 1];
      CancelledStops(w, skip, front, i);
    }
  }

  // ── one attempt against its ledger ─────────────────────────────────────────

  /** A visit reports delivered exactly what it delivered, never a skipped channel; uncancelled, it reports every channel. */
  lemma {:induction false} VisitReports(w: World, skip: set<string>, channels: seq<string>)
    ensures var v := VisitAll(w, skip, channels);
      && (forall r :: r in v.results ==> r.channel in channels && r.status == StatusOf(w, skip, r.channel))
      && (!v.cancelled ==> forall c :: c in channels ==> Result(c, StatusOf(w, skip, c)) in v.results)
      && (v.cancelled ==> exists c :: c in channels && Interrupts(w, skip, c))
  {
    if channels != [] {
      VisitReports(w, skip, channels[..|channels| - 1]);
      assert forall c :: c in channels <==> c in channels[..|channels| - 1] || c == channels[|channels| - 1];
    }
  }

  /** An attempt ends delivered if and only if the ledger, with what it just landed, covers every channel. */
  lemma DeliveredIffCovered(w: World, skip: set<string>, channels: seq<string>)
    requires channels != []
    ensures var v := VisitAll(w, skip, channels);
      && (Overall(v) == AllDelivered <==> forall c :: c in channels ==> c in Ledger(v, skip))
      && WithStatus(v.results, Delivered) !! skip
  {
    VisitReports(w, skip, channels);
    var v := VisitAll(w, skip, channels);
    if v.cancelled {
      var c :| c in channels && Interrupts(w, skip, c);
      assert c !in Ledger(v, skip);
    } else if Overall(v) == AllDelivered {
      forall c | c in channels ensures c in Ledger(v, skip) {
        assert Result(c, StatusOf(w, skip, c)) in v.results;
        assert StatusOf(w, skip, c) == Failed ==> c in WithStatus(v.results, Failed);
        assert StatusOf(w, skip, c) == Delivered ==> c in WithStatus(v.results, Delivered);
      }
    } else {
      var c :| c in WithStatus(v.results, Failed);
      assert c in channels && c !in Ledger(v, skip);
    }
  }

  // ── chains of store-backed attempts ────────────────────────────────────────

  /** The ledger after a chain in which each attempt skips what the previous dead letter recorded. */
  function LedgerAfter(channels: seq<string>, worlds: seq<World>): set<string> {
    if worlds == [] then {}
    else
      var skip := LedgerAfter(channels, worlds[..|worlds| - 1]);
      Ledger(VisitAll(worlds[|worlds| - 1], skip, channels), skip)
  }

  /** What the `k`-th attempt of the chain reports delivered. */
  function DeliveredAt(channels: seq<string>, worlds: seq<World>, k: nat): set<string>
    requires k < |worlds|
  {
    WithStatus(VisitAll(worlds[k], LedgerAfter(channels, worlds[..k]), channels).results, Delivered)
  }

  lemma {:induction false} LedgerCollects(channels: seq<string>, worlds: seq<World>, k: nat)
    requires k < |worlds|
    ensures DeliveredAt(channels, worlds, k) <= LedgerAfter(channels, worlds)
    decreases |worlds|
  {
    var front := worlds[..|worlds| - 1];
    if k < |front| {
      LedgerCollects(channels, front, k);
      assert front[..k] == worlds[..k];
    }
  }

  lemma {:induction false} LedgerExact(channels: seq<string>, worlds: seq<World>, c: string)
    ensures c in LedgerAfter(channels, worlds) <==> exists k: nat :: k < |worlds| && c in DeliveredAt(channels, worlds, k)
  {
    if worlds != [] {
      var n := |worlds| - 1;
      var front := worlds[..n];
      LedgerExact(channels, front, c);
      if c in LedgerAfter(channels, front) {
        var k: nat :| k < |front| && c in DeliveredAt(channels, front, k);
        assert front[..k] == worlds[..k];
        assert c in DeliveredAt(channels, worlds, k);
      }
      if c in LedgerAfter(channels, worlds) && c !in LedgerAfter(channels, front) {
        assert c in DeliveredAt(channels, worlds, n);
      }
      if k: nat :| k < |worlds| && c in DeliveredAt(channels, worlds, k) {
        LedgerCollects(channels, worlds, k);
      }
    }
  }

  lemma DeliveredOnce(channels: seq<string>, worlds: seq<World>, j: nat, k: nat)
    requires channels != [] && j < k < |worlds|
    ensures DeliveredAt(channels, worlds, j) !! DeliveredAt(channels, worlds, k)
  {
    LedgerCollects(channels, worlds[..k], j);
    assert worlds[..k][..j] == worlds[..j];
    DeliveredIffCovered(worlds[k], LedgerAfter(channels, worlds[..k]), channels);
  }

  /** How the last attempt of a chain ends. */
  function ChainEnd(channels: seq<string>, worlds: seq<World>): Status
    requires worlds != []
  {
    var last := |worlds| - 1;
    Overall(VisitAll(worlds[last], LedgerAfter(channels, worlds[..last]), channels))
  }

  lemma EndsDeliveredIff(channels: seq<string>, worlds: seq<World>)
    requires channels != [] && worlds != []
    ensures ChainEnd(channels, worlds) == AllDelivered <==> forall c :: c in channels ==> c in LedgerAfter(channels, worlds)
  {
    var last := |worlds| - 1;
    var skip := LedgerAfter(channels, worlds[..last]);
    DeliveredIffCovered(worlds[last], skip, channels);
    assert LedgerAfter(channels, worlds) == Ledger(VisitAll(worlds[last], skip, channels), skip);
  }

  /** Some attempt of the chain reported the channel delivered. */
  ghost predicate LandedInChain(channels: seq<string>, worlds: seq<World>, c: string) {
    exists k: nat :: k < |worlds| && c in DeliveredAt(channels, worlds, k)
  }

  /**
   Over any chain, also across cancellations, no channel is reported delivered
   twice, and the chain ends delivered exactly when its attempts together have
   covered every configured channel.
   */
  lemma NoChannelTwice(channels: seq<string>, worlds: seq<World>)
    requires channels != [] && worlds != []
    ensures forall j, k :: 0 <= j < k < |worlds| ==> DeliveredAt(channels, worlds, j) !! DeliveredAt(channels, worlds, k)
    ensures ChainEnd(channels, worlds) == AllDelivered <==> forall c :: c in channels ==> LandedInChain(channels, worlds, c)
  {
    forall j, k | 0 <= j < k < |worlds|
      ensures DeliveredAt(channels, worlds, j) !! DeliveredAt(channels, worlds, k)
    {
      DeliveredOnce(channels, worlds, j, k);
    }
    EndsDeliveredIff(channels, worlds);
    forall c | c in channels ensures c in LedgerAfter(channels, worlds) <==> LandedInChain(channels, worlds, c) {
      LedgerExact(channels, worlds, c);
    }
  }

  // ── operator redrives of one letter ────────────────────────────────────────

  /** What a command-line redrive of a letter with ledger `kept` reports delivered. It writes no ledger back. */
  function RedriveDelivers(w: World, kept: set<string>, channels: seq<string>): set<string> {
    WithStatus(VisitAll(w, kept, channels).results, Delivered)
  }

  /**
   Redriving the same letter again is safe against double sends, whatever the
   next attempt meets, if and only if no earlier redrive of it delivered
   anything: a partial redrive does not update the letter's ledger.
   */
  lemma NextRedriveSafeIff(channels: seq<string>, kept: set<string>, registered: set<string>, earlier: seq<World>)
    requires forall i :: 0 <= i < |earlier| ==> earlier[i].registered == registered
    ensures (forall w: World, i :: w.registered == registered && 0 <= i < |earlier| ==>
               RedriveDelivers(w, kept, channels) !! RedriveDelivers(earlier[i], kept, channels))
        <==> (forall i :: 0 <= i < |earlier| ==> RedriveDelivers(earlier[i], kept, channels) == {})
  {
    if i :| 0 <= i < |earlier| && RedriveDelivers(earlier[i], kept, channels) != {} {
      var c :| c in RedriveDelivers(earlier[i], kept, channels);
      var w := World(registered, map x | x in channels :: Lands);
      VisitReports(earlier[i], kept, channels);
      VisitReports(w, kept, channels);
      assert Result(c, Delivered) in VisitAll(w, kept, channels).results;
      assert c in RedriveDelivers(w, kept, channels);
    }
  }

  /** A redrive that reaches one of two channels, made twice: the person is alerted twice on that channel. */
  lemma PartialRedriveRepeats()
    ensures var w := World({"webhook", "email"}, map["webhook" := Lands, "email" := Fails]);
      && RedriveDelivers(w, {}, ["webhook", "email"]) == {"webhook"}
      && !(RedriveDelivers(w, {}, ["webhook", "email"]) !! RedriveDelivers(w, {}, ["webhook", "email"]))
  {
    var w := World({"webhook", "email"}, map["webhook" := Lands, "email" := Fails]);
    var channels := ["webhook", "email"];
    assert channels[..1] == ["webhook"] && channels[..1][..0] == [];
    VisitReports(w, {}, channels);
    var v := VisitAll(w, {}, channels);
    assert !v.cancelled;
    assert Result("webhook", Delivered) in v.results;
    assert forall r :: r in v.results && r.status == Delivered ==> r.channel == "webhook";
  }

  // ── one attempt, channel by channel ────────────────────────────────────────

  /** The channel's own call is cancelled, which ends the attempt. */
  ghost predicate Stops(w: World, skip: set<string>, c: string) {
    c !in skip && c in w.registered && c in w.outcome && w.outcome[c] == Cancelled
  }

  /** The channel has an adapter, is not in the ledger, and its call lands. */
  ghost predicate LandsNow(w: World, skip: set<string>, c: string) {
    c !in skip && c in w.registered && c in w.outcome && w.outcome[c] == Lands
  }

  ghost predicate ReportedAs(w: World, skip: set<string>, c: string, status: ChannelStatus) {
    match status
    case Skipped => c in skip
    case Delivered => LandsNow(w, skip, c)
    case Failed => c !in skip && !LandsNow(w, skip, c)
  }

  /**
   An attempt goes through the channels in their order up to the first whose call
   is cancelled, and reports each of those as it went: skipped from the ledger,
   delivered when an adapter is there and its call lands, else failed.
   */
  lemma {:induction false} VisitExactly(w: World, skip: set<string>, channels: seq<string>) returns (n: nat)
    ensures var v := VisitAll(w, skip, channels);
      && n == |v.results| <= |channels|
      && (forall i :: 0 <= i < n ==>
            v.results[i].channel == channels[i] && !Stops(w, skip, channels[i])
            && ReportedAs(w, skip, channels[i], v.results[i].status))
      && (v.cancelled <==> n < |channels|)
      && (v.cancelled ==> Stops(w, skip, channels[n]))
  {
    if channels == [] {
      n := 0;
    } else {
      n := VisitExactly(w, skip, channels[..|channels| - 1]);
      if !VisitAll(w, skip, channels).cancelled { n := |channels|; }
    }
  }

  /** The attempt's own status: interrupted, or by whether any channel failed and any was delivered. */
  lemma OverallExactly(v: Visit)
    ensures match Overall(v)
      case Interrupted => v.cancelled
      case AllDelivered => !v.cancelled && forall r :: r in v.results ==> r.status != Failed
      case Partial =>
        && !v.cancelled && (exists r :: r in v.results && r.status == Failed)
        && exists r :: r in v.results && r.status == Delivered
      case AllFailed =>
        && !v.cancelled && (exists r :: r in v.results && r.status == Failed)
        && forall r :: r in v.results ==> r.status != Delivered
      case _ => false
  {
    forall r | r in v.results ensures r.channel in WithStatus(v.results, r.status) {
    }
  }
}

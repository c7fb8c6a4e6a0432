/**
 The live side of the router: subscribers, subscription order, ack futures, and
 the admission checks of the socket server. Sessions are numbered in the order
 they subscribe; ack ids are drawn from a counter, standing for fresh ULIDs.
 */
module Subscribers {
  import opened Prelude
  import opened Addressing

  const MAX_CONNECTIONS: nat := 16

  datatype Subscriber = Subscriber(adapter: string, destinations: seq<string>, inFlight: int)

  /** An ack future: unset, or set by the first ack or nack. */
  datatype Future = Waiting | Answered(ack: bool)

  datatype Registry = Registry(
    subs: map<nat, Subscriber>,
    order: seq<nat>,
    connections: set<nat>,
    nextSession: nat,
    futures: map<nat, Future>,
    nextAck: nat)

  predicate Serves(s: Subscriber, d: Destination) {
    d.name in s.destinations && AcceptsAdapter(d, s.adapter)
  }

  /** The live session serving `d`, searched from the most recent subscription back. */
  function LastServing(subs: map<nat, Subscriber>, order: seq<nat>, d: Destination): Option<nat> {
    if order == [] then None
    else
      var sid := order[|order| - 1];
      if sid in subs && Serves(subs[sid], d) then Some(sid)
      else LastServing(subs, order[..|order| - 1], d)
  }

  function SubscriberFor(reg: Registry, d: Destination): Option<nat> {
    LastServing(reg.subs, reg.order, d)
  }

  function Eligible(reg: Registry, d: Destination): set<nat> {
    set sid | sid in reg.subs && Serves(reg.subs[sid], d)
  }

  function RemoveFirst(s: seq<nat>, x: nat): seq<nat> {
    if s == [] then []
    else if s[0] == x then s[1..]
    else [s[0]] + RemoveFirst(s[1..], x)
  }

  function Unsubscribe(reg: Registry, sid: nat): Registry {
    reg.(subs := reg.subs - {sid}, order := RemoveFirst(reg.order, sid))
  }

  /** The connection's own teardown also frees its connection slot. */
  function Disconnect(reg: Registry, sid: nat): Registry {
    Unsubscribe(reg, sid).(connections := reg.connections - {sid})
  }

  function ClaimNames(sources: seq<string>, claimed: seq<string>): seq<string> {
    if claimed != [] then claimed else sources
  }

  predicate MayServe(cfg: Config, adapter: string, name: string) {
    var d := Lookup(cfg.destinations, name);
    d.Some? && AcceptsAdapter(d.value, adapter)
  }

  /** The names a hello may serve: known, open to its adapter, each once, in the order named. */
  function Servable(cfg: Config, adapter: string, names: seq<string>): seq<string> {
    if names == [] then []
    else
      var front := Servable(cfg, adapter, names[..|names| - 1]);
      var name := names[|names| - 1];
      if MayServe(cfg, adapter, name) && name !in front then front + [name] else front
  }

  function Claimants(reg: Registry, name: string): set<nat> {
    set sid | sid in reg.subs && name in reg.subs[sid].destinations
  }

  function Load(reg: Registry, name: string): nat {
    |Claimants(reg, name)|
  }

  predicate AtCap(cfg: Config, reg: Registry, name: string) {
    var d := Lookup(cfg.destinations, name);
    d.Some? && d.value.maxConnections.Some? && Load(reg, name) >= d.value.maxConnections.value
  }

  predicate Admissible(cfg: Config, reg: Registry, names: seq<string>) {
    |reg.connections| < MAX_CONNECTIONS && forall i :: 0 <= i < |names| ==> !AtCap(cfg, reg, names[i])
  }

  function Hello(cfg: Config, reg: Registry, adapter: string, sources: seq<string>, claimed: seq<string>): Registry {
    var names := Servable(cfg, adapter, ClaimNames(sources, claimed));
    if !Admissible(cfg, reg, names) then reg
    else
      reg.(subs := reg.subs[reg.nextSession := Subscriber(adapter, names, 0)],
           order := reg.order + [reg.nextSession],
           connections := reg.connections + {reg.nextSession},
           nextSession := reg.nextSession + 1)
  }

  function RegisterAck(reg: Registry): Registry {
    reg.(futures := reg.futures[reg.nextAck := Waiting], nextAck := reg.nextAck + 1)
  }

  function ResolveAck(reg: Registry, ack: nat, answer: bool): Registry {
    if ack in reg.futures && reg.futures[ack].Waiting?
    then reg.(futures := reg.futures[ack := Answered(answer)])
    else reg
  }

  function DropFuture(reg: Registry, ack: nat): Registry {
    reg.(futures := reg.futures - {ack})
  }

  function BeginDelivery(reg: Registry, sid: nat): Registry {
    if sid in reg.subs
    then reg.(subs := reg.subs[sid := reg.subs[sid].(inFlight := reg.subs[sid].inFlight + 1)])
    else reg
  }

  function EndDelivery(reg: Registry, sid: nat): Registry {
    if sid in reg.subs && reg.subs[sid].inFlight > 0
    then reg.(subs := reg.subs[sid := reg.subs[sid].(inFlight := reg.subs[sid].inFlight - 1)])
    else reg
  }

  // ── invariant ──────────────────────────────────────────────────────────────

  ghost predicate Increasing(s: seq<nat>) {
    forall i, j :: 0 <= i < j < |s| ==> s[i] < s[j]
  }

  /** Subscription order lists exactly the live sessions, each once, oldest first. */
  ghost predicate OrderExact(reg: Registry) {
    && Increasing(reg.order)
    && (forall sid :: sid in reg.order <==> sid in reg.subs)
    && (forall sid :: sid in reg.subs ==> sid in reg.connections)
    && (forall sid :: sid in reg.connections ==> sid < reg.nextSession)
  }

  ghost predicate ClaimsAllowed(cfg: Config, reg: Registry) {
    forall sid, name :: sid in reg.subs && name in reg.subs[sid].destinations ==>
      MayServe(cfg, reg.subs[sid].adapter, name)
  }

  ghost predicate WithinCaps(cfg: Config, reg: Registry) {
    && |reg.connections| <= MAX_CONNECTIONS
    && (forall d :: d in cfg.destinations && d.maxConnections.Some? ==> Load(reg, d.name) <= d.maxConnections.value)
  }

  ghost predicate Admission(cfg: Config, reg: Registry) {
    OrderExact(reg) && ClaimsAllowed(cfg, reg) && WithinCaps(cfg, reg)
  }

  lemma {:induction false} RemoveFirstMembers(s: seq<nat>, x: nat)
    requires Increasing(s)
    ensures Increasing(RemoveFirst(s, x))
    ensures forall y :: y in RemoveFirst(s, x) <==> y in s && y != x
  {
    if s != [] && s[0] != x {
      RemoveFirstMembers(s[1..], x);
      assert s == [s[0]] + s[1..];
      var rest := RemoveFirst(s[1..], x);
      forall j | 0 <= j < |rest| ensures s[0] < rest[j] {
        assert rest[j] in rest && rest[j] in s[1..];
      }
    } else if s != [] {
      assert s == [s[0]] + s[1..];
    }
  }

  lemma {:induction false} ServableMembers(cfg: Config, adapter: string, names: seq<string>)
    ensures Distinct(Servable(cfg, adapter, names))
    ensures forall n :: n in Servable(cfg, adapter, names) <==> n in names && MayServe(cfg, adapter, n)
  {
    if names != [] {
      ServableMembers(cfg, adapter, names[..|names| - 1]);
      assert forall n :: n in names <==> n in names[..|names| - 1] || n == names[|names| - 1];
    }
  }

  lemma LoadShrinks(a: Registry, b: Registry, name: string)
    requires forall sid :: sid in b.subs ==> sid in a.subs && a.subs[sid].destinations == b.subs[sid].destinations
    ensures Load(b, name) <= Load(a, name)
  {
    SubsetSize(Claimants(b, name), Claimants(a, name));
  }

  /** Same sessions with the same claims, whatever their in-flight counts: admission carries over. */
  lemma AdmissionFrame(cfg: Config, a: Registry, b: Registry)
    requires Admission(cfg, a)
    requires a.order == b.order && a.connections == b.connections && a.nextSession == b.nextSession
    requires a.subs.Keys == b.subs.Keys
    requires forall sid :: sid in a.subs ==>
               a.subs[sid].destinations == b.subs[sid].destinations && a.subs[sid].adapter == b.subs[sid].adapter
    ensures Admission(cfg, b)
  {
    forall d | d in cfg.destinations && d.maxConnections.Some? ensures Load(b, d.name) <= d.maxConnections.value {
      LoadShrinks(a, b, d.name);
    }
  }

  lemma UnsubscribeAdmission(cfg: Config, reg: Registry, sid: nat)
    requires Admission(cfg, reg)
    ensures Admission(cfg, Unsubscribe(reg, sid)) && Admission(cfg, Disconnect(reg, sid))
  {
    RemoveFirstMembers(reg.order, sid);
    SubsetSize(reg.connections - {sid}, reg.connections);
    forall d | d in cfg.destinations && d.maxConnections.Some?
      ensures Load(Unsubscribe(reg, sid), d.name) <= d.maxConnections.value
      ensures Load(Disconnect(reg, sid), d.name) <= d.maxConnections.value
    {
      LoadShrinks(reg, Unsubscribe(reg, sid), d.name);
      LoadShrinks(reg, Disconnect(reg, sid), d.name);
    }
  }

  lemma HelloOrder(cfg: Config, reg: Registry, adapter: string, sources: seq<string>, claimed: seq<string>)
    requires OrderExact(reg)
    ensures OrderExact(Hello(cfg, reg, adapter, sources, claimed))
  {
    forall i | 0 <= i < |reg.order| ensures reg.order[i] < reg.nextSession {
      assert reg.order[i] in reg.order;
    }
  }

  lemma AddLoad(a: Registry, b: Registry, sid: nat, s: Subscriber, name: string)
    requires sid !in a.subs && b.subs == a.subs[sid := s]
    ensures Load(b, name) == Load(a, name) + (if name in s.destinations then 1 else 0)
  {
    if name in s.destinations {
      assert Claimants(b, name) == Claimants(a, name) + {sid};
    } else {
      assert Claimants(b, name) == Claimants(a, name);
    }
  }

  lemma AtCapOf(cfg: Config, reg: Registry, d: Destination)
    requires ValidConfig(cfg) && d in cfg.destinations
    ensures AtCap(cfg, reg, d.name) <==> d.maxConnections.Some? && Load(reg, d.name) >= d.maxConnections.value
  {
    SameName(cfg, d, Lookup(cfg.destinations, d.name).value);
  }

  lemma HelloCap(cfg: Config, reg: Registry, adapter: string, sources: seq<string>, claimed: seq<string>, d: Destination)
    requires ValidConfig(cfg) && OrderExact(reg)
    requires d in cfg.destinations && d.maxConnections.Some? && Load(reg, d.name) <= d.maxConnections.value
    ensures Load(Hello(cfg, reg, adapter, sources, claimed), d.name) <= d.maxConnections.value
  {
    var names := Servable(cfg, adapter, ClaimNames(sources, claimed));
    if Admissible(cfg, reg, names) {
      AddLoad(reg, Hello(cfg, reg, adapter, sources, claimed), reg.nextSession, Subscriber(adapter, names, 0), d.name);
      AtCapOf(cfg, reg, d);
    }
  }

  lemma HelloAdmission(cfg: Config, reg: Registry, adapter: string, sources: seq<string>, claimed: seq<string>)
    requires ValidConfig(cfg) && Admission(cfg, reg)
    ensures Admission(cfg, Hello(cfg, reg, adapter, sources, claimed))
  {
    HelloOrder(cfg, reg, adapter, sources, claimed);
    ServableMembers(cfg, adapter, ClaimNames(sources, claimed));
    forall d | d in cfg.destinations && d.maxConnections.Some?
      ensures Load(Hello(cfg, reg, adapter, sources, claimed), d.name) <= d.maxConnections.value
    {
      HelloCap(cfg, reg, adapter, sources, claimed, d);
    }
  }

  /** The subscriber a destination gets is the most recently subscribed eligible one, and there is one whenever any is eligible. */
  lemma {:induction false} MostRecentServes(reg: Registry, d: Destination)
    requires OrderExact(reg)
    ensures match SubscriberFor(reg, d)
      case Some(sid) => sid in Eligible(reg, d) && forall other :: other in Eligible(reg, d) ==> other <= sid
      case None => Eligible(reg, d) == {}
  {
    LastServingRecent(reg.subs, reg.order, d);
  }

  lemma {:induction false} LastServingRecent(subs: map<nat, Subscriber>, order: seq<nat>, d: Destination)
    requires Increasing(order)
    ensures match LastServing(subs, order, d)
      case Some(sid) =>
        && sid in order && sid in subs && Serves(subs[sid], d)
        && forall other :: other in order && other in subs && Serves(subs[other], d) ==> other <= sid
      case None => forall other :: other in order && other in subs ==> !Serves(subs[other], d)
  {
    if order != [] {
      LastServingRecent(subs, order[..|order| - 1], d);
      assert forall x :: x in order <==> x in order[..|order| - 1] || x == order[|order| - 1];
    }
  }

  /** Session `sid` is the latest live one to serve the destination. */
  ghost predicate Latest(reg: Registry, sid: nat, d: Destination) {
    && sid in reg.subs && Serves(reg.subs[sid], d)
    && forall other :: other in reg.subs && Serves(reg.subs[other], d) ==> other <= sid
  }

  lemma LatestIsSubscriber(reg: Registry, sid: nat, d: Destination)
    requires OrderExact(reg)
    ensures SubscriberFor(reg, d) == Some(sid) <==> Latest(reg, sid, d)
  {
    MostRecentServes(reg, d);
    assert forall other :: other in Eligible(reg, d) <==> other in reg.subs && Serves(reg.subs[other], d);
    if Latest(reg, sid, d) {
      assert sid in Eligible(reg, d);
    }
  }

  // ── who is let in ──────────────────────────────────────────────────────────

  /** Some configured destination has this name and takes the adapter. */
  ghost predicate Permitted(cfg: Config, adapter: string, name: string) {
    exists d :: d in cfg.destinations && d.name == name && (d.adapter.None? || d.adapter == Some(adapter))
  }

  /** A capped destination with as many live claimants as its cap allows. */
  ghost predicate Full(cfg: Config, reg: Registry, name: string) {
    exists d :: d in cfg.destinations && d.name == name && d.maxConnections.Some?
      && |set sid | sid in reg.subs && name in reg.subs[sid].destinations| >= d.maxConnections.value
  }

  lemma MayServeIff(cfg: Config, adapter: string, name: string)
    requires ValidConfig(cfg)
    ensures MayServe(cfg, adapter, name) <==> Permitted(cfg, adapter, name)
  {
    if Permitted(cfg, adapter, name) {
      var d :| d in cfg.destinations && d.name == name && (d.adapter.None? || d.adapter == Some(adapter));
      LookupFinds(cfg, d);
    }
  }

  lemma AtCapIff(cfg: Config, reg: Registry, name: string)
    requires ValidConfig(cfg)
    ensures AtCap(cfg, reg, name) <==> Full(cfg, reg, name)
  {
    assert (set sid | sid in reg.subs && name in reg.subs[sid].destinations) == Claimants(reg, name);
    if Full(cfg, reg, name) {
      var d :| d in cfg.destinations && d.name == name && d.maxConnections.Some?
        && |set sid | sid in reg.subs && name in reg.subs[sid].destinations| >= d.maxConnections.value;
      LookupFinds(cfg, d);
    }
  }

  /** There is a slot, and none of the names it may serve, of those it asks for, is full. */
  ghost predicate HasPlace(cfg: Config, reg: Registry, adapter: string, asked: seq<string>) {
    && |reg.connections| < 16
    && forall n :: n in asked && Permitted(cfg, adapter, n) ==> !Full(cfg, reg, n)
  }

  /** A new session under the next number, last in order, serving exactly the names it asked for and may serve. */
  ghost predicate Admitted(cfg: Config, reg: Registry, reg': Registry, adapter: string, asked: seq<string>) {
    var sid := reg.nextSession;
    && sid in reg'.subs && reg'.subs == reg.subs[sid := reg'.subs[sid]]
    && reg'.subs[sid].adapter == adapter && reg'.subs[sid].inFlight == 0
    && Distinct(reg'.subs[sid].destinations)
    && (forall n :: n in reg'.subs[sid].destinations <==> n in asked && Permitted(cfg, adapter, n))
    && reg'.order == reg.order + [sid] && reg'.connections == reg.connections + {sid}
    && reg'.nextSession == sid + 1 && reg'.futures == reg.futures && reg'.nextAck == reg.nextAck
  }

  /**
   A hello that has a place is admitted, with the names it claims, or its sources
   when it claims none; any other changes nothing.
   */
  lemma HelloAdmits(cfg: Config, reg: Registry, adapter: string, sources: seq<string>, claimed: seq<string>)
    requires ValidConfig(cfg)
    ensures var asked := if claimed != [] then claimed else sources;
      var reg' := Hello(cfg, reg, adapter, sources, claimed);
      if HasPlace(cfg, reg, adapter, asked) then Admitted(cfg, reg, reg', adapter, asked) else reg' == reg
  {
    var asked := if claimed != [] then claimed else sources;
    var names := Servable(cfg, adapter, asked);
    ServableMembers(cfg, adapter, asked);
    forall n ensures MayServe(cfg, adapter, n) <==> Permitted(cfg, adapter, n) { MayServeIff(cfg, adapter, n); }
    forall n ensures AtCap(cfg, reg, n) <==> Full(cfg, reg, n) { AtCapIff(cfg, reg, n); }
    if HasPlace(cfg, reg, adapter, asked) {
      forall i | 0 <= i < |names| ensures !AtCap(cfg, reg, names[i]) { assert names[i] in names; }
    } else if |reg.connections| < 16 {
      var n :| n in asked && Permitted(cfg, adapter, n) && Full(cfg, reg, n);
      assert n in names;
    }
  }

  /** Leaving takes the session out of the table and out of the order, and nothing else; hanging up frees its slot too. */
  lemma LeavingRemoves(reg: Registry, sid: nat)
    requires OrderExact(reg)
    ensures var reg' := Unsubscribe(reg, sid);
      && sid !in reg'.subs && reg == reg'.(subs := reg.subs, order := reg.order)
      && (forall other :: other in reg.subs && other != sid ==> other in reg'.subs && reg'.subs[other] == reg.subs[other])
      && reg'.subs.Keys <= reg.subs.Keys
      && Increasing(reg'.order) && (forall other :: other in reg'.order <==> other in reg.order && other != sid)
    ensures Disconnect(reg, sid) == Unsubscribe(reg, sid).(connections := reg.connections - {sid})
  {
    RemoveFirstMembers(reg.order, sid);
  }
}

/**
 The router and socket-server objects. Their synchronous methods change the
 registry exactly as the registry functions say; `deliver` and `drain_pending`,
 which suspend at every send, are the step machine of `Daemon`.
 */
module Router {
  import opened Prelude
  import opened Addressing
  import opened Subscribers

  class Router {
    var subscribers: map<nat, Subscriber>
    var order: seq<nat>
    var pendingAcks: map<nat, Future>
    var nextSession: nat
    var nextAck: nat

    ghost function Contents(connections: set<nat>): Registry
      reads this
    {
      Registry(subscribers, order, connections, nextSession, pendingAcks, nextAck)
    }

    constructor ()
      ensures Contents({}) == Registry(map[], [], {}, 0, map[], 0)
    {
      subscribers, order, pendingAcks := map[], [], map[];
      nextSession, nextAck := 0, 0;
    }

    /** Most recent subscription first. */
    method SubscriberFor(d: Destination) returns (found: Option<nat>)
      ensures found == LastServing(subscribers, order, d)
    {
      assert order[..|order|] == order;
      for i := |order| downto 0
        invariant LastServing(subscribers, order, d) == LastServing(subscribers, order[..i], d)
      {
        assert order[..i + 1][..i] == order[..i];
        if order[i] in subscribers && Serves(subscribers[order[i]], d) {
          return Some(order[i]);
        }
      }
      found := None;
    }

    method DestinationsForHello(cfg: Config, adapter: string, sources: seq<string>, claimed: seq<string>)
      returns (out: seq<string>)
      ensures out == Servable(cfg, adapter, ClaimNames(sources, claimed))
    {
      var names := if claimed != [] then claimed else sources;
      out := [];
      for i := 0 to |names|
        invariant out == Servable(cfg, adapter, names[..i])
      {
        assert names[..i + 1][..i] == names[..i];
        var d := Lookup(cfg.destinations, names[i]);
        if d.None? {
          continue;
        }
        if !AcceptsAdapter(d.value, adapter) {
          continue;
        }
        if names[i] !in out {
          out := out + [names[i]];
        }
      }
      assert names[..|names|] == names;
    }

    method DestinationLoad(name: string) returns (n: nat)
      ensures forall connections :: n == Load(Contents(connections), name)
    {
      var claimants := set sid | sid in subscribers && name in subscribers[sid].destinations;
      forall connections ensures Claimants(Contents(connections), name) == claimants {}
      n := |claimants|;
    }

    method Subscribe(adapter: string, destinations: seq<string>) returns (sid: nat)
      modifies this`subscribers, this`order, this`nextSession
      ensures sid == old(nextSession) && nextSession == sid + 1
      ensures subscribers == old(subscribers)[sid := Subscriber(adapter, destinations, 0)]
      ensures order == old(order) + [sid]
    {
      sid := nextSession;
      nextSession := nextSession + 1;
      subscribers := subscribers[sid := Subscriber(adapter, destinations, 0)];
      order := order + [sid];
    }

    method Unsubscribe(sid: nat)
      modifies this`subscribers, this`order
      ensures forall connections :: Contents(connections) == Subscribers.Unsubscribe(old(Contents(connections)), sid)
    {
      subscribers := subscribers - {sid};
      order := RemoveFirst(order, sid);
    }

    method RegisterAck() returns (ack: nat)
      modifies this`pendingAcks, this`nextAck
      ensures ack == old(nextAck)
      ensures forall connections :: Contents(connections) == Subscribers.RegisterAck(old(Contents(connections)))
    {
      ack := nextAck;
      pendingAcks := pendingAcks[ack := Waiting];
      nextAck := nextAck + 1;
    }

    /** The first ack or nack wins; later ones, and unknown ids, are ignored. */
    method ResolveAck(ack: nat, answer: bool)
      modifies this`pendingAcks
      ensures forall connections :: Contents(connections) == Subscribers.ResolveAck(old(Contents(connections)), ack, answer)
    {
      if ack in pendingAcks && pendingAcks[ack].Waiting? {
        pendingAcks := pendingAcks[ack := Answered(answer)];
      }
    }

    method EndDelivery(sid: nat)
      modifies this`subscribers
      ensures forall connections :: Contents(connections) == Subscribers.EndDelivery(old(Contents(connections)), sid)
    {
      if sid in subscribers && subscribers[sid].inFlight > 0 {
        subscribers := subscribers[sid := subscribers[sid].(inFlight := subscribers[sid].inFlight - 1)];
      }
    }
  }

  class SocketServer {
    const cfg: Config
    const router: Router
    var connections: set<nat>

    ghost function Contents(): Registry
      reads this, router
    {
      router.Contents(connections)
    }

    constructor (cfg: Config, router: Router)
      requires router.Contents({}) == Registry(map[], [], {}, 0, map[], 0)
      ensures this.cfg == cfg && this.router == router && Admission(cfg, Contents())
    {
      this.cfg, this.router, connections := cfg, router, {};
      new;
      forall d | d in cfg.destinations && d.maxConnections.Some? ensures Load(Contents(), d.name) <= d.maxConnections.value {
        assert Claimants(Contents(), d.name) == {};
      }
    }

    /** The names in `names` whose destination already has all the subscribers it may have. */
    method DestinationsOverCap(names: seq<string>) returns (over: seq<string>)
      ensures over == [] <==> forall i :: 0 <= i < |names| ==> !AtCap(cfg, Contents(), names[i])
      ensures forall n :: n in over <==> n in names && AtCap(cfg, Contents(), n)
    {
      over := [];
      for i := 0 to |names|
        invariant forall n :: n in over <==> n in names[..i] && AtCap(cfg, Contents(), n)
      {
        var d := Lookup(cfg.destinations, names[i]);
        if d.None? || d.value.maxConnections.None? {
          continue;
        }
        var load := router.DestinationLoad(names[i]);
        if load >= d.value.maxConnections.value {
          over := over + [names[i]];
        }
      }
      assert names[..|names|] == names;
      if over != [] { assert over[0] in over; }
      forall i | 0 <= i < |names| ensures over == [] ==> !AtCap(cfg, Contents(), names[i]) {
        assert names[i] in names;
      }
    }

    /** Admission: the slot check, then the claims, then the per-destination caps. */
    method Handshake(adapter: string, sources: seq<string>, claimed: seq<string>) returns (admitted: Option<nat>)
      requires ValidConfig(cfg) && Admission(cfg, Contents())
      modifies this, router
      ensures Contents() == Hello(cfg, old(Contents()), adapter, sources, claimed)
      ensures Admission(cfg, Contents())
      ensures admitted.Some? <==> Contents() != old(Contents())
    {
      HelloAdmission(cfg, Contents(), adapter, sources, claimed);
      if |connections| >= MAX_CONNECTIONS {
        return None;
      }
      var names := router.DestinationsForHello(cfg, adapter, sources, claimed);
      var over := DestinationsOverCap(names);
      if over != [] {
        return None;
      }
      var sid := router.Subscribe(adapter, names);
      connections := connections + {sid};
      admitted := Some(sid);
    }

    method Teardown(sid: nat)
      requires Admission(cfg, Contents())
      modifies this, router
      ensures Contents() == Disconnect(old(Contents()), sid)
      ensures Admission(cfg, Contents())
    {
      UnsubscribeAdmission(cfg, Contents(), sid);
      router.Unsubscribe(sid);
      connections := connections - {sid};
    }
  }
}

/**
 Senders, destinations and routes: which destinations an event addresses.
 Configured tables keep file order.
 */
module Addressing {
  import opened Prelude

  /** `adapter = None` means "whichever adapter claimed this name". */
  datatype Destination = Destination(
    name: string,
    adapter: Option<string>,
    session: Option<string>,
    principal: Option<string>,
    maxConnections: Option<nat>)

  predicate AcceptsAdapter(d: Destination, adapter: string) {
    d.adapter.None? || d.adapter.value == adapter
  }

  datatype Route = Route(sender: string, principal: Option<string>, destinations: seq<string>)

  datatype Config = Config(
    destinations: seq<Destination>,
    routes: seq<Route>,
    defaultDelivery: Option<string>)

  /** Destination names are the keys of one table. */
  ghost predicate ValidConfig(cfg: Config) {
    forall i, j :: 0 <= i < j < |cfg.destinations| ==> cfg.destinations[i].name != cfg.destinations[j].name
  }

  datatype Resolution = Resolved(destinations: seq<Destination>) | DestinationNotRouted | PrincipalNotRouted

  function Lookup(ds: seq<Destination>, name: string): (r: Option<Destination>)
    ensures r.Some? ==> r.value in ds && r.value.name == name
    ensures r.None? ==> forall d :: d in ds ==> d.name != name
  {
    if ds == [] then None
    else if ds[|ds| - 1].name == name then Some(ds[|ds| - 1])
    else Lookup(ds[..|ds| - 1], name)
  }

  /** The configured destinations the names denote, in the order named; unknown names are skipped. */
  function Named(ds: seq<Destination>, names: seq<string>): (r: seq<Destination>)
    ensures forall d :: d in r ==> d in ds && d.name in names
  {
    if names == [] then []
    else
      var front := Named(ds, names[..|names| - 1]);
      match Lookup(ds, names[|names| - 1])
      case Some(d) => front + [d]
      case None => front
  }

  /** Destinations one route names: its own list, else everything its principal owns. */
  function Expand(cfg: Config, r: Route): seq<Destination> {
    if r.destinations != [] then Named(cfg.destinations, r.destinations)
    else if r.principal.Some? && r.principal.value != "" then
      Filter(cfg.destinations, (d: Destination) => d.principal == r.principal)
    else []
  }

  predicate Applies(r: Route, sender: string) {
    r.sender == sender || r.sender == "*"
  }

  /** First occurrences by name, as `dict.setdefault` keeps them. */
  function SetDefault(seen: seq<Destination>, d: Destination): seq<Destination> {
    if Lookup(seen, d.name).None? then seen + [d] else seen
  }

  function SetDefaults(seen: seq<Destination>, ds: seq<Destination>): seq<Destination> {
    if ds == [] then seen else SetDefault(SetDefaults(seen, ds[..|ds| - 1]), ds[|ds| - 1])
  }

  function RoutedFrom(cfg: Config, routes: seq<Route>, sender: string): seq<Destination> {
    if routes == [] then []
    else
      var front := RoutedFrom(cfg, routes[..|routes| - 1], sender);
      var r := routes[|routes| - 1];
      if Applies(r, sender) then SetDefaults(front, Expand(cfg, r)) else front
  }

  function RoutedDestinations(cfg: Config, sender: string): seq<Destination> {
    RoutedFrom(cfg, cfg.routes, sender)
  }

  function ByName(ds: seq<Destination>, name: Option<string>): seq<Destination> {
    if name.Some? then Filter(ds, (d: Destination) => d.name == name.value) else ds
  }

  function ByOwner(ds: seq<Destination>, principal: Option<string>): seq<Destination> {
    if principal.Some? then Filter(ds, (d: Destination) => d.principal == principal) else ds
  }

  function Resolve(cfg: Config, sender: string, name: Option<string>, principal: Option<string>): Resolution {
    var named := ByName(RoutedDestinations(cfg, sender), name);
    if name.Some? && named == [] then DestinationNotRouted
    else
      var owned := ByOwner(named, principal);
      if principal.Some? && owned == [] then PrincipalNotRouted else Resolved(owned)
  }

  // ── the loops of the source ────────────────────────────────────────────────

  method ComputeRouted(cfg: Config, sender: string) returns (seen: seq<Destination>)
    ensures seen == RoutedDestinations(cfg, sender)
    ensures ValidConfig(cfg) ==>
              NamesDistinct(seen) && forall d :: d in seen <==> Reachable(cfg, cfg.routes, sender, d)
  {
    if ValidConfig(cfg) { RoutedExactly(cfg, cfg.routes, sender); }
    seen := [];
    for i := 0 to |cfg.routes|
      invariant seen == RoutedFrom(cfg, cfg.routes[..i], sender)
    {
      var r := cfg.routes[i];
      assert cfg.routes[..i + 1][..i] == cfg.routes[..i];
      if Applies(r, sender) {
        var ds := Expand(cfg, r);
        ghost var before := seen;
        for j := 0 to |ds|
          invariant seen == SetDefaults(before, ds[..j])
        {
          assert ds[..j + 1][..j] == ds[..j];
          if Lookup(seen, ds[j].name).None? {
            seen := seen + [ds[j]];
          }
        }
        assert ds[..|ds|] == ds;
      }
    }
    assert cfg.routes[..|cfg.routes|] == cfg.routes;
  }

  // ── what resolution means ──────────────────────────────────────────────────

  ghost predicate NamesDistinct(ds: seq<Destination>) {
    forall i, j :: 0 <= i < j < |ds| ==> ds[i].name != ds[j].name
  }

  /**
   The route lets the sender reach the destination: it is the sender's own or
   everybody's, and it lists the destination, or lists none and names its owner.
   */
  ghost predicate Reaches(r: Route, sender: string, d: Destination) {
    && (r.sender == sender || r.sender == "*")
    && if r.destinations != [] then d.name in r.destinations
       else r.principal.Some? && r.principal.value != "" && d.principal == r.principal
  }

  ghost predicate Reachable(cfg: Config, routes: seq<Route>, sender: string, d: Destination) {
    d in cfg.destinations && exists r :: r in routes && Reaches(r, sender, d)
  }

  lemma LookupFinds(cfg: Config, d: Destination)
    requires ValidConfig(cfg) && d in cfg.destinations
    ensures Lookup(cfg.destinations, d.name) == Some(d)
  {
    SameName(cfg, d, Lookup(cfg.destinations, d.name).value);
  }

  lemma {:induction false} NamedMembers(cfg: Config, names: seq<string>)
    requires ValidConfig(cfg)
    ensures forall d :: d in Named(cfg.destinations, names) <==> d in cfg.destinations && d.name in names
  {
    if names != [] {
      var front, last := names[..|names| - 1], names[|names| - 1];
      NamedMembers(cfg, front);
      assert names == front + [last];
      forall d | d in cfg.destinations && d.name == last ensures d in Named(cfg.destinations, names) {
        LookupFinds(cfg, d);
      }
    }
  }

  /** A list of names denotes its destinations in the order of the list. */
  lemma {:induction false} NamedInOrder(ds: seq<Destination>, a: seq<string>, b: seq<string>)
    ensures Named(ds, a + b) == Named(ds, a) + Named(ds, b)
  {
    if b == [] {
      assert a + b == a;
    } else {
      NamedInOrder(ds, a, b[..|b| - 1]);
      assert (a + b)[..|a + b| - 1] == a + b[..|b| - 1];
    }
  }

  lemma ExpandMembers(cfg: Config, r: Route, sender: string)
    requires ValidConfig(cfg)
    ensures forall d :: Applies(r, sender) && d in Expand(cfg, r) <==> d in cfg.destinations && Reaches(r, sender, d)
  {
    NamedMembers(cfg, r.destinations);
  }

  lemma {:induction false} SetDefaultsMembers(cfg: Config, seen: seq<Destination>, ds: seq<Destination>)
    requires ValidConfig(cfg) && NamesDistinct(seen)
    requires forall d :: d in seen || d in ds ==> d in cfg.destinations
    ensures NamesDistinct(SetDefaults(seen, ds)) && seen <= SetDefaults(seen, ds)
    ensures forall d :: d in SetDefaults(seen, ds) <==> d in seen || d in ds
  {
    if ds != [] {
      var front, last := ds[..|ds| - 1], ds[|ds| - 1];
      SetDefaultsMembers(cfg, seen, front);
      var mid := SetDefaults(seen, front);
      assert forall d :: d in ds <==> d in front || d == last;
      match Lookup(mid, last.name)
      case Some(d) =>
        SameName(cfg, d, last);
      case None =>
    }
  }

  lemma SameName(cfg: Config, a: Destination, b: Destination)
    requires ValidConfig(cfg) && a in cfg.destinations && b in cfg.destinations && a.name == b.name
    ensures a == b
  {
    var i :| 0 <= i < |cfg.destinations| && cfg.destinations[i] == a;
    var j :| 0 <= j < |cfg.destinations| && cfg.destinations[j] == b;
    assert !(i < j) && !(j < i);
  }

  /** A sender reaches exactly what some route lets it reach, and each destination once. */
  lemma {:induction false} RoutedExactly(cfg: Config, routes: seq<Route>, sender: string)
    requires ValidConfig(cfg)
    ensures NamesDistinct(RoutedFrom(cfg, routes, sender))
    ensures forall d :: d in RoutedFrom(cfg, routes, sender) <==> Reachable(cfg, routes, sender, d)
  {
    if routes != [] {
      var front, r := routes[..|routes| - 1], routes[|routes| - 1];
      RoutedExactly(cfg, front, sender);
      ExpandMembers(cfg, r, sender);
      if Applies(r, sender) {
        SetDefaultsMembers(cfg, RoutedFrom(cfg, front, sender), Expand(cfg, r));
      }
      forall d ensures Reachable(cfg, routes, sender, d)
        <==> Reachable(cfg, front, sender, d) || (d in cfg.destinations && Reaches(r, sender, d))
      {
        ReachableSnoc(cfg, front, r, sender, d);
        assert routes == front + [r];
      }
    }
  }

  lemma ReachableSnoc(cfg: Config, front: seq<Route>, r: Route, sender: string, d: Destination)
    ensures Reachable(cfg, front + [r], sender, d)
      <==> Reachable(cfg, front, sender, d) || (d in cfg.destinations && Reaches(r, sender, d))
  {
    if Reachable(cfg, front, sender, d) {
      var q :| q in front && Reaches(q, sender, d);
      assert q in front + [r];
    }
    if Reaches(r, sender, d) {
      assert r in front + [r];
    }
  }

  /** Earlier routes come first: adding routes only appends to what a sender reaches. */
  lemma {:induction false} EarlierRoutesFirst(cfg: Config, routes: seq<Route>, n: nat, sender: string)
    requires ValidConfig(cfg) && n <= |routes|
    ensures RoutedFrom(cfg, routes[..n], sender) <= RoutedFrom(cfg, routes, sender)
    decreases |routes|
  {
    if n == |routes| {
      assert routes[..n] == routes;
    } else {
      var front, r := routes[..|routes| - 1], routes[|routes| - 1];
      EarlierRoutesFirst(cfg, front, n, sender);
      assert front[..n] == routes[..n];
      RoutedExactly(cfg, front, sender);
      if Applies(r, sender) {
        SetDefaultsMembers(cfg, RoutedFrom(cfg, front, sender), Expand(cfg, r));
      }
    }
  }

  ghost predicate Fits(d: Destination, name: Option<string>, principal: Option<string>) {
    (name.Some? ==> d.name == name.value) && (principal.Some? ==> d.principal == principal)
  }

  lemma {:induction false} FilterNamesDistinct(ds: seq<Destination>, keep: Destination -> bool)
    requires NamesDistinct(ds)
    ensures NamesDistinct(Filter(ds, keep))
  {
    if ds != [] {
      var front := ds[..|ds| - 1];
      FilterNamesDistinct(front, keep);
      forall d | d in Filter(front, keep) ensures d.name != ds[|ds| - 1].name {
        assert d in front;
      }
    }
  }

  lemma NameStage(ds: seq<Destination>, name: Option<string>)
    requires NamesDistinct(ds)
    ensures NamesDistinct(ByName(ds, name))
    ensures forall d :: d in ByName(ds, name) <==> d in ds && (name.Some? ==> d.name == name.value)
    ensures ByName(ds, name) != [] ==> exists d :: d in ByName(ds, name)
  {
    if name.Some? { FilterNamesDistinct(ds, (d: Destination) => d.name == name.value); }
    if ByName(ds, name) != [] { assert ByName(ds, name)[0] in ByName(ds, name); }
  }

  lemma OwnerStage(ds: seq<Destination>, principal: Option<string>)
    requires NamesDistinct(ds)
    ensures NamesDistinct(ByOwner(ds, principal))
    ensures forall d :: d in ByOwner(ds, principal) <==> d in ds && (principal.Some? ==> d.principal == principal)
  {
    if principal.Some? { FilterNamesDistinct(ds, (d: Destination) => d.principal == principal); }
  }

  /** A resolution is the routed destinations that fit, or says that none does. */
  lemma ResolveNarrows(cfg: Config, sender: string, name: Option<string>, principal: Option<string>)
    requires NamesDistinct(RoutedDestinations(cfg, sender))
    ensures var routed := RoutedDestinations(cfg, sender);
      match Resolve(cfg, sender, name, principal)
      case Resolved(ds) =>
        && NamesDistinct(ds)
        && (forall d :: d in ds <==> d in routed && Fits(d, name, principal))
        && (ds == [] ==> routed == [])
      case DestinationNotRouted =>
        name.Some? && forall d :: d in routed ==> d.name != name.value
      case PrincipalNotRouted =>
        && principal.Some?
        && (name.Some? ==> exists d :: d in routed && d.name == name.value)
        && (forall d :: d in routed ==> !Fits(d, name, principal))
  {
    var routed := RoutedDestinations(cfg, sender);
    NameStage(routed, name);
    OwnerStage(ByName(routed, name), principal);
  }

  /**
   Narrowing only ever narrows: a resolved event goes to exactly the destinations
   some route lets its sender reach that fit what it asked for, and it is refused
   exactly when it asked for something none of them fits.
   */
  lemma ResolveExactly(cfg: Config, sender: string, name: Option<string>, principal: Option<string>)
    requires ValidConfig(cfg)
    ensures match Resolve(cfg, sender, name, principal)
      case Resolved(ds) =>
        && NamesDistinct(ds)
        && (forall d :: d in ds <==> Reachable(cfg, cfg.routes, sender, d) && Fits(d, name, principal))
        && (ds == [] ==> forall d :: !Reachable(cfg, cfg.routes, sender, d))
      case DestinationNotRouted =>
        name.Some? && forall d :: Reachable(cfg, cfg.routes, sender, d) ==> d.name != name.value
      case PrincipalNotRouted =>
        && principal.Some?
        && (name.Some? ==> exists d :: Reachable(cfg, cfg.routes, sender, d) && d.name == name.value)
        && (forall d :: Reachable(cfg, cfg.routes, sender, d) ==> !Fits(d, name, principal))
  {
    RoutedExactly(cfg, cfg.routes, sender);
    ResolveNarrows(cfg, sender, name, principal);
    assert forall d :: d in RoutedDestinations(cfg, sender) <==> Reachable(cfg, cfg.routes, sender, d);
  }
}

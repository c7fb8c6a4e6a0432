/**
 Why migration preserves meaning, table by table, and exactly when.
 */
module MigrationMeaning {
  import opened Prelude
  import opened Json
  import opened Addressing
  import opened Loader
  import opened Migration

  // ── senders ────────────────────────────────────────────────────────────────

  lemma FindMigrated(info: Fields, k: string)
    requires k != "identity" && k != "principal_id"
    ensures Find(MigratedInfo(info), k) == Find(info, k)
  {
    FindWithout(info, "principal_id", k);
    FindPut(Without(info, "principal_id"), "identity", Get(info, "principal_id"), k);
  }

  lemma IdentityMigrated(info: Fields)
    requires OneIdentity(info) && NullOrName(IdentityOf(info))
    ensures IdentityOf(MigratedInfo(info)) == IdentityOf(info) == Get(info, "principal_id")
  {
    var entry := Without(info, "principal_id");
    FindWithout(info, "principal_id", "principal_id");
    FindWithout(info, "principal_id", "identity");
    FindPut(entry, "identity", Get(info, "principal_id"), "identity");
    FindPut(entry, "identity", Get(info, "principal_id"), "principal_id");
  }

  lemma SecretsMigrated(c: Checks, info: Fields)
    ensures SecretUris(c, MigratedInfo(info)) == SecretUris(c, info)
  {
    FindMigrated(info, "secret_env");
    FindMigrated(info, "secret");
    FindMigrated(info, "secrets");
  }

  lemma SettingsMigrated(info: Fields)
    ensures var moved := MigratedInfo(info);
      && Get(moved, "allowed_target_principals") == Get(info, "allowed_target_principals")
      && Get(moved, "allowed_trigger_identities") == Get(info, "allowed_trigger_identities")
      && Get(moved, "callback_url") == Get(info, "callback_url")
  {
    FindMigrated(info, "allowed_target_principals");
    FindMigrated(info, "allowed_trigger_identities");
    FindMigrated(info, "callback_url");
  }

  lemma SenderMigrated(c: Checks, fallback: Value, key: string, info: Fields)
    requires SenderOf(c, fallback, Field(key, Obj(info))).Some? && OneIdentity(info)
    ensures SenderOf(c, fallback, Field(key, Obj(MigratedInfo(info)))) == SenderOf(c, fallback, Field(key, Obj(info)))
  {
    SecretsMigrated(c, info);
    IdentityMigrated(info);
    SettingsMigrated(info);
  }

  // ── the keys of the migrated document ──────────────────────────────────────

  lemma {:induction false} CarriedFind(raw: Fields, keys: seq<string>, k: string)
    ensures Find(Carried(raw, keys), k) == if k in keys then Find(raw, k) else None
  {
    if keys != [] {
      var n := |keys| - 1;
      var front := Carried(raw, keys[..n]);
      CarriedFind(raw, keys[..n], k);
      assert keys == keys[..n] + [keys[n]];
      FindSnoc(front, Field(keys[n], Get(raw, keys[n])), k);
      assert front + [] == front;
    }
  }

  lemma AssembledFind(raw: Fields, sources: Fields, d: Derived, k: string)
    requires AllObjects(sources)
    ensures Find(Assemble(raw, sources, d), k) ==
      if k == "routes" then Some(List(MigratedRoutes(d.destinations)))
      else if k == "destinations" then Some(Obj(MigratedDestinations(d.destinations)))
      else if k == "principals" then Some(Obj(MigratedPrincipals(d.principals)))
      else if k == "senders" then Some(Obj(MigratedSenders(sources)))
      else if k in PASSTHROUGH && Has(raw, k) then Find(raw, k)
      else if k == "version" then Some(Int(2))
      else None
  {
    var version := [Field("version", Int(2))];
    var m0 := version + Carried(raw, PASSTHROUGH);
    FindConcat(version, Carried(raw, PASSTHROUGH), k);
    CarriedFind(raw, PASSTHROUGH, k);
    FindSingle(version[0], k);
    var m1 := m0 + [Field("senders", Obj(MigratedSenders(sources)))];
    FindSnoc(m0, Field("senders", Obj(MigratedSenders(sources))), k);
    var m2 := m1 + [Field("principals", Obj(MigratedPrincipals(d.principals)))];
    FindSnoc(m1, Field("principals", Obj(MigratedPrincipals(d.principals))), k);
    var m3 := m2 + [Field("destinations", Obj(MigratedDestinations(d.destinations)))];
    FindSnoc(m2, Field("destinations", Obj(MigratedDestinations(d.destinations))), k);
    FindSnoc(m3, Field("routes", List(MigratedRoutes(d.destinations))), k);
  }

  lemma KeysCarried(raw: Fields, sources: Fields, d: Derived)
    requires AllObjects(sources)
    ensures var m := Assemble(raw, sources, d);
      && Get(m, "vault") == Get(raw, "vault")
      && Get(m, "listen") == Get(raw, "listen")
      && Get(m, "state") == Get(raw, "state")
      && Get(m, "default_callback_url") == Get(raw, "default_callback_url")
  {
    AssembledFind(raw, sources, d, "vault");
    AssembledFind(raw, sources, d, "listen");
    AssembledFind(raw, sources, d, "state");
    AssembledFind(raw, sources, d, "default_callback_url");
    assert PASSTHROUGH[4] == "vault" && PASSTHROUGH[0] == "listen" && PASSTHROUGH[3] == "state"
        && PASSTHROUGH[2] == "default_callback_url";
  }

  lemma KeyDropped(raw: Fields, sources: Fields, d: Derived, k: string)
    requires AllObjects(sources)
    requires k !in PASSTHROUGH && k != "version"
    requires k != "senders" && k != "principals" && k != "destinations" && k != "routes"
    ensures !Has(Assemble(raw, sources, d), k)
  {
    AssembledFind(raw, sources, d, k);
  }

  lemma KeysDropped(raw: Fields, sources: Fields, d: Derived)
    requires AllObjects(sources)
    ensures var m := Assemble(raw, sources, d);
      !Has(m, "sources") && !Has(m, "routing") && !Has(m, "delivery") && !Has(m, "wake")
  {
    KeyDropped(raw, sources, d, "sources");
    KeyDropped(raw, sources, d, "routing");
    KeyDropped(raw, sources, d, "delivery");
    KeyDropped(raw, sources, d, "wake");
  }

  lemma KeysWritten(raw: Fields, sources: Fields, d: Derived)
    requires AllObjects(sources)
    ensures var m := Assemble(raw, sources, d);
      && Find(m, "senders") == Some(Obj(MigratedSenders(sources)))
      && Find(m, "principals") == Some(Obj(MigratedPrincipals(d.principals)))
      && Find(m, "destinations") == Some(Obj(MigratedDestinations(d.destinations)))
      && Find(m, "routes") == Some(List(MigratedRoutes(d.destinations)))
      && Find(m, "version") == Some(Int(2))
  {
    AssembledFind(raw, sources, d, "senders");
    AssembledFind(raw, sources, d, "principals");
    AssembledFind(raw, sources, d, "destinations");
    AssembledFind(raw, sources, d, "routes");
    AssembledFind(raw, sources, d, "version");
  }

  lemma BlocksMigrated(c: Checks, raw: Fields, sources: Fields, d: Derived)
    requires AllObjects(sources) && FrameOk(c, raw)
    ensures BlocksOk(c, Assemble(raw, sources, d))
  {
    KeysCarried(raw, sources, d);
    KeysDropped(raw, sources, d);
  }

  lemma ShapeMigrated(raw: Fields, sources: Fields, d: Derived)
    requires AllObjects(sources)
    ensures var m := Assemble(raw, sources, d);
      TablesAreObjects(m) && VersionOk(m) && !MixesVocabularies(m) && UsesV2(m)
  {
    KeysDropped(raw, sources, d);
    KeysWritten(raw, sources, d);
  }

  lemma FrameMigrated(c: Checks, raw: Fields, sources: Fields, d: Derived)
    requires AllObjects(sources) && FrameOk(c, raw)
    ensures FrameOk(c, Assemble(raw, sources, d)) && UsesV2(Assemble(raw, sources, d))
  {
    BlocksMigrated(c, raw, sources, d);
    ShapeMigrated(raw, sources, d);
  }

  // ── what an accepted v1 document looks like ────────────────────────────────

  /** The parts of an accepted v1 document. */
  ghost predicate Legible(c: Checks, raw: Fields, sources: Fields, senders: seq<Sender>, rows: Fields, delivery: seq<Principal>) {
    && FrameOk(c, raw) && !UsesV2(raw) && RoutingReadable(raw)
    && Get(raw, "sources") == Obj(sources) && sources != []
    && Traverse(SenderCheck(c, Get(raw, "default_callback_url")), sources) == Some(senders)
    && Rows(Get(raw, "delivery")) == Some(rows)
    && Traverse(DeliveryCheck(c), rows) == Some(delivery)
  }

  lemma SourcesAreObjects(c: Checks, raw: Fields, sources: Fields, senders: seq<Sender>, rows: Fields, delivery: seq<Principal>)
    requires Legible(c, raw, sources, senders, rows, delivery)
    ensures AllObjects(sources) && |senders| == |sources|
    ensures forall i :: 0 <= i < |sources| ==>
              SenderOf(c, Get(raw, "default_callback_url"), sources[i]) == Some(senders[i])
  {
    var check := SenderCheck(c, Get(raw, "default_callback_url"));
    TraverseEach(check, sources);
    forall i | 0 <= i < |sources|
      ensures sources[i].value.Obj? && SenderOf(c, Get(raw, "default_callback_url"), sources[i]) == Some(senders[i])
    {
      assert check(sources[i]) == Some(senders[i]);
    }
  }

  // ── principals ─────────────────────────────────────────────────────────────

  /** What the destinations add to a table of principals depends on the names already there alone. */
  lemma {:induction false} MaterialiseParallel(a: Fields, b: Fields, ds: seq<Legacy>)
    requires |a| == |b| && forall i :: 0 <= i < |a| ==> a[i].key == b[i].key
    ensures Materialise(a, ds).Some? == Materialise(b, ds).Some?
    ensures Materialise(a, ds).Some? ==>
              var x, y := Materialise(a, ds).value, Materialise(b, ds).value;
              && |x| == |y| && a <= x && b <= y
              && (forall i :: |a| <= i < |x| ==> x[i] == y[i] && x[i].value == Obj([]) && x[i].key != "")
  {
    if ds != [] {
      var n := |ds| - 1;
      MaterialiseParallel(a, b, ds[..n]);
      if Materialise(a, ds[..n]).Some? && ds[n].principal.Str? {
        var x, y := Materialise(a, ds[..n]).value, Materialise(b, ds[..n]).value;
        assert forall i :: 0 <= i < |x| ==> x[i].key == y[i].key;
        SameKeysHave(x, y, ds[n].principal.s);
      }
    }
  }

  lemma SameKeysHave(x: Fields, y: Fields, k: string)
    requires |x| == |y| && forall i :: 0 <= i < |x| ==> x[i].key == y[i].key
    ensures Has(x, k) == Has(y, k)
  {
  }

  /** Every principal a destination names is in the table, and nothing in the table is lost. */
  lemma {:induction false} MaterialiseKnows(base: Fields, ds: seq<Legacy>)
    requires Materialise(base, ds).Some?
    ensures base <= Materialise(base, ds).value
    ensures forall i :: 0 <= i < |ds| && Truthy(ds[i].principal) ==>
              ds[i].principal.Str? && Has(Materialise(base, ds).value, ds[i].principal.s)
  {
    if ds != [] {
      var n := |ds| - 1;
      var front := ds[..n];
      MaterialiseKnows(base, front);
      var before, after := Materialise(base, front).value, Materialise(base, ds).value;
      forall i | 0 <= i < n && Truthy(ds[i].principal) ensures ds[i].principal.Str? && Has(after, ds[i].principal.s) {
        assert front[i] == ds[i];
        var p := ds[i].principal.s;
        assert Has(before, p);
        if after != before {
          FindSnoc(before, after[|after| - 1], p);
          assert after == before + [after[|after| - 1]];
        }
      }
      if Truthy(ds[n].principal) && !Has(before, ds[n].principal.s) {
        FindSnoc(before, Field(ds[n].principal.s, Obj([])), ds[n].principal.s);
      }
    }
  }

  lemma MigratedPrincipalReads(c: Checks, pid: string, channels: Fields)
    requires pid != ""
    ensures PrincipalOf(c, Field(pid, Obj([Field("channels", Obj(channels))]))) == PrincipalWith(c, pid, channels)
  {
    var entry := [Field("channels", Obj(channels))];
    FindSingle(entry[0], "channels");
    assert forall g :: g in entry ==> g.key == "channels";
  }

  /** The v2 loader reads the migrated principals as the v1 loader derived them. */
  lemma PrincipalsMigrated(c: Checks, rows: Fields, delivery: seq<Principal>, ds: seq<Legacy>)
    requires Traverse(DeliveryCheck(c), rows) == Some(delivery)
    requires Materialise(AsFields(delivery), ds).Some?
    ensures Materialise(rows, ds).Some?
    ensures Traverse(PrincipalCheck(c), MigratedPrincipals(Materialise(rows, ds).value))
         == Some(AsPrincipals(Materialise(AsFields(delivery), ds).value))
  {
    TraverseEach(DeliveryCheck(c), rows);
    forall i | 0 <= i < |rows| ensures rows[i].key == delivery[i].id && DeliveryOf(c, rows[i]) == Some(delivery[i]) {
      assert DeliveryCheck(c)(rows[i]) == Some(delivery[i]);
    }
    MaterialiseParallel(AsFields(delivery), rows, ds);
    var x, y := Materialise(AsFields(delivery), ds).value, Materialise(rows, ds).value;
    var want, got := AsPrincipals(x), MigratedPrincipals(y);
    forall i | 0 <= i < |y| ensures PrincipalCheck(c)(got[i]) == Some(want[i]) {
      if i < |rows| {
        assert y[i] == rows[i] && x[i] == AsFields(delivery)[i];
        MigratedPrincipalReads(c, rows[i].key, rows[i].value.fields);
      } else {
        MigratedPrincipalReads(c, y[i].key, []);
      }
    }
    TraverseIs(PrincipalCheck(c), got, want);
  }

  lemma TraverseIs<T, U>(check: T -> Option<U>, xs: seq<T>, ys: seq<U>)
    requires |xs| == |ys| && forall i :: 0 <= i < |xs| ==> check(xs[i]) == Some(ys[i])
    ensures Traverse(check, xs) == Some(ys)
  {
    TraverseEach(check, xs);
    forall i | 0 <= i < |xs| ensures Traverse(check, xs).value[i] == ys[i] {
      assert check(xs[i]) == Some(ys[i]);
    }
    assert Traverse(check, xs).value == ys;
  }

  // ── destinations and routes ────────────────────────────────────────────────

  lemma NonNullFind(a: string, v: Value, k: string)
    ensures Find(NonNull(a, v), k) == if k == a && !v.Null? then Some(v) else None
  {
    if !v.Null? {
      FindSingle(Field(a, v), k);
    }
  }

  lemma DestinationFields(d: Legacy, k: string)
    ensures Get(MigratedDestination(d).value.fields, k)
         == if k == "principal" then d.principal else if k == "adapter" then d.adapter else Null
  {
    FindConcat(NonNull("adapter", d.adapter), NonNull("principal", d.principal), k);
    NonNullFind("adapter", d.adapter, k);
    NonNullFind("principal", d.principal, k);
  }

  /** Exactly which derived destinations the v2 loader takes, and as what. */
  lemma DestinationReads(principals: seq<Principal>, d: Legacy)
    ensures DestinationOf(principals, MigratedDestination(d)) ==
      if d.name != "" && NullOrName(d.adapter) && NullOrName(d.principal)
         && (d.principal.Str? ==> Known(principals, d.principal.s))
      then Some(Destination(d.name, Text(d.adapter), None, Text(d.principal), None))
      else None
  {
    DestinationFields(d, "adapter");
    DestinationFields(d, "session");
    DestinationFields(d, "principal");
    DestinationFields(d, "max_connections");
  }

  lemma DestinationsMigrated(principals: seq<Principal>, ds: seq<Legacy>)
    requires forall i :: 0 <= i < |ds| ==>
               ds[i].name != "" && NullOrName(ds[i].adapter) && NullOrName(ds[i].principal)
               && (ds[i].principal.Str? ==> Known(principals, ds[i].principal.s))
    ensures Traverse(DestinationCheck(principals), MigratedDestinations(ds)) == Some(LegacyTable(ds))
  {
    var rows := MigratedDestinations(ds);
    forall i | 0 <= i < |ds| ensures DestinationCheck(principals)(rows[i]) == Some(LegacyTable(ds)[i]) {
      DestinationReads(principals, ds[i]);
    }
    TraverseIs(DestinationCheck(principals), rows, LegacyTable(ds));
  }

  /** The routes of the migrated file: the same edges, without the redundant owner. */
  function PlainRoutes(ds: seq<Legacy>): seq<Route> {
    seq(|ds|, i requires 0 <= i < |ds| => Route(ds[i].name, None, [ds[i].name]))
  }

  lemma RouteFields(name: string)
    ensures var v := MigratedRoute(name).fields;
      Get(v, "sender") == Str(name) && Get(v, "destinations") == List([Str(name)]) && Get(v, "principal") == Null
  {
    var a, b := Field("sender", Str(name)), Field("destinations", List([Str(name)]));
    assert MigratedRoute(name).fields == [a] + [b];
    FindSingle(a, "sender");
    FindSingle(a, "principal");
    FindSnoc([a], b, "sender");
    FindSnoc([a], b, "destinations");
    FindSnoc([a], b, "principal");
  }

  lemma OneName(name: string)
    requires name != ""
    ensures Traverse(NameOf(), [Str(name)]) == Some([name])
  {
    TraverseIs(NameOf(), [Str(name)], [name]);
  }

  lemma RouteReads(senders: seq<Sender>, destinations: seq<Destination>, principals: seq<Principal>, name: string)
    requires name != ""
    requires exists s :: s in senders && s.name == name
    requires exists d :: d in destinations && d.name == name
    ensures RouteOf(senders, destinations, principals, MigratedRoute(name)) == Some(Route(name, None, [name]))
  {
    RouteFields(name);
    OneName(name);
    assert Lookup(destinations, name).Some?;
  }

  lemma RoutesMigrated(senders: seq<Sender>, principals: seq<Principal>, ds: seq<Legacy>)
    requires |senders| == |ds| && forall i :: 0 <= i < |ds| ==> senders[i].name == ds[i].name && ds[i].name != ""
    ensures Traverse(RouteCheck(senders, LegacyTable(ds), principals), MigratedRoutes(ds)) == Some(PlainRoutes(ds))
  {
    var table := LegacyTable(ds);
    var check := RouteCheck(senders, table, principals);
    var rows, want := MigratedRoutes(ds), PlainRoutes(ds);
    forall i | 0 <= i < |ds| ensures check(rows[i]) == Some(want[i]) {
      assert senders[i] in senders && table[i] in table;
      assert table[i].name == ds[i].name;
      RouteReads(senders, table, principals, ds[i].name);
    }
    TraverseIs(check, rows, want);
  }

  /** A route's owner does not matter while the route names its destinations. */
  lemma {:induction false} OwnersIrrelevant(ds: seq<Destination>, a: seq<Route>, b: seq<Route>, sender: string)
    requires |a| == |b|
    requires forall i :: 0 <= i < |a| ==>
               a[i].sender == b[i].sender && a[i].destinations == b[i].destinations && a[i].destinations != []
    ensures RoutedFrom(Config(ds, a, None), a, sender) == RoutedFrom(Config(ds, b, None), b, sender)
  {
    RoutedSame(Config(ds, a, None), Config(ds, b, None), a, b, sender);
  }

  lemma {:induction false} RoutedSame(x: Config, y: Config, a: seq<Route>, b: seq<Route>, sender: string)
    requires x.destinations == y.destinations && |a| == |b|
    requires forall i :: 0 <= i < |a| ==>
               a[i].sender == b[i].sender && a[i].destinations == b[i].destinations && a[i].destinations != []
    ensures RoutedFrom(x, a, sender) == RoutedFrom(y, b, sender)
  {
    if a != [] {
      var n := |a| - 1;
      RoutedSame(x, y, a[..n], b[..n], sender);
      assert Expand(x, a[n]) == Expand(y, b[n]);
    }
  }

  lemma RoutedMigrated(ds: seq<Legacy>, sender: string)
    ensures RoutedDestinations(Config(LegacyTable(ds), LegacyRoutes(ds), None), sender)
         == RoutedDestinations(Config(LegacyTable(ds), PlainRoutes(ds), None), sender)
  {
    OwnersIrrelevant(LegacyTable(ds), LegacyRoutes(ds), PlainRoutes(ds), sender);
  }

  // ── both loads, taken apart ────────────────────────────────────────────────

  /** An accepted v1 document is legible, and its model is the derived one. */
  lemma LoadedV1(c: Checks, raw: Fields)
    returns (sources: Fields, senders: seq<Sender>, rows: Fields, delivery: seq<Principal>)
    requires Load(c, Obj(raw)).Some? && !UsesV2(raw)
    ensures Legible(c, raw, sources, senders, rows, delivery)
    ensures SendersNeedVault(senders) || DeliveryNeedsVault(delivery) ==> Truthy(Get(raw, "vault"))
    ensures DeriveFromLegacy(Identities(senders), Get(raw, "routing"), AsFields(delivery)).Some?
    ensures var d := DeriveFromLegacy(Identities(senders), Get(raw, "routing"), AsFields(delivery)).value;
      Load(c, Obj(raw)).value == Model(senders, LegacyTable(d.destinations), LegacyRoutes(d.destinations),
                                       AsPrincipals(d.principals), delivery)
  {
    sources := Get(raw, "sources").fields;
    senders := Traverse(SenderCheck(c, Get(raw, "default_callback_url")), sources).value;
    rows := Rows(Get(raw, "delivery")).value;
    delivery := Traverse(DeliveryCheck(c), rows).value;
  }

  lemma MigratedParts(c: Checks, raw: Fields, sources: Fields, senders: seq<Sender>, rows: Fields, delivery: seq<Principal>)
    requires Legible(c, raw, sources, senders, rows, delivery)
    ensures AllObjects(sources)
    ensures var d := DeriveFromLegacy(PrincipalIds(sources), Get(raw, "routing"), rows);
      MigrateRaw(raw) == if d.None? then None else Some(Assemble(raw, sources, d.value))
  {
    SourcesAreObjects(c, raw, sources, senders, rows, delivery);
  }

  lemma TablesV2Is(c: Checks, raw: Fields, principals: Fields, destinations: Fields, routes: seq<Value>, senders: seq<Sender>)
    requires Get(raw, "principals") == Obj(principals)
    requires Get(raw, "destinations") == Obj(destinations)
    requires Get(raw, "routes") == List(routes)
    ensures TablesV2(c, raw, senders) == TablesFrom(c, principals, destinations, routes, senders)
  {
  }

  lemma TablesRead(c: Checks, raw: Fields, sources: Fields, d: Derived, senders: seq<Sender>)
    requires AllObjects(sources)
    ensures TablesV2(c, Assemble(raw, sources, d), senders)
         == TablesFrom(c, MigratedPrincipals(d.principals), MigratedDestinations(d.destinations),
                       MigratedRoutes(d.destinations), senders)
  {
    KeysWritten(raw, sources, d);
    TablesV2Is(c, Assemble(raw, sources, d), MigratedPrincipals(d.principals), MigratedDestinations(d.destinations),
               MigratedRoutes(d.destinations), senders);
  }

  /** How the loader reads a document in the v2 vocabulary. */
  lemma LoadIs(c: Checks, m: Fields, table: Fields)
    requires FrameOk(c, m) && UsesV2(m) && Get(m, "senders") == Obj(table) && table != []
    ensures var senders := Traverse(SenderCheck(c, Get(m, "default_callback_url")), table);
      var t := if senders.None? then None else TablesV2(c, m, senders.value);
      Load(c, Obj(m)) ==
        if t.None? || ((SendersNeedVault(senders.value) || DeliveryNeedsVault(t.value.delivery)) && !Truthy(Get(m, "vault")))
        then None else t
  {
  }

  lemma LoadedV2(c: Checks, raw: Fields, sources: Fields, d: Derived)
    requires AllObjects(sources) && sources != [] && FrameOk(c, raw)
    ensures var m := Assemble(raw, sources, d);
      var senders := Traverse(SenderCheck(c, Get(raw, "default_callback_url")), MigratedSenders(sources));
      var t := if senders.None? then None else TablesV2(c, m, senders.value);
      Load(c, Obj(m)) ==
        if t.None? || ((SendersNeedVault(senders.value) || DeliveryNeedsVault(t.value.delivery)) && !Truthy(Get(raw, "vault")))
        then None else t
  {
    FrameMigrated(c, raw, sources, d);
    KeysWritten(raw, sources, d);
    KeysCarried(raw, sources, d);
    LoadIs(c, Assemble(raw, sources, d), MigratedSenders(sources));
  }

  lemma SendersMigrated(c: Checks, raw: Fields, sources: Fields, senders: seq<Sender>, rows: Fields, delivery: seq<Principal>)
    requires Legible(c, raw, sources, senders, rows, delivery) && Portable(raw)
    ensures AllObjects(sources)
    ensures Traverse(SenderCheck(c, Get(raw, "default_callback_url")), MigratedSenders(sources)) == Some(senders)
    ensures Identities(senders) == PrincipalIds(sources)
  {
    SourcesAreObjects(c, raw, sources, senders, rows, delivery);
    var check := SenderCheck(c, Get(raw, "default_callback_url"));
    var moved := MigratedSenders(sources);
    forall i | 0 <= i < |sources|
      ensures check(moved[i]) == Some(senders[i]) && Identities(senders)[i] == PrincipalIds(sources)[i]
    {
      assert PortableSource(Get(raw, "routing"), sources[i]);
      SenderMigrated(c, Get(raw, "default_callback_url"), sources[i].key, sources[i].value.fields);
      IdentityMigrated(sources[i].value.fields);
    }
    TraverseIs(check, moved, senders);
  }

  /** A routing entry of an accepted v1 document names an adapter by text, or none. */
  lemma AdapterIsText(raw: Fields, name: string)
    requires RoutingReadable(raw)
    ensures AdapterFor(Get(raw, "routing"), name).Null? || AdapterFor(Get(raw, "routing"), name).Str?
  {
    var routing := Get(raw, "routing");
    if routing.Obj? && Get(routing.fields, name).Obj? {
      var i :| 0 <= i < |routing.fields| && routing.fields[i] == Field(name, Get(routing.fields, name));
      assert routing.fields[i] in routing.fields;
    }
  }

  lemma AliasNeedsVault(delivery: seq<Principal>, ds: seq<Legacy>)
    requires Materialise(AsFields(delivery), ds).Some?
    ensures var ps := AsPrincipals(Materialise(AsFields(delivery), ds).value);
      DeliveryNeedsVault(WithChannels(ps)) ==> DeliveryNeedsVault(delivery)
  {
    var base := AsFields(delivery);
    MaterialiseParallel(base, base, ds);
    var x := Materialise(base, ds).value;
    var ps := AsPrincipals(x);
    if DeliveryNeedsVault(WithChannels(ps)) {
      var p :| p in WithChannels(ps) && exists f :: f in p.channels && ChannelNeedsVault(f);
      var i :| 0 <= i < |ps| && ps[i] == p;
      assert i < |base|;
      assert x[i] == base[i] && p == delivery[i];
    }
  }

  // ── the theorem ────────────────────────────────────────────────────────────

  /** What the v2 loader makes of the migrated form of a portable document. */
  function MovedModel(senders: seq<Sender>, d: Derived): Model {
    var ps := AsPrincipals(d.principals);
    Model(senders, LegacyTable(d.destinations), PlainRoutes(d.destinations), ps, WithChannels(ps))
  }

  /** In a portable v1 document every derived destination is one the v2 loader takes. */
  lemma DerivedDestinations(c: Checks, raw: Fields, sources: Fields, senders: seq<Sender>, rows: Fields, delivery: seq<Principal>)
    requires Legible(c, raw, sources, senders, rows, delivery) && Portable(raw)
    requires DeriveFromLegacy(Identities(senders), Get(raw, "routing"), AsFields(delivery)).Some?
    ensures var d := DeriveFromLegacy(Identities(senders), Get(raw, "routing"), AsFields(delivery)).value;
      && |d.destinations| == |senders|
      && forall i :: 0 <= i < |senders| ==>
           && d.destinations[i].name == senders[i].name != ""
           && NullOrName(d.destinations[i].adapter) && NullOrName(d.destinations[i].principal)
           && (d.destinations[i].principal.Str? ==> Known(AsPrincipals(d.principals), d.destinations[i].principal.s))
  {
    SourcesAreObjects(c, raw, sources, senders, rows, delivery);
    var d := DeriveFromLegacy(Identities(senders), Get(raw, "routing"), AsFields(delivery)).value;
    MaterialiseKnows(AsFields(delivery), d.destinations);
    forall i | 0 <= i < |senders|
      ensures d.destinations[i].name == senders[i].name != ""
      ensures NullOrName(d.destinations[i].adapter) && NullOrName(d.destinations[i].principal)
      ensures d.destinations[i].principal.Str? ==> Known(AsPrincipals(d.principals), d.destinations[i].principal.s)
    {
      assert PortableSource(Get(raw, "routing"), sources[i]);
      AdapterIsText(raw, senders[i].name);
      if d.destinations[i].principal.Str? {
        HasMeansKnown(d.principals, d.destinations[i].principal.s);
      }
    }
  }

  lemma HasMeansKnown(ps: Fields, id: string)
    requires Has(ps, id)
    ensures Known(AsPrincipals(ps), id)
  {
    var i :| 0 <= i < |ps| && ps[i] == Field(id, Get(ps, id));
    assert AsPrincipals(ps)[i] in AsPrincipals(ps);
  }

  /** The migrated tables, checked by the v2 validators. */
  lemma TablesMove(c: Checks, raw: Fields, sources: Fields, senders: seq<Sender>, rows: Fields, delivery: seq<Principal>)
    requires Legible(c, raw, sources, senders, rows, delivery) && Portable(raw)
    requires DeriveFromLegacy(Identities(senders), Get(raw, "routing"), AsFields(delivery)).Some?
    ensures var d := DeriveFromLegacy(Identities(senders), Get(raw, "routing"), AsFields(delivery)).value;
      && Materialise(rows, d.destinations).Some?
      && TablesFrom(c, MigratedPrincipals(Materialise(rows, d.destinations).value), MigratedDestinations(d.destinations),
                    MigratedRoutes(d.destinations), senders) == Some(MovedModel(senders, d))
  {
    var d := DeriveFromLegacy(Identities(senders), Get(raw, "routing"), AsFields(delivery)).value;
    PrincipalsMigrated(c, rows, delivery, d.destinations);
    DerivedDestinations(c, raw, sources, senders, rows, delivery);
    DestinationsMigrated(AsPrincipals(d.principals), d.destinations);
    RoutesMigrated(senders, AsPrincipals(d.principals), d.destinations);
  }

  lemma PortableMigrates(c: Checks, raw: Fields, sources: Fields, senders: seq<Sender>, rows: Fields, delivery: seq<Principal>)
    requires Legible(c, raw, sources, senders, rows, delivery) && Portable(raw)
    requires DeriveFromLegacy(Identities(senders), Get(raw, "routing"), AsFields(delivery)).Some?
    ensures AllObjects(sources)
    ensures var ds := LegacyDestinations(Identities(senders), Get(raw, "routing"));
      && Materialise(rows, ds).Some?
      && MigrateRaw(raw) == Some(Assemble(raw, sources, Derived(ds, Materialise(rows, ds).value)))
  {
    var ds := LegacyDestinations(Identities(senders), Get(raw, "routing"));
    SendersMigrated(c, raw, sources, senders, rows, delivery);
    PrincipalsMigrated(c, rows, delivery, ds);
    MigratedParts(c, raw, sources, senders, rows, delivery);
  }

  lemma PortableMoves(c: Checks, raw: Fields, sources: Fields, senders: seq<Sender>, rows: Fields, delivery: seq<Principal>)
    requires Legible(c, raw, sources, senders, rows, delivery) && Portable(raw)
    requires SendersNeedVault(senders) || DeliveryNeedsVault(delivery) ==> Truthy(Get(raw, "vault"))
    requires DeriveFromLegacy(Identities(senders), Get(raw, "routing"), AsFields(delivery)).Some?
    ensures MigrateRaw(raw).Some?
    ensures Load(c, Obj(MigrateRaw(raw).value))
         == Some(MovedModel(senders, DeriveFromLegacy(Identities(senders), Get(raw, "routing"), AsFields(delivery)).value))
  {
    var d := DeriveFromLegacy(Identities(senders), Get(raw, "routing"), AsFields(delivery)).value;
    PortableMigrates(c, raw, sources, senders, rows, delivery);
    TablesMove(c, raw, sources, senders, rows, delivery);
    var moved := Derived(d.destinations, Materialise(rows, d.destinations).value);
    SendersMigrated(c, raw, sources, senders, rows, delivery);
    AliasNeedsVault(delivery, d.destinations);
    LoadedV2(c, raw, sources, moved);
    TablesRead(c, raw, sources, moved, senders);
  }

  /** Sufficient: a portable document keeps its meaning. */
  lemma PortablePreserved(c: Checks, raw: Fields)
    requires Load(c, Obj(raw)).Some? && !UsesV2(raw) && Portable(raw)
    ensures Preserved(c, raw)
  {
    var sources, senders, rows, delivery := LoadedV1(c, raw);
    PortableMoves(c, raw, sources, senders, rows, delivery);
    var d := DeriveFromLegacy(Identities(senders), Get(raw, "routing"), AsFields(delivery)).value;
    var a, b := Load(c, Obj(raw)).value, Load(c, Obj(MigrateRaw(raw).value)).value;
    forall s ensures RoutedDestinations(RoutingOf(a), s) == RoutedDestinations(RoutingOf(b), s) {
      RoutedMigrated(d.destinations, s);
    }
  }

  /** A source whose destination the v2 loader takes, with the owner the v1 loader gave it, is portable. */
  lemma SourcePortable(principals: seq<Principal>, routing: Value, f: Field)
    requires f.value.Obj? && NullOrName(IdentityOf(f.value.fields))
    requires var l := Legacy(f.key, AdapterFor(routing, f.key), Get(f.value.fields, "principal_id"));
      && DestinationOf(principals, MigratedDestination(l)).Some?
      && DestinationOf(principals, MigratedDestination(l)).value.principal == Text(IdentityOf(f.value.fields))
    ensures PortableSource(routing, f)
  {
    DestinationReads(principals, Legacy(f.key, AdapterFor(routing, f.key), Get(f.value.fields, "principal_id")));
  }

  lemma TablesEach(c: Checks, raw: Fields, sources: Fields, d: Derived)
    requires AllObjects(sources) && sources != [] && FrameOk(c, raw) && Load(c, Obj(Assemble(raw, sources, d))).Some?
    ensures var b := Load(c, Obj(Assemble(raw, sources, d))).value;
      && |b.destinations| == |d.destinations|
      && forall i :: 0 <= i < |d.destinations| ==>
           DestinationOf(b.principals, MigratedDestination(d.destinations[i])) == Some(b.destinations[i])
  {
    LoadedV2(c, raw, sources, d);
    var b := Load(c, Obj(Assemble(raw, sources, d))).value;
    TablesRead(c, raw, sources, d, b.senders);
    var check, moved := DestinationCheck(b.principals), MigratedDestinations(d.destinations);
    assert Traverse(check, moved) == Some(b.destinations);
    TraverseEach(check, moved);
    forall i | 0 <= i < |d.destinations|
      ensures DestinationOf(b.principals, MigratedDestination(d.destinations[i])) == Some(b.destinations[i])
    {
      assert check(moved[i]) == Some(b.destinations[i]);
    }
  }

  /** Necessary: a document that keeps its meaning is portable. */
  lemma PreservedPortable(c: Checks, raw: Fields)
    requires !UsesV2(raw) && Preserved(c, raw)
    ensures Portable(raw)
  {
    var sources, senders, rows, delivery := LoadedV1(c, raw);
    MigratedParts(c, raw, sources, senders, rows, delivery);
    var d := DeriveFromLegacy(PrincipalIds(sources), Get(raw, "routing"), rows).value;
    TablesEach(c, raw, sources, d);
    var b := Load(c, Obj(Assemble(raw, sources, d))).value;
    assert b.destinations == LegacyTable(LegacyDestinations(Identities(senders), Get(raw, "routing")));
    SourcesPortable(c, raw, sources, senders, rows, delivery, b.principals);
  }

  /** The v2 loader took every derived destination, with the owner the v1 loader gave it. */
  lemma SourcesPortable(c: Checks, raw: Fields, sources: Fields, senders: seq<Sender>, rows: Fields, delivery: seq<Principal>,
                        principals: seq<Principal>)
    requires Legible(c, raw, sources, senders, rows, delivery) && AllObjects(sources) && |senders| == |sources|
    requires forall i :: 0 <= i < |sources| ==>
               DestinationOf(principals, MigratedDestination(LegacyDestinations(PrincipalIds(sources), Get(raw, "routing"))[i]))
               == Some(LegacyTable(LegacyDestinations(Identities(senders), Get(raw, "routing")))[i])
    ensures Portable(raw)
  {
    SourcesAreObjects(c, raw, sources, senders, rows, delivery);
    forall i | 0 <= i < |sources| ensures PortableSource(Get(raw, "routing"), sources[i]) {
      SenderOwner(c, Get(raw, "default_callback_url"), sources[i]);
      assert LegacyTable(LegacyDestinations(Identities(senders), Get(raw, "routing")))[i].principal == senders[i].identity;
      SourcePortable(principals, Get(raw, "routing"), sources[i]);
    }
  }

  lemma SenderOwner(c: Checks, fallback: Value, f: Field)
    requires SenderOf(c, fallback, f).Some?
    ensures f.value.Obj? && NullOrName(IdentityOf(f.value.fields))
    ensures SenderOf(c, fallback, f).value.name == f.key
    ensures SenderOf(c, fallback, f).value.identity == Text(IdentityOf(f.value.fields))
  {
  }

  /**
   Migration preserves the meaning of an accepted v1 document exactly when every
   source has a name, no source is routed to an adapter with an empty name, and no
   source already spells an `identity` that differs from its `principal_id`.
   */
  lemma PreservedIffPortable(c: Checks, raw: Fields)
    requires Load(c, Obj(raw)).Some? && !UsesV2(raw)
    ensures Preserved(c, raw) <==> Portable(raw)
  {
    if Preserved(c, raw) {
      PreservedPortable(c, raw);
    }
    if Portable(raw) {
      PortablePreserved(c, raw);
    }
  }

  lemma {:induction false} KeepAll<T(!new)>(s: seq<T>, keep: T -> bool)
    ensures Filter(s, keep) == s <==> forall x :: x in s ==> keep(x)
  {
    if s != [] {
      var n := |s| - 1;
      KeepAll(s[..n], keep);
      assert s == s[..n] + [s[n]];
      assert |Filter(s, keep)| == |s| ==> keep(s[n]) && |Filter(s[..n], keep)| == n;
      KeepFewer(s[..n], keep);
    }
  }

  lemma {:induction false} KeepFewer<T(!new)>(s: seq<T>, keep: T -> bool)
    ensures |Filter(s, keep)| == |s| ==> Filter(s, keep) == s
  {
    if s != [] {
      KeepFewer(s[..|s| - 1], keep);
    }
  }

  /** The `delivery` alias survives exactly when no principal was given an empty set of channels. */
  lemma AliasPreservedIff(c: Checks, raw: Fields)
    requires Load(c, Obj(raw)).Some? && !UsesV2(raw) && Portable(raw)
    ensures Preserved(c, raw)
    ensures var before, after := Load(c, Obj(raw)).value.delivery, Load(c, Obj(MigrateRaw(raw).value)).value.delivery;
      after == WithChannels(before) && (after == before <==> forall p :: p in before ==> p.channels != [])
  {
    PortablePreserved(c, raw);
    var sources, senders, rows, delivery := LoadedV1(c, raw);
    PortableMoves(c, raw, sources, senders, rows, delivery);
    MaterialisedAlias(delivery, LegacyDestinations(Identities(senders), Get(raw, "routing")));
    KeepAll(delivery, (p: Principal) => p.channels != []);
  }

  lemma MaterialisedAlias(delivery: seq<Principal>, ds: seq<Legacy>)
    requires Materialise(AsFields(delivery), ds).Some?
    ensures WithChannels(AsPrincipals(Materialise(AsFields(delivery), ds).value)) == WithChannels(delivery)
  {
    MaterialiseParallel(AsFields(delivery), AsFields(delivery), ds);
    AliasIgnoresMaterialised(delivery, AsPrincipals(Materialise(AsFields(delivery), ds).value));
  }

  lemma {:induction false} AliasIgnoresMaterialised(delivery: seq<Principal>, ps: seq<Principal>)
    requires delivery <= ps && forall i :: |delivery| <= i < |ps| ==> ps[i].channels == []
    ensures WithChannels(ps) == WithChannels(delivery)
    decreases |ps|
  {
    if |ps| == |delivery| {
      assert ps == delivery;
    } else {
      AliasIgnoresMaterialised(delivery, ps[..|ps| - 1]);
    }
  }

  // ── a document that does not keep its meaning ──────────────────────────────

  const EARLY: Fields := [Field("secret_env", Str("KEY")), Field("identity", Str("ops"))]
  const EARLY_SOURCES: Fields := [Field("ci", Obj(EARLY))]
  const EARLY_ADOPTER: Fields := [Field("sources", Obj(EARLY_SOURCES))]

  lemma EarlyFind(k: string)
    ensures Find(EARLY, k) == if k == "identity" then Some(Str("ops")) else if k == "secret_env" then Some(Str("KEY")) else None
  {
    assert EARLY == [EARLY[0]] + [EARLY[1]];
    FindSingle(EARLY[0], k);
    FindSnoc([EARLY[0]], EARLY[1], k);
  }

  lemma EarlySender(c: Checks)
    ensures SenderOf(c, Null, EARLY_SOURCES[0]) == Some(Sender("ci", ["env://" + "KEY"], Null, Some("ops"), None, None))
  {
    EarlyFind("secret_env");
    EarlyFind("secret");
    EarlyFind("secrets");
    EarlyFind("allowed_target_principals");
    EarlyFind("allowed_trigger_identities");
    EarlyFind("callback_url");
    EarlyFind("identity");
  }

  lemma EarlyFrame(c: Checks)
    ensures FrameOk(c, EARLY_ADOPTER) && !UsesV2(EARLY_ADOPTER) && RoutingReadable(EARLY_ADOPTER)
    ensures Get(EARLY_ADOPTER, "default_callback_url") == Get(EARLY_ADOPTER, "vault") == Get(EARLY_ADOPTER, "delivery") == Null
    ensures Get(EARLY_ADOPTER, "sources") == Obj(EARLY_SOURCES) && Get(EARLY_ADOPTER, "routing") == Null
  {
    forall k ensures Find(EARLY_ADOPTER, k) == if k == "sources" then Some(Obj(EARLY_SOURCES)) else None {
      FindSingle(EARLY_ADOPTER[0], k);
    }
  }

  /** A v1 source that already says `identity` but has no `principal_id` loads, and loses its owner when migrated. */
  lemma EarlyAdopterChanges(c: Checks)
    ensures Load(c, Obj(EARLY_ADOPTER)).Some? && !Preserved(c, EARLY_ADOPTER)
  {
    EarlyFrame(c);
    EarlyLoads(c);
    EarlyFind("identity");
    EarlyFind("principal_id");
    assert !PortableSource(Null, EARLY_SOURCES[0]);
    PreservedIffPortable(c, EARLY_ADOPTER);
  }

  lemma EarlyLoads(c: Checks)
    ensures Load(c, Obj(EARLY_ADOPTER)).Some?
  {
    EarlyFrame(c);
    EarlySender(c);
    var sender := Sender("ci", ["env://" + "KEY"], Null, Some("ops"), None, None);
    TraverseIs(SenderCheck(c, Null), EARLY_SOURCES, [sender]);
    assert !IsVaultUri("env://" + "KEY") by { assert ("env://" + "KEY")[0] == 'e' && "vault://"[0] == 'v'; }
    assert AsFields([]) == [];
    var ds := LegacyDestinations(Identities([sender]), Null);
    assert ds[..0] == [];
    assert Materialise([], ds).Some?;
  }
}

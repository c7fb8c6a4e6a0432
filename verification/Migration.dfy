/**
 `config migrate`: a v1 document rewritten in the v2 vocabulary, and when the
 rewritten document means the same.
 */
module Migration {
  import opened Prelude
  import opened Json
  import opened Addressing
  import opened Loader

  const PASSTHROUGH: seq<string> := ["listen", "socket_path", "default_callback_url", "state", "vault"]

  /** `raw.get(key) or {}`, if it can be iterated as a table. */
  function OrEmpty(v: Value): Option<Fields> {
    if !Truthy(v) then Some([]) else if v.Obj? then Some(v.fields) else None
  }

  /** Keys of `raw` carried over as they are. */
  function Carried(raw: Fields, keys: seq<string>): Fields {
    if keys == [] then []
    else
      var k := keys[|keys| - 1];
      Carried(raw, keys[..|keys| - 1]) + (if Has(raw, k) then [Field(k, Get(raw, k))] else [])
  }

  /** A sender's own settings; `principal_id` moves to `identity`. */
  function MigratedInfo(info: Fields): Fields {
    var entry := Without(info, "principal_id");
    if Truthy(Get(info, "principal_id")) then Put(entry, "identity", Get(info, "principal_id")) else entry
  }

  predicate AllObjects(rows: Fields) {
    forall i :: 0 <= i < |rows| ==> rows[i].value.Obj?
  }

  function MigratedSenders(sources: Fields): Fields
    requires AllObjects(sources)
  {
    seq(|sources|, i requires 0 <= i < |sources| => Field(sources[i].key, Obj(MigratedInfo(sources[i].value.fields))))
  }

  /** Each source with the principal it declares. */
  function PrincipalIds(sources: Fields): Fields
    requires AllObjects(sources)
  {
    seq(|sources|, i requires 0 <= i < |sources| => Field(sources[i].key, Get(sources[i].value.fields, "principal_id")))
  }

  function MigratedPrincipals(principals: Fields): Fields {
    seq(|principals|, i requires 0 <= i < |principals| =>
      Field(principals[i].key, Obj([Field("channels", principals[i].value)])))
  }

  function NonNull(key: string, v: Value): Fields {
    if v.Null? then [] else [Field(key, v)]
  }

  /** Null members are dropped. */
  function MigratedDestination(d: Legacy): Field {
    Field(d.name, Obj(NonNull("adapter", d.adapter) + NonNull("principal", d.principal)))
  }

  function MigratedDestinations(ds: seq<Legacy>): Fields {
    seq(|ds|, i requires 0 <= i < |ds| => MigratedDestination(ds[i]))
  }

  function MigratedRoute(name: string): Value {
    Obj([Field("sender", Str(name)), Field("destinations", List([Str(name)]))])
  }

  function MigratedRoutes(ds: seq<Legacy>): seq<Value> {
    seq(|ds|, i requires 0 <= i < |ds| => MigratedRoute(ds[i].name))
  }

  function Assemble(raw: Fields, sources: Fields, d: Derived): Fields
    requires AllObjects(sources)
  {
    [Field("version", Int(2))] + Carried(raw, PASSTHROUGH)
    + [Field("senders", Obj(MigratedSenders(sources)))]
    + [Field("principals", Obj(MigratedPrincipals(d.principals)))]
    + [Field("destinations", Obj(MigratedDestinations(d.destinations)))]
    + [Field("routes", List(MigratedRoutes(d.destinations)))]
  }

  /** The migrated document; nothing where the command raises, or would key a table by something that is not text. */
  function MigrateRaw(raw: Fields): Option<Fields> {
    var sources, delivery := OrEmpty(Get(raw, "sources")), OrEmpty(Get(raw, "delivery"));
    if Has(raw, "senders") || sources.None? || delivery.None? || !AllObjects(sources.value) then None
    else
      var d := DeriveFromLegacy(PrincipalIds(sources.value), Get(raw, "routing"), delivery.value);
      if d.None? then None else Some(Assemble(raw, sources.value, d.value))
  }

  method MigrateSenders(rows: Fields) returns (senders: Fields)
    requires AllObjects(rows)
    ensures senders == MigratedSenders(rows)
  {
    senders := [];
    for i := 0 to |rows|
      invariant senders == MigratedSenders(rows)[..i]
    {
      var info := rows[i].value.fields;
      var entry := Without(info, "principal_id");
      if Truthy(Get(info, "principal_id")) {
        entry := Put(entry, "identity", Get(info, "principal_id"));
      }
      senders := senders + [Field(rows[i].key, Obj(entry))];
    }
  }

  method CarryOver(raw: Fields, keys: seq<string>) returns (out: Fields)
    ensures out == Carried(raw, keys)
  {
    out := [];
    for i := 0 to |keys|
      invariant out == Carried(raw, keys[..i])
    {
      assert keys[..i + 1][..i] == keys[..i];
      if Has(raw, keys[i]) {
        out := out + [Field(keys[i], Get(raw, keys[i]))];
      }
    }
    assert keys[..|keys|] == keys;
  }

  method Migrate(raw: Fields) returns (r: Option<Fields>)
    ensures r == MigrateRaw(raw)
  {
    var sources, delivery := OrEmpty(Get(raw, "sources")), OrEmpty(Get(raw, "delivery"));
    if Has(raw, "senders") || sources.None? || delivery.None? || !AllObjects(sources.value) {
      return None;
    }
    var derived := Derive(PrincipalIds(sources.value), Get(raw, "routing"), delivery.value);
    if derived.None? {
      return None;
    }
    var senders := MigrateSenders(sources.value);
    var carried := CarryOver(raw, PASSTHROUGH);
    var out := [Field("version", Int(2))] + carried;
    out := out + [Field("senders", Obj(senders))];
    out := out + [Field("principals", Obj(MigratedPrincipals(derived.value.principals)))];
    out := out + [Field("destinations", Obj(MigratedDestinations(derived.value.destinations)))];
    out := out + [Field("routes", List(MigratedRoutes(derived.value.destinations)))];
    return Some(out);
  }

  // ── what is preserved ──────────────────────────────────────────────────────

  function RoutingOf(m: Model): Config {
    Config(m.destinations, m.routes, None)
  }

  function SenderNamed(senders: seq<Sender>, name: string): Option<Sender> {
    if senders == [] then None
    else if senders[|senders| - 1].name == name then Some(senders[|senders| - 1])
    else SenderNamed(senders[..|senders| - 1], name)
  }

  /** Principals a sender may address out of band; nothing means none at all. */
  function OutOfBand(m: Model, name: string): Option<set<string>> {
    var s := SenderNamed(m.senders, name);
    if s.Some? && s.value.allowedTargets.Some? then Some(set p | p in s.value.allowedTargets.value) else None
  }

  /** Credentials, principals and destinations agree, and every sender reaches the same destinations in the
      same order and the same principals out of band. */
  ghost predicate SameMeaning(a: Model, b: Model) {
    && a.senders == b.senders
    && a.principals == b.principals
    && a.destinations == b.destinations
    && (forall s :: RoutedDestinations(RoutingOf(a), s) == RoutedDestinations(RoutingOf(b), s))
    && (forall s :: OutOfBand(a, s) == OutOfBand(b, s))
  }

  ghost predicate Preserved(c: Checks, raw: Fields) {
    && Load(c, Obj(raw)).Some?
    && MigrateRaw(raw).Some?
    && Load(c, Obj(MigrateRaw(raw).value)).Some?
    && SameMeaning(Load(c, Obj(raw)).value, Load(c, Obj(MigrateRaw(raw).value)).value)
  }

  /** The v2 spelling `identity` is absent, or says the same as `principal_id`. */
  predicate OneIdentity(info: Fields) {
    Has(info, "identity") ==> Get(info, "identity") == Get(info, "principal_id")
  }

  predicate PortableSource(routing: Value, f: Field) {
    f.key != "" && AdapterFor(routing, f.key) != Str("") && f.value.Obj? && OneIdentity(f.value.fields)
  }

  ghost predicate Portable(raw: Fields) {
    && Get(raw, "sources").Obj?
    && forall i :: 0 <= i < |Get(raw, "sources").fields| ==> PortableSource(Get(raw, "routing"), Get(raw, "sources").fields[i])
  }
}

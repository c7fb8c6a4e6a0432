/**
 The configuration loader: both vocabularies of the file, normalised to one
 model of senders, principals, destinations and routes.
 */
module Loader {
  import opened Prelude
  import opened Json
  import opened Addressing

  /**
   The checks that look only inside one value: secret URIs, one delivery
   channel, and the blocks that have nothing to do with addressing.
   */
  datatype Checks = Checks(
    uri: string -> bool,
    channel: (string, string, Fields) -> Option<Fields>,
    listen: Value -> bool,
    state: Value -> bool,
    wake: Value -> bool,
    vault: Value -> bool)

  datatype Sender = Sender(
    name: string,
    secretUris: seq<string>,
    callback: Value,
    identity: Option<string>,
    allowedIdentities: Option<seq<string>>,
    allowedTargets: Option<seq<string>>)

  /** A known principal and its validated out-of-band channels. */
  datatype Principal = Principal(id: string, channels: Fields)

  /** `delivery` is the alias older tooling reads. */
  datatype Model = Model(
    senders: seq<Sender>,
    destinations: seq<Destination>,
    routes: seq<Route>,
    principals: seq<Principal>,
    delivery: seq<Principal>)

  // ── senders ────────────────────────────────────────────────────────────────

  function One(b: bool): nat { if b then 1 else 0 }

  function Name(v: Value): Option<string> {
    if v.Str? && v.s != "" then Some(v.s) else None
  }

  function Uri(c: Checks): Value -> Option<string> {
    (v: Value) => if v.Str? && c.uri(v.s) then Some(v.s) else None
  }

  function NameOf(): Value -> Option<string> {
    (v: Value) => Name(v)
  }

  function SecretUris(c: Checks, info: Fields): Option<seq<string>> {
    if One(Has(info, "secret_env")) + One(Has(info, "secret")) + One(Has(info, "secrets")) != 1 then None
    else if Has(info, "secret_env") then
      var n := Name(Get(info, "secret_env"));
      if n.Some? then Some(["env://" + n.value]) else None
    else if Has(info, "secret") then
      var u := Name(Get(info, "secret"));
      if u.Some? && c.uri(u.value) then Some([u.value]) else None
    else
      match Get(info, "secrets")
      case List(items) => if items == [] then None else Traverse(Uri(c), items)
      case _ => None
  }

  /** A list of names, or nothing declared. */
  function Allowlist(v: Value, mayBeEmpty: bool): Option<Option<seq<string>>> {
    match v
    case Null => Some(None)
    case List(items) =>
      if items == [] && !mayBeEmpty then None
      else
        var names := Traverse(NameOf(), items);
        if names.Some? then Some(Some(names.value)) else None
    case _ => None
  }

  /** `identity` if the key is there, even null; else the older `principal_id`. */
  function IdentityOf(info: Fields): Value {
    if Has(info, "identity") then Get(info, "identity") else Get(info, "principal_id")
  }

  function SenderOf(c: Checks, fallback: Value, f: Field): Option<Sender> {
    match f.value
    case Obj(info) =>
      var uris := SecretUris(c, info);
      var targets := Allowlist(Get(info, "allowed_target_principals"), false);
      var identities := Allowlist(Get(info, "allowed_trigger_identities"), true);
      var callback := if Truthy(Get(info, "callback_url")) then Get(info, "callback_url") else fallback;
      if uris.Some? && targets.Some? && identities.Some? && NullOrName(IdentityOf(info)) then
        Some(Sender(f.key, uris.value, callback, Text(IdentityOf(info)), identities.value, targets.value))
      else None
    case _ => None
  }

  function SenderCheck(c: Checks, fallback: Value): Field -> Option<Sender> {
    (f: Field) => SenderOf(c, fallback, f)
  }

  predicate IsVaultUri(u: string) {
    "vault://" <= u
  }

  predicate SendersNeedVault(senders: seq<Sender>) {
    exists s :: s in senders && exists u :: u in s.secretUris && IsVaultUri(u)
  }

  // ── principals and their channels ──────────────────────────────────────────

  function ChannelOf(c: Checks, pid: string, f: Field): Option<Field> {
    if (f.key == "webhook" || f.key == "email") && f.value.Obj? then
      var v := c.channel(f.key, pid, f.value.fields);
      if v.Some? then Some(Field(f.key, Obj(v.value))) else None
    else None
  }

  function ChannelCheck(c: Checks, pid: string): Field -> Option<Field> {
    (f: Field) => ChannelOf(c, pid, f)
  }

  function ChannelsFor(c: Checks, pid: string, channels: Fields): Option<Fields> {
    Traverse(ChannelCheck(c, pid), channels)
  }

  function PrincipalWith(c: Checks, pid: string, channels: Fields): Option<Principal> {
    var v := ChannelsFor(c, pid, channels);
    if v.Some? then Some(Principal(pid, v.value)) else None
  }

  /** An entry of the v1 `delivery` table. */
  function DeliveryOf(c: Checks, f: Field): Option<Principal> {
    if f.key != "" && f.value.Obj? then PrincipalWith(c, f.key, f.value.fields) else None
  }

  function DeliveryCheck(c: Checks): Field -> Option<Principal> {
    (f: Field) => DeliveryOf(c, f)
  }

  /** An entry of the v2 `principals` table. */
  function PrincipalOf(c: Checks, f: Field): Option<Principal> {
    if f.key == "" then None
    else
      match f.value
      case Null => Some(Principal(f.key, []))
      case Obj(entry) =>
        if exists g :: g in entry && g.key != "channels" then None
        else (
          match Get(entry, "channels")
          case Null => Some(Principal(f.key, []))
          case Obj(channels) => PrincipalWith(c, f.key, channels)
          case _ => None
        )
      case _ => None
  }

  function PrincipalCheck(c: Checks): Field -> Option<Principal> {
    (f: Field) => PrincipalOf(c, f)
  }

  predicate ChannelNeedsVault(f: Field) {
    f.value.Obj? && Get(f.value.fields, "secret_uri").Str? && IsVaultUri(Get(f.value.fields, "secret_uri").s)
  }

  predicate DeliveryNeedsVault(delivery: seq<Principal>) {
    exists p :: p in delivery && exists f :: f in p.channels && ChannelNeedsVault(f)
  }

  // ── the v2 tables ──────────────────────────────────────────────────────────

  predicate Known(principals: seq<Principal>, id: string) {
    exists p :: p in principals && p.id == id
  }

  function DestinationOf(principals: seq<Principal>, f: Field): Option<Destination> {
    if f.key == "" || !f.value.Obj? then None
    else
      var info := f.value.fields;
      var adapter, session, principal := Get(info, "adapter"), Get(info, "session"), Get(info, "principal");
      var cap := Get(info, "max_connections");
      if !NullOrName(adapter) || !NullOrName(session) || (!session.Null? && adapter.Null?) then None
      else if !NullOrName(principal) || (principal.Str? && !Known(principals, principal.s)) then None
      else if !cap.Null? && !(cap.Int? && cap.n >= 1) then None
      else Some(Destination(f.key, Text(adapter), Text(session), Text(principal), if cap.Int? then Some(cap.n) else None))
  }

  function DestinationCheck(principals: seq<Principal>): Field -> Option<Destination> {
    (f: Field) => DestinationOf(principals, f)
  }

  function DestinationNames(v: Value): Option<seq<string>> {
    match v
    case Null => Some([])
    case Str(s) => Traverse(NameOf(), [Str(s)])
    case List(items) => Traverse(NameOf(), items)
    case _ => None
  }

  function RouteOf(senders: seq<Sender>, destinations: seq<Destination>, principals: seq<Principal>, v: Value): Option<Route> {
    if !v.Obj? then None
    else
      var sender, principal := Name(Get(v.fields, "sender")), Get(v.fields, "principal");
      var names := DestinationNames(Get(v.fields, "destinations"));
      if sender.None? || (sender.value != "*" && forall s :: s in senders ==> s.name != sender.value) then None
      else if !NullOrName(principal) || (principal.Str? && !Known(principals, principal.s)) then None
      else if names.None? || exists n :: n in names.value && Lookup(destinations, n).None? then None
      else if names.value == [] && principal.Null? then None
      else if principal.Str? && exists d :: d in Named(destinations, names.value) && d.principal != Text(principal) then None
      else Some(Route(sender.value, Text(principal), names.value))
  }

  function RouteCheck(senders: seq<Sender>, destinations: seq<Destination>, principals: seq<Principal>): Value -> Option<Route> {
    (v: Value) => RouteOf(senders, destinations, principals, v)
  }

  function Rows(v: Value): Option<Fields> {
    match v
    case Null => Some([])
    case Obj(fields) => Some(fields)
    case _ => None
  }

  function Items(v: Value): Option<seq<Value>> {
    match v
    case Null => Some([])
    case List(items) => Some(items)
    case _ => None
  }

  /** The `delivery` alias of a v2 file: only principals that have channels. */
  function WithChannels(principals: seq<Principal>): seq<Principal> {
    Filter(principals, (p: Principal) => p.channels != [])
  }

  function TablesFrom(c: Checks, principals: Fields, destinations: Fields, routes: seq<Value>, senders: seq<Sender>): Option<Model> {
    var ps := Traverse(PrincipalCheck(c), principals);
    var ds := if ps.None? then None else Traverse(DestinationCheck(ps.value), destinations);
    var rs := if ds.None? then None else Traverse(RouteCheck(senders, ds.value, ps.value), routes);
    if rs.None? then None else Some(Model(senders, ds.value, rs.value, ps.value, WithChannels(ps.value)))
  }

  function TablesV2(c: Checks, raw: Fields, senders: seq<Sender>): Option<Model> {
    var principals, destinations := Rows(Get(raw, "principals")), Rows(Get(raw, "destinations"));
    var routes := Items(Get(raw, "routes"));
    if principals.None? || destinations.None? || routes.None? then None
    else TablesFrom(c, principals.value, destinations.value, routes.value, senders)
  }

  // ── the v1 tables ──────────────────────────────────────────────────────────

  /** A destination derived from a legacy source, before any check. */
  datatype Legacy = Legacy(name: string, adapter: Value, principal: Value)

  datatype Derived = Derived(destinations: seq<Legacy>, principals: Fields)

  /** The adapter the `routing` table names for a source, if any. */
  function AdapterFor(routing: Value, name: string): Value {
    if routing.Obj? && Get(routing.fields, name).Obj? then Get(Get(routing.fields, name).fields, "adapter") else Null
  }

  /** Every principal a destination names exists, with no channels unless `delivery` gave it some. A
      principal that is not text cannot be a key of the table: there is then nothing to return. */
  function Materialise(principals: Fields, ds: seq<Legacy>): Option<Fields> {
    if ds == [] then Some(principals)
    else
      var front := Materialise(principals, ds[..|ds| - 1]);
      var p := ds[|ds| - 1].principal;
      if front.None? || !Truthy(p) then front
      else if !p.Str? then None
      else if Has(front.value, p.s) then front
      else Some(front.value + [Field(p.s, Obj([]))])
  }

  /** Legacy sources, each with the principal it declares, as destinations of the same name. */
  function LegacyDestinations(sources: Fields, routing: Value): seq<Legacy> {
    seq(|sources|, i requires 0 <= i < |sources| =>
      Legacy(sources[i].key, AdapterFor(routing, sources[i].key), sources[i].value))
  }

  function DeriveFromLegacy(sources: Fields, routing: Value, delivery: Fields): Option<Derived> {
    var ds := LegacyDestinations(sources, routing);
    var ps := Materialise(delivery, ds);
    if ps.Some? then Some(Derived(ds, ps.value)) else None
  }

  predicate RoutingOk(routing: Fields) {
    forall f :: f in routing ==> f.value.Obj? && (Has(f.value.fields, "adapter") ==> Get(f.value.fields, "adapter").Str?)
  }

  function AsValue(t: Option<string>): Value {
    match t
    case Some(s) => Str(s)
    case None => Null
  }

  /** A sender's stamped identity, which the v1 view also makes the owner of its destination. */
  function Identities(senders: seq<Sender>): Fields {
    seq(|senders|, i requires 0 <= i < |senders| => Field(senders[i].name, AsValue(senders[i].identity)))
  }

  function AsFields(ps: seq<Principal>): Fields {
    seq(|ps|, i requires 0 <= i < |ps| => Field(ps[i].id, Obj(ps[i].channels)))
  }

  function AsPrincipals(fs: Fields): seq<Principal> {
    seq(|fs|, i requires 0 <= i < |fs| =>
      Principal(fs[i].key, if fs[i].value.Obj? then fs[i].value.fields else []))
  }

  function LegacyTable(ds: seq<Legacy>): seq<Destination> {
    seq(|ds|, i requires 0 <= i < |ds| => Destination(ds[i].name, Text(ds[i].adapter), None, Text(ds[i].principal), None))
  }

  function LegacyRoutes(ds: seq<Legacy>): seq<Route> {
    seq(|ds|, i requires 0 <= i < |ds| => Route(ds[i].name, Text(ds[i].principal), [ds[i].name]))
  }

  function TablesV1(c: Checks, raw: Fields, senders: seq<Sender>): Option<Model> {
    var rows := Rows(Get(raw, "delivery"));
    var delivery := if rows.Some? then Traverse(DeliveryCheck(c), rows.value) else None;
    if delivery.None? then None
    else
      var d := DeriveFromLegacy(Identities(senders), Get(raw, "routing"), AsFields(delivery.value));
      if d.None? then None
      else Some(Model(senders, LegacyTable(d.value.destinations), LegacyRoutes(d.value.destinations),
                      AsPrincipals(d.value.principals), delivery.value))
  }

  // ── the whole file ─────────────────────────────────────────────────────────

  predicate NullOrObj(v: Value) {
    v.Null? || v.Obj?
  }

  predicate TablesAreObjects(raw: Fields) {
    && NullOrObj(Get(raw, "sources")) && NullOrObj(Get(raw, "routing")) && NullOrObj(Get(raw, "senders"))
    && NullOrObj(Get(raw, "destinations")) && NullOrObj(Get(raw, "principals"))
  }

  /** 0, 1 or 2, as Python compares: `true` and `1.0` are 1. An absent version is 0. */
  predicate VersionOk(raw: Fields) {
    var v := if Has(raw, "version") then Get(raw, "version") else Int(0);
    match v
    case Int(n) => 0 <= n <= 2
    case Float(r) => r == 0.0 || r == 1.0 || r == 2.0
    case Bool(_) => true
    case _ => false
  }

  predicate UsesV2(raw: Fields) {
    Has(raw, "senders") || Has(raw, "routes") || Has(raw, "principals")
  }

  predicate MixesVocabularies(raw: Fields) {
    || (Has(raw, "sources") && Has(raw, "senders"))
    || (Has(raw, "routing") && Has(raw, "routes"))
    || (Has(raw, "delivery") && Has(raw, "principals"))
  }

  predicate NullOr(check: Value -> bool, v: Value) {
    v.Null? || check(v)
  }

  /** The blocks that have nothing to do with addressing. */
  predicate BlocksOk(c: Checks, raw: Fields) {
    && NullOr(c.listen, Get(raw, "listen")) && NullOr(c.state, Get(raw, "state")) && NullOr(c.wake, Get(raw, "wake"))
    && NullOr(c.vault, Get(raw, "vault"))
  }

  /** Everything but the addressing tables and the credentials. */
  predicate FrameOk(c: Checks, raw: Fields) {
    TablesAreObjects(raw) && VersionOk(raw) && !MixesVocabularies(raw) && BlocksOk(c, raw)
  }

  /** A v1 file may leave `routing` out, but not set it to null. */
  predicate RoutingReadable(raw: Fields) {
    Has(raw, "routing") ==> Get(raw, "routing").Obj? && RoutingOk(Get(raw, "routing").fields)
  }

  function Credentials(raw: Fields): Value {
    if UsesV2(raw) then Get(raw, "senders") else Get(raw, "sources")
  }

  function LoadTables(c: Checks, raw: Fields, senders: seq<Sender>): Option<Model> {
    if UsesV2(raw) then TablesV2(c, raw, senders) else TablesV1(c, raw, senders)
  }

  /** The model of an accepted document; nothing for a refused one. */
  function Load(c: Checks, doc: Value): Option<Model> {
    if !doc.Obj? then None
    else
      var raw := doc.fields;
      if !FrameOk(c, raw) || (!UsesV2(raw) && !RoutingReadable(raw)) then None
      else
        var table := Credentials(raw);
        if !table.Obj? || table.fields == [] then None
        else
          var senders := Traverse(SenderCheck(c, Get(raw, "default_callback_url")), table.fields);
          if senders.None? || (SendersNeedVault(senders.value) && !Truthy(Get(raw, "vault"))) then None
          else
            var m := LoadTables(c, raw, senders.value);
            if m.None? || (DeliveryNeedsVault(m.value.delivery) && !Truthy(Get(raw, "vault"))) then None else m
  }

  // ── what the loader reads, in terms of the document ────────────────────────

  ghost predicate IsName(v: Value) {
    v.Str? && v.s != ""
  }

  ghost predicate IsNameList(v: Value) {
    v.List? && forall i :: 0 <= i < |v.items| ==> IsName(v.items[i])
  }

  /** The texts are the items of the list, one by one. */
  ghost predicate ReadsItems(v: Value, texts: seq<string>) {
    v.List? && |texts| == |v.items| && forall i :: 0 <= i < |texts| ==> v.items[i] == Str(texts[i])
  }

  /** Nothing for null, else what the list says. */
  ghost predicate ReadsList(v: Value, r: Option<seq<string>>) {
    if v.Null? then r.None? else r.Some? && ReadsItems(v, r.value)
  }

  /** Nothing for null, else the text. */
  ghost predicate ReadsText(v: Value, r: Option<string>) {
    if v.Null? then r.None? else v.Str? && r == Some(v.s)
  }

  /** Exactly one of the three keys, in the form that key takes. */
  ghost predicate SecretShape(c: Checks, info: Fields) {
    || (Has(info, "secret_env") && !Has(info, "secret") && !Has(info, "secrets") && IsName(Get(info, "secret_env")))
    || (!Has(info, "secret_env") && Has(info, "secret") && !Has(info, "secrets")
        && IsName(Get(info, "secret")) && c.uri(Get(info, "secret").s))
    || (!Has(info, "secret_env") && !Has(info, "secret") && Has(info, "secrets")
        && Get(info, "secrets").List? && Get(info, "secrets").items != []
        && forall i :: 0 <= i < |Get(info, "secrets").items| ==>
             Get(info, "secrets").items[i].Str? && c.uri(Get(info, "secrets").items[i].s))
  }

  ghost predicate ReadsSecrets(info: Fields, uris: seq<string>) {
    if Has(info, "secret_env") then Get(info, "secret_env").Str? && uris == ["env://" + Get(info, "secret_env").s]
    else if Has(info, "secret") then Get(info, "secret").Str? && uris == [Get(info, "secret").s]
    else ReadsItems(Get(info, "secrets"), uris)
  }

  /** The entries a sender must have, and the form each takes. */
  ghost predicate SenderShape(c: Checks, f: Field) {
    && f.value.Obj?
    && SecretShape(c, f.value.fields)
    && (var v := Get(f.value.fields, "allowed_target_principals"); v.Null? || (IsNameList(v) && v.items != []))
    && (var v := Get(f.value.fields, "allowed_trigger_identities"); v.Null? || IsNameList(v))
    && (if Has(f.value.fields, "identity") then
          Get(f.value.fields, "identity").Null? || IsName(Get(f.value.fields, "identity"))
        else Get(f.value.fields, "principal_id").Null? || IsName(Get(f.value.fields, "principal_id")))
  }

  /** Each part of the sender is what its own key says. */
  ghost predicate SenderReads(fallback: Value, f: Field, r: Sender) {
    && f.value.Obj? && r.name == f.key
    && ReadsSecrets(f.value.fields, r.secretUris)
    && (if Truthy(Get(f.value.fields, "callback_url")) then r.callback == Get(f.value.fields, "callback_url")
        else r.callback == fallback)
    && (if Has(f.value.fields, "identity") then ReadsText(Get(f.value.fields, "identity"), r.identity)
        else ReadsText(Get(f.value.fields, "principal_id"), r.identity))
    && ReadsList(Get(f.value.fields, "allowed_trigger_identities"), r.allowedIdentities)
    && ReadsList(Get(f.value.fields, "allowed_target_principals"), r.allowedTargets)
  }

  lemma NamesRead(items: seq<Value>)
    ensures Traverse(NameOf(), items).Some? <==> IsNameList(List(items))
    ensures Traverse(NameOf(), items).Some? ==> ReadsItems(List(items), Traverse(NameOf(), items).value)
  {
    TraverseEach(NameOf(), items);
  }

  lemma AllowlistRead(v: Value, mayBeEmpty: bool)
    ensures Allowlist(v, mayBeEmpty).Some? <==> v.Null? || (IsNameList(v) && (mayBeEmpty || v.items != []))
    ensures Allowlist(v, mayBeEmpty).Some? ==> ReadsList(v, Allowlist(v, mayBeEmpty).value)
  {
    if v.List? { NamesRead(v.items); }
  }

  lemma SecretsRead(c: Checks, info: Fields)
    ensures SecretUris(c, info).Some? <==> SecretShape(c, info)
    ensures SecretUris(c, info).Some? ==> ReadsSecrets(info, SecretUris(c, info).value)
  {
    var v := Get(info, "secrets");
    if v.List? { TraverseEach(Uri(c), v.items); }
  }

  /** A sender loads exactly when its entries have the right forms, and reads each part from its own key. */
  lemma SenderLoadsIff(c: Checks, fallback: Value, f: Field)
    ensures SenderOf(c, fallback, f).Some? <==> SenderShape(c, f)
    ensures SenderOf(c, fallback, f).Some? ==> SenderReads(fallback, f, SenderOf(c, fallback, f).value)
  {
    if f.value.Obj? {
      var info := f.value.fields;
      SecretsRead(c, info);
      AllowlistRead(Get(info, "allowed_target_principals"), false);
      AllowlistRead(Get(info, "allowed_trigger_identities"), true);
    }
  }

  /** A named principal that is there, or none. */
  ghost predicate NullOrKnown(principals: seq<Principal>, v: Value) {
    v.Null? || (IsName(v) && exists p :: p in principals && p.id == v.s)
  }

  ghost predicate DestinationShape(principals: seq<Principal>, f: Field) {
    && f.key != "" && f.value.Obj?
    && (Get(f.value.fields, "adapter").Null? || IsName(Get(f.value.fields, "adapter")))
    && (Get(f.value.fields, "session").Null?
        || (IsName(Get(f.value.fields, "session")) && IsName(Get(f.value.fields, "adapter"))))
    && NullOrKnown(principals, Get(f.value.fields, "principal"))
    && (Get(f.value.fields, "max_connections").Null?
        || (Get(f.value.fields, "max_connections").Int? && Get(f.value.fields, "max_connections").n >= 1))
  }

  ghost predicate DestinationReadsKeys(f: Field, r: Destination) {
    && f.value.Obj? && r.name == f.key
    && ReadsText(Get(f.value.fields, "adapter"), r.adapter)
    && ReadsText(Get(f.value.fields, "session"), r.session)
    && ReadsText(Get(f.value.fields, "principal"), r.principal)
    && match r.maxConnections
       case None => Get(f.value.fields, "max_connections").Null?
       case Some(n) => Get(f.value.fields, "max_connections") == Int(n)
  }

  /** A destination loads exactly when its entries have the right forms, and reads each part from its own key. */
  lemma DestinationLoadsIff(principals: seq<Principal>, f: Field)
    ensures DestinationOf(principals, f).Some? <==> DestinationShape(principals, f)
    ensures DestinationOf(principals, f).Some? ==> DestinationReadsKeys(f, DestinationOf(principals, f).value)
  {
  }

  /** The names a route's `destinations` entry gives: none, the one, or those listed. */
  ghost predicate ReadsNames(v: Value, names: seq<string>) {
    match v
    case Null => names == []
    case Str(s) => names == [s]
    case _ => ReadsItems(v, names)
  }

  ghost predicate RouteShape(senders: seq<Sender>, destinations: seq<Destination>, principals: seq<Principal>, v: Value, names: seq<string>) {
    && v.Obj? && ReadsNames(Get(v.fields, "destinations"), names)
    && IsName(Get(v.fields, "sender"))
    && (Get(v.fields, "sender").s == "*" || exists s :: s in senders && s.name == Get(v.fields, "sender").s)
    && NullOrKnown(principals, Get(v.fields, "principal"))
    && (names != [] || !Get(v.fields, "principal").Null?)
    && forall n :: n in names ==>
         n != "" && Lookup(destinations, n).Some?
         && (Get(v.fields, "principal").Str? ==> Lookup(destinations, n).value.principal == Some(Get(v.fields, "principal").s))
  }

  ghost predicate RouteReads(v: Value, r: Route) {
    v.Obj? && Get(v.fields, "sender") == Str(r.sender) && ReadsText(Get(v.fields, "principal"), r.principal)
    && ReadsNames(Get(v.fields, "destinations"), r.destinations)
  }

  /** Some list of names makes the route acceptable. */
  ghost predicate RouteLoads(senders: seq<Sender>, destinations: seq<Destination>, principals: seq<Principal>, v: Value) {
    exists names :: RouteShape(senders, destinations, principals, v, names)
  }

  lemma SingleName(s: string)
    ensures DestinationNames(Str(s)) == if s != "" then Some([s]) else None
  {
    TraverseEach(NameOf(), [Str(s)]);
    if s != "" {
      assert NameOf()([Str(s)][0]).Some?;
      assert Traverse(NameOf(), [Str(s)]).value == [s];
    } else {
      assert NameOf()([Str(s)][0]).None?;
    }
  }

  lemma NamesGiven(v: Value)
    ensures DestinationNames(v).Some? ==> ReadsNames(v, DestinationNames(v).value) && "" !in DestinationNames(v).value
    ensures forall names :: ReadsNames(v, names) && "" !in names ==> DestinationNames(v) == Some(names)
  {
    match v
    case Str(s) => SingleName(s);
    case List(items) =>
      NamesRead(items);
      forall names | ReadsNames(v, names) && "" !in names ensures DestinationNames(v) == Some(names) {
        assert forall i :: 0 <= i < |names| ==> names[i] in names;
        assert Traverse(NameOf(), items).value == names;
      }
    case _ =>
  }

  lemma {:induction false} NamedOwners(ds: seq<Destination>, names: seq<string>, owner: Option<string>)
    requires forall n :: n in names ==> Lookup(ds, n).Some?
    ensures (exists d :: d in Named(ds, names) && d.principal != owner)
        <==> (exists n :: n in names && Lookup(ds, n).value.principal != owner)
  {
    if names != [] {
      var front, last := names[..|names| - 1], names[|names| - 1];
      assert names == front + [last];
      assert forall n :: n in front ==> n in names;
      NamedOwners(ds, front, owner);
      assert Named(ds, names) == Named(ds, front) + [Lookup(ds, last).value];
      assert Lookup(ds, last).value in Named(ds, names);
      assert forall d :: d in Named(ds, front) ==> d in Named(ds, names);
    }
  }

  lemma RouteLoadsWith(senders: seq<Sender>, destinations: seq<Destination>, principals: seq<Principal>, v: Value)
    requires v.Obj?
    requires var names := DestinationNames(Get(v.fields, "destinations"));
      && (names.Some? ==> ReadsNames(Get(v.fields, "destinations"), names.value) && "" !in names.value)
      && (forall ns :: ReadsNames(Get(v.fields, "destinations"), ns) && "" !in ns ==> names == Some(ns))
      && (names.Some? && (forall n :: n in names.value ==> Lookup(destinations, n).Some?) ==>
            ((exists d :: d in Named(destinations, names.value) && d.principal != Text(Get(v.fields, "principal")))
             <==> (exists n :: n in names.value && Lookup(destinations, n).value.principal != Text(Get(v.fields, "principal")))))
    ensures RouteOf(senders, destinations, principals, v).Some?
        <==> RouteLoads(senders, destinations, principals, v)
    ensures RouteOf(senders, destinations, principals, v).Some? ==>
              RouteReads(v, RouteOf(senders, destinations, principals, v).value)
  {
    var names := DestinationNames(Get(v.fields, "destinations"));
    if RouteOf(senders, destinations, principals, v).Some? {
      assert RouteShape(senders, destinations, principals, v, names.value);
    }
    if ns :| RouteShape(senders, destinations, principals, v, ns) {
      assert names == Some(ns);
    }
  }

  /** A route loads exactly when its entries have the right forms and name what is there, and reads each from its own key. */
  lemma RouteLoadsIff(senders: seq<Sender>, destinations: seq<Destination>, principals: seq<Principal>, v: Value)
    ensures RouteOf(senders, destinations, principals, v).Some?
        <==> RouteLoads(senders, destinations, principals, v)
    ensures RouteOf(senders, destinations, principals, v).Some? ==>
              RouteReads(v, RouteOf(senders, destinations, principals, v).value)
  {
    if v.Obj? {
      NamesGiven(Get(v.fields, "destinations"));
      var names := DestinationNames(Get(v.fields, "destinations"));
      if names.Some? && forall n :: n in names.value ==> Lookup(destinations, n).Some? {
        NamedOwners(destinations, names.value, Text(Get(v.fields, "principal")));
      }
      RouteLoadsWith(senders, destinations, principals, v);
    }
  }

  /** One channel: a webhook or an email whose settings pass its own check. */
  ghost predicate ChannelShape(c: Checks, pid: string, f: Field) {
    (f.key == "webhook" || f.key == "email") && f.value.Obj? && c.channel(f.key, pid, f.value.fields).Some?
  }

  ghost predicate ReadsChannels(c: Checks, pid: string, channels: Fields, r: Fields) {
    |r| == |channels| && forall i :: 0 <= i < |r| ==>
      ChannelShape(c, pid, channels[i])
      && r[i] == Field(channels[i].key, Obj(c.channel(channels[i].key, pid, channels[i].value.fields).value))
  }

  lemma ChannelsRead(c: Checks, pid: string, channels: Fields)
    ensures PrincipalWith(c, pid, channels).Some?
        <==> forall i :: 0 <= i < |channels| ==> ChannelShape(c, pid, channels[i])
    ensures PrincipalWith(c, pid, channels).Some? ==>
              PrincipalWith(c, pid, channels).value.id == pid
              && ReadsChannels(c, pid, channels, PrincipalWith(c, pid, channels).value.channels)
  {
    TraverseEach(ChannelCheck(c, pid), channels);
    assert forall i :: 0 <= i < |channels| ==>
      (ChannelCheck(c, pid)(channels[i]).Some? <==> ChannelShape(c, pid, channels[i]));
  }

  /** Where a principal's channels stand: nowhere for null, or under `channels`, the only key there may be. */
  ghost predicate ChannelsOf(v: Value, channels: Fields) {
    || (v.Null? && channels == [])
    || (v.Obj? && (forall g :: g in v.fields ==> g.key == "channels")
        && (if Get(v.fields, "channels").Null? then channels == [] else Get(v.fields, "channels") == Obj(channels)))
  }

  /** The entry is a principal whose channels are where they belong and pass. */
  ghost predicate PrincipalShape(c: Checks, f: Field) {
    f.key != "" && exists channels ::
      ChannelsOf(f.value, channels) && forall i :: 0 <= i < |channels| ==> ChannelShape(c, f.key, channels[i])
  }

  ghost predicate PrincipalReads(c: Checks, f: Field, r: Principal) {
    r.id == f.key && exists channels :: ChannelsOf(f.value, channels) && ReadsChannels(c, f.key, channels, r.channels)
  }

  /** A principal loads exactly when its channels are where they belong and each passes, and reads them in order. */
  lemma PrincipalLoadsIff(c: Checks, f: Field)
    ensures PrincipalOf(c, f).Some? <==> PrincipalShape(c, f)
    ensures PrincipalOf(c, f).Some? ==> PrincipalReads(c, f, PrincipalOf(c, f).value)
  {
    if f.value.Null? {
      assert ChannelsOf(f.value, []);
      if f.key != "" { assert ReadsChannels(c, f.key, [], PrincipalOf(c, f).value.channels); }
    } else if f.value.Obj? {
      var v := Get(f.value.fields, "channels");
      if v.Null? {
        assert ChannelsOf(f.value, []) <==> forall g :: g in f.value.fields ==> g.key == "channels";
        if PrincipalOf(c, f).Some? { assert ReadsChannels(c, f.key, [], PrincipalOf(c, f).value.channels); }
      } else if v.Obj? {
        ChannelsRead(c, f.key, v.fields);
        assert ChannelsOf(f.value, v.fields) <==> forall g :: g in f.value.fields ==> g.key == "channels";
      }
    }
  }

  ghost predicate SendersShape(c: Checks, sources: Fields) {
    forall i :: 0 <= i < |sources| ==> SenderShape(c, sources[i])
  }

  ghost predicate SendersRead(fallback: Value, sources: Fields, r: seq<Sender>) {
    |r| == |sources| && forall i :: 0 <= i < |sources| ==> SenderReads(fallback, sources[i], r[i])
  }

  lemma SendersLoad(c: Checks, fallback: Value, sources: Fields)
    ensures var r := Traverse(SenderCheck(c, fallback), sources);
      (r.Some? <==> SendersShape(c, sources)) && (r.Some? ==> SendersRead(fallback, sources, r.value))
  {
    TraverseEach(SenderCheck(c, fallback), sources);
    forall i | 0 <= i < |sources|
      ensures SenderCheck(c, fallback)(sources[i]).Some? <==> SenderShape(c, sources[i])
      ensures SenderCheck(c, fallback)(sources[i]).Some? ==>
                SenderReads(fallback, sources[i], SenderCheck(c, fallback)(sources[i]).value)
    {
      SenderLoadsIff(c, fallback, sources[i]);
    }
  }

  /** One sender that cannot be read refuses them all. */
  lemma SenderRefuses(c: Checks, fallback: Value, sources: Fields, i: nat)
    requires i < |sources| && SenderOf(c, fallback, sources[i]).None?
    ensures Traverse(SenderCheck(c, fallback), sources).None? && !SendersShape(c, sources)
  {
    TraverseEach(SenderCheck(c, fallback), sources);
    assert SenderCheck(c, fallback)(sources[i]).None?;
    SenderLoadsIff(c, fallback, sources[i]);
  }

  ghost predicate DestinationsShape(principals: seq<Principal>, rows: Fields) {
    forall i :: 0 <= i < |rows| ==> DestinationShape(principals, rows[i])
  }

  ghost predicate DestinationsRead(rows: Fields, r: seq<Destination>) {
    |r| == |rows| && forall i :: 0 <= i < |rows| ==> DestinationReadsKeys(rows[i], r[i])
  }

  lemma DestinationsLoad(principals: seq<Principal>, rows: Fields)
    ensures var r := Traverse(DestinationCheck(principals), rows);
      (r.Some? <==> DestinationsShape(principals, rows)) && (r.Some? ==> DestinationsRead(rows, r.value))
  {
    TraverseEach(DestinationCheck(principals), rows);
    forall i | 0 <= i < |rows|
      ensures DestinationCheck(principals)(rows[i]).Some? <==> DestinationShape(principals, rows[i])
      ensures DestinationCheck(principals)(rows[i]).Some? ==>
                DestinationReadsKeys(rows[i], DestinationCheck(principals)(rows[i]).value)
    {
      DestinationLoadsIff(principals, rows[i]);
    }
  }

  /** One destination that cannot be read refuses them all. */
  lemma DestinationRefuses(principals: seq<Principal>, rows: Fields, i: nat)
    requires i < |rows| && DestinationOf(principals, rows[i]).None?
    ensures Traverse(DestinationCheck(principals), rows).None? && !DestinationsShape(principals, rows)
  {
    TraverseEach(DestinationCheck(principals), rows);
    assert DestinationCheck(principals)(rows[i]).None?;
    DestinationLoadsIff(principals, rows[i]);
  }

  ghost predicate RoutesShape(senders: seq<Sender>, destinations: seq<Destination>, principals: seq<Principal>, items: seq<Value>) {
    forall i :: 0 <= i < |items| ==> RouteLoads(senders, destinations, principals, items[i])
  }

  ghost predicate RoutesRead(items: seq<Value>, r: seq<Route>) {
    |r| == |items| && forall i :: 0 <= i < |items| ==> RouteReads(items[i], r[i])
  }

  lemma RoutesLoad(senders: seq<Sender>, destinations: seq<Destination>, principals: seq<Principal>, items: seq<Value>)
    ensures var r := Traverse(RouteCheck(senders, destinations, principals), items);
      (r.Some? <==> RoutesShape(senders, destinations, principals, items)) && (r.Some? ==> RoutesRead(items, r.value))
  {
    var check := RouteCheck(senders, destinations, principals);
    TraverseEach(check, items);
    forall i | 0 <= i < |items|
      ensures check(items[i]).Some? <==> RouteLoads(senders, destinations, principals, items[i])
      ensures check(items[i]).Some? ==> RouteReads(items[i], check(items[i]).value)
    {
      RouteLoadsIff(senders, destinations, principals, items[i]);
    }
  }

  /** One route that cannot be read refuses them all. */
  lemma RouteRefuses(senders: seq<Sender>, destinations: seq<Destination>, principals: seq<Principal>, items: seq<Value>, i: nat)
    requires i < |items| && RouteOf(senders, destinations, principals, items[i]).None?
    ensures Traverse(RouteCheck(senders, destinations, principals), items).None?
    ensures !RoutesShape(senders, destinations, principals, items)
  {
    TraverseEach(RouteCheck(senders, destinations, principals), items);
    assert RouteCheck(senders, destinations, principals)(items[i]).None?;
    RouteLoadsIff(senders, destinations, principals, items[i]);
  }

  ghost predicate PrincipalsShape(c: Checks, rows: Fields) {
    forall i :: 0 <= i < |rows| ==> PrincipalShape(c, rows[i])
  }

  ghost predicate PrincipalsRead(c: Checks, rows: Fields, r: seq<Principal>) {
    |r| == |rows| && forall i :: 0 <= i < |rows| ==> PrincipalReads(c, rows[i], r[i])
  }

  lemma PrincipalsLoad(c: Checks, rows: Fields)
    ensures var r := Traverse(PrincipalCheck(c), rows);
      (r.Some? <==> PrincipalsShape(c, rows)) && (r.Some? ==> PrincipalsRead(c, rows, r.value))
  {
    TraverseEach(PrincipalCheck(c), rows);
    forall i | 0 <= i < |rows|
      ensures PrincipalCheck(c)(rows[i]).Some? <==> PrincipalShape(c, rows[i])
      ensures PrincipalCheck(c)(rows[i]).Some? ==> PrincipalReads(c, rows[i], PrincipalCheck(c)(rows[i]).value)
    {
      PrincipalLoadsIff(c, rows[i]);
    }
  }

  /** One principal that cannot be read refuses them all. */
  lemma PrincipalRefuses(c: Checks, rows: Fields, i: nat)
    requires i < |rows| && PrincipalOf(c, rows[i]).None?
    ensures Traverse(PrincipalCheck(c), rows).None? && !PrincipalsShape(c, rows)
  {
    TraverseEach(PrincipalCheck(c), rows);
    assert PrincipalCheck(c)(rows[i]).None?;
    PrincipalLoadsIff(c, rows[i]);
  }

  /** The adapter a v1 file's routing names for a source. */
  function AdapterRouted(routing: Value, name: string): Option<string> {
    if routing.Obj? && Get(routing.fields, name).Obj? && Get(Get(routing.fields, name).fields, "adapter").Str?
    then Some(Get(Get(routing.fields, name).fields, "adapter").s)
    else None
  }

  /**
   A v1 file's tables: for each source, in order, a destination of its own name
   with the adapter its routing names and the owner it declares, and a route to it.
   */
  lemma LegacyTablesRead(c: Checks, raw: Fields, senders: seq<Sender>)
    ensures TablesV1(c, raw, senders).Some? ==>
      var m := TablesV1(c, raw, senders).value;
      && m.senders == senders && |m.destinations| == |senders| && |m.routes| == |senders|
      && forall i :: 0 <= i < |senders| ==>
           && m.destinations[i].name == senders[i].name && m.destinations[i].principal == senders[i].identity
           && m.destinations[i].session.None? && m.destinations[i].maxConnections.None?
           && m.destinations[i].adapter == AdapterRouted(Get(raw, "routing"), senders[i].name)
           && m.routes[i] == Route(senders[i].name, senders[i].identity, [senders[i].name])
  {
  }

  lemma HasSnoc(fields: Fields, f: Field)
    ensures Has(fields + [f], f.key) && forall k :: Has(fields, k) ==> Has(fields + [f], k)
  {
    forall k ensures Has(fields, k) ==> Has(fields + [f], k) { FindSnoc(fields, f, k); }
    FindSnoc(fields, f, f.key);
  }

  /** Adding the owners destinations name keeps the principals there are, in place, and adds only such owners, without channels. */
  lemma {:induction false} OwnersAdded(principals: Fields, ds: seq<Legacy>)
    requires Materialise(principals, ds).Some?
    ensures var r := Materialise(principals, ds).value;
      && principals <= r
      && (forall i :: |principals| <= i < |r| ==>
            r[i].value == Obj([]) && exists d :: d in ds && d.principal == Str(r[i].key))
      && (forall d :: d in ds && Truthy(d.principal) ==> d.principal.Str? && Has(r, d.principal.s))
  {
    if ds != [] {
      var front, last := ds[..|ds| - 1], ds[|ds| - 1];
      OwnersAdded(principals, front);
      var mid, r := Materialise(principals, front).value, Materialise(principals, ds).value;
      assert ds == front + [last];
      forall i | |principals| <= i < |mid| ensures exists d :: d in ds && d.principal == Str(mid[i].key) {
        var d :| d in front && d.principal == Str(mid[i].key);
        assert d in ds;
      }
      assert last in ds;
      if r != mid {
        assert r == mid + [Field(last.principal.s, Obj([]))];
        HasSnoc(mid, Field(last.principal.s, Obj([])));
      }
    }
  }

  lemma PrincipalsRest(ds: seq<Legacy>, senders: seq<Sender>, routing: Value, f: Field)
    requires ds == LegacyDestinations(Identities(senders), routing)
    requires exists d :: d in ds && d.principal == Str(f.key)
    ensures exists s :: s in senders && s.identity == Some(f.key)
  {
    var d :| d in ds && d.principal == Str(f.key);
    var j :| 0 <= j < |ds| && ds[j] == d;
    assert senders[j] in senders && senders[j].identity == Some(f.key);
  }

  lemma OwnerKnown(ds: seq<Legacy>, senders: seq<Sender>, routing: Value, r: Fields, s: Sender)
    requires ds == LegacyDestinations(Identities(senders), routing)
    requires forall d :: d in ds && Truthy(d.principal) ==> d.principal.Str? && Has(r, d.principal.s)
    requires s in senders && s.identity.Some? && s.identity.value != ""
    ensures Known(AsPrincipals(r), s.identity.value)
  {
    var j :| 0 <= j < |senders| && senders[j] == s;
    assert ds[j] in ds && ds[j].principal == Str(s.identity.value);
    var i :| 0 <= i < |r| && r[i].key == s.identity.value;
    assert AsPrincipals(r)[i] in AsPrincipals(r) && AsPrincipals(r)[i].id == s.identity.value;
  }

  /**
   A v1 file's principals: those of its `delivery` table as they are, then, with
   no channels, every other owner a source declares.
   */
  lemma LegacyPrincipalsRead(c: Checks, raw: Fields, senders: seq<Sender>)
    requires TablesV1(c, raw, senders).Some?
    ensures var m := TablesV1(c, raw, senders).value;
      && m.delivery <= m.principals
      && (forall i :: |m.delivery| <= i < |m.principals| ==>
            m.principals[i].channels == [] && exists s :: s in senders && s.identity == Some(m.principals[i].id))
      && (forall s :: s in senders && s.identity.Some? && s.identity.value != "" ==> Known(m.principals, s.identity.value))
  {
    var m := TablesV1(c, raw, senders).value;
    var fields := AsFields(m.delivery);
    var ds := LegacyDestinations(Identities(senders), Get(raw, "routing"));
    var r := Materialise(fields, ds).value;
    OwnersAdded(fields, ds);
    assert m.principals == AsPrincipals(r);
    forall i | 0 <= i < |m.delivery| ensures m.principals[i] == m.delivery[i] {
      assert r[i] == fields[i];
    }
    forall i | |m.delivery| <= i < |r|
      ensures m.principals[i].channels == [] && exists s :: s in senders && s.identity == Some(m.principals[i].id)
    {
      PrincipalsRest(ds, senders, Get(raw, "routing"), r[i]);
    }
    forall s | s in senders && s.identity.Some? && s.identity.value != "" ensures Known(m.principals, s.identity.value) {
      OwnerKnown(ds, senders, Get(raw, "routing"), r, s);
    }
  }

  /** An entry of the v1 `delivery` table: a named person and their channels. */
  ghost predicate DeliveryReads(c: Checks, f: Field, r: Principal) {
    && f.key != "" && f.value.Obj? && r.id == f.key
    && ReadsChannels(c, f.key, f.value.fields, r.channels)
  }

  /** A v1 file's `delivery` table is read person by person. */
  lemma LegacyDeliveryRead(c: Checks, raw: Fields, senders: seq<Sender>)
    ensures TablesV1(c, raw, senders).Some? ==>
      var v, delivery := Get(raw, "delivery"), TablesV1(c, raw, senders).value.delivery;
      if v.Null? then delivery == []
      else v.Obj? && |delivery| == |v.fields|
           && forall i :: 0 <= i < |delivery| ==> DeliveryReads(c, v.fields[i], delivery[i])
  {
    var rows := Rows(Get(raw, "delivery"));
    if rows.Some? {
      TraverseEach(DeliveryCheck(c), rows.value);
      forall i | 0 <= i < |rows.value| && DeliveryCheck(c)(rows.value[i]).Some?
        ensures DeliveryReads(c, rows.value[i], DeliveryCheck(c)(rows.value[i]).value)
      {
        ChannelsRead(c, rows.value[i].key, rows.value[i].value.fields);
      }
    }
  }

  /** An object, or nothing. */
  ghost predicate ObjectOrNull(v: Value) {
    v.Null? || v.Obj?
  }

  /** What any accepted file looks like around its addressing tables. */
  ghost predicate AcceptedFrame(c: Checks, raw: Fields) {
    && ObjectOrNull(Get(raw, "sources")) && ObjectOrNull(Get(raw, "senders")) && ObjectOrNull(Get(raw, "routing"))
    && ObjectOrNull(Get(raw, "destinations")) && ObjectOrNull(Get(raw, "principals"))
    && (Has(raw, "version") ==>
          var v := Get(raw, "version");
          v.Bool? || v == Int(0) || v == Int(1) || v == Int(2) || v == Float(0.0) || v == Float(1.0) || v == Float(2.0))
    && !(Has(raw, "sources") && Has(raw, "senders")) && !(Has(raw, "routing") && Has(raw, "routes"))
    && !(Has(raw, "delivery") && Has(raw, "principals"))
    && (Get(raw, "listen").Null? || c.listen(Get(raw, "listen"))) && (Get(raw, "state").Null? || c.state(Get(raw, "state")))
    && (Get(raw, "wake").Null? || c.wake(Get(raw, "wake"))) && (Get(raw, "vault").Null? || c.vault(Get(raw, "vault")))
  }

  /** The table of credentials is there, is not empty, and is read sender by sender; a secret in the vault needs a vault. */
  ghost predicate AcceptedSenders(c: Checks, raw: Fields, key: string, senders: seq<Sender>) {
    && Get(raw, key).Obj? && Get(raw, key).fields != []
    && SendersShape(c, Get(raw, key).fields)
    && SendersRead(Get(raw, "default_callback_url"), Get(raw, key).fields, senders)
    && ((exists s :: s in senders && exists u :: u in s.secretUris && "vault://" <= u) ==> Truthy(Get(raw, "vault")))
  }

  ghost predicate PrincipalsTable(c: Checks, v: Value, ps: seq<Principal>) {
    if v.Obj? then PrincipalsShape(c, v.fields) && PrincipalsRead(c, v.fields, ps) else ps == []
  }

  ghost predicate DestinationsTable(principals: seq<Principal>, v: Value, ds: seq<Destination>) {
    if v.Obj? then DestinationsShape(principals, v.fields) && DestinationsRead(v.fields, ds) else ds == []
  }

  ghost predicate RoutesTable(senders: seq<Sender>, destinations: seq<Destination>, principals: seq<Principal>, v: Value, rs: seq<Route>) {
    if v.List? then RoutesShape(senders, destinations, principals, v.items) && RoutesRead(v.items, rs)
    else v.Null? && rs == []
  }

  /** The three v2 tables, each read from its own key, an absent one as empty. */
  ghost predicate AcceptedTables(c: Checks, raw: Fields, m: Model) {
    && PrincipalsTable(c, Get(raw, "principals"), m.principals)
    && DestinationsTable(m.principals, Get(raw, "destinations"), m.destinations)
    && RoutesTable(m.senders, m.destinations, m.principals, Get(raw, "routes"), m.routes)
    && forall p :: p in m.delivery <==> p in m.principals && p.channels != []
  }

  /** A channel whose signing secret is kept in the vault. */
  ghost predicate SignedFromVault(f: Field) {
    f.value.Obj? && Get(f.value.fields, "secret_uri").Str? && "vault://" <= Get(f.value.fields, "secret_uri").s
  }

  lemma FrameReads(c: Checks, raw: Fields)
    requires FrameOk(c, raw)
    ensures AcceptedFrame(c, raw)
  {
  }

  lemma LoadedFrame(c: Checks, raw: Fields)
    requires Load(c, Obj(raw)).Some?
    ensures FrameOk(c, raw)
  {
  }

  lemma LoadedSenders(c: Checks, raw: Fields)
    requires Load(c, Obj(raw)).Some?
    ensures AcceptedSenders(c, raw,
              if Has(raw, "senders") || Has(raw, "routes") || Has(raw, "principals") then "senders" else "sources",
              Load(c, Obj(raw)).value.senders)
  {
    SendersLoad(c, Get(raw, "default_callback_url"), Credentials(raw).fields);
  }

  lemma TablesFromRead(c: Checks, principals: Fields, destinations: Fields, routes: seq<Value>, senders: seq<Sender>)
    requires TablesFrom(c, principals, destinations, routes, senders).Some?
    ensures var m := TablesFrom(c, principals, destinations, routes, senders).value;
      && m.senders == senders
      && PrincipalsShape(c, principals) && PrincipalsRead(c, principals, m.principals)
      && DestinationsShape(m.principals, destinations) && DestinationsRead(destinations, m.destinations)
      && RoutesShape(senders, m.destinations, m.principals, routes) && RoutesRead(routes, m.routes)
      && m.delivery == WithChannels(m.principals)
  {
    var m := TablesFrom(c, principals, destinations, routes, senders).value;
    PrincipalsLoad(c, principals);
    DestinationsLoad(m.principals, destinations);
    RoutesLoad(senders, m.destinations, m.principals, routes);
  }

  lemma PrincipalsTableRead(c: Checks, v: Value, ps: seq<Principal>)
    requires Rows(v).Some? && PrincipalsShape(c, Rows(v).value) && PrincipalsRead(c, Rows(v).value, ps)
    ensures PrincipalsTable(c, v, ps)
  {
  }

  lemma DestinationsTableRead(principals: seq<Principal>, v: Value, ds: seq<Destination>)
    requires Rows(v).Some? && DestinationsShape(principals, Rows(v).value) && DestinationsRead(Rows(v).value, ds)
    ensures DestinationsTable(principals, v, ds)
  {
  }

  lemma RoutesTableRead(senders: seq<Sender>, destinations: seq<Destination>, principals: seq<Principal>, v: Value, rs: seq<Route>)
    requires Items(v).Some? && RoutesShape(senders, destinations, principals, Items(v).value) && RoutesRead(Items(v).value, rs)
    ensures RoutesTable(senders, destinations, principals, v, rs)
  {
  }

  lemma TablesRead(c: Checks, raw: Fields, senders: seq<Sender>)
    requires TablesV2(c, raw, senders).Some?
    ensures TablesV2(c, raw, senders).value.senders == senders
    ensures AcceptedTables(c, raw, TablesV2(c, raw, senders).value)
  {
    var m := TablesV2(c, raw, senders).value;
    TablesFromRead(c, Rows(Get(raw, "principals")).value, Rows(Get(raw, "destinations")).value,
                   Items(Get(raw, "routes")).value, senders);
    PrincipalsTableRead(c, Get(raw, "principals"), m.principals);
    DestinationsTableRead(m.principals, Get(raw, "destinations"), m.destinations);
    RoutesTableRead(senders, m.destinations, m.principals, Get(raw, "routes"), m.routes);
  }

  /**
   An accepted file has the form the loader demands, and every sender - and in
   the v2 vocabulary every principal, destination and route - is read from its
   own entry under its own key.
   */
  lemma LoadedAsWritten(c: Checks, raw: Fields)
    requires Load(c, Obj(raw)).Some?
    ensures var m, v2 := Load(c, Obj(raw)).value, Has(raw, "senders") || Has(raw, "routes") || Has(raw, "principals");
      && AcceptedFrame(c, raw)
      && AcceptedSenders(c, raw, if v2 then "senders" else "sources", m.senders)
      && (v2 ==> AcceptedTables(c, raw, m))
      && ((exists p :: p in m.delivery && exists f :: f in p.channels && SignedFromVault(f)) ==> Truthy(Get(raw, "vault")))
  {
    LoadedFrame(c, raw);
    FrameReads(c, raw);
    LoadedSenders(c, raw);
    if UsesV2(raw) {
      TablesRead(c, raw, Load(c, Obj(raw)).value.senders);
    }
  }

  // ── the loops of the source ────────────────────────────────────────────────

  method NormaliseSenders(c: Checks, fallback: Value, sources: Fields) returns (r: Option<seq<Sender>>)
    ensures r == Traverse(SenderCheck(c, fallback), sources)
    ensures r.Some? <==> SendersShape(c, sources)
    ensures r.Some? ==> SendersRead(fallback, sources, r.value)
  {
    var senders := [];
    for i := 0 to |sources|
      invariant Traverse(SenderCheck(c, fallback), sources[..i]) == Some(senders)
    {
      var s := SenderOf(c, fallback, sources[i]);
      if s.None? {
        SenderRefuses(c, fallback, sources, i);
        return None;
      }
      TraverseSnoc(SenderCheck(c, fallback), sources, i, senders, s.value);
      senders := senders + [s.value];
    }
    assert sources[..|sources|] == sources;
    SendersLoad(c, fallback, sources);
    return Some(senders);
  }

  method ValidateDestinationsBlock(raw: Value, principals: seq<Principal>) returns (r: Option<seq<Destination>>)
    ensures r == if Rows(raw).Some? then Traverse(DestinationCheck(principals), Rows(raw).value) else None
    ensures r.Some? <==> raw.Null? || (raw.Obj? && DestinationsShape(principals, raw.fields))
    ensures r.Some? ==> if raw.Obj? then DestinationsRead(raw.fields, r.value) else r.value == []
  {
    var rows := Rows(raw);
    if rows.None? {
      return None;
    }
    var out := [];
    for i := 0 to |rows.value|
      invariant Traverse(DestinationCheck(principals), rows.value[..i]) == Some(out)
    {
      var d := DestinationOf(principals, rows.value[i]);
      if d.None? {
        DestinationRefuses(principals, rows.value, i);
        return None;
      }
      TraverseSnoc(DestinationCheck(principals), rows.value, i, out, d.value);
      out := out + [d.value];
    }
    assert rows.value[..|rows.value|] == rows.value;
    DestinationsLoad(principals, rows.value);
    return Some(out);
  }

  method ValidateRoutesBlock(raw: Value, senders: seq<Sender>, destinations: seq<Destination>, principals: seq<Principal>)
    returns (r: Option<seq<Route>>)
    ensures r == if Items(raw).Some? then Traverse(RouteCheck(senders, destinations, principals), Items(raw).value) else None
    ensures r.Some? <==> raw.Null? || (raw.List? && RoutesShape(senders, destinations, principals, raw.items))
    ensures r.Some? ==> if raw.List? then RoutesRead(raw.items, r.value) else r.value == []
  {
    var items := Items(raw);
    if items.None? {
      return None;
    }
    ghost var check := RouteCheck(senders, destinations, principals);
    var out := [];
    for i := 0 to |items.value|
      invariant Traverse(check, items.value[..i]) == Some(out)
    {
      var route := RouteOf(senders, destinations, principals, items.value[i]);
      if route.None? {
        RouteRefuses(senders, destinations, principals, items.value, i);
        return None;
      }
      TraverseSnoc(check, items.value, i, out, route.value);
      out := out + [route.value];
    }
    assert items.value[..|items.value|] == items.value;
    RoutesLoad(senders, destinations, principals, items.value);
    return Some(out);
  }

  method ValidatePrincipals(c: Checks, rows: Fields) returns (r: Option<seq<Principal>>)
    ensures r == Traverse(PrincipalCheck(c), rows)
    ensures r.Some? <==> PrincipalsShape(c, rows)
    ensures r.Some? ==> PrincipalsRead(c, rows, r.value)
  {
    var out := [];
    for i := 0 to |rows|
      invariant Traverse(PrincipalCheck(c), rows[..i]) == Some(out)
    {
      var p := PrincipalOf(c, rows[i]);
      if p.None? {
        PrincipalRefuses(c, rows, i);
        return None;
      }
      TraverseSnoc(PrincipalCheck(c), rows, i, out, p.value);
      out := out + [p.value];
    }
    assert rows[..|rows|] == rows;
    PrincipalsLoad(c, rows);
    return Some(out);
  }

  method Derive(sources: Fields, routing: Value, delivery: Fields) returns (r: Option<Derived>)
    ensures r == DeriveFromLegacy(sources, routing, delivery)
  {
    var destinations: seq<Legacy> := [];
    for i := 0 to |sources|
      invariant destinations == LegacyDestinations(sources, routing)[..i]
    {
      destinations := destinations + [Legacy(sources[i].key, AdapterFor(routing, sources[i].key), sources[i].value)];
    }
    assert destinations == LegacyDestinations(sources, routing);
    var principals := delivery;
    for i := 0 to |destinations|
      invariant Materialise(delivery, destinations[..i]) == Some(principals)
    {
      assert destinations[..i + 1][..i] == destinations[..i];
      var p := destinations[i].principal;
      if Truthy(p) {
        if !p.Str? {
          MaterialisePrefix(delivery, destinations, i + 1);
          return None;
        }
        if !Has(principals, p.s) {
          principals := principals + [Field(p.s, Obj([]))];
        }
      }
    }
    assert destinations[..|destinations|] == destinations;
    return Some(Derived(destinations, principals));
  }

  lemma {:induction false} MaterialisePrefix(principals: Fields, ds: seq<Legacy>, n: nat)
    requires n <= |ds| && Materialise(principals, ds[..n]).None?
    ensures Materialise(principals, ds).None?
    decreases |ds|
  {
    if n == |ds| {
      assert ds[..n] == ds;
    } else {
      assert ds[..|ds| - 1][..n] == ds[..n];
      MaterialisePrefix(principals, ds[..|ds| - 1], n);
    }
  }
}

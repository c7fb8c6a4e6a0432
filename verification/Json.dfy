/**
 JSON values as a parser returns them. An object keeps its keys in file order.
 */
module Json {
  import opened Prelude

  datatype Value =
    | Null
    | Bool(b: bool)
    | Int(n: int)
    | Float(r: real)
    | Str(s: string)
    | List(items: seq<Value>)
    | Obj(fields: seq<Field>)

  datatype Field = Field(key: string, value: Value)

  type Fields = seq<Field>

  /** `dict.get`, telling an absent key from a null one. */
  function Find(fields: Fields, key: string): (r: Option<Value>)
    ensures r.Some? ==> exists i :: 0 <= i < |fields| && fields[i] == Field(key, r.value)
    ensures r.None? ==> forall i :: 0 <= i < |fields| ==> fields[i].key != key
  {
    if fields == [] then None
    else if fields[|fields| - 1].key == key then Some(fields[|fields| - 1].value)
    else Find(fields[..|fields| - 1], key)
  }

  predicate Has(fields: Fields, key: string) {
    Find(fields, key).Some?
  }

  /** `dict.get(key)`: null when the key is absent. */
  function Get(fields: Fields, key: string): Value {
    var r := Find(fields, key);
    if r.Some? then r.value else Null
  }

  /** `d[key] = value`: in place if the key is there, else at the end. */
  function Put(fields: Fields, key: string, value: Value): Fields {
    if fields == [] then [Field(key, value)]
    else
      var n := |fields| - 1;
      if fields[n].key == key then fields[..n] + [Field(key, value)]
      else Put(fields[..n], key, value) + [fields[n]]
  }

  function Without(fields: Fields, key: string): Fields {
    Filter(fields, (f: Field) => f.key != key)
  }

  /** Python truth. */
  predicate Truthy(v: Value) {
    match v
    case Null => false
    case Bool(b) => b
    case Int(n) => n != 0
    case Float(r) => r != 0.0
    case Str(s) => s != ""
    case List(items) => items != []
    case Obj(fields) => fields != []
  }

  /** Null or text, as an option. */
  function Text(v: Value): Option<string> {
    match v
    case Str(s) => Some(s)
    case _ => None
  }

  predicate NullOrName(v: Value) {
    v.Null? || (v.Str? && v.s != "")
  }

  /** Every element validated in order, or nothing. */
  function Traverse<T, U>(check: T -> Option<U>, xs: seq<T>): (r: Option<seq<U>>)
    ensures r.Some? ==> |r.value| == |xs|
  {
    if xs == [] then Some([])
    else
      var front := Traverse(check, xs[..|xs| - 1]);
      var last := check(xs[|xs| - 1]);
      if front.Some? && last.Some? then Some(front.value + [last.value]) else None
  }

  lemma {:induction false} TraverseEach<T, U>(check: T -> Option<U>, xs: seq<T>)
    ensures Traverse(check, xs).Some? <==> forall i :: 0 <= i < |xs| ==> check(xs[i]).Some?
    ensures Traverse(check, xs).Some? ==>
              forall i :: 0 <= i < |xs| ==> check(xs[i]) == Some(Traverse(check, xs).value[i])
  {
    if xs != [] {
      TraverseEach(check, xs[..|xs| - 1]);
    }
  }

  /** One more element validated. */
  lemma TraverseSnoc<T, U>(check: T -> Option<U>, xs: seq<T>, i: nat, out: seq<U>, y: U)
    requires i < |xs| && Traverse(check, xs[..i]) == Some(out) && check(xs[i]) == Some(y)
    ensures Traverse(check, xs[..i + 1]) == Some(out + [y])
  {
    assert xs[..i + 1][..i] == xs[..i];
  }

  lemma {:induction false} FindPut(fields: Fields, key: string, value: Value, k: string)
    ensures Find(Put(fields, key, value), k) == if k == key then Some(value) else Find(fields, k)
  {
    if fields == [] {
      assert Put(fields, key, value)[..0] == [];
    } else {
      var n := |fields| - 1;
      FindPut(fields[..n], key, value, k);
      var p := Put(fields, key, value);
      assert p[..|p| - 1] == if fields[n].key == key then fields[..n] else Put(fields[..n], key, value);
    }
  }

  lemma {:induction false} FindWithout(fields: Fields, key: string, k: string)
    ensures Find(Without(fields, key), k) == if k == key then None else Find(fields, k)
  {
    if fields != [] {
      var n := |fields| - 1;
      FindWithout(fields[..n], key, k);
      var w := Without(fields[..n], key);
      assert (w + [fields[n]])[..|w|] == w;
    }
  }

  lemma FindSnoc(fields: Fields, f: Field, k: string)
    ensures Find(fields + [f], k) == if f.key == k then Some(f.value) else Find(fields, k)
  {
    assert (fields + [f])[..|fields|] == fields;
  }

  lemma {:induction false} FindConcat(a: Fields, b: Fields, k: string)
    ensures Find(a + b, k) == if Find(b, k).Some? then Find(b, k) else Find(a, k)
  {
    if b == [] {
      assert a + b == a;
    } else {
      FindConcat(a, b[..|b| - 1], k);
      assert (a + b)[..|a + b| - 1] == a + b[..|b| - 1];
    }
  }

  lemma FindSingle(f: Field, k: string)
    ensures Find([f], k) == if f.key == k then Some(f.value) else None
  {
    assert [] + [f] == [f];
    FindSnoc([], f, k);
  }
}

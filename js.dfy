/**
 * The few JavaScript runtime shapes the scaffolding tool relies on:
 * optional values, thrown errors, a call that either returns or throws while
 * writing log lines, and the insertion-ordered `Map` used for AST caches.
 */
module Js {

  datatype Option<+T> = None | Some(value: T)

  /** A thrown JavaScript `Error`: its constructor name and its message. */
  datatype Error = Error(name: string, message: string) {
    /**
     * What `${err}` prints for an error object (`Error.prototype.toString`):
     * "Name: message", or just the one that is not empty.
     */
    function Text(): (t: string)
      ensures message == "" ==> t == name
      ensures name == "" ==> t == message
      ensures name != "" && message != "" ==> |t| == |name| + 2 + |message| && t[..|name|] == name && t[|name| + 2..] == message
    {
      if message == "" then name
      else if name == "" then message
      else name + ": " + message
    }
  }

  /**
   * The properties every object literal inherits from `Object.prototype`.
   * Each holds a function, or an object for `__proto__`, so each is truthy.
   */
  const ObjectPrototypeProperties: seq<string> := [
    "constructor", "__defineGetter__", "__defineSetter__", "hasOwnProperty",
    "__lookupGetter__", "__lookupSetter__", "isPrototypeOf", "propertyIsEnumerable",
    "toString", "valueOf", "__proto__", "toLocaleString"
  ]

  /** What `obj[name]` reads: an own property, a property inherited from `Object.prototype`, or `undefined`. */
  datatype Lookup<+V> = Own(value: V) | Inherited(name: string) | Undefined

  /**
   * `obj[name]` for an object literal whose own properties are `own`: an own
   * property shadows the inherited one of the same name.
   */
  function Get<V>(own: map<string, V>, name: string): (p: Lookup<V>)
    ensures p.Own? <==> name in own
    ensures p.Own? ==> p.value == own[name]
    ensures p.Inherited? <==> name !in own && name in ObjectPrototypeProperties
    ensures p.Inherited? ==> p.name == name
  {
    if name in own then Own(own[name])
    else if name in ObjectPrototypeProperties then Inherited(name)
    else Undefined
  }

  /** The outcome of a call that may throw. */
  datatype Outcome<+T> = Ok(value: T) | Thrown(error: Error)

  /** An outcome together with the lines the call wrote to the error log. */
  datatype Traced<+T> = Traced(outcome: Outcome<T>, log: seq<string>)

  /**
   * A JavaScript `Map` keyed by strings: `keys` lists the keys in insertion
   * order (the order `for ... of` visits them), `values` holds the entries.
   */
  datatype OrderedMap<V> = OrderedMap(keys: seq<string>, values: map<string, V>) {

    ghost predicate Valid() {
      && (forall i, j :: 0 <= i < j < |keys| ==> keys[i] != keys[j])
      && (forall k :: k in values <==> k in keys)
    }

    predicate Has(k: string) {
      k in values
    }

    /**
     * `map.set(k, v)`: a new key goes to the end of the iteration order, an
     * existing key keeps its place and gets the new value.
     */
    function Set(k: string, v: V): (r: OrderedMap<V>)
      ensures r.values == values[k := v]
      ensures |keys| <= |r.keys| && r.keys[..|keys|] == keys
      ensures k in values ==> r.keys == keys
      ensures k !in values ==> r.keys == keys + [k]
      ensures Valid() ==> r.Valid()
    {
      if k in values then OrderedMap(keys, values[k := v])
      else OrderedMap(keys + [k], values[k := v])
    }
  }

  /** `new Map()`. */
  function EmptyMap<V>(): (m: OrderedMap<V>)
    ensures m.Valid() && m.values == map[]
  {
    OrderedMap([], map[])
  }

  /** A JavaScript binding that may hold `null`. */
  datatype Nullable<+T> = Null | NonNull(value: T)

  /** A value `JSON.parse` can produce; numbers are kept to integers. */
  datatype Json =
    | JNull
    | JBool(b: bool)
    | JNumber(n: int)
    | JString(s: string)
    | JArray(items: seq<Json>)
    | JObject(fields: map<string, Json>)

  /** The decimal numeral of `n`, the property key JavaScript uses for index `n`. */
  function Decimal(n: nat): (s: string)
    ensures |s| >= 1 && forall i :: 0 <= i < |s| ==> '0' <= s[i] <= '9'
    ensures n >= 10 <==> |s| >= 2
  {
    var digit := ['0' + (n % 10) as char];
    if n < 10 then digit else Decimal(n / 10) + digit
  }

  /** Different indices have different keys. */
  lemma {:induction false} DecimalInjective(a: nat, b: nat)
    requires Decimal(a) == Decimal(b)
    ensures a == b
    decreases a
  {
    var da, db := Decimal(a), Decimal(b);
    assert da[|da| - 1] == '0' + (a % 10) as char;
    assert db[|db| - 1] == '0' + (b % 10) as char;
    if a >= 10 {
      assert Decimal(a / 10) == da[..|da| - 1] == db[..|db| - 1] == Decimal(b / 10);
      DecimalInjective(a / 10, b / 10);
    }
  }
}

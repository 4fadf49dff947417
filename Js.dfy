/**
 * The JavaScript values the components receive from `res.json()` and keep in
 * their state, with the three operations the components apply to them:
 * truthiness (`if (x)`, `x && ...`, `x || d`), nullish coalescing (`x ?? d`)
 * and property access with optional chaining (`x?.key`). Objects keep their
 * entries in insertion order, as `Object.entries` reports them; the object
 * spread `{ ...o, [key]: value }` is `Put`.
 *
 * Numbers are integers here: no fractions and no NaN.
 */
module Js {
  import Text

  datatype JsValue =
    | Undefined
    | Null
    | Bool(b: bool)
    | Num(n: int)
    | Str(s: string)
    | Arr(items: seq<JsValue>)
    | Obj(entries: seq<(string, JsValue)>)

  /** JavaScript truthiness: `undefined`, `null`, `false`, `0` and `""` are falsy. */
  predicate Truthy(v: JsValue) {
    match v
    case Undefined => false
    case Null => false
    case Bool(b) => b
    case Num(n) => n != 0
    case Str(s) => s != ""
    case Arr(_) => true
    case Obj(_) => true
  }

  predicate Nullish(v: JsValue) {
    v.Undefined? || v.Null?
  }

  /** `v || fallback` */
  function Or(v: JsValue, fallback: JsValue): JsValue {
    if Truthy(v) then v else fallback
  }

  /** `v ?? fallback` */
  function Coalesce(v: JsValue, fallback: JsValue): JsValue {
    if Nullish(v) then fallback else v
  }

  /** The value stored under `key` in an entry list, or `undefined`. */
  function Lookup(entries: seq<(string, JsValue)>, key: string): JsValue {
    if entries == [] then Undefined
    else if entries[0].0 == key then entries[0].1
    else Lookup(entries[1..], key)
  }

  /** `v?.key` (and `v.key` for a non-nullish `v`): only objects carry named properties. */
  function Get(v: JsValue, key: string): JsValue {
    if v.Obj? then Lookup(v.entries, key) else Undefined
  }

  function Keys(entries: seq<(string, JsValue)>): seq<string> {
    if entries == [] then [] else [entries[0].0] + Keys(entries[1..])
  }

  /**
   * The entries of `{ ...o, [key]: value }`: an existing key keeps its place
   * and takes the new value; a new key is added at the end.
   */
  function Put(entries: seq<(string, JsValue)>, key: string, value: JsValue): seq<(string, JsValue)> {
    if entries == [] then [(key, value)]
    else if entries[0].0 == key then [(key, value)] + entries[1..]
    else [entries[0]] + Put(entries[1..], key, value)
  }

  /** After the spread update, the updated key reads back the new value. */
  lemma {:induction false} LookupPutSame(entries: seq<(string, JsValue)>, key: string, value: JsValue)
    ensures Lookup(Put(entries, key, value), key) == value
  {
    if entries != [] && entries[0].0 != key {
      LookupPutSame(entries[1..], key, value);
    }
  }

  /** The spread update leaves every other key as it was, including absent ones. */
  lemma {:induction false} LookupPutOther(entries: seq<(string, JsValue)>, key: string, value: JsValue, other: string)
    requires other != key
    ensures Lookup(Put(entries, key, value), other) == Lookup(entries, other)
  {
    if entries != [] && entries[0].0 != key {
      LookupPutOther(entries[1..], key, value, other);
    }
  }

  /** The spread update keeps the key order, adding a new key at the end. */
  lemma {:induction false} KeysPut(entries: seq<(string, JsValue)>, key: string, value: JsValue)
    ensures Keys(Put(entries, key, value)) == if key in Keys(entries) then Keys(entries) else Keys(entries) + [key]
  {
    if entries != [] && entries[0].0 != key {
      KeysPut(entries[1..], key, value);
      assert Keys(entries) == [entries[0].0] + Keys(entries[1..]);
    }
  }

  /** A key the object does not have reads as `undefined`. */
  lemma {:induction false} LookupAbsent(entries: seq<(string, JsValue)>, key: string)
    ensures key !in Keys(entries) ==> Lookup(entries, key) == Undefined
  {
    if entries != [] {
      assert Keys(entries) == [entries[0].0] + Keys(entries[1..]);
      LookupAbsent(entries[1..], key);
    }
  }

  /** Applying the same spread update twice gives the same object as applying it once. */
  lemma {:induction false} PutIdempotent(entries: seq<(string, JsValue)>, key: string, value: JsValue)
    ensures Put(Put(entries, key, value), key, value) == Put(entries, key, value)
  {
    if entries != [] && entries[0].0 != key {
      PutIdempotent(entries[1..], key, value);
    }
  }

  function Digit(d: nat): char
    requires d < 10
  {
    "0123456789"[d]
  }

  /** The decimal numeral of `n`, without leading zeros. */
  function NatToDecimal(n: nat): (r: string)
    ensures |r| >= 1
    ensures forall i :: 0 <= i < |r| ==> '0' <= r[i] <= '9'
    ensures n != 0 ==> r[0] != '0'
  {
    if n < 10 then [Digit(n)] else NatToDecimal(n / 10) + [Digit(n % 10)]
  }

  function IntToDecimal(n: int): string {
    if n < 0 then "-" + NatToDecimal(-n) else NatToDecimal(n)
  }

  /**
   * `String(v)`, the conversion `localStorage.setItem` applies to its value:
   * arrays are joined with "," (empty text for null and undefined items),
   * every object is "[object Object]".
   */
  function ToJsString(v: JsValue): string {
    match v
    case Undefined => "undefined"
    case Null => "null"
    case Bool(b) => if b then "true" else "false"
    case Num(n) => IntToDecimal(n)
    case Str(s) => s
    case Arr(items) =>
      Text.Join(seq(|items|, i requires 0 <= i < |items| =>
        if Nullish(items[i]) then "" else ToJsString(items[i])), ",")
    case Obj(_) => "[object Object]"
  }
}

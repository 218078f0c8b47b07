/**
  The JavaScript values a JSON request body can hold, and the three pieces of
  JavaScript semantics the controller relies on: truthiness (`!x`), nullish
  coalescing (`x ?? d`) and object spread (`{ ...x }`).
  Numbers are integers here; NaN and fractions are not modelled.
 */
module Json {
  import Decimal

  datatype Json =
    | JNull
    | JBool(b: bool)
    | JNum(n: int)
    | JStr(s: string)
    | JArr(items: seq<Json>)
    | JObj(fields: map<string, Json>)

  /** The value of a property read: `undefined` when the property is absent. */
  datatype Property = Undefined | Defined(value: Json)

  /** `obj.key` on a parsed JSON object. */
  function Get(obj: map<string, Json>, key: string): (p: Property)
    ensures p.Defined? <==> key in obj
    ensures p.Defined? ==> p.value == obj[key]
  {
    if key in obj then Defined(obj[key]) else Undefined
  }

  /**
    JavaScript truthiness: `false`, `0`, `""`, `null` and `undefined` are
    falsy. Every nullish value is falsy, but a falsy value need not be nullish.
   */
  predicate Truthy(p: Property)
    ensures Truthy(p) ==> !Nullish(p)
    ensures p in {Defined(JStr("")), Defined(JNum(0)), Defined(JBool(false))} ==> !Truthy(p) && !Nullish(p)
  {
    match p
    case Undefined => false
    case Defined(v) =>
      match v
      case JNull => false
      case JBool(b) => b
      case JNum(n) => n != 0
      case JStr(s) => s != ""
      case JArr(_) => true
      case JObj(_) => true
  }

  /** The operands `??` replaces: `null` and `undefined` only. */
  predicate Nullish(p: Property) {
    p.Undefined? || p.value == JNull
  }

  /** The object has `key` with a value other than `null`. */
  predicate Supplied(obj: map<string, Json>, key: string) {
    key in obj && obj[key] != JNull
  }

  /**
    `p ?? fallback`: a supplied value wins even when it is falsy, and the
    result is nullish only when the fallback is.
   */
  function Coalesce(p: Property, fallback: Json): (r: Json)
    ensures p.Defined? && p.value != JNull ==> r == p.value
    ensures Nullish(p) ==> r == fallback
    ensures fallback != JNull ==> r != JNull
  {
    if Nullish(p) then fallback else p.value
  }

  /** The property keys of an index-keyed copy: "0", "1", ... up to |xs| - 1. */
  function Indexed(xs: seq<Json>): (m: map<string, Json>)
    ensures forall i :: 0 <= i < |xs| ==> Decimal.Show(i) in m && m[Decimal.Show(i)] == xs[i]
    ensures forall k :: k in m ==> exists i :: 0 <= i < |xs| && k == Decimal.Show(i)
  {
    forall i: nat, j: nat ensures Decimal.Show(i) == Decimal.Show(j) ==> i == j {
      Decimal.ShowInjective(i, j);
    }
    map i | 0 <= i < |xs| :: Decimal.Show(i) := xs[i]
  }

  /**
    `{ ...v }` for a JSON value: an object is copied with the same contents,
    an array or a string becomes an object keyed by its indices, and every
    other value contributes no property.
   */
  function Spread(v: Json): (r: Json)
    ensures r.JObj?
    ensures v.JObj? ==> r == v
    ensures v.JArr? ==> forall i :: 0 <= i < |v.items| ==>
      Decimal.Show(i) in r.fields && r.fields[Decimal.Show(i)] == v.items[i]
    ensures v.JArr? ==> forall k :: k in r.fields ==> exists i :: 0 <= i < |v.items| && k == Decimal.Show(i)
    ensures v.JStr? ==> forall i :: 0 <= i < |v.s| ==>
      Decimal.Show(i) in r.fields && r.fields[Decimal.Show(i)] == JStr([v.s[i]])
    ensures v.JStr? ==> forall k :: k in r.fields ==> exists i :: 0 <= i < |v.s| && k == Decimal.Show(i)
    ensures v.JNull? || v.JBool? || v.JNum? ==> r.fields == map[]
  {
    match v
    case JObj(m) => JObj(m)
    case JArr(xs) => JObj(Indexed(xs))
    case JStr(s) => JObj(Indexed(seq(|s|, i requires 0 <= i < |s| => JStr([s[i]]))))
    case _ => JObj(map[])
  }

  /** Spreading the `{}` default gives an empty object again. */
  lemma SpreadEmptyObject()
    ensures Spread(JObj(map[])) == JObj(map[])
  {
  }
}

/**
 * Values produced by `JSON.parse` and read by the core, with the three pieces of JavaScript
 * semantics the core depends on: truthiness (`if (!x)`, `a || b`), property access on a
 * parsed value, and `Array.prototype.includes` / `some`, which compare with SameValueZero.
 */
module JsonValues {
  import opened Wrappers

  datatype Json =
    | JNull
    | JBool(b: bool)
    | JNum(n: real)
    | JStr(s: string)
    | JArr(items: seq<Json>)
    | JObj(fields: map<string, Json>)

  /** `v[key]`: present only on an object that has the key; on every other value it is `undefined`. */
  function Field(v: Json, key: string): Option<Json>
  {
    if v.JObj? && key in v.fields then Some(v.fields[key]) else None
  }

  /** JavaScript truthiness of a parsed value (JSON has no `NaN`). */
  predicate Truthy(v: Json)
  {
    match v
    case JNull => false
    case JBool(b) => b
    case JNum(n) => n != 0.0
    case JStr(s) => s != ""
    case _ => true
  }

  predicate IsPrimitive(v: Json)
  {
    !v.JArr? && !v.JObj?
  }

  /**
   * SameValueZero: primitives compare by value; two arrays or objects are equal only when they
   * are the same reference, which two separately parsed values never are.
   */
  predicate SameValueZero(a: Json, b: Json)
  {
    IsPrimitive(a) && a == b
  }

  /** `list.includes(x)`, scanning from the front. */
  predicate Includes(list: seq<Json>, x: Json)
  {
    list != [] && (SameValueZero(list[0], x) || Includes(list[1..], x))
  }

  /** `xs.some((v) => allowed.includes(v))`. */
  predicate AnyIncluded(xs: seq<Json>, allowed: seq<Json>)
  {
    xs != [] && (Includes(allowed, xs[0]) || AnyIncluded(xs[1..], allowed))
  }

  /** The primitive values of a list, as a set: the reference definition of the two scans above. */
  function Primitives(xs: seq<Json>): set<Json>
  {
    set k | 0 <= k < |xs| && IsPrimitive(xs[k]) :: xs[k]
  }

  lemma PrimitivesCons(xs: seq<Json>)
    requires xs != []
    ensures Primitives(xs) == (if IsPrimitive(xs[0]) then {xs[0]} else {}) + Primitives(xs[1..])
  {
    var tail := xs[1..];
    forall v | v in Primitives(xs)
      ensures v in (if IsPrimitive(xs[0]) then {xs[0]} else {}) + Primitives(tail)
    {
      var k :| 0 <= k < |xs| && IsPrimitive(xs[k]) && xs[k] == v;
      if k > 0 {
        assert tail[k - 1] == v;
      }
    }
    forall v | v in Primitives(tail) ensures v in Primitives(xs) {
      var k :| 0 <= k < |tail| && IsPrimitive(tail[k]) && tail[k] == v;
      assert xs[k + 1] == v;
    }
  }

  /** `includes` finds exactly the primitive members of the list. */
  lemma {:induction false} IncludesIff(list: seq<Json>, x: Json)
    ensures Includes(list, x) <==> IsPrimitive(x) && x in Primitives(list)
  {
    if list != [] {
      PrimitivesCons(list);
      IncludesIff(list[1..], x);
    }
  }

  /** The `some`/`includes` scan is the test "the two lists share a primitive value". */
  lemma {:induction false} AnyIncludedIff(xs: seq<Json>, allowed: seq<Json>)
    ensures AnyIncluded(xs, allowed) <==> Primitives(xs) * Primitives(allowed) != {}
  {
    if xs != [] {
      PrimitivesCons(xs);
      IncludesIff(allowed, xs[0]);
      AnyIncludedIff(xs[1..], allowed);
      if IsPrimitive(xs[0]) && xs[0] in Primitives(allowed) {
        assert xs[0] in Primitives(xs) * Primitives(allowed);
      }
    }
  }
}

/**
 * Values produced by `JSON.parse`, with the parts of JavaScript's semantics
 * the handlers rely on: truthiness, property access, optional chaining and
 * `||` fallback chains.
 */
module Json {
  import opened Wrappers

  /**
   * A JSON value. Numbers are kept as exact rationals; the rounding of
   * IEEE-754 doubles is not modelled.
   */
  datatype Json =
    | Null
    | Bool(b: bool)
    | Num(n: real)
    | Str(s: string)
    | Arr(items: seq<Json>)
    | Obj(fields: map<string, Json>)

  /** JavaScript truthiness of a JSON value: `null`, `false`, `0` and `""` are falsy. */
  predicate Truthy(j: Json) {
    match j
    case Null => false
    case Bool(b) => b
    case Num(n) => n != 0.0
    case Str(s) => s != ""
    case _ => true
  }

  /** Truthiness of a value that may be `undefined` (`None`), which is falsy. */
  predicate Present(v: Option<Json>) {
    v.Some? && Truthy(v.value)
  }

  /**
   * `v?.key`: `undefined` when `v` is `undefined` or `null`, the field when
   * `v` is an object that has it, and `undefined` for every other value.
   */
  function Prop(v: Option<Json>, key: string): (r: Option<Json>)
    ensures !(v.Some? && v.value.Obj?) ==> r.None?
    ensures v.Some? && v.value.Obj? ==> (r.Some? <==> key in v.value.fields)
    ensures r.Some? ==> r.value == v.value.fields[key]
  {
    if v.Some? && v.value.Obj? && key in v.value.fields then Some(v.value.fields[key]) else None
  }

  /**
   * Converting `j` to a number (as `j / 100` does) throws a TypeError.
   * A parsed value is never callable, so an object with its own `toString`
   * key has no usable conversion (its inherited `valueOf` returns the
   * object itself); an array converts through `join`, which converts each
   * element to a string and so throws when an element does.
   */
  predicate CoercionThrows(j: Json) {
    match j
    case Obj(fields) => "toString" in fields
    case Arr(items) => exists i :: 0 <= i < |items| && CoercionThrows(items[i])
    case _ => false
  }

  /** `v || fallback` */
  function Or(v: Option<Json>, fallback: Json): (r: Json)
    ensures Present(v) ==> r == v.value
    ensures !Present(v) ==> r == fallback
  {
    if Present(v) then v.value else fallback
  }

  /**
   * `c0 || c1 || ... || fallback`: the first truthy candidate, or the
   * fallback when every candidate is falsy.
   */
  function FirstTruthy(cands: seq<Option<Json>>, fallback: Json): (r: Json)
    ensures (exists i :: 0 <= i < |cands| && Present(cands[i]) && r == cands[i].value &&
                         forall k :: 0 <= k < i ==> !Present(cands[k]))
            || ((forall k :: 0 <= k < |cands| ==> !Present(cands[k])) && r == fallback)
  {
    if cands == [] then fallback
    else if Present(cands[0]) then cands[0].value
    else
      var r := FirstTruthy(cands[1..], fallback);
      assert forall i :: 1 <= i <= |cands[1..]| ==> cands[1..][i - 1] == cands[i];
      r
  }

  /** A chain ending in a truthy fallback always yields a truthy value. */
  lemma FirstTruthyIsTruthy(cands: seq<Option<Json>>, fallback: Json)
    requires Truthy(fallback)
    ensures Truthy(FirstTruthy(cands, fallback))
  {
  }

  /** Putting the first candidate as the head of the chain decides the chain when it is truthy. */
  lemma FirstTruthyHead(c: Option<Json>, rest: seq<Option<Json>>, fallback: Json)
    ensures FirstTruthy([c] + rest, fallback) == if Present(c) then c.value else FirstTruthy(rest, fallback)
  {
    assert ([c] + rest)[1..] == rest;
  }
}

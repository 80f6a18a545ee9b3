/** The JavaScript values the scraper handles once the page data is decoded,
    and the handful of JavaScript operations it applies to them: property
    access, indexing, truthiness, string conversion and `String.prototype.indexOf`.
    A thrown TypeError is a `Failure`.
 */
module Js {
  import opened Wrappers

  /** A value as `JSON.parse` produces it. A number is kept as the string
      JavaScript renders it as (`String(n)`, so `-0` is "0"): the scraper
      never computes with a decoded number, it only tests and prints it. */
  datatype Json =
    | JNull
    | JBool(b: bool)
    | JNum(repr: string)
    | JStr(s: string)
    | JArr(elems: seq<Json>)
    | JObj(fields: map<string, Json>)

  /** A JavaScript value reachable from decoded data: `undefined` (a missing
      property) or a decoded value. */
  datatype Val = Undefined | Value(json: Json)

  /** The only exception the extraction code can raise on decoded data. */
  datatype JsError = TypeError(message: string)

  type Completion<T> = Result<T, JsError>

  /** `undefined` or `null`: the two values on which any property access throws */
  predicate Nullish(v: Val) {
    v == Undefined || v == Value(JNull)
  }

  /** JavaScript truthiness: `undefined`, `null`, `false`, `0`, `-0`, `NaN`
      and `""` are falsy, everything else (every array and object) is truthy. */
  predicate Truthy(v: Val) {
    match v
    case Undefined => false
    case Value(JNull) => false
    case Value(JBool(b)) => b
    case Value(JNum(repr)) => repr != "0" && repr != "NaN"
    case Value(JStr(s)) => s != ""
    case Value(_) => true
  }

  /** `v.key`, for a key that is neither `length`, an array index nor a
      member of a built-in prototype (every key the scraper reads is such a
      name). Throws on `undefined` and `null`; a primitive or an array has no
      such own property, so the result is `undefined`. */
  function Prop(v: Val, key: string): (r: Completion<Val>)
    ensures r.Failure? <==> Nullish(v)
    ensures r.Success? && r.value != Undefined ==> v.Value? && v.json.JObj? && key in v.json.fields
    ensures v.Value? && v.json.JObj? && key in v.json.fields ==> r == Success(Value(v.json.fields[key]))
  {
    match v
    case Undefined => Failure(TypeError("Cannot read properties of undefined"))
    case Value(JNull) => Failure(TypeError("Cannot read properties of null"))
    case Value(JObj(m)) => if key in m then Success(Value(m[key])) else Success(Undefined)
    case Value(_) => Success(Undefined)
  }

  /** `v.k0.k1...`: reads the keys in turn, throwing as soon as one is read
      from `undefined` or `null`. */
  function Follow(v: Val, keys: seq<string>): Completion<Val>
    decreases |keys|
  {
    if |keys| == 0 then Success(v)
    else
      var next :- Prop(v, keys[0]);
      Follow(next, keys[1..])
  }

  /** Reading `keys[k]` throws: the first `k` keys lead to `undefined` or `null` */
  predicate BrokenAt(v: Val, keys: seq<string>, k: int) {
    0 <= k < |keys| && var reached := Follow(v, keys[..k]); reached.Success? && Nullish(reached.value)
  }

  /** `v[0]`. A string yields its first character (a one-character string);
      an object its member named "0". */
  function First(v: Val): (r: Completion<Val>)
    ensures r.Failure? <==> Nullish(v)
    ensures v.Value? && v.json.JArr? ==> r == Success(if |v.json.elems| > 0 then Value(v.json.elems[0]) else Undefined)
  {
    match v
    case Undefined => Failure(TypeError("Cannot read properties of undefined (reading '0')"))
    case Value(JNull) => Failure(TypeError("Cannot read properties of null (reading '0')"))
    case Value(JArr(a)) => if |a| > 0 then Success(Value(a[0])) else Success(Undefined)
    case Value(JStr(s)) => if |s| > 0 then Success(Value(JStr([s[0]]))) else Success(Undefined)
    case Value(JObj(m)) => if "0" in m then Success(Value(m["0"])) else Success(Undefined)
    case Value(_) => Success(Undefined)
  }

  /** `v[v.length - 1]`. Reading `length` throws on `undefined` and `null`.
      An empty array or string gives `v[-1]`, which is `undefined`. A number,
      boolean or object without a `length` member computes `undefined - 1`,
      which is NaN, so the lookup is `v["NaN"]`. An object WITH a `length` member is treated as
      having no last element (see README, "Left out"). */
  function Last(v: Val): (r: Completion<Val>)
    ensures r.Failure? <==> Nullish(v)
    ensures v.Value? && v.json.JArr? ==> r == Success(if |v.json.elems| > 0 then Value(v.json.elems[|v.json.elems| - 1]) else Undefined)
  {
    match v
    case Undefined => Failure(TypeError("Cannot read properties of undefined (reading 'length')"))
    case Value(JNull) => Failure(TypeError("Cannot read properties of null (reading 'length')"))
    case Value(JArr(a)) => if |a| > 0 then Success(Value(a[|a| - 1])) else Success(Undefined)
    case Value(JStr(s)) => if |s| > 0 then Success(Value(JStr([s[|s| - 1]]))) else Success(Undefined)
    case Value(JObj(m)) =>
      if "length" !in m && "NaN" in m then Success(Value(m["NaN"])) else Success(Undefined)
    case Value(_) => Success(Undefined)
  }

  /** `String(v)`, as used by `+` with a string operand and by template
      literals. A plain object prints as "[object Object]"; one carrying its
      own (necessarily non-callable) `toString` member makes the conversion
      throw. An array prints as its elements joined by ",", with `null`
      elements printed as "". */
  function ToStr(v: Val): (r: Completion<string>)
    ensures v.Value? && v.json.JStr? ==> r == Success(v.json.s)
    ensures v == Undefined ==> r == Success("undefined")
  {
    match v
    case Undefined => Success("undefined")
    case Value(j) => JsonToStr(j)
  }

  function JsonToStr(j: Json): Completion<string>
    decreases j, 1, 0
  {
    match j
    case JNull => Success("null")
    case JBool(b) => Success(if b then "true" else "false")
    case JNum(repr) => Success(repr)
    case JStr(s) => Success(s)
    case JArr(a) => JoinFrom(j, 0)
    case JObj(m) =>
      if "toString" in m then Failure(TypeError("Cannot convert object to primitive value"))
      else Success("[object Object]")
  }

  /** `Array.prototype.join(",")` over the elements of `arr` from index `i` on */
  function JoinFrom(arr: Json, i: nat): Completion<string>
    requires arr.JArr? && i <= |arr.elems|
    decreases arr, 0, |arr.elems| - i
  {
    if i == |arr.elems| then Success("")
    else
      var head :- if arr.elems[i] == JNull then Success("") else JsonToStr(arr.elems[i]);
      if i + 1 == |arr.elems| then Success(head)
      else
        var tail :- JoinFrom(arr, i + 1);
        Success(head + "," + tail)
  }

  /** `needle` occurs in `s` starting at position `i` */
  predicate MatchesAt(s: string, needle: string, i: int) {
    0 <= i && i + |needle| <= |s| && s[i..i + |needle|] == needle
  }

  /** `needle` occurs somewhere in `s` */
  ghost predicate Contains(s: string, needle: string) {
    exists i :: MatchesAt(s, needle, i)
  }

  /** `s.indexOf(needle, from)`: the first position at or after `from` where
      `needle` occurs, or -1 when there is none. */
  function IndexOf(s: string, needle: string, from: nat): (r: int)
    decreases |s| - from
    ensures r == -1 || (from <= r && MatchesAt(s, needle, r))
    ensures forall i :: from <= i && (r == -1 || i < r) ==> !MatchesAt(s, needle, i)
  {
    if |s| < from + |needle| then -1
    else if s[from..from + |needle|] == needle then from
    else IndexOf(s, needle, from + 1)
  }

  /** `s.indexOf(needle) > -1` holds exactly when `needle` occurs in `s` */
  lemma IndexOfFindsSubstring(s: string, needle: string)
    ensures IndexOf(s, needle, 0) > -1 <==> Contains(s, needle)
  {
    if IndexOf(s, needle, 0) > -1 {
      assert MatchesAt(s, needle, IndexOf(s, needle, 0));
    }
  }

  /** A chain of member reads throws exactly when one of its links is read
      from `undefined` or `null` */
  lemma {:induction false} FollowThrowsAtBrokenLink(v: Val, keys: seq<string>)
    ensures Follow(v, keys).Failure? <==> exists k :: BrokenAt(v, keys, k)
    decreases |keys|
  {
    if |keys| > 0 {
      assert keys[..0] == [];
      if Nullish(v) {
        assert BrokenAt(v, keys, 0);
      } else {
        var next := Prop(v, keys[0]).value;
        assert Follow(v, keys) == Follow(next, keys[1..]);
        FollowThrowsAtBrokenLink(next, keys[1..]);
        forall k | 0 <= k < |keys| - 1
          ensures BrokenAt(v, keys, k + 1) <==> BrokenAt(next, keys[1..], k)
        {
          assert keys[..k + 1][0] == keys[0];
          assert keys[..k + 1][1..] == keys[1..][..k];
        }
        assert !BrokenAt(v, keys, 0);
        if exists k :: BrokenAt(v, keys, k) {
          var k :| BrokenAt(v, keys, k);
          assert BrokenAt(next, keys[1..], k - 1);
        }
        if exists k :: BrokenAt(next, keys[1..], k) {
          var k :| BrokenAt(next, keys[1..], k);
          assert BrokenAt(v, keys, k + 1);
        }
      }
    }
  }
}

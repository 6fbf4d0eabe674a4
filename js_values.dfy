/**
 * The JavaScript value semantics the footprint engine relies on: how a profile
 * leaf reads under `parseFloat(x) || d` and under truthiness tests, the NaN that
 * arithmetic on `undefined` produces, `Math.round`, `String.prototype.includes`
 * and the way an array answers a property lookup by name.
 */
module JsValues {

  datatype Option<+T> = None | Some(value: T)

  /**
   * A numeric leaf of the company profile as the form layer hands it over:
   * absent (`undefined`), `null` or NaN (both falsy, both parse to NaN, both
   * differ from `undefined`), or a number.
   */
  datatype JsNum = Undefined | NullOrNaN | Number(v: real)

  /** JavaScript truthiness of a numeric leaf: a number other than 0. */
  predicate Truthy(x: JsNum)
  {
    x.Number? && x.v != 0.0
  }

  /**
   * `parseFloat(x) || d`: the number when it is truthy, otherwise the default.
   * An absent leaf, NaN and a genuine 0 therefore all read as `d`.
   */
  function Coerce(x: JsNum, d: real): (r: real)
    ensures Truthy(x) ==> r == x.v
    ensures !Truthy(x) ==> r == d
    ensures d != 0.0 ==> r != 0.0
  {
    if Truthy(x) then x.v else d
  }

  /** A profile leaf that is absent or a number in [lo, hi]. */
  predicate InRange(x: JsNum, lo: real, hi: real)
  {
    x.Number? ==> lo <= x.v <= hi
  }

  /** A profile leaf that is absent or a non-negative number. */
  predicate NonNegative(x: JsNum)
  {
    x.Number? ==> x.v >= 0.0
  }

  lemma CoerceInRange(x: JsNum, d: real, lo: real, hi: real)
    requires InRange(x, lo, hi) && lo <= d <= hi
    ensures lo <= Coerce(x, d) <= hi
  {
  }

  /** `s || d` for a text leaf, where "" stands for an empty, null or absent value. */
  function OrElse(s: string, d: string): string
  {
    if s != "" then s else d
  }

  /** A number computed by the engine: finite, or the NaN that `x * undefined` yields. */
  datatype Num = Fin(v: real) | NaN

  function Add(a: Num, b: Num): (r: Num)
    ensures r.Fin? <==> a.Fin? && b.Fin?
  {
    if a.Fin? && b.Fin? then Fin(a.v + b.v) else NaN
  }

  function Scale(a: Num, k: real): (r: Num)
    ensures r.Fin? <==> a.Fin?
  {
    if a.Fin? then Fin(a.v * k) else NaN
  }

  function Divide(a: Num, k: real): (r: Num)
    requires k != 0.0
    ensures r.Fin? <==> a.Fin?
  {
    if a.Fin? then Fin(a.v / k) else NaN
  }

  /** `a < k`; every comparison with NaN is false. */
  predicate Below(a: Num, k: real)
  {
    a.Fin? && a.v < k
  }

  /** `a > k`; every comparison with NaN is false. */
  predicate Above(a: Num, k: real)
  {
    a.Fin? && a.v > k
  }

  lemma MulNonNegative(a: real, b: real)
    requires a >= 0.0 && b >= 0.0
    ensures a * b >= 0.0
  {
  }

  /** `Math.round`: the nearest integer, halves rounded towards +infinity. */
  function Round(x: real): (n: int)
    ensures x - 0.5 < n as real <= x + 0.5
  {
    (x + 0.5).Floor
  }

  /** `Math.round` over an engine number: NaN stays NaN. */
  function RoundNum(a: Num): (r: Num)
    ensures r.Fin? <==> a.Fin?
    ensures a.Fin? ==> r.v == Round(a.v) as real
  {
    if a.Fin? then Fin(Round(a.v) as real) else NaN
  }

  lemma {:induction false} RoundBounds(x: real, lo: int, hi: int)
    requires lo as real <= x <= hi as real
    ensures lo <= Round(x) <= hi
  {
  }

  /** `sub` occurs in `s` starting at position `i`. */
  predicate OccursAt(s: string, sub: string, i: nat)
  {
    i + |sub| <= |s| && s[i..i + |sub|] == sub
  }

  lemma OccursInTail(s: string, sub: string)
    requires |s| > 0 && !OccursAt(s, sub, 0)
    ensures (exists i: nat :: OccursAt(s, sub, i)) <==> (exists i: nat :: OccursAt(s[1..], sub, i))
  {
    forall i: nat | OccursAt(s, sub, i) ensures OccursAt(s[1..], sub, i - 1) {
      assert s[1..][i - 1..i - 1 + |sub|] == s[i..i + |sub|];
    }
    forall i: nat | OccursAt(s[1..], sub, i) ensures OccursAt(s, sub, i + 1) {
      assert s[1..][i..i + |sub|] == s[i + 1..i + 1 + |sub|];
    }
  }

  /** `s.includes(sub)`: `sub` occurs somewhere in `s` (the empty string occurs everywhere). */
  function Contains(s: string, sub: string): (b: bool)
    ensures b <==> exists i: nat :: OccursAt(s, sub, i)
    decreases |s|
  {
    if |sub| > |s| then false
    else if s[..|sub|] == sub then assert OccursAt(s, sub, 0); true
    else
      OccursInTail(s, sub);
      Contains(s[1..], sub)
  }

  /** Every character of a string that occurs in `s` is a character of `s`. */
  lemma ContainedCharacter(s: string, sub: string, k: nat)
    requires k < |sub|
    ensures Contains(s, sub) ==> sub[k] in s
  {
    if Contains(s, sub) {
      var i: nat :| OccursAt(s, sub, i);
      assert s[i..i + |sub|][k] == s[i + k];
    }
  }

  predicate IsDigit(c: char)
  {
    '0' <= c <= '9'
  }

  function DecimalValue(s: string): nat
    requires forall i :: 0 <= i < |s| ==> IsDigit(s[i])
  {
    if s == [] then 0 else assert IsDigit(s[|s| - 1]); 10 * DecimalValue(s[..|s| - 1]) + (s[|s| - 1] as int - '0' as int) as nat
  }

  /**
   * The element index that a property name denotes on a JavaScript array: only the
   * canonical decimal strings ("0", "1", ..., no sign, no leading zero) do.
   */
  function ArrayIndex(key: string): (r: Option<nat>)
    ensures r.Some? ==> key != "" && forall i :: 0 <= i < |key| ==> IsDigit(key[i])
  {
    if key == [] || (|key| > 1 && key[0] == '0') || !(forall i :: 0 <= i < |key| ==> IsDigit(key[i]))
    then None
    else Some(DecimalValue(key))
  }

  /**
   * A JavaScript object read as the ordered list of its properties. `Get` is the
   * property lookup `obj[key]`: the value of the first property with that name.
   */
  function Get<V>(props: seq<(string, V)>, key: string): (r: Option<V>)
    ensures r.Some? ==> exists i :: 0 <= i < |props| && props[i] == (key, r.value)
  {
    if props == [] then None
    else if props[0].0 == key then Some(props[0].1)
    else
      var r := Get(props[1..], key);
      assert forall i :: 1 <= i < |props| ==> props[i] == props[1..][i - 1];
      r
  }

  /** A lookup misses exactly when no property has that name. */
  lemma {:induction false} GetMisses<V>(props: seq<(string, V)>, key: string)
    ensures Get(props, key).None? <==> forall i :: 0 <= i < |props| ==> props[i].0 != key
  {
    if props != [] && props[0].0 != key {
      GetMisses(props[1..], key);
      assert forall i :: 1 <= i < |props| ==> props[i] == props[1..][i - 1];
    }
  }

  /** No two properties share a name, as in every JavaScript object. */
  predicate DistinctKeys<V>(props: seq<(string, V)>)
  {
    forall i, j :: 0 <= i < j < |props| ==> props[i].0 != props[j].0
  }

  /** In an object with distinct names, looking up a property's name yields that property's value. */
  lemma {:induction false} GetOwnProperty<V>(props: seq<(string, V)>, i: nat)
    requires DistinctKeys(props) && i < |props|
    ensures Get(props, props[i].0) == Some(props[i].1)
  {
    if i > 0 {
      assert props[0].0 != props[i].0;
      GetOwnProperty(props[1..], i - 1);
    }
  }
}

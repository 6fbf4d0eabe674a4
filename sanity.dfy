/**
 * The sanity check on the finished summary: a warning when Scope 3 is under
 * half of the total. The share is computed with JavaScript division, so a zero
 * total gives an infinity or NaN rather than an error.
 */
module Sanity {
  import opened JsValues
  import Audit

  const LowScope3Kind: string := "low_scope3"
  const LowScope3Message: string :=
    "Scope 3 emissions appear low. For most companies, Scope 3 represents 70-90% of total emissions."
  const LowShare: real := 50.0

  /** A JavaScript number where division by zero can occur: finite, either infinity, or NaN. */
  datatype Extended = Finite(v: real) | PlusInfinity | MinusInfinity | NotANumber

  /** `a / b` with IEEE semantics for a zero divisor: a non-zero numerator gives a signed infinity, 0/0 gives NaN. */
  function Quotient(a: Num, b: Num): (r: Extended)
    ensures a.Fin? && b.Fin? && b.v != 0.0 ==> r == Finite(a.v / b.v)
    ensures r.NotANumber? <==> a.NaN? || b.NaN? || (b.v == 0.0 && a.v == 0.0)
  {
    match (a, b)
    case (Fin(x), Fin(y)) =>
      if y != 0.0 then Finite(x / y)
      else if x > 0.0 then PlusInfinity
      else if x < 0.0 then MinusInfinity
      else NotANumber
    case _ => NotANumber
  }

  /** `q * 100`; the infinities and NaN are unchanged by a positive factor. */
  function Percent(q: Extended): Extended
  {
    match q
    case Finite(x) => Finite(x * 100.0)
    case _ => q
  }

  /** `x < k`: true for minus infinity, false for plus infinity and NaN. */
  predicate LessThan(x: Extended, k: real)
  {
    match x
    case Finite(v) => v < k
    case MinusInfinity => true
    case _ => false
  }

  /** `(scope3 / total) * 100 < 50`. */
  predicate LowScope3(scope3: Num, total: Num)
    ensures LowScope3(scope3, total) ==> scope3.Fin? && total.Fin?
    ensures scope3 == Fin(0.0) && total.Fin? && total.v != 0.0 ==> LowScope3(scope3, total)
  {
    LessThan(Percent(Quotient(scope3, total)), LowShare)
  }

  function SanityWarnings(scope3: Num, total: Num): (r: seq<Audit.Warning>)
    ensures |r| <= 1
    ensures r != [] <==> LowScope3(scope3, total)
    ensures forall i :: 0 <= i < |r| ==> r[i].kind == LowScope3Kind
  {
    if LowScope3(scope3, total) then [Audit.Warning(LowScope3Kind, LowScope3Message)] else []
  }

  /** `performSanityChecks`: starts with no warnings and pushes the Scope 3 one when the share is under 50%. */
  method PerformSanityChecks(scope3: Num, total: Num) returns (warnings: seq<Audit.Warning>)
    ensures warnings == SanityWarnings(scope3, total)
    ensures |warnings| <= 1
    ensures forall i :: 0 <= i < |warnings| ==> warnings[i].kind == LowScope3Kind
  {
    warnings := [];
    var scope3Percent := Percent(Quotient(scope3, total));
    if LessThan(scope3Percent, LowShare) {
      warnings := warnings + [Audit.Warning(LowScope3Kind, LowScope3Message)];
    }
  }

  /** With a positive total, the warning is raised exactly when Scope 3 is less than half of it. */
  lemma LowScope3PositiveTotal(scope3: real, total: real)
    requires total > 0.0
    ensures LowScope3(Fin(scope3), Fin(total)) <==> 2.0 * scope3 < total
  {
    var q := scope3 / total;
    assert LowScope3(Fin(scope3), Fin(total)) <==> q < 0.5;
    ScaleByPositive(0.5 - q, total);
  }

  /** With a negative total (negative inputs), the division flips the order: the warning needs Scope 3 above half of it. */
  lemma LowScope3NegativeTotal(scope3: real, total: real)
    requires total < 0.0
    ensures LowScope3(Fin(scope3), Fin(total)) <==> 2.0 * scope3 > total
  {
    var q := scope3 / total;
    assert LowScope3(Fin(scope3), Fin(total)) <==> q < 0.5;
    ScaleByPositive(0.5 - q, -total);
  }

  /** A positive factor keeps the sign: `x * d` is positive exactly when `x` is. */
  lemma ScaleByPositive(x: real, d: real)
    requires d > 0.0
    ensures x > 0.0 <==> x * d > 0.0
  {
  }

  /**
   * With a zero total the share is an infinity or NaN: no warning for a zero or
   * positive Scope 3, a warning only for a negative one (minus infinity).
   */
  lemma LowScope3ZeroTotal(scope3: Num)
    ensures LowScope3(scope3, Fin(0.0)) <==> scope3.Fin? && scope3.v < 0.0
    ensures SanityWarnings(Fin(0.0), Fin(0.0)) == []
  {
  }

  /** An undefined Scope 3 or total never raises the warning. */
  lemma LowScope3Undefined(scope3: Num, total: Num)
    requires scope3.NaN? || total.NaN?
    ensures SanityWarnings(scope3, total) == []
  {
  }
}

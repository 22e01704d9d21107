/** The weight-based dose calculator `dose_calc` (main.py:41-49). */
module Dosing {
  import opened Wrappers

  /** The weight range the form's number input admits (main.py:14). */
  const MinWeight: real := 1.0
  const MaxWeight: real := 100.0

  predicate ValidWeight(weightKg: real) {
    MinWeight <= weightKg <= MaxWeight
  }

  /** What `dose_calc` renders, with the text abstracted to its numbers:
      a fixed dose shows the rate and unit as given ("{rate} {unit}"); a
      weight-based one shows the total and the per-kilogram rate
      ("{total:.1f} {unit} ({rate} {unit}/kg)"). */
  datatype DoseText =
    | Fixed(rate: real, unit: string)
    | PerKg(total: real, rate: real, unit: string)

  /** Python truthiness of an optional number: both None and 0 are false. */
  predicate Truthy(x: Option<real>): (b: bool)
    ensures b <==> x !in {None, Some(0.0)}
  {
    x.Some? && x.value != 0.0
  }

  function Min(a: real, b: real): (m: real)
    ensures m <= a && m <= b && (m == a || m == b)
  {
    if a <= b then a else b
  }

  function Max(a: real, b: real): (m: real)
    ensures m >= a && m >= b && (m == a || m == b)
  {
    if a >= b then a else b
  }

  /** `dose_calc(rate, unit, max_dose, min_dose, fixed)` for a patient of
      `weightKg`: scale the rate by weight, lower it to a truthy ceiling,
      then (as a separate step, not an alternative) raise it to a truthy
      floor. */
  function DoseCalc(rate: real, unit: string, maxDose: Option<real>, minDose: Option<real>,
                    fixed: bool, weightKg: real): (d: DoseText)
    requires ValidWeight(weightKg)
    // a fixed dose is the rate itself, whatever the weight
    ensures fixed ==> d == Fixed(rate, unit)
    ensures !fixed ==> d.PerKg? && d.rate == rate && d.unit == unit
    // no clamp in force: the dose is exactly rate times weight
    ensures !fixed && !Truthy(maxDose) && !Truthy(minDose) ==> d.total == rate * weightKg
    // a ceiling alone: the smaller of the scaled dose and the ceiling
    ensures !fixed && Truthy(maxDose) && !Truthy(minDose) ==>
              d.total == Min(rate * weightKg, maxDose.value)
    // a floor alone: the larger of the scaled dose and the floor
    ensures !fixed && !Truthy(maxDose) && Truthy(minDose) ==>
              d.total == Max(rate * weightKg, minDose.value)
    // a floor is always honoured, even above a ceiling
    ensures !fixed && Truthy(minDose) ==> d.total >= minDose.value
    ensures !fixed && Truthy(minDose) && Truthy(maxDose) && maxDose.value < minDose.value ==>
              d.total == minDose.value
    // a floor under a ceiling: the dose lies between them, and is the scaled
    // dose whenever that already does
    ensures !fixed && Truthy(minDose) && Truthy(maxDose) && minDose.value <= maxDose.value ==>
              && minDose.value <= d.total <= maxDose.value
              && (minDose.value <= rate * weightKg <= maxDose.value ==> d.total == rate * weightKg)
              && (rate * weightKg < minDose.value ==> d.total == minDose.value)
              && (rate * weightKg > maxDose.value ==> d.total == maxDose.value)
  {
    if fixed then Fixed(rate, unit)
    else
      var dose := rate * weightKg;
      var capped := if Truthy(maxDose) && dose > maxDose.value then maxDose.value else dose;
      var floored := if Truthy(minDose) && capped < minDose.value then minDose.value else capped;
      PerKg(floored, rate, unit)
  }

  /** A ceiling or floor of 0 is falsy in Python, so it clamps nothing: it
      acts exactly like None. */
  lemma ZeroClampIsNoClamp(rate: real, unit: string, maxDose: Option<real>, minDose: Option<real>,
                           fixed: bool, weightKg: real)
    requires ValidWeight(weightKg)
    ensures DoseCalc(rate, unit, Some(0.0), minDose, fixed, weightKg)
         == DoseCalc(rate, unit, None, minDose, fixed, weightKg)
    ensures DoseCalc(rate, unit, maxDose, Some(0.0), fixed, weightKg)
         == DoseCalc(rate, unit, maxDose, None, fixed, weightKg)
  {
  }
}

/** The dosage calculator: a recommended range derived from the selected
    medication's reference dose (scaled by the patient's weight for
    per-weight doses), and the dosage text it hands back to the
    prescription form. */
module Dosage {
  import opened Wrappers
  import opened Types
  import opened Strings

  /** A computed range: `low`..`high` in `unit`. */
  datatype DoseRange = DoseRange(low: nat, high: nat, unit: string)

  /** `referenceDose.perWeight` is truthy. */
  predicate IsPerWeight(d: ReferenceDose) {
    d.perWeight == Some(true)
  }

  /** The weight is truthy (present and non-zero). */
  predicate HasWeight(weight: Option<nat>) {
    weight.Some? && weight.value != 0
  }

  /** The range behind the calculator's recommendation: a per-weight dose
      scaled by a non-zero weight, a fixed dose as it stands, and nothing
      otherwise. A scaled range stays ordered when the reference dose is. */
  function ComputeRange(med: Option<Medication>, weight: Option<nat>): (r: Option<DoseRange>)
    ensures r.None? <==> (med.None? || med.value.referenceDose.None?
                          || (IsPerWeight(med.value.referenceDose.value) && !HasWeight(weight)))
    ensures r.Some? ==> r.value.unit == med.value.referenceDose.value.unit
    ensures r.Some? && med.value.referenceDose.value.min <= med.value.referenceDose.value.max
            ==> r.value.low <= r.value.high
  {
    if HasWeight(weight) && med.Some? && med.value.referenceDose.Some? && IsPerWeight(med.value.referenceDose.value) then
      var d := med.value.referenceDose.value;
      ScaleMonotone(d.min, d.max, weight.value);
      Some(DoseRange(d.min * weight.value, d.max * weight.value, d.unit))
    else if med.Some? && med.value.referenceDose.Some? && !IsPerWeight(med.value.referenceDose.value) then
      var d := med.value.referenceDose.value;
      Some(DoseRange(d.min, d.max, d.unit))
    else
      None
  }

  lemma ScaleMonotone(lo: nat, hi: nat, w: nat)
    ensures lo <= hi ==> lo * w <= hi * w
  {
  }

  /** A per-weight dose with a non-zero weight is scaled by that weight. */
  lemma PerWeightScales(med: Medication, w: nat)
    requires med.referenceDose.Some? && IsPerWeight(med.referenceDose.value) && w != 0
    ensures ComputeRange(Some(med), Some(w))
         == Some(DoseRange(med.referenceDose.value.min * w, med.referenceDose.value.max * w, med.referenceDose.value.unit))
  {
  }

  /** A dose whose `perWeight` is false or absent is used as it stands,
      whatever the weight. */
  lemma FixedIgnoresWeight(med: Medication, w1: Option<nat>, w2: Option<nat>)
    requires med.referenceDose.Some? && !IsPerWeight(med.referenceDose.value)
    ensures ComputeRange(Some(med), w1) == ComputeRange(Some(med), w2)
         == Some(DoseRange(med.referenceDose.value.min, med.referenceDose.value.max, med.referenceDose.value.unit))
  {
  }

  /** `${low}-${high} ${unit}`. */
  function FormatRange(r: DoseRange): string {
    NatToString(r.low) + "-" + NatToString(r.high) + " " + r.unit
  }

  /** Reads a range text back: leading digits, a dash, then the upper end. */
  function ParseRange(t: string): Option<DoseRange> {
    var a := LeadingDigits(t);
    if a == 0 || a == |t| || t[a] != '-' then None
    else match ParseUpper(t[a + 1..])
      case None => None
      case Some((high, unit)) => Some(DoseRange(DigitsValue(t[..a]), high, unit))
  }

  /** The upper end of a range text: digits, a space, the unit. */
  function ParseUpper(u: string): Option<(nat, string)> {
    var b := LeadingDigits(u);
    if b == 0 || b == |u| || u[b] != ' ' then None
    else Some((DigitsValue(u[..b]), u[b + 1..]))
  }

  lemma ParseUpperOfParts(hi: string, unit: string)
    requires hi != [] && AllDigits(hi)
    ensures ParseUpper(hi + [' '] + unit) == Some((DigitsValue(hi), unit))
  {
    var u := hi + [' '] + unit;
    assert u == hi + ([' '] + unit);
    LeadingDigitsOfDigits(hi, [' '] + unit);
    assert u[..|hi|] == hi;
    assert u[|hi| + 1..] == unit;
  }

  /** Two digit strings joined by a dash, then a space and a unit, read back
      as their values and that unit. */
  lemma ParseRangeOfParts(lo: string, hi: string, unit: string)
    requires lo != [] && hi != [] && AllDigits(lo) && AllDigits(hi)
    ensures ParseRange(lo + ['-'] + (hi + [' '] + unit)) == Some(DoseRange(DigitsValue(lo), DigitsValue(hi), unit))
  {
    var u := hi + [' '] + unit;
    var t := lo + ['-'] + u;
    assert t == lo + (['-'] + u);
    LeadingDigitsOfDigits(lo, ['-'] + u);
    assert t[..|lo|] == lo;
    assert t[|lo| + 1..] == u;
    ParseUpperOfParts(hi, unit);
  }

  /** The range text loses nothing: it reads back as the range it shows. */
  lemma ParseFormatRange(r: DoseRange)
    ensures ParseRange(FormatRange(r)) == Some(r)
  {
    var lo, hi := NatToString(r.low), NatToString(r.high);
    assert FormatRange(r) == lo + ['-'] + (hi + [' '] + r.unit);
    ParseRangeOfParts(lo, hi, r.unit);
    DigitsValueOfNatToString(r.low);
    DigitsValueOfNatToString(r.high);
  }

  /** The recommendation text: empty exactly when no range can be computed,
      and otherwise the text of that range, from which it can be read back. */
  function RangeText(med: Option<Medication>, weight: Option<nat>): (t: string)
    ensures t == "" <==> ComputeRange(med, weight).None?
    ensures ComputeRange(med, weight).Some? ==> ParseRange(t) == ComputeRange(med, weight)
  {
    match ComputeRange(med, weight)
    case None => ""
    case Some(r) =>
      ParseFormatRange(r);
      FormatRange(r)
  }

  /** `${finalDosage} ${frequency} for ${duration} ${durationUnit}`: it
      starts with the dose and ends with the unit, and it is never empty,
      not even when the dose is. */
  function DosageText(finalDosage: string, frequency: string, duration: string, durationUnit: string): (r: string)
    ensures |r| == |finalDosage| + |frequency| + |duration| + |durationUnit| + 7
    ensures r[..|finalDosage|] == finalDosage
    ensures r[|r| - |durationUnit|..] == durationUnit
  {
    finalDosage + " " + frequency + " for " + duration + " " + durationUnit
  }

  /** The calculator component's state. `medication` is its prop; the other
      seven fields are its own state, and `calculatedDosage` is kept equal
      to the text of the computed range (the effect on medication and weight). */
  class DosageCalculator {
    var medication: Option<Medication>
    var customWeight: Option<nat>
    var calculatedDosage: string
    var frequency: string
    var duration: string
    var durationUnit: string
    var customDosage: string
    var isCustomDosage: bool

    ghost predicate Valid()
      reads this
    {
      calculatedDosage == RangeText(medication, customWeight)
    }

    /** Mounting: `customWeight` is seeded from the weight prop, the rest
        takes its defaults, and the effect computes the range. */
    constructor (medication: Option<Medication>, patientWeight: Option<nat>)
      ensures Valid()
      ensures this.medication == medication && customWeight == patientWeight
      ensures frequency == "daily" && duration == "7" && durationUnit == "days"
      ensures customDosage == "" && !isCustomDosage
    {
      this.medication := medication;
      customWeight := patientWeight;
      frequency := "daily";
      duration := "7";
      durationUnit := "days";
      customDosage := "";
      isCustomDosage := false;
      calculatedDosage := RangeText(medication, patientWeight);
    }

    /** New props from the parent: the medication is taken over and the range
        recomputed, but the weight prop is ignored after mounting. */
    method ReceiveProps(medication: Option<Medication>, patientWeight: Option<nat>)
      requires Valid()
      modifies this
      ensures Valid()
      ensures this.medication == medication && customWeight == old(customWeight)
      ensures frequency == old(frequency) && duration == old(duration) && durationUnit == old(durationUnit)
      ensures customDosage == old(customDosage) && isCustomDosage == old(isCustomDosage)
    {
      this.medication := medication;
      calculatedDosage := RangeText(medication, customWeight);
    }

    /** The weight input: `Number(value)`, restricted to naturals (a cleared
        input reads as 0); the range is recomputed. */
    method SetCustomWeight(w: nat)
      requires Valid()
      modifies this
      ensures Valid()
      ensures customWeight == Some(w) && medication == old(medication)
      ensures frequency == old(frequency) && duration == old(duration) && durationUnit == old(durationUnit)
      ensures customDosage == old(customDosage) && isCustomDosage == old(isCustomDosage)
    {
      customWeight := Some(w);
      calculatedDosage := RangeText(medication, customWeight);
    }

    method SetFrequency(f: string)
      modifies this`frequency
      ensures frequency == f
    {
      frequency := f;
    }

    method SetDuration(d: string)
      modifies this`duration
      ensures duration == d
    {
      duration := d;
    }

    method SetDurationUnit(u: string)
      modifies this`durationUnit
      ensures durationUnit == u
    {
      durationUnit := u;
    }

    method SetCustomDosage(d: string)
      modifies this`customDosage
      ensures customDosage == d
    {
      customDosage := d;
    }

    method SetIsCustomDosage(b: bool)
      modifies this`isCustomDosage
      ensures isCustomDosage == b
    {
      isCustomDosage := b;
    }

    /** The chosen dose: the custom text when the custom box is ticked,
        otherwise the recommended range. */
    function FinalDosage(): string
      reads this
    {
      if isCustomDosage then customDosage else calculatedDosage
    }

    /** `handleCalculate`: the text handed to the parent. It is the dosage
        text of the chosen dose, and it is never empty. */
    method Calculate() returns (dosage: string)
      requires Valid()
      ensures dosage == DosageText(if isCustomDosage then customDosage else RangeText(medication, customWeight),
                                   frequency, duration, durationUnit)
      ensures dosage != ""
    {
      var finalDosage := FinalDosage();
      dosage := finalDosage + " " + frequency + " for " + duration + " " + durationUnit;
    }

    /** The calculate button is enabled once a medication is selected. */
    function CalculateEnabled(): (enabled: bool)
      reads this
      ensures enabled <==> medication.Some?
    {
      medication.Some?
    }
  }

  /** The button only asks for a medication, not for a recommendation: with
      a medication that has no reference dose it is enabled while the
      recommendation is empty. */
  lemma EnabledWithoutRecommendation(c: DosageCalculator)
    requires c.Valid() && c.medication.Some? && c.medication.value.referenceDose.None?
    ensures c.CalculateEnabled() && c.calculatedDosage == ""
  {
  }

  /** With the default frequency and duration, the text handed over when no
      range could be computed is " daily for 7 days": not empty. */
  lemma DefaultTextWithoutDose()
    ensures DosageText("", "daily", "7", "days") == " daily for 7 days"
  {
  }
}

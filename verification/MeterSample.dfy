/**
  Reading one OCPP 1.6 meter sample (`extractMeterSample` and `safeNumber` in
  apps/backend/src/ocpp/ocpp16-central-system.service.ts). Numbers are exact reals; `value` is None
  when the text is not a finite number.
 */
module MeterSample {
  import opened Common

  datatype SampledValue = SampledValue(measurand: Option<string>, unit: Option<string>, value: Option<real>)

  type Sample = seq<SampledValue>

  datatype Reading = Reading(meterWh: Option<nat>, powerKw: real, batteryPercent: Option<int>)

  /** BadNumber is the PropertyConstraintViolation, NoEnergy the OccurrenceConstraintViolation. */
  datatype Extracted = Extracted(meterWh: nat, powerKw: real, batteryPercent: Option<int>) | BadNumber | NoEnergy

  predicate SafeNumber(value: SampledValue) {
    value.value.Some? && value.value.value >= 0.0
  }

  /** `Math.round` */
  function Round(x: real): int {
    (x + 0.5).Floor
  }

  function Measurand(value: SampledValue): string {
    if value.measurand.Some? then value.measurand.value else "Energy.Active.Import.Register"
  }

  predicate IsRegister(value: SampledValue) {
    Measurand(value) == "Energy.Active.Import.Register"
  }

  function Wh(value: SampledValue): (wh: nat)
    requires SafeNumber(value)
  {
    var numeric := value.value.value;
    var wh := if value.unit == Some("kWh") then numeric * 1000.0 else numeric;
    assert (wh + 0.5).Floor >= 0;
    Round(wh)
  }

  /** What the sample reads, seen from its end. */
  function ReadFrom(sample: Sample, previous: Option<nat>): Option<Reading> {
    if sample == [] then Some(Reading(previous, 0.0, None))
    else
      var last := sample[|sample| - 1];
      var before := ReadFrom(sample[..|sample| - 1], previous);
      if before.None? || !SafeNumber(last) then None
      else Some(ReadValue(before.value, last))
  }

  function ReadValue(reading: Reading, value: SampledValue): Reading
    requires SafeNumber(value)
  {
    var numeric := value.value.value;
    if IsRegister(value) then reading.(meterWh := Some(Wh(value)))
    else if Measurand(value) == "Power.Active.Import" then
      reading.(powerKw := if value.unit == Some("kW") then numeric else numeric / 1000.0)
    else if Measurand(value) == "SoC" then
      reading.(batteryPercent := Some(Min(100, Round(numeric))))
    else reading
  }

  function Extract(sample: Sample, previous: Option<nat>): Extracted {
    var reading := ReadFrom(sample, previous);
    if reading.None? then BadNumber
    else if reading.value.meterWh.None? then NoEnergy
    else Extracted(reading.value.meterWh.value, reading.value.powerKw, reading.value.batteryPercent)
  }

  method ExtractMeterSample(sample: Sample, previous: Option<nat>) returns (result: Extracted)
    ensures result == Extract(sample, previous)
  {
    var reading := Reading(previous, 0.0, None);
    var i := 0;
    while i < |sample|
      invariant i <= |sample|
      invariant ReadFrom(sample[..i], previous) == Some(reading)
    {
      assert sample[..i + 1][..i] == sample[..i];
      if !SafeNumber(sample[i]) {
        BadPrefixSpoils(sample, i + 1, previous);
        return BadNumber;
      }
      reading := ReadValue(reading, sample[i]);
      i := i + 1;
    }
    assert sample[..i] == sample;
    if reading.meterWh.None? {
      return NoEnergy;
    }
    return Extracted(reading.meterWh.value, reading.powerKw, reading.batteryPercent);
  }

  lemma {:induction false} BadPrefixSpoils(sample: Sample, n: nat, previous: Option<nat>)
    requires n <= |sample| && ReadFrom(sample[..n], previous).None?
    ensures ReadFrom(sample, previous).None?
    decreases |sample|
  {
    if n == |sample| {
      assert sample[..n] == sample;
    } else {
      var front := sample[..|sample| - 1];
      assert front[..n] == sample[..n];
      BadPrefixSpoils(front, n, previous);
    }
  }

  /** A sample is refused for a bad number exactly when one of its values is one, wherever it stands. */
  lemma {:induction false} BadNumberIffAnyIsBad(sample: Sample, previous: Option<nat>)
    ensures Extract(sample, previous) == BadNumber
      <==> exists i :: 0 <= i < |sample| && (sample[i].value.None? || sample[i].value.value < 0.0)
  {
    if sample != [] {
      var n := |sample| - 1;
      BadNumberIffAnyIsBad(sample[..n], previous);
      assert forall i :: 0 <= i < n ==> sample[..n][i] == sample[i];
    }
  }

  const REGISTER: set<Option<string>> := {None, Some("Energy.Active.Import.Register")}
  const POWER: set<Option<string>> := {Some("Power.Active.Import")}
  const BATTERY: set<Option<string>> := {Some("SoC")}

  /** The last value of a sample that measures one of these. */
  ghost function Last(sample: Sample, measurands: set<Option<string>>): Option<SampledValue> {
    if sample == [] then None
    else if sample[|sample| - 1].measurand in measurands then Some(sample[|sample| - 1])
    else Last(sample[..|sample| - 1], measurands)
  }

  /** Nothing but other measurands stands behind the last value. */
  lemma {:induction false} LastStandsAlone(sample: Sample, measurands: set<Option<string>>)
    ensures Last(sample, measurands).None? ==> forall i :: 0 <= i < |sample| ==> sample[i].measurand !in measurands
    ensures Last(sample, measurands).Some?
      ==> exists i :: 0 <= i < |sample| && Last(sample, measurands) == Some(sample[i])
                      && sample[i].measurand in measurands
                      && forall j :: i < j < |sample| ==> sample[j].measurand !in measurands
  {
    if sample != [] {
      var n := |sample| - 1;
      LastStandsAlone(sample[..n], measurands);
      assert forall i :: 0 <= i < n ==> sample[..n][i] == sample[i];
    }
  }

  /** The whole number nearest to a real number, halves upwards. */
  ghost predicate IsNearest(whole: int, exact: real) {
    exact - 0.5 < whole as real <= exact + 0.5
  }

  /** The meter in watt-hours: the last value in kWh, or in Wh under any other unit or none. */
  ghost predicate IsMeter(meterWh: Option<nat>, last: Option<SampledValue>, previous: Option<nat>) {
    if last.None? then meterWh == previous
    else
      && meterWh.Some? && last.value.value.Some?
      && (last.value.unit == Some("kWh") ==> IsNearest(meterWh.value, last.value.value.value * 1000.0))
      && (last.value.unit != Some("kWh") ==> IsNearest(meterWh.value, last.value.value.value))
  }

  /** The power in kW: the last value in kW, or in W under any other unit or none. */
  ghost predicate IsPower(powerKw: real, last: Option<SampledValue>) {
    if last.None? then powerKw == 0.0
    else
      && last.value.value.Some?
      && (last.value.unit == Some("kW") ==> powerKw == last.value.value.value)
      && (last.value.unit != Some("kW") ==> powerKw * 1000.0 == last.value.value.value)
  }

  ghost predicate IsBattery(percent: Option<int>, last: Option<SampledValue>) {
    if last.None? then percent == None
    else
      && percent.Some? && last.value.value.Some?
      && (last.value.value.value < 99.5 ==> IsNearest(percent.value, last.value.value.value))
      && (last.value.value.value >= 99.5 ==> percent == Some(100))
  }

  ghost predicate ReadsLast(sample: Sample, previous: Option<nat>, reading: Reading) {
    && IsMeter(reading.meterWh, Last(sample, REGISTER), previous)
    && IsPower(reading.powerKw, Last(sample, POWER))
    && IsBattery(reading.batteryPercent, Last(sample, BATTERY))
  }

  lemma {:induction false} ReadFromReadsLast(sample: Sample, previous: Option<nat>)
    requires ReadFrom(sample, previous).Some?
    ensures ReadsLast(sample, previous, ReadFrom(sample, previous).value)
  {
    if sample != [] {
      ReadFromReadsLast(sample[..|sample| - 1], previous);
    }
  }

  /**
    A sample that is not refused reads the last value of each kind, whatever stands before or after it;
    only a sample without a meter, where none is known yet, has no energy.
   */
  lemma ExtractReadsTheLastValues(sample: Sample, previous: Option<nat>)
    ensures
      var read := Extract(sample, previous);
      && (read.Extracted? ==>
            ReadsLast(sample, previous, Reading(Some(read.meterWh), read.powerKw, read.batteryPercent)))
      && (read == NoEnergy ==> previous == None && Last(sample, REGISTER) == None)
      && (previous == None && Last(sample, REGISTER) == None ==> !read.Extracted?)
  {
    if ReadFrom(sample, previous).Some? {
      ReadFromReadsLast(sample, previous);
    }
  }

  /** A meter of w watt-hours is read as w, sent in kWh or as it is, with its measurand or without. */
  lemma WholeMetersAreExact(w: nat, measurand: Option<string>, unit: Option<string>, previous: Option<nat>)
    requires measurand == None || measurand == Some("Energy.Active.Import.Register")
    ensures
      var number := if unit == Some("kWh") then w as real / 1000.0 else w as real;
      Extract([SampledValue(measurand, unit, Some(number))], previous) == Extracted(w, 0.0, None)
  {
    var number := if unit == Some("kWh") then w as real / 1000.0 else w as real;
    var sample := [SampledValue(measurand, unit, Some(number))];
    ExtractReadsTheLastValues(sample, previous);
    BadNumberIffAnyIsBad(sample, previous);
    assert Last(sample, REGISTER) == Some(sample[0]);
    assert sample[..0] == [] && Last(sample, POWER) == None && Last(sample, BATTERY) == None;
    assert Extract(sample, previous).Extracted?;
  }
}

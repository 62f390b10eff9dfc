/** The waveform generator's sample schedule: at a fixed 1000 samples per
    second, one CSV row per sample over the requested duration, row i at
    time i / 1000 seconds. */
module Waveform {

  import opened Outcomes

  /** Samples per second, fixed by the generator. */
  const SampleRate: nat := 1000

  /** The header line written before any data row. */
  const Header: string := "Time(s),Voltage(V)"

  datatype WaveformError = CannotCreateFile

  /** What is written to the file: the header, then one row per timestamp. */
  datatype Sheet = Sheet(header: string, times: seq<real>)

  /** Conversion of a real to an integer by truncation toward zero, as a
      cast from floating point to `int` does. */
  function Truncate(x: real): (n: int)
    ensures x >= 0.0 ==> 0 <= n && n as real <= x < n as real + 1.0
    ensures x < 0.0 ==> n <= 0 && n as real - 1.0 < x <= n as real
  {
    if x >= 0.0 then x.Floor else -((-x).Floor)
  }

  /** The number of data rows the loop writes: it runs while i is below the
      truncated sample count, so a count of zero or less writes none. */
  function RowCount(duration: real): (n: nat)
    ensures n as real <= if duration > 0.0 then duration * SampleRate as real else 0.0
    ensures duration > 0.0 ==> duration * SampleRate as real < n as real + 1.0
  {
    var total := Truncate(duration * SampleRate as real);
    if total > 0 then total else 0
  }

  /** Writes the header and one timestamp per sample; `canCreateFile` is
      whether opening the output file succeeds. The sine voltage of each row
      is not part of this model. */
  method GenerateWaveform(duration: real, canCreateFile: bool) returns (r: Result<Sheet, WaveformError>)
    ensures r.Failure? <==> !canCreateFile
    ensures r.Failure? ==> r.error == CannotCreateFile
    ensures r.Success? ==> r.value.header == Header && |r.value.times| == RowCount(duration)
    ensures r.Success? ==>
              forall i :: 0 <= i < |r.value.times| ==> r.value.times[i] == i as real / SampleRate as real
  {
    var totalSamples := Truncate(duration * SampleRate as real);
    assert RowCount(duration) == if totalSamples > 0 then totalSamples else 0;
    if !canCreateFile {
      return Failure(CannotCreateFile);
    }
    var times: seq<real> := [];
    var i := 0;
    while i < totalSamples
      invariant 0 <= i && i == |times|
      invariant i <= RowCount(duration)
      invariant forall j :: 0 <= j < i ==> times[j] == j as real / SampleRate as real
    {
      var t := i as real / SampleRate as real;
      times := times + [t];
      i := i + 1;
    }
    return Success(Sheet(Header, times));
  }

  /** Every timestamp lies in [0, duration): the schedule never runs past
      the requested duration. */
  lemma TimesWithinDuration(duration: real, i: nat)
    requires i < RowCount(duration)
    ensures 0.0 <= i as real / SampleRate as real < duration
  {
    assert duration > 0.0;
    assert (i as real) < duration * 1000.0;
  }

  /** A zero or negative duration writes the header and no data rows. */
  lemma NonPositiveDurationIsEmpty(duration: real)
    requires duration <= 0.0
    ensures RowCount(duration) == 0
  {
  }

  /** One second at 1000 samples per second is exactly 1000 rows. */
  lemma OneSecond()
    ensures RowCount(1.0) == 1000
  {
    assert (1000.0).Floor == 1000;
  }

}

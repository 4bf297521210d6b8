/**
 * The text helpers of the download screen's progress bar: a byte count in the largest
 * binary unit up to GB, and an elapsed or remaining time as a clock. The gauge itself is
 * presentation and not modelled; the clock format is the one `Utils.FormatDuration` models.
 */
module ProgressBar {
  import opened Wrappers
  import opened Text
  import opened Utils
  import opened Shared

  const BAR_UNITS: seq<string> := ["B", "KB", "MB", "GB"]

  /** The largest unit, up to GB, no larger than the byte count. */
  function BarUnit(bytes: nat): (k: nat)
    ensures k < |BAR_UNITS|
    ensures k == 3 <==> bytes >= BYTES_PER_GB
    ensures k == 2 <==> BYTES_PER_MB <= bytes < BYTES_PER_GB
    ensures k == 1 <==> BYTES_PER_KB <= bytes < BYTES_PER_MB
    ensures k == 0 <==> bytes < BYTES_PER_KB
  {
    if bytes >= BYTES_PER_GB then 3
    else if bytes >= BYTES_PER_MB then 2
    else if bytes >= BYTES_PER_KB then 1
    else 0
  }

  /**
   * `format_bytes` of the progress bar: the count divided by the chosen unit's size. Below
   * one KB the count is printed exactly as an integer; above, with two decimals (not modelled).
   */
  function FormatBarBytes(bytes: nat): (r: ScaledSize)
    ensures r.unit == BAR_UNITS[BarUnit(bytes)]
    ensures r.value * (Pow1024(BarUnit(bytes)) as real) == bytes as real
    ensures BarUnit(bytes) == 0 ==> r.value == bytes as real && r.unit == "B"
  {
    var k := BarUnit(bytes);
    assert Pow1024(1) == BYTES_PER_KB && Pow1024(2) == BYTES_PER_MB && Pow1024(3) == BYTES_PER_GB;
    ScaledSize(bytes as real / (Pow1024(k) as real), BAR_UNITS[k])
  }

  /**
   * `format_speed`: a rate in bytes per second in MB/s from one MB on, in KB/s from one KB
   * on, else in B/s, divided by that unit's size (the decimals printed are not modelled).
   */
  function FormatBarSpeed(bytesPerSec: real): (r: ScaledSize)
    ensures r.unit == "MB/s" <==> bytesPerSec >= 1048576.0
    ensures r.unit == "KB/s" <==> 1024.0 <= bytesPerSec < 1048576.0
    ensures r.unit == "B/s" <==> bytesPerSec < 1024.0
    ensures r.unit == "MB/s" ==> r.value * 1048576.0 == bytesPerSec
    ensures r.unit == "KB/s" ==> r.value * 1024.0 == bytesPerSec
    ensures r.unit == "B/s" ==> r.value == bytesPerSec
  {
    if bytesPerSec >= 1048576.0 then ScaledSize(bytesPerSec / 1048576.0, "MB/s")
    else if bytesPerSec >= 1024.0 then ScaledSize(bytesPerSec / 1024.0, "KB/s")
    else ScaledSize(bytesPerSec, "B/s")
  }

  /** A faster rate is never shown in a smaller unit. */
  lemma {:induction false} SpeedUnitMonotone(a: real, b: real)
    requires a <= b
    ensures FormatBarSpeed(a).unit == "MB/s" ==> FormatBarSpeed(b).unit == "MB/s"
    ensures FormatBarSpeed(b).unit == "B/s" ==> FormatBarSpeed(a).unit == "B/s"
  {
  }

  /** A larger byte count never gets a smaller unit. */
  lemma {:induction false} BarUnitMonotone(a: nat, b: nat)
    requires a <= b
    ensures BarUnit(a) <= BarUnit(b)
  {
  }

  /**
   * Below one TB the progress bar picks the same unit as the general `format_bytes`, whose
   * scaled size then satisfies the same relation to the byte count.
   */
  lemma {:induction false} BarAgreesWithGeneralFormat(bytes: nat)
    requires bytes < Pow1024(4)
    ensures IsByteSizeOf(bytes, FormatBarBytes(bytes).value, BarUnit(bytes))
    ensures BAR_UNITS[BarUnit(bytes)] == BYTE_UNITS[BarUnit(bytes)]
  {
    var k := BarUnit(bytes);
    var v := FormatBarBytes(bytes).value;
    var p := Pow1024(k) as real;
    assert Pow1024(1) == BYTES_PER_KB && Pow1024(2) == BYTES_PER_MB && Pow1024(3) == BYTES_PER_GB;
    assert Pow1024(k + 1) == 1024 * Pow1024(k);
    assert v * p == bytes as real;
    if k > 0 {
      assert bytes as real >= p;
      ScaledAtLeastOne(v, p);
    }
    ScaledBelow(v, p, bytes as real, (Pow1024(k + 1)) as real);
  }

  lemma {:induction false} ScaledAtLeastOne(v: real, p: real)
    requires p > 0.0 && v * p >= p
    ensures v >= 1.0
  {
    assert (v - 1.0) * p >= 0.0;
  }

  lemma {:induction false} ScaledBelow(v: real, p: real, x: real, bound: real)
    requires p > 0.0 && v * p == x && x < bound && bound == 1024.0 * p
    ensures v < 1024.0
  {
    assert (1024.0 - v) * p == bound - x;
  }

  /**
   * The progress bar's clock: `HH:MM:SS` exactly from one hour on, else `MM:SS`; the fields
   * below hours are under 60, and reading the fields back gives the seconds.
   */
  lemma {:induction false} BarDurationFields(seconds: nat)
    ensures |Split(FormatDuration(seconds), ':')| == 3 <==> seconds >= 3600
    ensures (seconds % 3600) / 60 < 60 && seconds % 60 < 60
    ensures 3600 * (seconds / 3600) + 60 * ((seconds % 3600) / 60) + seconds % 60 == seconds
    ensures ClockSeconds(Split(FormatDuration(seconds), ':')) == Some(seconds)
  {
    FormatDurationRoundTrip(seconds);
    DurationFields(seconds);
  }
}

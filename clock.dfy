/**
 * Time text in the views: `formatTick` (a tick as `MM:SS`, or the bare tick
 * when there is no interval) and the `Xm Ys` duration on the overview.
 */
module Clock {
  import opened Wrappers
  import opened Decimal
  import opened DemoTypes

  /** `floor(tick * interval)`: whole seconds elapsed at `tick`. */
  function TotalSeconds(tick: nat, interval: Rate): nat {
    tick * interval.num / interval.den
  }

  /** The interval tests false in JavaScript: it is absent or zero. */
  predicate NoInterval(interval: Option<Rate>) {
    interval.None? || interval.value.num == 0
  }

  /** Text of the shape `digits:dd`: at least two minute digits, a colon, exactly two second digits. */
  predicate IsClockText(r: string) {
    |r| >= 5 && r[|r| - 3] == ':' && AllDigits(r[..|r| - 3]) && AllDigits(r[|r| - 2..])
  }

  /** Reads `M:S` text back as (minutes, seconds). */
  function ReadClock(r: string): Option<(nat, nat)> {
    if IsClockText(r) then Some((Value(r[..|r| - 3]), Value(r[|r| - 2..]))) else None
  }

  /**
   * Whole seconds `s` as `MM:SS`: minutes s / 60 and seconds s % 60, each
   * zero-padded to two digits; the minutes are never cut and there is no hour
   * field.
   */
  function ClockText(s: nat): (r: string)
    ensures IsClockText(r)
    ensures ReadClock(r) == Some((s / 60, s % 60))
    ensures |r| - 3 == if s / 60 < 10 then 2 else |NatToString(s / 60)|
  {
    var minutes := PadStart(NatToString(s / 60), 2, '0');
    var seconds := PadStart(NatToString(s % 60), 2, '0');
    FieldsRead(minutes + ":" + seconds, minutes, seconds);
    PaddedValue(s / 60, 2);
    PaddedValue(s % 60, 2);
    minutes + ":" + seconds
  }

  lemma FieldsRead(r: string, minutes: string, seconds: string)
    requires r == minutes + ":" + seconds
    requires |minutes| >= 2 && |seconds| == 2
    ensures |r| - 3 == |minutes|
    ensures r[..|r| - 3] == minutes && r[|r| - 2..] == seconds && r[|r| - 3] == ':'
  {
  }

  /**
   * `formatTick(tick, interval)`: without an interval the tick's own decimal
   * text; with one, s = floor(tick * interval) as `MM:SS`.
   */
  function FormatTick(tick: nat, interval: Option<Rate>): (r: string)
    ensures NoInterval(interval) ==> r == NatToString(tick) && Value(r) == tick
    ensures !NoInterval(interval) ==>
      var s := TotalSeconds(tick, interval.value);
      && IsClockText(r) && ReadClock(r) == Some((s / 60, s % 60))
      && |r| - 3 == if s / 60 < 10 then 2 else |NatToString(s / 60)|
  {
    if NoInterval(interval) then
      ValueOfNatToString(tick);
      NatToString(tick)
    else
      ClockText(TotalSeconds(tick, interval.value))
  }

  /** The overview's duration, `${floor(d / 60)}m ${floor(d % 60)}s`, for whole seconds d. */
  function DurationText(duration: nat): (r: string)
    ensures ReadDuration(r) == Some((duration / 60, duration % 60))
    ensures LeadingDigits(r) == |NatToString(duration / 60)|
    ensures |r| - LeadingDigits(r) - 3 == |NatToString(duration % 60)|
  {
    var m := NatToString(duration / 60);
    var s := NatToString(duration % 60);
    DurationFieldsRead(m, s);
    ValueOfNatToString(duration / 60);
    ValueOfNatToString(duration % 60);
    m + "m " + s + "s"
  }

  lemma DurationFieldsRead(m: string, s: string)
    requires |m| >= 1 && |s| >= 1 && AllDigits(m) && AllDigits(s)
    ensures LeadingDigits(m + "m " + s + "s") == |m|
    ensures ReadDuration(m + "m " + s + "s") == Some((Value(m), Value(s)))
  {
    var tail := "m " + s + "s";
    var r := m + tail;
    assert r == m + "m " + s + "s";
    assert tail[0] == 'm';
    LeadingDigitsOfConcat(m, tail);
    assert r[..|m|] == m;
    assert r[|m|..|m| + 2] == "m ";
    assert r[|m| + 2..|r| - 1] == s;
    assert r[|r| - 1] == 's';
  }

  /** Reads `Xm Ys` text back as (minutes, seconds). */
  function ReadDuration(r: string): Option<(nat, nat)> {
    var k := LeadingDigits(r);
    if 0 < k && k + 4 <= |r| && r[k..k + 2] == "m " && r[|r| - 1] == 's' && AllDigits(r[k + 2..|r| - 1]) then
      Some((Value(r[..k]), Value(r[k + 2..|r| - 1])))
    else
      None
  }
}

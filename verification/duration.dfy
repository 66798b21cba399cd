/**
  Rendering a number of minutes as hours and minutes, shared by the two
  `format_duration` functions of the repository (they differ only in the unit
  words), and reading such a rendering back.
*/
module Duration {
  import opened Wrappers
  import opened Text

  /** `hours = minutes // 60; mins = minutes % 60` and the three-way choice
      between minutes only, hours only, and both. Dafny's `/` and `%` agree
      with Python's `//` and `%` for the positive divisor 60. */
  function Render(minutes: int, hourUnit: string, minuteUnit: string): string {
    var hours := minutes / 60;
    var mins := minutes % 60;
    if hours == 0 then IntToString(mins) + minuteUnit
    else if mins == 0 then IntToString(hours) + hourUnit
    else IntToString(hours) + hourUnit + " " + IntToString(mins) + minuteUnit
  }

  /** Length of the leading run of digits. */
  function SpanDigits(s: string): (k: nat)
    ensures k <= |s|
    ensures forall i :: 0 <= i < k ==> IsDigit(s[i])
    ensures k < |s| ==> !IsDigit(s[k])
  {
    if s == [] || !IsDigit(s[0]) then 0 else 1 + SpanDigits(s[1..])
  }

  /** Units a rendering can be read back with: non-empty, different, and
      not starting with a digit. */
  predicate ReadableUnits(hourUnit: string, minuteUnit: string) {
    && |hourUnit| > 0 && |minuteUnit| > 0 && hourUnit != minuteUnit
    && !IsDigit(hourUnit[0]) && !IsDigit(minuteUnit[0])
  }

  /** Reads `N<minuteUnit>`, `N<hourUnit>` or `N<hourUnit> M<minuteUnit>`
      back as a number of minutes. */
  function Read(s: string, hourUnit: string, minuteUnit: string): Option<int> {
    var k := SpanDigits(s);
    if k == 0 then None
    else
      var a := DigitsValue(s[..k]);
      var rest := s[k..];
      if rest == minuteUnit then Some(a)
      else if rest == hourUnit then Some(a * 60)
      else if |rest| > |hourUnit| + 1 && rest[..|hourUnit| + 1] == hourUnit + " " then
        var t := rest[|hourUnit| + 1..];
        var k2 := SpanDigits(t);
        if k2 > 0 && t[k2..] == minuteUnit then Some(a * 60 + DigitsValue(t[..k2])) else None
      else None
  }

  lemma SpanDigitsOfNumber(n: nat, tail: string)
    requires tail == [] || !IsDigit(tail[0])
    ensures SpanDigits(NatToString(n) + tail) == |NatToString(n)|
    ensures (NatToString(n) + tail)[..|NatToString(n)|] == NatToString(n)
    ensures (NatToString(n) + tail)[|NatToString(n)|..] == tail
  {
    var d := NatToString(n);
    SpanDigitsPrefix(d, tail);
  }

  lemma {:induction false} SpanDigitsPrefix(d: string, tail: string)
    requires AllDigits(d)
    requires tail == [] || !IsDigit(tail[0])
    ensures SpanDigits(d + tail) == |d|
    decreases |d|
  {
    if d != [] {
      assert (d + tail)[1..] == d[1..] + tail;
      SpanDigitsPrefix(d[1..], tail);
    } else {
      assert d + tail == tail;
    }
  }

  lemma ReadSingle(n: nat, unit: string, hourUnit: string, minuteUnit: string)
    requires ReadableUnits(hourUnit, minuteUnit)
    requires unit == hourUnit || unit == minuteUnit
    ensures Read(NatToString(n) + unit, hourUnit, minuteUnit)
      == Some(if unit == minuteUnit then n else n * 60)
  {
    SpanDigitsOfNumber(n, unit);
    DigitsValueOfNatToString(n);
  }

  /** What `Read` does once the leading number `a` has been consumed. */
  function ReadRest(a: nat, rest: string, hourUnit: string, minuteUnit: string): Option<int> {
    if rest == minuteUnit then Some(a)
    else if rest == hourUnit then Some(a * 60)
    else if |rest| > |hourUnit| + 1 && rest[..|hourUnit| + 1] == hourUnit + " " then
      var t := rest[|hourUnit| + 1..];
      var k2 := SpanDigits(t);
      if k2 > 0 && t[k2..] == minuteUnit then Some(a * 60 + DigitsValue(t[..k2])) else None
    else None
  }

  lemma ReadSplit(s: string, hourUnit: string, minuteUnit: string)
    requires SpanDigits(s) > 0
    ensures Read(s, hourUnit, minuteUnit)
      == ReadRest(DigitsValue(s[..SpanDigits(s)]), s[SpanDigits(s)..], hourUnit, minuteUnit)
  {
  }

  lemma ReadRestBoth(a: nat, m: nat, hourUnit: string, minuteUnit: string)
    requires ReadableUnits(hourUnit, minuteUnit)
    ensures ReadRest(a, hourUnit + " " + NatToString(m) + minuteUnit, hourUnit, minuteUnit) == Some(a * 60 + m)
  {
    var ms := NatToString(m);
    var tail := hourUnit + " " + ms + minuteUnit;
    assert |tail| > |minuteUnit| && |tail| > |hourUnit| + 1;
    assert tail[..|hourUnit| + 1] == hourUnit + " ";
    var t := tail[|hourUnit| + 1..];
    assert t == ms + minuteUnit;
    SpanDigitsOfNumber(m, minuteUnit);
    DigitsValueOfNatToString(m);
  }

  lemma ReadBoth(h: nat, m: nat, hourUnit: string, minuteUnit: string)
    requires ReadableUnits(hourUnit, minuteUnit)
    ensures Read(NatToString(h) + (hourUnit + " " + NatToString(m) + minuteUnit), hourUnit, minuteUnit)
      == Some(h * 60 + m)
  {
    var tail := hourUnit + " " + NatToString(m) + minuteUnit;
    SpanDigitsOfNumber(h, tail);
    DigitsValueOfNatToString(h);
    ReadSplit(NatToString(h) + tail, hourUnit, minuteUnit);
    ReadRestBoth(h, m, hourUnit, minuteUnit);
  }

  lemma RenderCases(minutes: nat, hourUnit: string, minuteUnit: string)
    ensures var hours, mins := minutes / 60, minutes % 60;
      && minutes == hours * 60 + mins
      && (hours == 0 ==> Render(minutes, hourUnit, minuteUnit) == NatToString(mins) + minuteUnit)
      && (hours != 0 && mins == 0 ==> Render(minutes, hourUnit, minuteUnit) == NatToString(hours) + hourUnit)
      && (hours != 0 && mins != 0 ==>
            Render(minutes, hourUnit, minuteUnit)
            == NatToString(hours) + (hourUnit + " " + NatToString(mins) + minuteUnit))
  {
  }

  /** A rendering of a non-negative number of minutes reads back as that number. */
  lemma RenderRoundTrip(minutes: nat, hourUnit: string, minuteUnit: string)
    requires ReadableUnits(hourUnit, minuteUnit)
    ensures Read(Render(minutes, hourUnit, minuteUnit), hourUnit, minuteUnit) == Some(minutes)
  {
    var hours := minutes / 60;
    var mins := minutes % 60;
    RenderCases(minutes, hourUnit, minuteUnit);
    if hours == 0 {
      ReadSingle(mins, minuteUnit, hourUnit, minuteUnit);
    } else if mins == 0 {
      ReadSingle(hours, hourUnit, hourUnit, minuteUnit);
    } else {
      ReadBoth(hours, mins, hourUnit, minuteUnit);
    }
  }

  /** A negative number of minutes renders with a leading minus sign: the
      floor division makes the hour part negative. */
  lemma RenderNegative(minutes: int, hourUnit: string, minuteUnit: string)
    requires minutes < 0
    ensures |Render(minutes, hourUnit, minuteUnit)| > 0 && Render(minutes, hourUnit, minuteUnit)[0] == '-'
  {
  }
}

/**
 * Timestamps as the program stores them: the ISO 8601 text `datetime.isoformat()`
 * writes, read back with `datetime.fromisoformat`. The grammar is the one the
 * standard library accepts up to Python 3.10: `YYYY-MM-DD`, optionally followed
 * by one separator character, a clock `HH[:MM[:SS[.fff|.ffffff]]]` and an offset
 * `+HH:MM[:SS[.ffffff]]` or `-HH:MM[:SS[.ffffff]]`.
 */
module IsoTime {
  import opened Wrappers

  /** A `datetime`, carried as its ISO 8601 text. */
  type Timestamp = string

  /** The fields of a `datetime`; `offset` is the UTC offset in microseconds of an aware one. */
  datatype DateTime = DateTime(year: nat, month: nat, day: nat, hour: nat, minute: nat, second: nat, micro: nat,
                               offset: Option<int>)

  predicate DecimalDigit(c: char)
  {
    '0' <= c <= '9'
  }

  predicate DecimalDigits(s: string)
  {
    forall i :: 0 <= i < |s| ==> DecimalDigit(s[i])
  }

  /** The number a run of decimal digits spells. */
  function Spelled(s: string): nat
    requires DecimalDigits(s)
  {
    if |s| == 0 then 0 else Spelled(s[..|s| - 1]) * 10 + (s[|s| - 1] as int - '0' as int)
  }

  predicate LeapYear(year: nat)
  {
    year % 4 == 0 && (year % 100 != 0 || year % 400 == 0)
  }

  function DaysIn(year: nat, month: nat): nat
  {
    if month == 2 then (if LeapYear(year) then 29 else 28)
    else if month == 4 || month == 6 || month == 9 || month == 11 then 30
    else 31
  }

  /** The ranges the `date` constructor enforces. */
  predicate ValidDate(year: nat, month: nat, day: nat)
  {
    1 <= year <= 9999 && 1 <= month <= 12 && 1 <= day <= DaysIn(year, month)
  }

  /** The ranges the `time` part of the `datetime` constructor enforces. */
  predicate ValidClock(hour: nat, minute: nat, second: nat, micro: nat)
  {
    hour < 24 && minute < 60 && second < 60 && micro < 1000000
  }

  /** `YYYY-MM-DD` as year, month and day. */
  function DateFields(s: string): Option<(nat, nat, nat)>
    requires |s| == 10
  {
    if s[4] == '-' && s[7] == '-' && DecimalDigits(s[..4]) && DecimalDigits(s[5..7]) && DecimalDigits(s[8..]) then
      Some((Spelled(s[..4]), Spelled(s[5..7]), Spelled(s[8..])))
    else None
  }

  /**
   * `HH`, `HH:MM`, `HH:MM:SS`, `HH:MM:SS.fff` or `HH:MM:SS.ffffff` as hours,
   * minutes, seconds and microseconds; three fraction digits are milliseconds.
   */
  function ClockFields(t: string): Option<(nat, nat, nat, nat)>
  {
    if |t| < 2 || !DecimalDigits(t[..2]) then None
    else if |t| == 2 then Some((Spelled(t[..2]), 0, 0, 0))
    else if t[2] != ':' || |t| < 5 || !DecimalDigits(t[3..5]) then None
    else if |t| == 5 then Some((Spelled(t[..2]), Spelled(t[3..5]), 0, 0))
    else if t[5] != ':' || |t| < 8 || !DecimalDigits(t[6..8]) then None
    else if |t| == 8 then Some((Spelled(t[..2]), Spelled(t[3..5]), Spelled(t[6..8]), 0))
    else if t[8] != '.' || !(|t| == 12 || |t| == 15) || !DecimalDigits(t[9..]) then None
    else Some((Spelled(t[..2]), Spelled(t[3..5]), Spelled(t[6..8]), if |t| == 12 then Spelled(t[9..]) * 1000 else Spelled(t[9..])))
  }

  /** Where the offset of a clock begins: its first `+` or `-`. */
  function SignAt(t: string): (r: Option<nat>)
    ensures r.Some? ==> r.value < |t| && (t[r.value] == '+' || t[r.value] == '-')
    ensures r.Some? ==> forall i :: 0 <= i < r.value ==> t[i] != '+' && t[i] != '-'
    ensures r.None? ==> forall i :: 0 <= i < |t| ==> t[i] != '+' && t[i] != '-'
  {
    if |t| == 0 then None
    else if t[0] == '+' || t[0] == '-' then Some(0)
    else
      var rest := SignAt(t[1..]);
      if rest.Some? then Some(rest.value + 1) else None
  }

  /** An offset of `HH:MM`, `HH:MM:SS` or `HH:MM:SS.ffffff` in microseconds, when it is under a day. */
  function OffsetSize(u: string): Option<nat>
  {
    var f := ClockFields(u);
    if !(|u| == 5 || |u| == 8 || |u| == 15) || f.None? then None
    else
      var size := ((f.value.0 * 60 + f.value.1) * 60 + f.value.2) * 1000000 + f.value.3;
      if size < 86400000000 then Some(size) else None
  }

  /** The clock and offset after the separator, as a `DateTime` on the given day. */
  function ClockPart(year: nat, month: nat, day: nat, t: string): Option<DateTime>
  {
    var k := SignAt(t);
    var clock := ClockFields(if k.Some? then t[..k.value] else t);
    if clock.None? || !ValidClock(clock.value.0, clock.value.1, clock.value.2, clock.value.3) then None
    else if k.None? then Some(DateTime(year, month, day, clock.value.0, clock.value.1, clock.value.2, clock.value.3, None))
    else
      var size := OffsetSize(t[k.value + 1..]);
      if size.None? then None
      else
        Some(DateTime(year, month, day, clock.value.0, clock.value.1, clock.value.2, clock.value.3,
                      Some(if t[k.value] == '-' then -(size.value as int) else size.value as int)))
  }

  /** `datetime.fromisoformat(s)`, or `None` where it raises `ValueError`. */
  function Parse(s: string): (r: Option<DateTime>)
    ensures r.Some? ==> ValidDate(r.value.year, r.value.month, r.value.day)
    ensures r.Some? ==> ValidClock(r.value.hour, r.value.minute, r.value.second, r.value.micro)
    ensures r.Some? && r.value.offset.Some? ==> -86400000000 < r.value.offset.value < 86400000000
    ensures r.Some? ==> |s| == 10 || |s| > 11
  {
    if |s| < 10 then None
    else
      var date := DateFields(s[..10]);
      if date.None? || !ValidDate(date.value.0, date.value.1, date.value.2) then None
      else if |s| == 10 then Some(DateTime(date.value.0, date.value.1, date.value.2, 0, 0, 0, 0, None))
      else if |s| == 11 then None
      else ClockPart(date.value.0, date.value.1, date.value.2, s[11..])
  }

  /** The text `datetime.fromisoformat` accepts. */
  predicate IsIsoFormat(s: string)
  {
    Parse(s).Some?
  }

  // ---------------------------------------------------------------- writing

  function Pow10(n: nat): nat
  {
    if n == 0 then 1 else 10 * Pow10(n - 1)
  }

  /** `n` in `width` decimal digits, with leading zeros. */
  function ZeroPadded(n: nat, width: nat): (r: string)
    ensures |r| == width && DecimalDigits(r)
  {
    if width == 0 then [] else ZeroPadded(n / 10, width - 1) + [('0' as int + n % 10) as char]
  }

  /** Padding a number that fits in `width` digits spells it. */
  lemma {:induction false} ZeroPaddedSpells(n: nat, width: nat)
    requires n < Pow10(width)
    ensures Spelled(ZeroPadded(n, width)) == n
  {
    if width > 0 {
      var r := ZeroPadded(n, width);
      assert r[..|r| - 1] == ZeroPadded(n / 10, width - 1);
      ZeroPaddedSpells(n / 10, width - 1);
    }
  }

  /** `date.isoformat()`. */
  function DateText(year: nat, month: nat, day: nat): string
  {
    ZeroPadded(year, 4) + "-" + ZeroPadded(month, 2) + "-" + ZeroPadded(day, 2)
  }

  /** The clock `datetime.isoformat()` writes: the microseconds only when there are some. */
  function ClockText(hour: nat, minute: nat, second: nat, micro: nat): string
  {
    ZeroPadded(hour, 2) + ":" + ZeroPadded(minute, 2) + ":" + ZeroPadded(second, 2) + (if micro == 0 then "" else "." + ZeroPadded(micro, 6))
  }

  /** `datetime.isoformat()` of a naive `datetime`, such as a `datetime.now()` reading. */
  function Format(dt: DateTime): string
  {
    DateText(dt.year, dt.month, dt.day) + "T" + ClockText(dt.hour, dt.minute, dt.second, dt.micro)
  }

  lemma {:induction false} DateTextReads(year: nat, month: nat, day: nat)
    requires ValidDate(year, month, day)
    ensures DateFields(DateText(year, month, day)) == Some((year, month, day))
  {
    var s := DateText(year, month, day);
    assert s[..4] == ZeroPadded(year, 4) && s[5..7] == ZeroPadded(month, 2) && s[8..] == ZeroPadded(day, 2);
    assert s[4] == '-' && s[7] == '-';
    ZeroPaddedSpells(year, 4);
    ZeroPaddedSpells(month, 2);
    ZeroPaddedSpells(day, 2);
  }

  lemma {:induction false} ClockTextReads(hour: nat, minute: nat, second: nat, micro: nat)
    requires ValidClock(hour, minute, second, micro)
    ensures SignAt(ClockText(hour, minute, second, micro)) == None
    ensures ClockFields(ClockText(hour, minute, second, micro)) == Some((hour, minute, second, micro))
  {
    var t := ClockText(hour, minute, second, micro);
    assert t[..2] == ZeroPadded(hour, 2) && t[3..5] == ZeroPadded(minute, 2) && t[6..8] == ZeroPadded(second, 2);
    assert t[2] == ':' && t[5] == ':';
    ZeroPaddedSpells(hour, 2);
    ZeroPaddedSpells(minute, 2);
    ZeroPaddedSpells(second, 2);
    if micro != 0 {
      assert t[8] == '.' && t[9..] == ZeroPadded(micro, 6);
      ZeroPaddedSpells(micro, 6);
    }
    forall i | 0 <= i < |t| ensures t[i] != '+' && t[i] != '-' {
      if i < 2 {
        assert t[i] == ZeroPadded(hour, 2)[i];
      } else if 3 <= i < 5 {
        assert t[i] == ZeroPadded(minute, 2)[i - 3];
      } else if 6 <= i < 8 {
        assert t[i] == ZeroPadded(second, 2)[i - 6];
      } else if 9 <= i {
        assert t[i] == ZeroPadded(micro, 6)[i - 9];
      }
    }
  }

  /** Whatever `isoformat()` writes for a naive `datetime`, `fromisoformat` reads back as the same `datetime`. */
  lemma {:induction false} FormatRoundTrip(dt: DateTime)
    requires ValidDate(dt.year, dt.month, dt.day) && ValidClock(dt.hour, dt.minute, dt.second, dt.micro)
    requires dt.offset.None?
    ensures Parse(Format(dt)) == Some(dt)
  {
    var s := Format(dt);
    var d := DateText(dt.year, dt.month, dt.day);
    var c := ClockText(dt.hour, dt.minute, dt.second, dt.micro);
    assert s[..10] == d && s[11..] == c;
    DateTextReads(dt.year, dt.month, dt.day);
    ClockTextReads(dt.hour, dt.minute, dt.second, dt.micro);
  }

  /** A timestamp `isoformat()` wrote is accepted. */
  lemma FormatIsIso(dt: DateTime)
    requires ValidDate(dt.year, dt.month, dt.day) && ValidClock(dt.hour, dt.minute, dt.second, dt.micro)
    requires dt.offset.None?
    ensures IsIsoFormat(Format(dt))
  {
    FormatRoundTrip(dt);
  }
}

/**
 * The two timestamp formats the lookback filter uses.
 *
 * A bookmark is read with `datetime.strptime(value, '%Y-%m-%dT%H:%M:%S.%f%z')`
 * and, after two weeks are subtracted, written back with
 * `strftime('%Y-%m-%dT%H:%M:%SZ')`.  The reader follows the pattern CPython's
 * `_strptime` builds for that format: the whole string must match, letters in
 * the pattern match either case (so the date/time separator is `T` or `t`), and
 * the values are then checked by the `datetime` and `timezone` constructors.
 * Every rejection is a ValueError there and `Malformed` here; a result before
 * 0001-01-01 is an OverflowError there and `OutOfRange` here.
 */
module Timestamp {
  import opened Wrappers
  import opened Calendar

  datatype TimeError = Malformed | OutOfRange

  datatype TimeOfDay = TimeOfDay(hour: int, minute: int, second: int)

  /**
   * An aware datetime: a calendar date, a time of day, microseconds, and the
   * UTC offset in microseconds (east of UTC is positive).
   */
  datatype DateTime = DateTime(date: Date, time: TimeOfDay, microsecond: int, offset: int)

  const MicrosPerSecond := 1_000_000
  const MicrosPerDay := 86_400_000_000

  predicate ValidTime(t: TimeOfDay) {
    0 <= t.hour <= 23 && 0 <= t.minute <= 59 && 0 <= t.second <= 59
  }

  /** Python's `timezone` accepts offsets strictly inside one day either way. */
  predicate ValidOffset(offset: int) {
    -MicrosPerDay < offset < MicrosPerDay
  }

  predicate ValidDateTime(dt: DateTime) {
    && ValidDate(dt.date)
    && ValidTime(dt.time)
    && 0 <= dt.microsecond < MicrosPerSecond
    && ValidOffset(dt.offset)
  }

  // ---------------------------------------------------------------- digits

  predicate IsDigit(c: char) { '0' <= c <= '9' }

  predicate AllDigits(s: string) {
    forall i :: 0 <= i < |s| ==> IsDigit(s[i])
  }

  function DigitValue(c: char): nat
    requires IsDigit(c)
  {
    c as int - '0' as int
  }

  function DigitChar(v: int): (c: char)
    requires 0 <= v < 10
    ensures IsDigit(c) && DigitValue(c) == v
  {
    ('0' as int + v) as char
  }

  function Pow10(n: nat): (p: nat)
    ensures p >= 1
  {
    if n == 0 then 1 else 10 * Pow10(n - 1)
  }

  /** The value of a decimal numeral, most significant digit first. */
  function NumeralValue(s: string): nat
    requires AllDigits(s)
  {
    if s == [] then 0 else NumeralValue(s[..|s| - 1]) * 10 + DigitValue(s[|s| - 1])
  }

  lemma {:induction false} NumeralValueBound(s: string)
    requires AllDigits(s)
    ensures NumeralValue(s) < Pow10(|s|)
  {
    if s != [] {
      NumeralValueBound(s[..|s| - 1]);
    }
  }

  /** `v` written with exactly `w` decimal digits, zero-padded on the left (`%0wd`). */
  function Pad(v: nat, w: nat): (s: string)
    ensures |s| == w
  {
    if w == 0 then [] else Pad(v / 10, w - 1) + [DigitChar(v % 10)]
  }

  lemma {:induction false} PadDigits(v: nat, w: nat)
    ensures AllDigits(Pad(v, w))
  {
    if w > 0 {
      PadDigits(v / 10, w - 1);
    }
  }

  /** Reading a padded numeral gives back the number, when it fits in the width. */
  lemma {:induction false} PadValue(v: nat, w: nat)
    requires v < Pow10(w)
    ensures AllDigits(Pad(v, w)) && NumeralValue(Pad(v, w)) == v
  {
    PadDigits(v, w);
    if w > 0 {
      PadValue(v / 10, w - 1);
      var s := Pad(v, w);
      assert s[..|s| - 1] == Pad(v / 10, w - 1);
    }
  }

  // ---------------------------------------------------------------- scanning

  /** The number of digits `s` starts with. */
  function DigitRun(s: string): (n: nat)
    ensures n <= |s| && AllDigits(s[..n])
    ensures n < |s| ==> !IsDigit(s[n])
  {
    if s != [] && IsDigit(s[0]) then
      var n := 1 + DigitRun(s[1..]);
      assert forall i :: 1 <= i < n ==> s[..n][i] == s[1..][..n - 1][i - 1];
      n
    else 0
  }

  lemma {:induction false} DigitRunOfDigits(d: string, rest: string)
    requires AllDigits(d)
    requires rest == [] || !IsDigit(rest[0])
    ensures DigitRun(d + rest) == |d|
  {
    if d != [] {
      assert (d + rest)[1..] == d[1..] + rest;
      DigitRunOfDigits(d[1..], rest);
    } else {
      assert d + rest == rest;
    }
  }

  /** A scanned numeral: its value, how many digits it had, and the unread text. */
  datatype Scan = Scan(value: nat, width: nat, rest: string)

  /** A maximal run of between `minWidth` and `maxWidth` digits. */
  function Number(s: string, minWidth: nat, maxWidth: nat): (r: Result<Scan, TimeError>)
    ensures r.Success? ==> minWidth <= r.value.width <= maxWidth
    ensures r.Success? ==> r.value.value < Pow10(r.value.width)
    ensures r.Failure? ==> r.error == Malformed
  {
    var n := DigitRun(s);
    if minWidth <= n <= maxWidth then
      NumeralValueBound(s[..n]);
      Success(Scan(NumeralValue(s[..n]), n, s[n..]))
    else Failure(Malformed)
  }

  /** Exactly `w` digits, whatever follows them (a `\d\d` in the pattern). */
  function FixedDigits(s: string, w: nat): (r: Result<Scan, TimeError>)
    ensures r.Success? ==> r.value.width == w
    ensures r.Success? ==> r.value.value < Pow10(w)
    ensures r.Failure? ==> r.error == Malformed
  {
    if w <= |s| && AllDigits(s[..w]) then
      NumeralValueBound(s[..w]);
      Success(Scan(NumeralValue(s[..w]), w, s[w..]))
    else Failure(Malformed)
  }

  /** One literal character of the pattern. */
  function Literal(s: string, c: char): (r: Result<string, TimeError>)
    ensures r.Success? <==> s != [] && s[0] == c
    ensures r.Success? ==> r.value == s[1..]
    ensures r.Failure? ==> r.error == Malformed
  {
    if s != [] && s[0] == c then Success(s[1..]) else Failure(Malformed)
  }

  /** The `T` between date and time, matched without regard to case. */
  function Separator(s: string): (r: Result<string, TimeError>)
    ensures r.Failure? ==> r.error == Malformed
  {
    if s != [] && (s[0] == 'T' || s[0] == 't') then Success(s[1..]) else Failure(Malformed)
  }

  /** `%d`: one or two digits, or a space and one non-zero digit. */
  function DayNumber(s: string): (r: Result<Scan, TimeError>)
    ensures r.Failure? ==> r.error == Malformed
  {
    if s != [] && s[0] == ' ' then
      if |s| >= 2 && '1' <= s[1] <= '9' then Success(Scan(DigitValue(s[1]), 1, s[2..]))
      else Failure(Malformed)
    else Number(s, 1, 2)
  }

  // ---------------------------------------------------------------- reading

  /** Three numbers read from the front of a string, and what follows them. */
  datatype Fields = Fields(first: nat, second: nat, third: nat, rest: string)

  /** `%Y-%m-%d`: a four-digit year, a dash, the month, a dash, the day. */
  function ScanDate(s: string): (r: Result<Fields, TimeError>)
    ensures r.Failure? ==> r.error == Malformed
  {
    var y :- Number(s, 4, 4);
    var s1 :- Literal(y.rest, '-');
    var mo :- Number(s1, 1, 2);
    var s2 :- Literal(mo.rest, '-');
    var d :- DayNumber(s2);
    Success(Fields(y.value, mo.value, d.value, d.rest))
  }

  /** `%H:%M:%S`: hour, minute and second of one or two digits each, separated by colons. */
  function ScanTime(s: string): (r: Result<Fields, TimeError>)
    ensures r.Failure? ==> r.error == Malformed
  {
    var h :- Number(s, 1, 2);
    var s1 :- Literal(h.rest, ':');
    var mi :- Number(s1, 1, 2);
    var s2 :- Literal(mi.rest, ':');
    var sec :- Number(s2, 1, 2);
    Success(Fields(h.value, mi.value, sec.value, sec.rest))
  }

  /** The date and time of day read from the front of a string, and what follows them. */
  datatype Scanned = Scanned(date: Date, time: TimeOfDay, rest: string)

  /**
   * The fields read for `%Y-%m-%d` and `%H:%M:%S`, if they name a valid date
   * (year from 1, month 1 to 12, day within the month) and a valid time of day
   * (hour to 23, minute and second to 59).
   */
  function CheckFields(date: Fields, time: Fields, rest: string): (r: Result<Scanned, TimeError>)
    ensures r.Success? ==> ValidDate(r.value.date) && ValidTime(r.value.time) && r.value.rest == rest
    ensures r.Failure? ==> r.error == Malformed
  {
    if && 1 <= date.first <= 9999
       && 1 <= date.second <= 12
       && 1 <= date.third <= DaysInMonth(date.first, date.second)
       && time.first <= 23 && time.second <= 59 && time.third <= 59
    then Success(Scanned(Date(date.first, date.second, date.third),
                         TimeOfDay(time.first, time.second, time.third), rest))
    else Failure(Malformed)
  }

  /** Reads `%Y-%m-%dT%H:%M:%S` from the front of `s` and checks the fields. */
  function ScanDateTime(s: string): (r: Result<Scanned, TimeError>)
    ensures r.Success? ==> ValidDate(r.value.date) && ValidTime(r.value.time)
    ensures r.Failure? ==> r.error == Malformed
  {
    var date :- ScanDate(s);
    var s1 :- Separator(date.rest);
    var time :- ScanTime(s1);
    CheckFields(date, time, time.rest)
  }

  /** The optional seconds part of `%z`: `[:]SS` and then an optional `.f` of one to six digits. */
  datatype OffsetSeconds = OffsetSeconds(colon: bool, seconds: nat, fraction: nat, rest: string)

  function Min(a: int, b: int): int { if a <= b then a else b }

  /** The first `n` characters of a run of digits are digits. */
  lemma PrefixOfRun(s: string, n: nat)
    requires n <= DigitRun(s)
    ensures AllDigits(s[..n])
  {
    assert forall i :: 0 <= i < n ==> s[..n][i] == s[..DigitRun(s)][i];
  }

  /**
   * `\.\d{1,6}` matched greedily after the dot: up to six of the digits that
   * `digits` starts with, padded on the right to microseconds.
   */
  function GreedyFraction(digits: string): (r: Scan)
    requires digits != [] && IsDigit(digits[0])
    ensures 1 <= r.width <= 6 && r.value < MicrosPerSecond
  {
    var n := Min(DigitRun(digits), 6);
    PrefixOfRun(digits, n);
    NumeralValueBound(digits[..n]);
    FractionBound(NumeralValue(digits[..n]), n);
    Scan(NumeralValue(digits[..n]) * Pow10(6 - n), n, digits[n..])
  }

  function ScanOffsetSeconds(s: string): (r: Option<OffsetSeconds>)
    ensures r.Some? ==> r.value.seconds <= 59 && r.value.fraction < MicrosPerSecond
  {
    var colon := s != [] && s[0] == ':';
    var t := if colon then s[1..] else s;
    if |t| >= 2 && '0' <= t[0] <= '5' && IsDigit(t[1]) then
      var seconds := 10 * DigitValue(t[0]) + DigitValue(t[1]);
      var u := t[2..];
      if |u| >= 2 && u[0] == '.' && IsDigit(u[1]) then
        var f := GreedyFraction(u[1..]);
        Some(OffsetSeconds(colon, seconds, f.value, f.rest))
      else
        Some(OffsetSeconds(colon, seconds, 0, u))
    else None
  }

  /** A fraction of `n` digits, padded on the right to six, stays below one second. */
  lemma FractionBound(v: nat, n: nat)
    requires 1 <= n <= 6 && v < Pow10(n)
    ensures v * Pow10(6 - n) < MicrosPerSecond
  {
    assert Pow10(1) == 10 && Pow10(2) == 100 && Pow10(3) == 1000;
    assert Pow10(4) == 10000 && Pow10(5) == 100000 && Pow10(6) == 1000000;
  }

  /** The signed offset of `%z` once its parts are known, if `timezone` accepts it. */
  function OffsetValue(negative: bool, hours: nat, minutes: nat, seconds: nat, fraction: nat): (r: Result<int, TimeError>)
    ensures r.Success? ==> ValidOffset(r.value)
  {
    var magnitude := ((hours * 60 + minutes) * 60 + seconds) * 1_000_000 + fraction;
    if magnitude >= MicrosPerDay then Failure(Malformed)
    else Success(if negative then -magnitude else magnitude)
  }

  /**
   * `%z`: `Z` (upper case only), or a sign, two hour digits, an optional colon,
   * two minute digits and the optional seconds part; the whole rest of the
   * string must be consumed.  A colon after the hours must be matched by one
   * before the seconds and the other way round, else Python raises ValueError.
   */
  function ParseOffset(z: string): (r: Result<int, TimeError>)
    ensures r.Success? ==> ValidOffset(r.value)
    ensures r.Failure? ==> r.error == Malformed
  {
    if z == "Z" then Success(0)
    else if z == [] || (z[0] != '+' && z[0] != '-') then Failure(Malformed)
    else
      var hh :- FixedDigits(z[1..], 2);
      var colon := hh.rest != [] && hh.rest[0] == ':';
      var mm :- FixedDigits(if colon then hh.rest[1..] else hh.rest, 2);
      if mm.value > 59 then Failure(Malformed)
      else match ScanOffsetSeconds(mm.rest)
        case None =>
          if mm.rest != [] then Failure(Malformed)
          else OffsetValue(z[0] == '-', hh.value, mm.value, 0, 0)
        case Some(tail) =>
          if tail.rest != [] || tail.colon != colon then Failure(Malformed)
          else OffsetValue(z[0] == '-', hh.value, mm.value, tail.seconds, tail.fraction)
  }

  /** `.%f`: a dot and one to six digits, padded on the right to microseconds. */
  function ScanFraction(s: string): (r: Result<Scan, TimeError>)
    ensures r.Success? ==> r.value.value < MicrosPerSecond
    ensures r.Failure? ==> r.error == Malformed
  {
    var digits :- Literal(s, '.');
    var f :- Number(digits, 1, 6);
    FractionBound(f.value, f.width);
    Success(Scan(f.value * Pow10(6 - f.width), f.width, f.rest))
  }

  /**
   * `datetime.strptime(s, '%Y-%m-%dT%H:%M:%S.%f%z')`: the date and time, the
   * fraction and the UTC offset, with nothing left over.
   */
  function ParseBookmark(s: string): (r: Result<DateTime, TimeError>)
    ensures r.Success? ==> ValidDateTime(r.value)
    ensures r.Failure? ==> r.error == Malformed
  {
    var head :- ScanDateTime(s);
    var fraction :- ScanFraction(head.rest);
    var offset :- ParseOffset(fraction.rest);
    Success(DateTime(head.date, head.time, fraction.value, offset))
  }

  // Scanning only drops characters from the front, so a character absent from
  // the input is absent from what is left over.

  lemma DropKeepsOut(c: char, s: string, n: nat)
    requires n <= |s| && c !in s
    ensures c !in s[n..]
  {
    assert forall i :: 0 <= i < |s| - n ==> s[n..][i] == s[n + i];
  }

  lemma NumberKeepsOut(c: char, s: string, minWidth: nat, maxWidth: nat)
    requires c !in s && Number(s, minWidth, maxWidth).Success?
    ensures c !in Number(s, minWidth, maxWidth).value.rest
  {
    DropKeepsOut(c, s, DigitRun(s));
  }

  lemma ScanDateKeepsOut(c: char, s: string)
    requires c !in s && ScanDate(s).Success?
    ensures c !in ScanDate(s).value.rest
  {
    var y := Number(s, 4, 4).value;
    NumberKeepsOut(c, s, 4, 4);
    var s1 := y.rest[1..];
    DropKeepsOut(c, y.rest, 1);
    var mo := Number(s1, 1, 2).value;
    NumberKeepsOut(c, s1, 1, 2);
    var s2 := mo.rest[1..];
    DropKeepsOut(c, mo.rest, 1);
    if s2[0] == ' ' {
      DropKeepsOut(c, s2, 2);
    } else {
      NumberKeepsOut(c, s2, 1, 2);
    }
  }

  lemma ScanTimeKeepsOut(c: char, s: string)
    requires c !in s && ScanTime(s).Success?
    ensures c !in ScanTime(s).value.rest
  {
    var h := Number(s, 1, 2).value;
    NumberKeepsOut(c, s, 1, 2);
    var s1 := h.rest[1..];
    DropKeepsOut(c, h.rest, 1);
    var mi := Number(s1, 1, 2).value;
    NumberKeepsOut(c, s1, 1, 2);
    var s2 := mi.rest[1..];
    DropKeepsOut(c, mi.rest, 1);
    NumberKeepsOut(c, s2, 1, 2);
  }

  /** Without a fractional-seconds part (no `.` at all) a bookmark is rejected. */
  lemma NoFractionRejected(s: string)
    requires '.' !in s
    ensures ParseBookmark(s) == Failure(Malformed)
  {
    var head := ScanDateTime(s);
    if head.Success? {
      var date := ScanDate(s).value;
      ScanDateKeepsOut('.', s);
      DropKeepsOut('.', date.rest, 1);
      ScanTimeKeepsOut('.', date.rest[1..]);
      assert '.' !in head.value.rest;
    }
  }

  // ---------------------------------------------------------------- writing

  /** `%Y-%m-%dT%H:%M:%S` followed by `tail`. */
  function RenderDateTime(d: Date, t: TimeOfDay, tail: string): string
    requires ValidDate(d) && ValidTime(t)
  {
    Pad(d.year, 4) + ("-" + (Pad(d.month, 2) + ("-" + (Pad(d.day, 2) + ("T" +
    (Pad(t.hour, 2) + (":" + (Pad(t.minute, 2) + (":" + (Pad(t.second, 2) + tail))))))))))
  }

  /** `%z` as `strftime` writes it: sign, `HHMM`, then `SS` and `.ffffff` only when not zero. */
  function RenderOffset(offset: int): string
    requires ValidOffset(offset)
  {
    var magnitude := if offset < 0 then -offset else offset;
    var seconds := magnitude / 1_000_000;
    var micros := magnitude % 1_000_000;
    (if offset < 0 then "-" else "+") +
    (Pad(seconds / 3600, 2) + (Pad(seconds % 3600 / 60, 2) +
      (if seconds % 60 == 0 && micros == 0 then ""
       else Pad(seconds % 60, 2) + (if micros == 0 then "" else "." + Pad(micros, 6)))))
  }

  /** A datetime written in the bookmark format, `%Y-%m-%dT%H:%M:%S.%f%z`. */
  function RenderBookmark(dt: DateTime): string
    requires ValidDateTime(dt)
  {
    RenderDateTime(dt.date, dt.time, "." + (Pad(dt.microsecond, 6) + RenderOffset(dt.offset)))
  }

  /**
   * The layout `%Y-%m-%dT%H:%M:%SZ` is written in: four year digits, two digits
   * for every other field, and `-`, `T`, `:`, `:` and `Z` at fixed places.
   */
  predicate ZuluLayout(s: string) {
    && |s| == 20
    && AllDigits(s[..4]) && s[4] == '-' && AllDigits(s[5..7]) && s[7] == '-'
    && AllDigits(s[8..10]) && s[10] == 'T' && AllDigits(s[11..13]) && s[13] == ':'
    && AllDigits(s[14..16]) && s[16] == ':' && AllDigits(s[17..19]) && s[19] == 'Z'
  }

  /** A field followed by a separator and the rest, taken apart again. */
  lemma FieldThen(f: string, sep: string, rest: string)
    requires |sep| == 1
    ensures var s := f + (sep + rest);
      && s[..|f|] == f && s[|f|] == sep[0] && s[|f| + 1..] == rest
  {
    var s := f + (sep + rest);
    assert s[..|f|] == f;
    assert s[|f| + 1..] == rest;
  }

  /** Fields of the right widths, joined by the separators, make that layout. */
  lemma JoinedFieldsLayout(y: string, mo: string, d: string, h: string, mi: string, se: string)
    requires |y| == 4 && |mo| == 2 && |d| == 2 && |h| == 2 && |mi| == 2 && |se| == 2
    requires AllDigits(y) && AllDigits(mo) && AllDigits(d) && AllDigits(h) && AllDigits(mi) && AllDigits(se)
    ensures ZuluLayout(y + ("-" + (mo + ("-" + (d + ("T" + (h + (":" + (mi + (":" + (se + "Z")))))))))))
  {
    var r5 := se + "Z";
    var r4 := mi + (":" + r5);
    var r3 := h + (":" + r4);
    var r2 := d + ("T" + r3);
    var r1 := mo + ("-" + r2);
    var s := y + ("-" + r1);
    FieldThen(y, "-", r1);
    FieldThen(mo, "-", r2);
    FieldThen(d, "T", r3);
    FieldThen(h, ":", r4);
    FieldThen(mi, ":", r5);
    assert r5[..2] == se && r5[2] == 'Z';
    assert s[5..] == r1;
    assert s[5..7] == r1[..2];
    assert s[8..] == r2;
    assert s[8..10] == r2[..2];
    assert s[11..] == r3;
    assert s[11..13] == r3[..2];
    assert s[14..] == r4;
    assert s[14..16] == r4[..2];
    assert s[17..] == r5;
    assert s[17..19] == r5[..2];
  }

  /**
   * `strftime('%Y-%m-%dT%H:%M:%SZ')`: the local date and time with a literal `Z`;
   * the fraction is dropped and the offset is neither shown nor applied.  Read
   * back with the same field grammar it gives the date and time it was made from.
   */
  function FormatZulu(dt: DateTime): (r: string)
    requires ValidDateTime(dt)
    ensures |r| == 20
    ensures ScanDateTime(r) == Success(Scanned(dt.date, dt.time, "Z"))
  {
    ScanRendered(dt.date, dt.time, "Z");
    RenderDateTime(dt.date, dt.time, "Z")
  }

  /** What `FormatZulu` writes has the `%Y-%m-%dT%H:%M:%SZ` layout: zero-padded digits, an upper-case `T`. */
  lemma FormatZuluLayout(dt: DateTime)
    requires ValidDateTime(dt)
    ensures ZuluLayout(FormatZulu(dt))
  {
    var d, t := dt.date, dt.time;
    PadDigits(d.year, 4);
    PadDigits(d.month, 2);
    PadDigits(d.day, 2);
    PadDigits(t.hour, 2);
    PadDigits(t.minute, 2);
    PadDigits(t.second, 2);
    JoinedFieldsLayout(Pad(d.year, 4), Pad(d.month, 2), Pad(d.day, 2), Pad(t.hour, 2), Pad(t.minute, 2), Pad(t.second, 2));
  }

  // ---------------------------------------------------------------- round trips

  lemma NumberOfPad(v: nat, w: nat, rest: string, minWidth: nat, maxWidth: nat)
    requires v < Pow10(w) && minWidth <= w <= maxWidth
    requires rest == [] || !IsDigit(rest[0])
    ensures Number(Pad(v, w) + rest, minWidth, maxWidth) == Success(Scan(v, w, rest))
  {
    var s := Pad(v, w) + rest;
    PadValue(v, w);
    DigitRunOfDigits(Pad(v, w), rest);
    assert s[..w] == Pad(v, w);
    assert s[w..] == rest;
  }

  lemma FixedDigitsOfPad(v: nat, w: nat, rest: string)
    requires v < Pow10(w)
    ensures FixedDigits(Pad(v, w) + rest, w) == Success(Scan(v, w, rest))
  {
    var s := Pad(v, w) + rest;
    assert s[..w] == Pad(v, w);
    assert s[w..] == rest;
    PadValue(v, w);
  }

  lemma Pow10Values()
    ensures Pow10(2) == 100 && Pow10(4) == 10000 && Pow10(6) == 1000000
  {
    assert Pow10(1) == 10 && Pow10(3) == 1000 && Pow10(5) == 100000;
  }

  lemma ScanRenderedDay(day: nat, tail: string)
    requires 1 <= day <= 31
    requires tail == [] || !IsDigit(tail[0])
    ensures DayNumber(Pad(day, 2) + tail) == Success(Scan(day, 2, tail))
  {
    Pow10Values();
    NumberOfPad(day, 2, tail, 1, 2);
    PadDigits(day, 2);
    assert (Pad(day, 2) + tail)[0] != ' ';
  }

  lemma ScanRenderedDate(d: Date, tail: string)
    requires ValidDate(d)
    requires tail == [] || !IsDigit(tail[0])
    ensures ScanDate(Pad(d.year, 4) + ("-" + (Pad(d.month, 2) + ("-" + (Pad(d.day, 2) + tail)))))
         == Success(Fields(d.year, d.month, d.day, tail))
  {
    Pow10Values();
    var r2 := Pad(d.day, 2) + tail;
    var r1 := Pad(d.month, 2) + ("-" + r2);
    NumberOfPad(d.year, 4, "-" + r1, 4, 4);
    assert Literal("-" + r1, '-') == Success(r1);
    NumberOfPad(d.month, 2, "-" + r2, 1, 2);
    assert Literal("-" + r2, '-') == Success(r2);
    ScanRenderedDay(d.day, tail);
  }

  lemma ScanRenderedTime(t: TimeOfDay, tail: string)
    requires ValidTime(t)
    requires tail == [] || !IsDigit(tail[0])
    ensures ScanTime(Pad(t.hour, 2) + (":" + (Pad(t.minute, 2) + (":" + (Pad(t.second, 2) + tail)))))
         == Success(Fields(t.hour, t.minute, t.second, tail))
  {
    Pow10Values();
    var r2 := Pad(t.second, 2) + tail;
    var r1 := Pad(t.minute, 2) + (":" + r2);
    NumberOfPad(t.hour, 2, ":" + r1, 1, 2);
    NumberOfPad(t.minute, 2, ":" + r2, 1, 2);
    NumberOfPad(t.second, 2, tail, 1, 2);
  }

  /** What `RenderDateTime` writes, `ScanDateTime` reads back, leaving the tail. */
  lemma ScanRendered(d: Date, t: TimeOfDay, tail: string)
    requires ValidDate(d) && ValidTime(t)
    requires tail == [] || !IsDigit(tail[0])
    ensures ScanDateTime(RenderDateTime(d, t, tail)) == Success(Scanned(d, t, tail))
  {
    var timeText := Pad(t.hour, 2) + (":" + (Pad(t.minute, 2) + (":" + (Pad(t.second, 2) + tail))));
    var s := RenderDateTime(d, t, tail);
    ScanRenderedTime(t, tail);
    ScanRenderedDate(d, "T" + timeText);
    assert ScanDate(s) == Success(Fields(d.year, d.month, d.day, "T" + timeText));
    assert Separator("T" + timeText) == Success(timeText);
  }

  /** The fields `%z` shows for an offset add back up to that offset. */
  lemma OffsetFields(offset: int, hh: int, mm: int, ss: int, micros: int)
    requires ValidOffset(offset)
    requires var magnitude := if offset < 0 then -offset else offset;
      && hh == magnitude / 1_000_000 / 3600 && mm == magnitude / 1_000_000 % 3600 / 60
      && ss == magnitude / 1_000_000 % 60 && micros == magnitude % 1_000_000
    ensures 0 <= hh < 24 && 0 <= mm < 60 && 0 <= ss < 60 && 0 <= micros < MicrosPerSecond
    ensures OffsetValue(offset < 0, hh, mm, ss, micros) == Success(offset)
  {
    var magnitude := if offset < 0 then -offset else offset;
    var seconds := magnitude / 1_000_000;
    assert magnitude == 1_000_000 * seconds + micros;
    assert seconds < 86400;
    var r := seconds % 3600;
    assert seconds == 3600 * hh + r;
    assert r == 60 * mm + r % 60;
    assert r % 60 == ss;
    assert ((hh * 60 + mm) * 60 + ss) * 1_000_000 + micros == magnitude;
  }

  /** Two padded digits of a value below 60 start with a digit up to 5 and read back as the value. */
  lemma PaddedSeconds(ss: nat)
    requires ss < 60
    ensures var sp := Pad(ss, 2);
      && IsDigit(sp[0]) && IsDigit(sp[1]) && '0' <= sp[0] <= '5'
      && 10 * DigitValue(sp[0]) + DigitValue(sp[1]) == ss
  {
    Pow10Values();
    var sp := Pad(ss, 2);
    PadValue(ss, 2);
    assert sp[..1][..0] == [];
    assert NumeralValue(sp) == 10 * DigitValue(sp[0]) + DigitValue(sp[1]);
  }

  /** Six padded digits after a dot read back greedily as the microseconds. */
  lemma PaddedFraction(micros: nat)
    requires micros < MicrosPerSecond
    ensures IsDigit(Pad(micros, 6)[0]) && GreedyFraction(Pad(micros, 6)) == Scan(micros, 6, [])
  {
    Pow10Values();
    var digits := Pad(micros, 6);
    PadValue(micros, 6);
    assert digits == digits + [];
    DigitRunOfDigits(digits, []);
    assert digits[..6] == digits;
  }

  /** The seconds part `%z` writes, with or without a fraction, reads back. */
  lemma ScanRenderedOffsetSeconds(ss: nat, micros: nat)
    requires ss < 60 && micros < MicrosPerSecond
    ensures ScanOffsetSeconds(Pad(ss, 2) + (if micros == 0 then "" else "." + Pad(micros, 6)))
         == Some(OffsetSeconds(false, ss, micros, []))
  {
    var sp := Pad(ss, 2);
    var tail := sp + (if micros == 0 then "" else "." + Pad(micros, 6));
    PaddedSeconds(ss);
    assert tail[0] == sp[0] && tail[1] == sp[1];
    if micros != 0 {
      var u := "." + Pad(micros, 6);
      assert tail[2..] == u;
      assert u[1..] == Pad(micros, 6);
      PaddedFraction(micros);
    } else {
      assert tail[2..] == [];
    }
  }

  /** `ParseOffset` on a sign, two hour digits, two minute digits and a colon-free seconds part. */
  lemma ParseOffsetOfParts(sign: string, hh: nat, mm: nat, tail: string, ss: nat, fraction: nat)
    requires sign == "+" || sign == "-"
    requires hh < 100 && mm < 60
    requires if tail == [] then ss == 0 && fraction == 0
             else ScanOffsetSeconds(tail) == Some(OffsetSeconds(false, ss, fraction, []))
    ensures ParseOffset(sign + (Pad(hh, 2) + (Pad(mm, 2) + tail))) == OffsetValue(sign == "-", hh, mm, ss, fraction)
  {
    Pow10Values();
    var z := sign + (Pad(hh, 2) + (Pad(mm, 2) + tail));
    assert z[1..] == Pad(hh, 2) + (Pad(mm, 2) + tail);
    FixedDigitsOfPad(hh, 2, Pad(mm, 2) + tail);
    FixedDigitsOfPad(mm, 2, tail);
    assert (Pad(mm, 2) + tail)[0] != ':';
    if tail == [] {
      assert ScanOffsetSeconds(tail) == None;
    }
  }

  /** `ParseOffset` accepts an offset with a colon between hours and minutes, `+HH:MM`, as well. */
  lemma ParseColonOffset(sign: string, hh: nat, mm: nat)
    requires sign == "+" || sign == "-"
    requires hh < 100 && mm < 60
    ensures ParseOffset(sign + (Pad(hh, 2) + (":" + Pad(mm, 2)))) == OffsetValue(sign == "-", hh, mm, 0, 0)
  {
    Pow10Values();
    var z := sign + (Pad(hh, 2) + (":" + Pad(mm, 2)));
    assert z[1..] == Pad(hh, 2) + (":" + Pad(mm, 2));
    FixedDigitsOfPad(hh, 2, ":" + Pad(mm, 2));
    assert (":" + Pad(mm, 2))[1..] == Pad(mm, 2) + [];
    FixedDigitsOfPad(mm, 2, []);
    assert ScanOffsetSeconds([]) == None;
  }

  /** What `RenderOffset` writes, `ParseOffset` reads back. */
  lemma ParseRenderedOffset(offset: int)
    requires ValidOffset(offset)
    ensures ParseOffset(RenderOffset(offset)) == Success(offset)
  {
    var magnitude := if offset < 0 then -offset else offset;
    var seconds := magnitude / 1_000_000;
    var micros := magnitude % 1_000_000;
    var hh, mm, ss := seconds / 3600, seconds % 3600 / 60, seconds % 60;
    OffsetFields(offset, hh, mm, ss, micros);
    var sign := if offset < 0 then "-" else "+";
    var tail := if ss == 0 && micros == 0 then ""
                else Pad(ss, 2) + (if micros == 0 then "" else "." + Pad(micros, 6));
    assert RenderOffset(offset) == sign + (Pad(hh, 2) + (Pad(mm, 2) + tail));
    if ss == 0 && micros == 0 {
      ParseOffsetOfParts(sign, hh, mm, "", 0, 0);
    } else {
      ScanRenderedOffsetSeconds(ss, micros);
      ParseOffsetOfParts(sign, hh, mm, tail, ss, micros);
    }
  }

  /** Reading a bookmark written in its own format gives back the same datetime. */
  lemma ParseRenderedBookmark(dt: DateTime)
    requires ValidDateTime(dt)
    ensures ParseBookmark(RenderBookmark(dt)) == Success(dt)
  {
    Pow10Values();
    var tail := "." + (Pad(dt.microsecond, 6) + RenderOffset(dt.offset));
    ScanRendered(dt.date, dt.time, tail);
    var z := RenderOffset(dt.offset);
    assert z[0] == '+' || z[0] == '-';
    NumberOfPad(dt.microsecond, 6, z, 1, 6);
    assert ScanFraction(tail) == Success(Scan(dt.microsecond, 6, z));
    ParseRenderedOffset(dt.offset);
  }

  /**
   * A bookmark whose fraction has any width from one to six digits (Salesforce
   * writes three, milliseconds) reads back with the fraction scaled to
   * microseconds and the offset it was written with.
   */
  lemma ParseShortFractionBookmark(d: Date, t: TimeOfDay, w: nat, f: nat, offset: int)
    requires ValidDate(d) && ValidTime(t) && ValidOffset(offset)
    requires 1 <= w <= 6 && f < Pow10(w)
    ensures ParseBookmark(RenderDateTime(d, t, "." + (Pad(f, w) + RenderOffset(offset))))
         == Success(DateTime(d, t, f * Pow10(6 - w), offset))
  {
    var z := RenderOffset(offset);
    var tail := "." + (Pad(f, w) + z);
    ScanRendered(d, t, tail);
    ScanRenderedFraction(w, f, z);
    ParseRenderedOffset(offset);
  }

  /** A dot and one to six padded digits scan as that fraction in microseconds. */
  lemma ScanRenderedFraction(w: nat, f: nat, rest: string)
    requires 1 <= w <= 6 && f < Pow10(w)
    requires rest == [] || !IsDigit(rest[0])
    ensures ScanFraction("." + (Pad(f, w) + rest)) == Success(Scan(f * Pow10(6 - w), w, rest))
  {
    NumberOfPad(f, w, rest, 1, 6);
    FractionBound(f, w);
  }

  // ---------------------------------------------------------------- two weeks back

  /**
   * `dt - timedelta(weeks=2)`: the date moves back 14 days while the time of day,
   * the microseconds and the UTC offset stay as they are; before 0001-01-01 the
   * subtraction fails with OverflowError.
   */
  function TwoWeeksBefore(dt: DateTime): (r: Result<DateTime, TimeError>)
    requires ValidDateTime(dt)
    ensures r.Failure? <==> Ordinal(dt.date) <= LookbackDays
    ensures r.Failure? ==> r.error == OutOfRange
    ensures r.Success? ==> ValidDateTime(r.value)
    ensures r.Success? ==> Ordinal(r.value.date) == Ordinal(dt.date) - LookbackDays
    ensures r.Success? ==> r.value.time == dt.time && r.value.microsecond == dt.microsecond && r.value.offset == dt.offset
  {
    match TwoWeeksEarlier(dt.date)
    case Some(d) => Success(dt.(date := d))
    case None => Failure(OutOfRange)
  }
}

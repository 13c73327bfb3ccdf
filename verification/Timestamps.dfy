/** Printing and parsing timestamps in the date-time form of section 5.6 of RFC 3339. */
module Timestamps {
  import opened Types
  import opened CivilDates

  const NANOS_PER_SECOND := 1_000_000_000
  const NANOS_PER_MINUTE := 60_000_000_000
  const NANOS_PER_HOUR := 3_600_000_000_000
  const NANOS_PER_DAY := 86_400_000_000_000

  /** The UTC day that holds the instant; negative instants round down. */
  function DayOfInstant(t: Timestamp): int {
    t / NANOS_PER_DAY
  }

  function UtcDateFloor(t: Timestamp): Timestamp {
    DayOfInstant(t) * NANOS_PER_DAY
  }

  /** The instants whose day start fits the 64-bit clock. */
  predicate Representable(t: Timestamp) {
    INT64_MIN <= UtcDateFloor(t) && t <= INT64_MAX
  }

  // ---------------------------------------------------------------------------
  // Digits
  // ---------------------------------------------------------------------------

  predicate IsDigit(c: char) {
    '0' <= c <= '9'
  }

  function DigitValue(c: char): (d: nat)
    requires IsDigit(c)
    ensures d < 10
  {
    (c - '0') as int
  }

  function DigitChar(d: nat): (c: char)
    requires d < 10
    ensures IsDigit(c) && DigitValue(c) == d
  {
    '0' + d as char
  }

  /** Zero-padded decimal of a fixed width. */
  function Padded(n: nat, width: nat): (s: string)
    ensures |s| == width && forall i :: 0 <= i < width ==> IsDigit(s[i])
  {
    if width == 0 then "" else Padded(n / 10, width - 1) + [DigitChar(n % 10)]
  }

  function Value(s: string): nat
    requires forall i :: 0 <= i < |s| ==> IsDigit(s[i])
  {
    if s == "" then 0 else 10 * Value(s[..|s| - 1]) + DigitValue(s[|s| - 1])
  }

  function Pow10(k: nat): nat {
    if k == 0 then 1 else 10 * Pow10(k - 1)
  }

  lemma {:induction false} PaddedValue(n: nat, width: nat)
    requires n < Pow10(width)
    ensures Value(Padded(n, width)) == n
  {
    if width > 0 {
      PaddedValue(n / 10, width - 1);
      assert Padded(n, width)[..width - 1] == Padded(n / 10, width - 1);
    }
  }

  // ---------------------------------------------------------------------------
  // Printing
  // ---------------------------------------------------------------------------

  /** Printing with a four-digit year; wider or negative years do not occur for representable instants. */
  function DateText(d: Date): string
    requires ValidDate(d) && 0 <= d.year <= 9999
  {
    Padded(d.year, 4) + "-" + Padded(d.month, 2) + "-" + Padded(d.day, 2)
  }

  function ClockText(h: nat, m: nat, s: nat): (text: string)
    ensures |text| == 8
  {
    Padded(h, 2) + ":" + Padded(m, 2) + ":" + Padded(s, 2)
  }

  function TimeText(h: nat, m: nat, s: nat, ns: nat): string {
    ClockText(h, m, s) + "." + Padded(ns, 9)
  }

  lemma RepresentableYears(t: Timestamp)
    requires Representable(t)
    ensures 1677 <= DateOf(DayOfInstant(t)).year <= 2262
  {
    var d := DateOf(DayOfInstant(t));
    assert -106752 <= DayOfInstant(t) <= 106751;
    assert DaysBeforeYear(1677) == -107015 && DaysBeforeYear(2263) == 107016;
    hide DaysBeforeYear, DayOf, DayNumber;
    WithinYear(d);
    if d.year < 1677 {
      YearsAscend(d.year + 1, 1677);
    }
    if d.year > 2262 {
      YearsAscend(2263, d.year);
    }
  }

  /** The fields of a duration since midnight, each of what the larger ones leave. */
  function HourOf(x: int): int {
    x / NANOS_PER_HOUR
  }

  function MinuteOf(x: int): int {
    (x - HourOf(x) * NANOS_PER_HOUR) / NANOS_PER_MINUTE
  }

  function SecondOf(x: int): int {
    (x - HourOf(x) * NANOS_PER_HOUR - MinuteOf(x) * NANOS_PER_MINUTE) / NANOS_PER_SECOND
  }

  function NanosOf(x: int): int {
    x - HourOf(x) * NANOS_PER_HOUR - MinuteOf(x) * NANOS_PER_MINUTE - SecondOf(x) * NANOS_PER_SECOND
  }

  /** Every instant's fields are within their ranges. */
  lemma FieldsOfDay(t: Timestamp)
    ensures var x := t - UtcDateFloor(t);
            && 0 <= x < NANOS_PER_DAY && 0 <= HourOf(x) < 24 && 0 <= MinuteOf(x) < 60 && 0 <= SecondOf(x) < 60
            && 0 <= NanosOf(x) < NANOS_PER_SECOND
  {
  }

  function ToIso8601(t: Timestamp): string
    requires Representable(t)
  {
    RepresentableYears(t);
    var date := DateOf(DayOfInstant(t));
    var x := t - UtcDateFloor(t);
    FieldsOfDay(t);
    DateText(date) + "T" + TimeText(HourOf(x), MinuteOf(x), SecondOf(x), NanosOf(x)) + "Z"
  }

  function ToDateString(t: Timestamp): string
    requires Representable(t)
  {
    RepresentableYears(t);
    DateText(DateOf(DayOfInstant(t)))
  }

  // ---------------------------------------------------------------------------
  // Parsing
  // ---------------------------------------------------------------------------

  predicate AllDigits(s: string) {
    forall i :: 0 <= i < |s| ==> IsDigit(s[i])
  }

  /** A fixed-width integer that must use every character; a leading minus sign is accepted. */
  function ParseInt(text: string, pos: nat, len: nat): Option<int> {
    if pos + len > |text| then None
    else
      var s := text[pos..pos + len];
      if s != "" && AllDigits(s) then Some(Value(s))
      else if |s| > 1 && s[0] == '-' && AllDigits(s[1..]) then Some(0 - Value(s[1..]) as int)
      else None
  }

  datatype Scan = Scan(at: nat, digits: nat, value: nat)

  /** Reads up to nine fraction digits. */
  function ScanFraction(text: string, s: Scan): (r: Scan)
    requires s.at <= |text| && s.digits <= 9
    ensures s.at <= r.at <= |text| && s.digits <= r.digits <= 9
    decreases 9 - s.digits
  {
    if s.digits < 9 && s.at < |text| && IsDigit(text[s.at])
    then ScanFraction(text, Scan(s.at + 1, s.digits + 1, s.value * 10 + DigitValue(text[s.at])))
    else s
  }

  function SkipDigits(text: string, i: nat): (j: nat)
    requires i <= |text|
    ensures i <= j <= |text|
    decreases |text| - i
  {
    if i < |text| && IsDigit(text[i]) then SkipDigits(text, i + 1) else i
  }

  /** The part of a second after the point, in nanoseconds; more than nine digits are ignored. */
  function ParseFraction(text: string): Option<nat>
    requires |text| >= 20
  {
    var scan := ScanFraction(text, Scan(20, 0, 0));
    if scan.digits == 0 then None
    else
      var i := SkipDigits(text, scan.at);
      if i < |text| && text[i] != 'Z' then None else Some(scan.value * Pow10(9 - scan.digits))
  }

  function ParseTimePart(text: string): Option<int>
    requires |text| > 10
  {
    if (text[10] != 'T' && text[10] != ' ') || |text| < 19 || text[13] != ':' || text[16] != ':' then None
    else
      var h, m, s := ParseInt(text, 11, 2), ParseInt(text, 14, 2), ParseInt(text, 17, 2);
      if h.None? || m.None? || s.None? || h.value > 23 || m.value > 59 || s.value > 59 then None
      else
        var whole := h.value * NANOS_PER_HOUR + m.value * NANOS_PER_MINUTE + s.value * NANOS_PER_SECOND;
        if |text| > 19 && text[19] == '.' then
          match ParseFraction(text)
          case None => None
          case Some(ns) => Some(whole + ns)
        else if |text| > 19 && text[19] != 'Z' then None
        else Some(whole)
  }

  function ParseDatePart(text: string): Option<Date>
    requires |text| >= 10
  {
    if text[4] != '-' || text[7] != '-' then None
    else
      var y, m, d := ParseInt(text, 0, 4), ParseInt(text, 5, 2), ParseInt(text, 8, 2);
      if y.None? || m.None? || d.None? then None
      else
        var date := Date(y.value, m.value, d.value);
        if ValidDate(date) then Some(date) else None
  }

  function Parsed(text: string): Option<Timestamp> {
    if |text| < 10 then None
    else
      match ParseDatePart(text)
      case None => None
      case Some(date) =>
        var midnight := DayOf(date) * NANOS_PER_DAY;
        if |text| == 10 then Some(midnight)
        else
          match ParseTimePart(text)
          case None => None
          case Some(ns) => Some(midnight + ns)
  }

  /** Walks a cursor over the text and accumulates the fraction digit by digit. */
  method ParseTimestamp(text: string) returns (r: Option<Timestamp>)
    ensures r == Parsed(text)
  {
    if |text| < 10 { return None; }
    var date := ParseDatePart(text);
    if date.None? { return None; }
    var point := DayOf(date.value) * NANOS_PER_DAY;
    var ns := 0;
    if |text| > 10 {
      if text[10] != 'T' && text[10] != ' ' { return None; }
      if |text| < 19 { return None; }
      if text[13] != ':' || text[16] != ':' { return None; }
      var hh, mm, ss := ParseInt(text, 11, 2), ParseInt(text, 14, 2), ParseInt(text, 17, 2);
      if hh.None? || mm.None? || ss.None? { return None; }
      if hh.value > 23 || mm.value > 59 || ss.value > 59 { return None; }
      ns := hh.value * NANOS_PER_HOUR + mm.value * NANOS_PER_MINUTE + ss.value * NANOS_PER_SECOND;
      if |text| > 19 && text[19] == '.' {
        var fraction := ReadFraction(text);
        if fraction.None? { return None; }
        ns := ns + fraction.value;
      } else if |text| > 19 && text[19] != 'Z' {
        return None;
      }
    }
    return Some(point + ns);
  }

  method ReadFraction(text: string) returns (r: Option<nat>)
    requires |text| >= 20
    ensures r == ParseFraction(text)
  {
    var i: nat, frac: nat, digits: nat := 20, 0, 0;
    while i < |text| && IsDigit(text[i]) && digits < 9
      invariant 20 <= i <= |text| && digits <= 9
      invariant ScanFraction(text, Scan(20, 0, 0)) == ScanFraction(text, Scan(i, digits, frac))
    {
      frac := frac * 10 + DigitValue(text[i]);
      i := i + 1;
      digits := digits + 1;
    }
    if digits == 0 { return None; }
    ghost var read: nat, stop: nat := frac, i;
    var k: nat := digits;
    while k < 9
      invariant digits <= k <= 9 && frac * Pow10(9 - k) == read * Pow10(9 - digits)
    {
      Tenfold(frac, 9 - k);
      frac := frac * 10;
      k := k + 1;
    }
    assert frac * Pow10(0) == frac;
    while i < |text| && IsDigit(text[i])
      invariant stop <= i <= |text| && SkipDigits(text, stop) == SkipDigits(text, i)
    {
      i := i + 1;
    }
    if i < |text| && text[i] != 'Z' { return None; }
    return Some(frac);
  }

  lemma Tenfold(x: nat, k: nat)
    requires k > 0
    ensures x * Pow10(k) == x * 10 * Pow10(k - 1)
  {
  }

  /** A bare date is exactly ten characters. */
  function ParseDate(text: string): Option<Timestamp> {
    if |text| != 10 then None else Parsed(text)
  }

  // ---------------------------------------------------------------------------
  // Round trips
  // ---------------------------------------------------------------------------

  lemma ParsePadded(text: string, pos: nat, n: nat, width: nat)
    requires width > 0 && pos + width <= |text| && text[pos..pos + width] == Padded(n, width) && n < Pow10(width)
    ensures ParseInt(text, pos, width) == Some(n)
  {
    PaddedValue(n, width);
  }

  lemma Tens()
    ensures Pow10(2) == 100 && Pow10(4) == 10000 && Pow10(9) == 1000000000
  {
  }

  lemma DateTextParses(d: Date, rest: string)
    requires ValidDate(d) && 0 <= d.year <= 9999
    ensures |DateText(d) + rest| == 10 + |rest| && ParseDatePart(DateText(d) + rest) == Some(d)
  {
    var text := DateText(d) + rest;
    var y, m, dd := Padded(d.year, 4), Padded(d.month, 2), Padded(d.day, 2);
    assert text == y + "-" + m + "-" + dd + rest;
    hide Padded;
    assert text[0..4] == y && text[5..7] == m && text[8..10] == dd;
    assert text[4] == '-' && text[7] == '-';
    Tens();
    ParsePadded(text, 0, d.year, 4);
    ParsePadded(text, 5, d.month, 2);
    ParsePadded(text, 8, d.day, 2);
    hide ParseInt, Pow10;
  }

  /** The nanoseconds that the digits after the point stand for: the first nine count, missing ones are zeros. */
  function Fraction(digits: string): nat
    requires AllDigits(digits)
  {
    if |digits| <= 9 then Value(digits) * Pow10(9 - |digits|) else Value(digits[..9])
  }

  /** Scanning a run of digits reads the value of its first nine. */
  lemma {:induction false} ScanReads(text: string, digits: string, k: nat)
    requires AllDigits(digits) && |text| >= 20 + |digits| && text[20..20 + |digits|] == digits
    requires |text| == 20 + |digits| || !IsDigit(text[20 + |digits|])
    requires k <= 9 && k <= |digits|
    ensures var n := if |digits| < 9 then |digits| else 9;
            ScanFraction(text, Scan(20 + k, k, Value(digits[..k]))) == Scan(20 + n, n, Value(digits[..n]))
    decreases 9 - k
  {
    if k < 9 && k < |digits| {
      assert text[20 + k] == text[20..20 + |digits|][k] == digits[k];
      assert digits[..k + 1][..k] == digits[..k];
      ScanReads(text, digits, k + 1);
    }
  }

  lemma {:induction false} SkipsTo(text: string, i: nat, end: nat)
    requires i <= end <= |text| && AllDigits(text[i..end]) && (end == |text| || !IsDigit(text[end]))
    ensures SkipDigits(text, i) == end
    decreases end - i
  {
    if i < end {
      assert IsDigit(text[i..end][0]);
      assert text[i + 1..end] == text[i..end][1..];
      SkipsTo(text, i + 1, end);
    }
  }

  lemma FractionParses(text: string, digits: string, rest: string)
    requires |text| >= 20 && text[20..] == digits + rest && AllDigits(digits) && (rest == "" || !IsDigit(rest[0]))
    ensures ParseFraction(text)
            == if digits == "" || (rest != "" && rest[0] != 'Z') then None else Some(Fraction(digits))
  {
    hide ScanFraction, SkipDigits, Value, Pow10;
    var end, n := 20 + |digits|, if |digits| < 9 then |digits| else 9;
    Cut(text, 20, digits, rest);
    assert rest != "" ==> text[end] == text[end..][0];
    assert digits[..0] == "";
    NothingRead();
    ScanReads(text, digits, 0);
    assert text[20 + n..end] == digits[n..];
    SkipsTo(text, 20 + n, end);
    assert |digits| <= 9 ==> digits[..|digits|] == digits;
  }

  lemma NothingRead()
    ensures Value("") == 0 && Pow10(0) == 1
  {
  }

  lemma Cut(text: string, pos: nat, s: string, rest: string)
    requires pos <= |text| && text[pos..] == s + rest
    ensures pos + |s| <= |text| && text[pos..pos + |s|] == s && text[pos + |s|..] == rest
  {
    assert (s + rest)[..|s|] == s && (s + rest)[|s|..] == rest;
  }

  lemma ClockLayout(text: string, a: string, b: string, c: string, tail: string)
    requires |text| >= 11 && |a| == 2 && |b| == 2 && |c| == 2
    requires text[11..] == a + ":" + b + ":" + c + tail
    ensures |text| >= 19 && text[11..13] == a && text[13] == ':' && text[14..16] == b && text[16] == ':'
    ensures text[17..19] == c && text[19..] == tail
  {
    hide *;
    assert a + ":" + b + ":" + c + tail == a + (":" + (b + (":" + (c + tail))));
    Cut(text, 11, a, ":" + (b + (":" + (c + tail))));
    Cut(text, 13, ":", b + (":" + (c + tail)));
    Cut(text, 14, b, ":" + (c + tail));
    Cut(text, 16, ":", c + tail);
    Cut(text, 17, c, tail);
    assert text[13..14][0] == text[13] && text[16..17][0] == text[16];
  }

  /** The time part up to the seconds; what follows them decides the rest. */
  lemma ClockParses(text: string, sep: char, h: nat, m: nat, s: nat, tail: string)
    requires |text| >= 11 && text[10] == sep && text[11..] == ClockText(h, m, s) + tail
    requires h < 24 && m < 60 && s < 60
    ensures tail != "" ==> |text| >= 20 && text[20..] == tail[1..]
    ensures var whole := h * NANOS_PER_HOUR + m * NANOS_PER_MINUTE + s * NANOS_PER_SECOND;
            ParseTimePart(text)
            == if sep != 'T' && sep != ' ' then None
               else if tail == "" || tail[0] == 'Z' then Some(whole)
               else if tail[0] != '.' || ParseFraction(text).None? then None
               else Some(whole + ParseFraction(text).value)
  {
    hide Padded, ParseFraction;
    ClockLayout(text, Padded(h, 2), Padded(m, 2), Padded(s, 2), tail);
    Tens();
    ParsePadded(text, 11, h, 2);
    ParsePadded(text, 14, m, 2);
    ParsePadded(text, 17, s, 2);
    hide ParseInt, Pow10;
    assert tail != "" ==> text[19] == text[19..][0] && text[20..] == text[19..][1..];
  }

  /** Parsing undoes printing, for every instant whose day start is representable: before the epoch and in leap
      years alike, to the nanosecond. */
  lemma ParseAfterPrint(t: Timestamp)
    requires Representable(t)
    ensures Parsed(ToIso8601(t)) == Some(t)
  {
    hide HourOf, MinuteOf, SecondOf, NanosOf, UtcDateFloor, DayOfInstant, DateOf, DayOf, Representable, DateText,
         TimeText, Parsed;
    RepresentableYears(t);
    FieldsOfDay(t);
    DayStart(t);
    var date, x := DateOf(DayOfInstant(t)), t - UtcDateFloor(t);
    FieldsAddUp(x);
    TextParses(date, HourOf(x), MinuteOf(x), SecondOf(x), NanosOf(x));
  }

  lemma DayStart(t: Timestamp)
    ensures DayOf(DateOf(DayOfInstant(t))) * NANOS_PER_DAY == UtcDateFloor(t)
  {
  }

  lemma FieldsAddUp(x: int)
    ensures HourOf(x) * NANOS_PER_HOUR + MinuteOf(x) * NANOS_PER_MINUTE + SecondOf(x) * NANOS_PER_SECOND
            + NanosOf(x) == x
  {
  }

  /** A date and a time in whole seconds, under either separator: what follows must be nothing at all or begin with the
      letter Z, unless it is a fraction. */
  lemma WholeSecondsParse(date: Date, sep: char, h: nat, m: nat, s: nat, tail: string)
    requires ValidDate(date) && 0 <= date.year <= 9999 && h < 24 && m < 60 && s < 60
    requires tail == "" || tail[0] != '.'
    ensures Parsed(DateText(date) + [sep] + ClockText(h, m, s) + tail)
            == if (sep == 'T' || sep == ' ') && (tail == "" || tail[0] == 'Z') then
                 Some(DayOf(date) * NANOS_PER_DAY
                      + (h * NANOS_PER_HOUR + m * NANOS_PER_MINUTE + s * NANOS_PER_SECOND))
               else None
  {
    hide ClockText, DateText, DayOf, ParseTimePart, ParseDatePart, ParseFraction;
    DateAndTime(date, sep, h, m, s, tail);
    ClockParses(DateText(date) + [sep] + ClockText(h, m, s) + tail, sep, h, m, s, tail);
  }

  /** The same with a fraction of any width: it needs a digit, counts to the ninth one, and may be followed by nothing
      or by the letter Z. */
  lemma FractionsParse(date: Date, sep: char, h: nat, m: nat, s: nat, digits: string, rest: string)
    requires ValidDate(date) && 0 <= date.year <= 9999 && h < 24 && m < 60 && s < 60
    requires AllDigits(digits) && (rest == "" || !IsDigit(rest[0]))
    ensures Parsed(DateText(date) + [sep] + ClockText(h, m, s) + ("." + digits + rest))
            == if (sep == 'T' || sep == ' ') && digits != "" && (rest == "" || rest[0] == 'Z') then
                 Some(DayOf(date) * NANOS_PER_DAY
                      + (h * NANOS_PER_HOUR + m * NANOS_PER_MINUTE + s * NANOS_PER_SECOND + Fraction(digits)))
               else None
  {
    hide ClockText, DateText, DayOf, ParseTimePart, ParseDatePart, ParseFraction, Fraction;
    var tail := "." + digits + rest;
    var text := DateText(date) + [sep] + ClockText(h, m, s) + tail;
    DateAndTime(date, sep, h, m, s, tail);
    ClockParses(text, sep, h, m, s, tail);
    assert tail[1..] == digits + rest;
    FractionParses(text, digits, rest);
  }

  lemma DateAndTime(date: Date, sep: char, h: nat, m: nat, s: nat, tail: string)
    requires ValidDate(date) && 0 <= date.year <= 9999
    ensures var text := DateText(date) + [sep] + ClockText(h, m, s) + tail;
            && |text| >= 19 && ParseDatePart(text) == Some(date)
            && text[10] == sep && text[11..] == ClockText(h, m, s) + tail
  {
    var text, rest := DateText(date) + [sep] + ClockText(h, m, s) + tail, [sep] + (ClockText(h, m, s) + tail);
    assert text == DateText(date) + rest;
    DateTextParses(date, rest);
    DateIsTen(date);
    hide DateText, ClockText, ParseDatePart;
    assert text[10] == rest[0] && text[11..] == rest[1..];
  }

  /** A printed date and time of day parse to their instant. */
  lemma TextParses(date: Date, h: nat, m: nat, s: nat, ns: nat)
    requires ValidDate(date) && 0 <= date.year <= 9999
    requires h < 24 && m < 60 && s < 60 && ns < 1000000000
    ensures Parsed(DateText(date) + "T" + TimeText(h, m, s, ns) + "Z")
            == Some(DayOf(date) * NANOS_PER_DAY
                    + (h * NANOS_PER_HOUR + m * NANOS_PER_MINUTE + s * NANOS_PER_SECOND + ns))
  {
    hide DateText, ClockText, DayOf, Parsed, Padded;
    var digits := Padded(ns, 9);
    Tens();
    PaddedValue(ns, 9);
    NothingRead();
    hide Value, Pow10;
    FractionsParse(date, 'T', h, m, s, digits, "Z");
    assert DateText(date) + "T" + TimeText(h, m, s, ns) + "Z"
        == DateText(date) + ['T'] + ClockText(h, m, s) + ("." + digits + "Z");
  }

  lemma DateIsTen(d: Date)
    requires ValidDate(d) && 0 <= d.year <= 9999
    ensures |DateText(d)| == 10
  {
  }

  /** A printed date parses to the start of its day. */
  lemma ParseDateAfterPrint(t: Timestamp)
    requires Representable(t)
    ensures ParseDate(ToDateString(t)) == Some(UtcDateFloor(t))
  {
    RepresentableYears(t);
    var date := DateOf(DayOfInstant(t));
    DateTextParses(date, "");
    assert DateText(date) + "" == DateText(date);
    hide ParseDatePart, DateText;
  }

  /** A printed instant is not a bare date. */
  lemma InstantIsNoDate(t: Timestamp)
    requires Representable(t)
    ensures ParseDate(ToIso8601(t)) == None
  {
    RepresentableYears(t);
    DateIsTen(DateOf(DayOfInstant(t)));
    hide DateText;
  }

  /** Two instants never print alike. */
  lemma PrintIsInjective(t: Timestamp, u: Timestamp)
    requires Representable(t) && Representable(u) && ToIso8601(t) == ToIso8601(u)
    ensures t == u
  {
    ParseAfterPrint(t);
    ParseAfterPrint(u);
    hide ToIso8601, Parsed;
  }

  /** A field of this text is read as this number. */
  predicate Reads(s: string, v: int) {
    ParseInt(s, 0, |s|) == Some(v)
  }

  lemma {:induction false} ValueIsBounded(s: string)
    requires AllDigits(s)
    ensures Value(s) < Pow10(|s|)
  {
    if s != "" {
      ValueIsBounded(s[..|s| - 1]);
    }
  }

  lemma {:induction false} PowersArePositive(k: nat)
    ensures Pow10(k) >= 1
  {
    if k > 0 { PowersArePositive(k - 1); }
  }

  /** A field of two or more characters can be read as exactly the numbers of that many digits and the negative ones of
      one digit less: hours from minus nine to 23, minutes and seconds from minus nine to 59, and years from minus 999
      to 9999 pass the parser's range checks. */
  lemma FieldReadsIff(len: nat, v: int)
    requires len >= 2
    ensures (exists s :: |s| == len && Reads(s, v)) <==> 0 - Pow10(len - 1) as int < v < Pow10(len)
  {
    if 0 - Pow10(len - 1) as int < v < Pow10(len) {
      var s := FieldOf(len, v);
    }
    forall s: string | |s| == len && Reads(s, v)
      ensures 0 - Pow10(len - 1) as int < v < Pow10(len)
    {
      ReadIsBounded(s, v);
    }
  }

  /** A text that is read as v. */
  lemma FieldOf(len: nat, v: int) returns (s: string)
    requires len >= 2 && 0 - Pow10(len - 1) as int < v < Pow10(len)
    ensures |s| == len && Reads(s, v)
  {
    hide Value, Pow10, Padded;
    if v >= 0 {
      s := Padded(v, len);
      PaddedValue(v, len);
      assert s[0..0 + len] == s;
    } else {
      var digits := Padded(-v, len - 1);
      PaddedValue(-v, len - 1);
      s := "-" + digits;
      assert s[0..0 + len] == s && s[1..] == digits && !IsDigit(s[0]);
    }
  }

  lemma ReadIsBounded(s: string, v: int)
    requires |s| >= 2 && Reads(s, v)
    ensures 0 - Pow10(|s| - 1) as int < v < Pow10(|s|)
  {
    hide Value, Pow10;
    assert s[0..0 + |s|] == s;
    PowersArePositive(|s|);
    PowersArePositive(|s| - 1);
    if AllDigits(s) {
      ValueIsBounded(s);
    } else {
      ValueIsBounded(s[1..]);
    }
  }

  /** The parser is laxer than the grammar: a negative hour is taken and counts back from midnight. */
  lemma NegativeHourExample()
    ensures Parsed("1970-01-02T-5:00:00Z") == Some(19 * NANOS_PER_HOUR)
  {
    hide ParseDatePart, ParseTimePart, DayOf, Value;
    var text := "1970-01-02T-5:00:00Z";
    Slices(text);
    ExampleDate(text);
    ExampleTime(text);
    SecondOfJanuary();
  }

  lemma SecondOfJanuary()
    ensures DayOf(Date(1970, 1, 2)) == 1
  {
  }

  lemma ExampleDate(text: string)
    requires |text| == 20 && text[0..4] == "1970" && text[4] == '-' && text[5..7] == "01" && text[7] == '-'
    requires text[8..10] == "02"
    ensures ParseDatePart(text) == Some(Date(1970, 1, 2))
  {
    Plain(text, 0, "1970");
    Plain(text, 5, "01");
    Plain(text, 8, "02");
    Values();
    hide ParseInt, Value;
  }

  lemma ExampleTime(text: string)
    requires |text| == 20 && text[10] == 'T' && text[11..13] == "-5" && text[13] == ':' && text[14..16] == "00"
    requires text[16] == ':' && text[17..19] == "00" && text[19] == 'Z'
    ensures ParseTimePart(text) == Some(-5 * NANOS_PER_HOUR)
  {
    Plain(text, 14, "00");
    Plain(text, 17, "00");
    MinusFive(text);
    Values();
    hide ParseInt, Value;
  }

  lemma Slices(text: string)
    requires text == "1970-01-02T-5:00:00Z"
    ensures text[0..4] == "1970" && text[5..7] == "01" && text[8..10] == "02"
    ensures text[11..13] == "-5" && text[14..16] == "00" && text[17..19] == "00"
  {
  }

  lemma Signed(text: string, pos: nat, digits: string)
    requires digits != "" && AllDigits(digits) && pos + 1 + |digits| <= |text|
    requires text[pos..pos + 1 + |digits|] == "-" + digits
    ensures ParseInt(text, pos, 1 + |digits|) == Some(0 - Value(digits) as int)
  {
    hide Value, AllDigits, IsDigit;
    var s := text[pos..pos + 1 + |digits|];
    assert s[0] == '-' && s[1..] == digits;
    MinusIsNoDigit(s);
  }

  lemma MinusIsNoDigit(s: string)
    requires s != "" && s[0] == '-'
    ensures !AllDigits(s)
  {
    assert !IsDigit(s[0]);
  }

  lemma MinusFive(text: string)
    requires |text| == 20 && text[11..13] == "-5"
    ensures ParseInt(text, 11, 2) == Some(-5)
  {
    hide ParseInt, Value;
    assert "-5" == "-" + "5";
    Signed(text, 11, "5");
    OneDigit("5");
  }

  lemma OneDigit(s: string)
    requires |s| == 1 && IsDigit(s[0])
    ensures Value(s) == DigitValue(s[0])
  {
    assert s[..0] == "";
    NothingRead();
  }

  lemma Values()
    ensures Value("1970") == 1970 && Value("01") == 1 && Value("02") == 2 && Value("00") == 0
  {
    assert "1970"[..3] == "197" && "197"[..2] == "19" && "19"[..1] == "1" && "1"[..0] == "";
    assert Value("19") == 19 && Value("197") == 197;
    assert "01"[..1] == "0" && "02"[..1] == "0" && "00"[..1] == "0" && "0"[..0] == "";
  }

  lemma Plain(text: string, pos: nat, s: string)
    requires pos + |s| <= |text| && text[pos..pos + |s|] == s && s != "" && AllDigits(s)
    ensures ParseInt(text, pos, |s|) == Some(Value(s))
  {
  }
}

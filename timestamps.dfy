/** Calendar timestamps, their integer-second form, and the two timestamp texts the system
    reads and writes: `%Y%m%d%H%M%S` in segment file names and `%Y-%m-%d` for dates.

    Reading follows CPython's `datetime.strptime`: the format becomes a regular expression in
    which each directive is a group of alternatives tried in order, the first way the whole
    expression matches a PREFIX of the text is taken (later directives can force earlier ones
    to fall back to a later alternative), leftover text is an error ("unconverted data
    remains"), and the fields must then form a real date and time. */
module Timestamps {
  import opened Common

  datatype DateTime = DateTime(year: int, month: int, day: int, hour: int, minute: int, second: int)

  predicate IsLeapYear(y: int) { y % 4 == 0 && (y % 100 != 0 || y % 400 == 0) }

  function DaysInMonth(y: int, m: int): int
    requires 1 <= m <= 12
  {
    if m == 2 then (if IsLeapYear(y) then 29 else 28)
    else if m == 4 || m == 6 || m == 9 || m == 11 then 30
    else 31
  }

  /** The values Python's datetime accepts (years 1 to 9999). */
  predicate ValidDateTime(dt: DateTime)
  {
    && 1 <= dt.year <= 9999
    && 1 <= dt.month <= 12
    && 1 <= dt.day <= DaysInMonth(dt.year, dt.month)
    && 0 <= dt.hour <= 23
    && 0 <= dt.minute <= 59
    && 0 <= dt.second <= 59
  }

  const SecondsPerDay: int := 86400

  /** Days from 1970-01-01 to the given civil date (proleptic Gregorian calendar). */
  function DaysFromCivil(y: int, m: int, d: int): int
  {
    var y' := if m <= 2 then y - 1 else y;
    var era := y' / 400;
    var yoe := y' - era * 400;
    var doy := (153 * (if m > 2 then m - 3 else m + 9) + 2) / 5 + d - 1;
    var doe := yoe * 365 + yoe / 4 - yoe / 100 + doy;
    era * 146097 + doe - 719468
  }

  /** A naive timestamp as whole seconds since 1970-01-01 00:00:00. */
  function EpochSeconds(dt: DateTime): int
  {
    DaysFromCivil(dt.year, dt.month, dt.day) * SecondsPerDay + dt.hour * 3600 + dt.minute * 60 + dt.second
  }

  /** The day number a timestamp falls on. */
  function DayOf(t: int): int { t / SecondsPerDay }

  /** A valid timestamp falls on the day of its own date. */
  lemma EpochSecondsDay(dt: DateTime)
    requires ValidDateTime(dt)
    ensures DayOf(EpochSeconds(dt)) == DaysFromCivil(dt.year, dt.month, dt.day)
    ensures DaysFromCivil(dt.year, dt.month, dt.day) * SecondsPerDay <= EpochSeconds(dt)
    ensures EpochSeconds(dt) < DaysFromCivil(dt.year, dt.month, dt.day) * SecondsPerDay + SecondsPerDay
  {
    var d := DaysFromCivil(dt.year, dt.month, dt.day);
    var r := dt.hour * 3600 + dt.minute * 60 + dt.second;
    assert 0 <= r < SecondsPerDay;
    assert EpochSeconds(dt) == d * SecondsPerDay + r;
  }

  // ---------------------------------------------------------------------------
  // Writing: zero-padded fields, as strftime writes %Y, %m, %d, %H, %M, %S.

  function Pad2(n: int): (s: string)
    requires 0 <= n < 100
    ensures |s| == 2 && AllDigits(s)
  {
    [DigitChar(n / 10), DigitChar(n % 10)]
  }

  function Pad4(n: int): (s: string)
    requires 0 <= n < 10000
    ensures |s| == 4 && AllDigits(s)
  {
    Pad2(n / 100) + Pad2(n % 100)
  }

  /** The `%Y%m%d%H%M%S` text of a timestamp, as in `chunk_20250101100000.wav`. */
  function CompactStamp(dt: DateTime): (s: string)
    requires ValidDateTime(dt)
    ensures |s| == 14 && AllDigits(s)
  {
    Pad4(dt.year) + Pad2(dt.month) + Pad2(dt.day) + Pad2(dt.hour) + Pad2(dt.minute) + Pad2(dt.second)
  }

  /** The `%Y/%m/%d` directory part of a date. */
  function DatePath(dt: DateTime): (s: string)
    requires ValidDateTime(dt)
    ensures |s| == 10
  {
    Pad4(dt.year) + "/" + Pad2(dt.month) + "/" + Pad2(dt.day)
  }

  // ---------------------------------------------------------------------------
  // Reading: the regular expression strptime builds from a format.

  /** One character position of an alternative: any ASCII digit, or a character range
      (a single literal character is a range of one). */
  datatype CharClass = Digit | Range(lo: char, hi: char)

  function Ch(c: char): CharClass { Range(c, c) }

  predicate ClassMatches(cc: CharClass, c: char)
  {
    match cc
    case Digit => IsDigit(c)
    case Range(lo, hi) => lo <= c <= hi
  }

  /** A fixed-width alternative of a directive's group. */
  type Alt = seq<CharClass>

  datatype Unit = Year | Month | Day | Hour | Minute | Second

  datatype Directive = Field(unit: Unit, alts: seq<Alt>) | Literal(c: char)

  /** %Y: four digits. */
  const YearField: Directive := Field(Year, [[Digit, Digit, Digit, Digit]])
  /** %m: 1[0-2] | 0[1-9] | [1-9]. */
  const MonthField: Directive :=
    Field(Month, [[Ch('1'), Range('0', '2')], [Ch('0'), Range('1', '9')], [Range('1', '9')]])
  /** %d: 3[01] | [12]\d | 0[1-9] | [1-9] | " "[1-9]. */
  const DayField: Directive :=
    Field(Day, [[Ch('3'), Range('0', '1')], [Range('1', '2'), Digit], [Ch('0'), Range('1', '9')],
                [Range('1', '9')], [Ch(' '), Range('1', '9')]])
  /** %H: 2[0-3] | [01]\d | \d. */
  const HourField: Directive := Field(Hour, [[Ch('2'), Range('0', '3')], [Range('0', '1'), Digit], [Digit]])
  /** %M: [0-5]\d | \d. */
  const MinuteField: Directive := Field(Minute, [[Range('0', '5'), Digit], [Digit]])
  /** %S: 6[01] | [0-5]\d | \d. */
  const SecondField: Directive := Field(Second, [[Ch('6'), Range('0', '1')], [Range('0', '5'), Digit], [Digit]])

  /** "%Y%m%d%H%M%S". */
  const CompactFormat: seq<Directive> := [YearField, MonthField, DayField, HourField, MinuteField, SecondField]
  /** "%Y-%m-%d". */
  const DateFormat: seq<Directive> := [YearField, Literal('-'), MonthField, Literal('-'), DayField]

  predicate AltMatchesAt(alt: Alt, s: string, pos: nat)
  {
    pos + |alt| <= |s| && forall k | 0 <= k < |alt| :: ClassMatches(alt[k], s[pos + k])
  }

  datatype Capture = Capture(unit: Unit, text: string)

  /** The first match of the directives against a prefix of s[pos..], in the order a
      backtracking matcher finds it: the captured fields and where the match ends. */
  function MatchFrom(dirs: seq<Directive>, s: string, pos: nat): Option<(seq<Capture>, nat)>
    decreases |dirs|, 1, 0
  {
    if |dirs| == 0 then Some(([], pos))
    else match dirs[0]
      case Literal(c) => if pos < |s| && s[pos] == c then MatchFrom(dirs[1..], s, pos + 1) else None
      case Field(u, alts) => TryAlts(u, alts, dirs[1..], s, pos)
  }

  /** Tries a group's alternatives in order; an alternative that matches here is kept only
      if the rest of the expression can match after it. */
  function TryAlts(u: Unit, alts: seq<Alt>, rest: seq<Directive>, s: string, pos: nat): Option<(seq<Capture>, nat)>
    decreases |rest| + 1, 0, |alts|
  {
    if |alts| == 0 then None
    else if AltMatchesAt(alts[0], s, pos) then
      match MatchFrom(rest, s, pos + |alts[0]|)
      case Some(m) => Some(([Capture(u, s[pos..pos + |alts[0]|])] + m.0, m.1))
      case None => TryAlts(u, alts[1..], rest, s, pos)
    else TryAlts(u, alts[1..], rest, s, pos)
  }

  /** int() of a captured field; the one non-digit a capture can hold is the leading space
      that %d allows, which int() ignores. */
  function FieldInt(t: string): nat
    decreases |t|
  {
    if |t| == 0 then 0
    else if IsDigit(t[|t| - 1]) then FieldInt(t[..|t| - 1]) * 10 + (t[|t| - 1] as int - '0' as int)
    else FieldInt(t[..|t| - 1])
  }

  function Assign(dt: DateTime, caps: seq<Capture>): DateTime
    decreases |caps|
  {
    if |caps| == 0 then dt
    else
      var v := FieldInt(caps[0].text);
      var dt' := match caps[0].unit
        case Year => dt.(year := v)
        case Month => dt.(month := v)
        case Day => dt.(day := v)
        case Hour => dt.(hour := v)
        case Minute => dt.(minute := v)
        case Second => dt.(second := v);
      Assign(dt', caps[1..])
  }

  /** datetime.strptime(s, format): None where Python raises ValueError. Fields the format
      does not mention keep strptime's defaults (1900-01-01 00:00:00). */
  function Strptime(format: seq<Directive>, s: string): (r: Option<DateTime>)
    ensures r.Some? ==> ValidDateTime(r.value)
  {
    match MatchFrom(format, s, 0)
    case None => None
    case Some(m) =>
      if m.1 != |s| then None
      else
        var dt := Assign(DateTime(1900, 1, 1, 0, 0, 0), m.0);
        if ValidDateTime(dt) then Some(dt) else None
  }

  // ---------------------------------------------------------------------------
  // Writing then reading gives the timestamp back.

  /** The first alternative that matches here and lets the rest match is the one taken. */
  lemma {:induction false} FirstAltTaken(u: Unit, alts: seq<Alt>, rest: seq<Directive>, s: string, pos: nat,
                                          i: nat, caps: seq<Capture>, e: nat)
    requires i < |alts|
    requires forall j | 0 <= j < i :: !AltMatchesAt(alts[j], s, pos) || MatchFrom(rest, s, pos + |alts[j]|).None?
    requires AltMatchesAt(alts[i], s, pos)
    requires MatchFrom(rest, s, pos + |alts[i]|) == Some((caps, e))
    ensures TryAlts(u, alts, rest, s, pos) == Some(([Capture(u, s[pos..pos + |alts[i]|])] + caps, e))
    decreases i
  {
    if i > 0 {
      FirstAltTaken(u, alts[1..], rest, s, pos, i - 1, caps, e);
    }
  }

  /** Every alternative of every group reads at least one character. */
  predicate NonEmptyAlts(dirs: seq<Directive>)
  {
    forall i | 0 <= i < |dirs| :: dirs[i].Field? ==> forall j | 0 <= j < |dirs[i].alts| :: |dirs[i].alts[j]| > 0
  }

  /** A match reads at least one character per directive and stays within the text. */
  lemma {:induction false} MatchBounds(dirs: seq<Directive>, s: string, pos: nat)
    requires NonEmptyAlts(dirs) && pos <= |s|
    ensures MatchFrom(dirs, s, pos).Some? ==>
      pos + |dirs| <= MatchFrom(dirs, s, pos).value.1 <= |s|
    decreases |dirs|, 1, 0
  {
    if |dirs| > 0 {
      assert NonEmptyAlts(dirs[1..]);
      match dirs[0]
      case Literal(c) =>
        if pos < |s| && s[pos] == c {
          MatchBounds(dirs[1..], s, pos + 1);
        }
      case Field(u, alts) =>
        TryAltsBounds(u, alts, dirs[1..], s, pos);
    }
  }

  lemma {:induction false} TryAltsBounds(u: Unit, alts: seq<Alt>, rest: seq<Directive>, s: string, pos: nat)
    requires NonEmptyAlts(rest) && pos <= |s|
    requires forall j | 0 <= j < |alts| :: |alts[j]| > 0
    ensures TryAlts(u, alts, rest, s, pos).Some? ==>
      pos + 1 + |rest| <= TryAlts(u, alts, rest, s, pos).value.1 <= |s|
    decreases |rest| + 1, 0, |alts|
  {
    if |alts| > 0 {
      if AltMatchesAt(alts[0], s, pos) {
        MatchBounds(rest, s, pos + |alts[0]|);
      }
      TryAltsBounds(u, alts[1..], rest, s, pos);
    }
  }

  lemma FieldIntPad2(n: int)
    requires 0 <= n < 100
    ensures FieldInt(Pad2(n)) == n
  {
    var p := Pad2(n);
    assert p[..1][..0] == [];
    assert FieldInt(p[..1]) == n / 10;
  }

  lemma FieldIntPad4(n: int)
    requires 0 <= n < 10000
    ensures FieldInt(Pad4(n)) == n
  {
    var p := Pad4(n);
    var a, b := n / 100, n % 100;
    assert p[..2] == Pad2(a);
    FieldIntPad2(a);
    assert p[..3][..2] == p[..2];
    assert FieldInt(p[..3]) == a * 10 + b / 10;
  }

  /** A two-digit field whose value lies in the directive's range is read by the group's
      first alternative able to read it, which is a two-character one. */
  lemma TwoDigitField(dirs: seq<Directive>, s: string, pos: nat, n: int, caps: seq<Capture>, e: nat)
    requires |dirs| > 0
    requires 0 <= n < 100 && pos + 2 <= |s|
    requires s[pos] == Pad2(n)[0] && s[pos + 1] == Pad2(n)[1]
    requires MatchFrom(dirs[1..], s, pos + 2) == Some((caps, e))
    requires
      || (dirs[0] == MonthField && 1 <= n <= 12)
      || (dirs[0] == DayField && 1 <= n <= 31)
      || (dirs[0] == HourField && 0 <= n <= 23)
      || (dirs[0] == MinuteField && 0 <= n <= 59)
      || (dirs[0] == SecondField && 0 <= n <= 59)
    ensures dirs[0].Field?
    ensures MatchFrom(dirs, s, pos) == Some(([Capture(dirs[0].unit, Pad2(n))] + caps, e))
  {
    var d := dirs[0];
    assert s[pos..pos + 2] == Pad2(n);
    var i: nat;
    if d == MonthField {
      i := if n >= 10 then 0 else 1;
    } else if d == DayField {
      i := if n >= 30 then 0 else if n >= 10 then 1 else 2;
    } else if d == HourField {
      i := if n >= 20 then 0 else 1;
    } else if d == MinuteField {
      i := 0;
    } else {
      i := 1;
    }
    FirstTwoDigitAlt(d, s, pos, n, i);
    FirstAltTaken(d.unit, d.alts, dirs[1..], s, pos, i, caps, e);
  }

  lemma FirstTwoDigitAlt(d: Directive, s: string, pos: nat, n: int, i: nat)
    requires 0 <= n < 100 && pos + 2 <= |s|
    requires s[pos] == Pad2(n)[0] && s[pos + 1] == Pad2(n)[1]
    requires
      || (d == MonthField && 1 <= n <= 12 && i == if n >= 10 then 0 else 1)
      || (d == DayField && 1 <= n <= 31 && i == if n >= 30 then 0 else if n >= 10 then 1 else 2)
      || (d == HourField && 0 <= n <= 23 && i == if n >= 20 then 0 else 1)
      || (d == MinuteField && 0 <= n <= 59 && i == 0)
      || (d == SecondField && 0 <= n <= 59 && i == 1)
    ensures d.Field? && i < |d.alts| && |d.alts[i]| == 2 && AltMatchesAt(d.alts[i], s, pos)
    ensures forall j | 0 <= j < i :: !AltMatchesAt(d.alts[j], s, pos)
  {
    var hi, lo := s[pos], s[pos + 1];
    assert hi as int == '0' as int + n / 10 && lo as int == '0' as int + n % 10;
    if d == MonthField && i == 1 {
      assert !ClassMatches(d.alts[0][0], hi);
    } else if d == DayField && i >= 1 {
      assert !ClassMatches(d.alts[0][0], hi);
      if i == 2 {
        assert !ClassMatches(d.alts[1][0], hi);
      }
    } else if d == HourField && i == 1 {
      assert !ClassMatches(d.alts[0][0], hi);
    } else if d == SecondField {
      assert !ClassMatches(d.alts[0][0], hi);
    }
  }

  /** A group directive is tried through its alternatives. */
  lemma FieldStep(dirs: seq<Directive>, s: string, pos: nat)
    requires |dirs| > 0 && dirs[0].Field?
    ensures MatchFrom(dirs, s, pos) == TryAlts(dirs[0].unit, dirs[0].alts, dirs[1..], s, pos)
  {
  }

  /** The fields strptime captures from a compact stamp. */
  function CompactCaptures(dt: DateTime): (caps: seq<Capture>)
    requires ValidDateTime(dt)
    ensures |caps| == 6
  {
    [Capture(Year, Pad4(dt.year)), Capture(Month, Pad2(dt.month)), Capture(Day, Pad2(dt.day)),
     Capture(Hour, Pad2(dt.hour)), Capture(Minute, Pad2(dt.minute)), Capture(Second, Pad2(dt.second))]
  }

  lemma CompactStampChars(dt: DateTime)
    requires ValidDateTime(dt)
    ensures var s := CompactStamp(dt);
      && s[0..4] == Pad4(dt.year)
      && s[4] == Pad2(dt.month)[0] && s[5] == Pad2(dt.month)[1]
      && s[6] == Pad2(dt.day)[0] && s[7] == Pad2(dt.day)[1]
      && s[8] == Pad2(dt.hour)[0] && s[9] == Pad2(dt.hour)[1]
      && s[10] == Pad2(dt.minute)[0] && s[11] == Pad2(dt.minute)[1]
      && s[12] == Pad2(dt.second)[0] && s[13] == Pad2(dt.second)[1]
  {
  }

  /** The six fields of a compact stamp, from the minute on, are read back as written. */
  lemma CompactTailMatch(dt: DateTime, s: string)
    requires ValidDateTime(dt) && s == CompactStamp(dt)
    requires s[8] == Pad2(dt.hour)[0] && s[9] == Pad2(dt.hour)[1]
    requires s[10] == Pad2(dt.minute)[0] && s[11] == Pad2(dt.minute)[1]
    requires s[12] == Pad2(dt.second)[0] && s[13] == Pad2(dt.second)[1]
    ensures MatchFrom(CompactFormat[3..], s, 8) == Some((CompactCaptures(dt)[3..], 14))
  {
    var f := CompactFormat;
    var c := CompactCaptures(dt);
    assert f[5..][1..] == [] && f[4..][1..] == f[5..] && f[3..][1..] == f[4..];
    TwoDigitField(f[5..], s, 12, dt.second, [], 14);
    assert c[5..] == [c[5]] + [];
    TwoDigitField(f[4..], s, 10, dt.minute, c[5..], 14);
    assert c[4..] == [c[4]] + c[5..];
    TwoDigitField(f[3..], s, 8, dt.hour, c[4..], 14);
    assert c[3..] == [c[3]] + c[4..];
  }

  lemma CompactStampMatch(dt: DateTime)
    requires ValidDateTime(dt)
    ensures MatchFrom(CompactFormat, CompactStamp(dt), 0) == Some((CompactCaptures(dt), 14))
  {
    var s := CompactStamp(dt);
    CompactStampChars(dt);
    var f := CompactFormat;
    var c := CompactCaptures(dt);
    CompactTailMatch(dt, s);
    assert f[2..][1..] == f[3..] && f[1..][1..] == f[2..];
    TwoDigitField(f[2..], s, 6, dt.day, c[3..], 14);
    assert c[2..] == [c[2]] + c[3..];
    TwoDigitField(f[1..], s, 4, dt.month, c[2..], 14);
    assert c[1..] == [c[1]] + c[2..];
    assert AltMatchesAt(YearField.alts[0], s, 0);
    FirstAltTaken(Year, YearField.alts, f[1..], s, 0, 0, c[1..], 14);
    assert c == [c[0]] + c[1..];
  }

  /** Every name the capture process writes is read back as the timestamp it was written from. */
  lemma CompactStampRoundTrip(dt: DateTime)
    requires ValidDateTime(dt)
    ensures Strptime(CompactFormat, CompactStamp(dt)) == Some(dt)
  {
    CompactStampMatch(dt);
    var c := CompactCaptures(dt);
    FieldIntPad4(dt.year);
    FieldIntPad2(dt.month);
    FieldIntPad2(dt.day);
    FieldIntPad2(dt.hour);
    FieldIntPad2(dt.minute);
    FieldIntPad2(dt.second);
    var d0 := DateTime(1900, 1, 1, 0, 0, 0);
    var d1 := d0.(year := dt.year);
    var d2 := d1.(month := dt.month);
    var d3 := d2.(day := dt.day);
    var d4 := d3.(hour := dt.hour);
    var d5 := d4.(minute := dt.minute);
    assert c[1..][1..][1..][1..][1..][1..] == [];
    assert Assign(d5.(second := dt.second), []) == dt;
    assert Assign(d5, c[5..]) == dt;
    assert Assign(d4, c[4..]) == dt;
    assert Assign(d3, c[3..]) == dt;
    assert Assign(d2, c[2..]) == dt;
    assert Assign(d1, c[1..]) == dt;
  }

  /** The `%Y-%m-%d` text of a date, as `--date` takes it. */
  function DateText(dt: DateTime): (s: string)
    requires ValidDateTime(dt)
    ensures |s| == 10 && s[4] == '-' && s[7] == '-'
  {
    Pad4(dt.year) + "-" + Pad2(dt.month) + "-" + Pad2(dt.day)
  }

  lemma DateTextMatch(dt: DateTime)
    requires ValidDateTime(dt)
    ensures MatchFrom(DateFormat, DateText(dt), 0) ==
      Some(([Capture(Year, Pad4(dt.year)), Capture(Month, Pad2(dt.month)), Capture(Day, Pad2(dt.day))], 10))
  {
    var s := DateText(dt);
    var f := DateFormat;
    assert s[0..4] == Pad4(dt.year);
    assert s[5] == Pad2(dt.month)[0] && s[6] == Pad2(dt.month)[1];
    assert s[8] == Pad2(dt.day)[0] && s[9] == Pad2(dt.day)[1];
    var cd := [Capture(Day, Pad2(dt.day))];
    assert f[4..][0] == DayField && f[4..][1..] == [];
    TwoDigitField(f[4..], s, 8, dt.day, [], 10);
    assert [Capture(Day, Pad2(dt.day))] + [] == cd;
    assert MatchFrom(f[4..], s, 8) == Some((cd, 10));
    assert f[3..][0] == Literal('-') && f[3..][1..] == f[4..];
    assert MatchFrom(f[3..], s, 7) == Some((cd, 10));
    var cm := [Capture(Month, Pad2(dt.month))] + cd;
    assert f[2..][0] == MonthField && f[2..][1..] == f[3..];
    TwoDigitField(f[2..], s, 5, dt.month, cd, 10);
    assert f[1..][0] == Literal('-') && f[1..][1..] == f[2..];
    assert MatchFrom(f[1..], s, 4) == Some((cm, 10));
    assert AltMatchesAt(YearField.alts[0], s, 0);
    FirstAltTaken(Year, YearField.alts, f[1..], s, 0, 0, cm, 10);
    FieldStep(f, s, 0);
    assert s[0..0 + |YearField.alts[0]|] == Pad4(dt.year);
    assert [Capture(Year, Pad4(dt.year))] + cm ==
      [Capture(Year, Pad4(dt.year)), Capture(Month, Pad2(dt.month)), Capture(Day, Pad2(dt.day))];
  }

  /** Every date written as `%Y-%m-%d` is read back by strptime as midnight of that date. */
  lemma DateTextRoundTrip(dt: DateTime)
    requires ValidDateTime(dt)
    ensures Strptime(DateFormat, DateText(dt)) == Some(DateTime(dt.year, dt.month, dt.day, 0, 0, 0))
  {
    DateTextMatch(dt);
    FieldIntPad4(dt.year);
    FieldIntPad2(dt.month);
    FieldIntPad2(dt.day);
    var c := [Capture(Year, Pad4(dt.year)), Capture(Month, Pad2(dt.month)), Capture(Day, Pad2(dt.day))];
    var d0 := DateTime(1900, 1, 1, 0, 0, 0);
    var d1 := d0.(year := dt.year);
    var d2 := d1.(month := dt.month);
    var want := DateTime(dt.year, dt.month, dt.day, 0, 0, 0);
    assert c[1..][1..][1..] == [];
    assert Assign(d2.(day := dt.day), []) == want;
    assert Assign(d2, c[2..]) == want;
    assert Assign(d1, c[1..]) == want;
  }

  /** strptime accepts single-digit fields when the text is short: "202311111" reads as
      2023-01-01 01:01:01, because %m first tries "11", finds too little text left for the
      other four fields, and falls back to "1". */
  lemma ShortStampAccepted()
    ensures Strptime(CompactFormat, "202311111") == Some(DateTime(2023, 1, 1, 1, 1, 1))
  {
    var s := "202311111";
    ShortStampMatch();
    assert FieldInt("2023") == 2023 by {
      assert "2023"[..3] == "202" && "202"[..2] == "20" && "20"[..1] == "2" && "2"[..0] == "";
    }
    assert FieldInt("1") == 1 by { assert "1"[..0] == ""; }
  }

  /** The shape of "202311111" after its year: nine characters, the last five of them '1'. */
  predicate ShortShape(s: string)
  {
    |s| == 9 && s[4] == '1' && s[5] == '1' && s[6] == '1' && s[7] == '1' && s[8] == '1'
  }

  /** The bounds that rule out the two-character alternatives of the later fields. */
  lemma ShortStampBounds(s: string)
    requires |s| == 9
    ensures MatchFrom(CompactFormat[6..], s, 9) == Some(([], 9))
    ensures MatchFrom(CompactFormat[5..], s, 9).None?
    ensures MatchFrom(CompactFormat[4..], s, 8).None?
    ensures MatchFrom(CompactFormat[3..], s, 7).None?
    ensures MatchFrom(CompactFormat[2..], s, 6).None?
  {
    var f := CompactFormat;
    assert NonEmptyAlts(f);
    forall k | 1 <= k <= 6 ensures NonEmptyAlts(f[k..]) {
      assert forall i | 0 <= i < |f[k..]| :: f[k..][i] == f[k + i];
    }
    MatchBounds(f[5..], s, 9);
    MatchBounds(f[4..], s, 8);
    MatchBounds(f[3..], s, 7);
    MatchBounds(f[2..], s, 6);
  }

  /** A group whose two-character alternatives cannot be followed by the rest of the
      expression reads a single character when one of its one-character alternatives fits. */
  lemma OneCharField(dirs: seq<Directive>, s: string, pos: nat, i: nat, caps: seq<Capture>, e: nat)
    requires |dirs| > 0 && dirs[0].Field?
    requires i < |dirs[0].alts| && |dirs[0].alts[i]| == 1 && AltMatchesAt(dirs[0].alts[i], s, pos)
    requires forall j | 0 <= j < i :: |dirs[0].alts[j]| == 2
    requires pos + 2 > |s| || MatchFrom(dirs[1..], s, pos + 2).None?
    requires MatchFrom(dirs[1..], s, pos + 1) == Some((caps, e))
    ensures MatchFrom(dirs, s, pos) == Some(([Capture(dirs[0].unit, s[pos..pos + 1])] + caps, e))
  {
    FirstAltTaken(dirs[0].unit, dirs[0].alts, dirs[1..], s, pos, i, caps, e);
  }

  lemma ShortStampMinute(s: string)
    requires ShortShape(s)
    ensures MatchFrom(CompactFormat[4..], s, 7) == Some(([Capture(Minute, "1"), Capture(Second, "1")], 9))
  {
    var f := CompactFormat;
    ShortStampBounds(s);
    assert f[5..][1..] == f[6..] && f[4..][1..] == f[5..];
    assert f[5..][0] == SecondField && f[4..][0] == MinuteField;
    assert s[7..8] == "1" && s[8..9] == "1";
    OneCharField(f[5..], s, 8, 2, [], 9);
    var c5 := [Capture(Second, "1")];
    assert MatchFrom(f[5..], s, 8) == Some((c5, 9)) by {
      assert [Capture(Second, s[8..9])] + [] == c5;
    }
    OneCharField(f[4..], s, 7, 1, c5, 9);
    assert [Capture(Minute, s[7..8])] + c5 == [Capture(Minute, "1"), Capture(Second, "1")];
  }

  lemma ShortStampTail(s: string)
    requires ShortShape(s)
    ensures MatchFrom(CompactFormat[3..], s, 6) ==
      Some(([Capture(Hour, "1"), Capture(Minute, "1"), Capture(Second, "1")], 9))
  {
    var f := CompactFormat;
    ShortStampBounds(s);
    ShortStampMinute(s);
    assert f[3..][1..] == f[4..] && f[3..][0] == HourField;
    assert s[6..7] == "1";
    var c4 := [Capture(Minute, "1"), Capture(Second, "1")];
    OneCharField(f[3..], s, 6, 2, c4, 9);
    assert [Capture(Hour, "1")] + c4 == [Capture(Hour, "1"), Capture(Minute, "1"), Capture(Second, "1")];
  }

  lemma ShortStampDay(s: string)
    requires ShortShape(s)
    ensures MatchFrom(CompactFormat[2..], s, 5) ==
      Some(([Capture(Day, "1"), Capture(Hour, "1"), Capture(Minute, "1"), Capture(Second, "1")], 9))
  {
    var f := CompactFormat;
    ShortStampBounds(s);
    ShortStampTail(s);
    assert f[2..][1..] == f[3..] && f[2..][0] == DayField;
    assert s[5..6] == "1";
    var c3 := [Capture(Hour, "1"), Capture(Minute, "1"), Capture(Second, "1")];
    OneCharField(f[2..], s, 5, 3, c3, 9);
    assert [Capture(Day, "1")] + c3 ==
      [Capture(Day, "1"), Capture(Hour, "1"), Capture(Minute, "1"), Capture(Second, "1")];
  }

  lemma ShortStampMonth(s: string)
    requires ShortShape(s)
    ensures MatchFrom(CompactFormat[1..], s, 4) ==
      Some(([Capture(Month, "1"), Capture(Day, "1"), Capture(Hour, "1"), Capture(Minute, "1"), Capture(Second, "1")], 9))
  {
    var f := CompactFormat;
    ShortStampBounds(s);
    ShortStampDay(s);
    assert f[1..][1..] == f[2..] && f[1..][0] == MonthField;
    assert s[4..5] == "1";
    var c2 := [Capture(Day, "1"), Capture(Hour, "1"), Capture(Minute, "1"), Capture(Second, "1")];
    OneCharField(f[1..], s, 4, 2, c2, 9);
    assert [Capture(Month, "1")] + c2 ==
      [Capture(Month, "1"), Capture(Day, "1"), Capture(Hour, "1"), Capture(Minute, "1"), Capture(Second, "1")];
  }

  /** %m and %d fall back to one digit so that the hour, minute and second can match. */
  lemma ShortStampMatch()
    ensures MatchFrom(CompactFormat, "202311111", 0) ==
      Some(([Capture(Year, "2023"), Capture(Month, "1"), Capture(Day, "1"),
             Capture(Hour, "1"), Capture(Minute, "1"), Capture(Second, "1")], 9))
  {
    var s := "202311111";
    var f := CompactFormat;
    assert ShortShape(s);
    ShortStampMonth(s);
    assert s[0..4] == "2023";
    var c1 := [Capture(Month, "1"), Capture(Day, "1"), Capture(Hour, "1"), Capture(Minute, "1"), Capture(Second, "1")];
    FirstAltTaken(Year, YearField.alts, f[1..], s, 0, 0, c1, 9);
    FieldStep(f, s, 0);
    assert [Capture(Year, s[0..4])] + c1 ==
      [Capture(Year, "2023"), Capture(Month, "1"), Capture(Day, "1"),
       Capture(Hour, "1"), Capture(Minute, "1"), Capture(Second, "1")];
  }
}

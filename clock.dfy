/** Clock texts and durations shared by the monitor and the message previews:
    "HH:MM" to minutes, the three-way "год"/"хв" duration text, and the
    "HH:MM DD.MM.YYYY" timestamps of emergency outages turned into local
    minutes. */
module Clock {
  import opened Optional
  import opened Js

  /** "HH:MM", two digits each. */
  function ClockText(h: nat, m: nat): string {
    Pad2(h) + ":" + Pad2(m)
  }

  /** `const [h, m] = t.split(":").map(Number); h * 60 + m`. A missing minute
      part is `undefined`, so the sum is NaN. */
  function ClockMinutes(t: string): Numeric {
    var parts := Split(t, ':');
    Plus(Times(ToNumber(At(parts, 0)), 60), ToNumber(At(parts, 1)))
  }

  /** A well-formed clock text reads back as its minutes since midnight. */
  lemma ClockMinutesOfText(h: nat, m: nat)
    ensures ClockMinutes(ClockText(h, m)) == Int(h * 60 + m)
  {
    DigitsHaveNo(Pad2(h), ':');
    DigitsHaveNo(Pad2(m), ':');
    SplitPair(Pad2(h), ':', Pad2(m));
    NumberOfPad2(h);
    NumberOfPad2(m);
  }

  /** The hour field of a well-formed clock text. */
  lemma ClockHour(h: nat, m: nat)
    ensures Split(ClockText(h, m), ':')[0] == Pad2(h)
  {
    DigitsHaveNo(Pad2(h), ':');
    SplitHead(Pad2(h), ':', Pad2(m));
  }

  // ---------------------------------------------------------------------------
  // Durations

  /** Whole hours of a duration in minutes: `Math.floor(d / 60)`. */
  function Hours(d: int): int {
    d / 60
  }

  /** Leftover minutes: `d % 60`, JavaScript's truncating remainder. */
  function Minutes(d: int): int {
    JsRem(d, 60)
  }

  /** For a non-negative duration, hours and minutes recompose to it, with the
      minutes below an hour. */
  lemma HoursMinutesRecompose(d: int)
    requires d >= 0
    ensures Hours(d) * 60 + Minutes(d) == d && 0 <= Minutes(d) < 60 && Hours(d) >= 0
  {
  }

  /** The duration text: "H год M хв" when both parts are positive, "H год"
      when only the hours are, "M хв" otherwise; `${NaN} хв` for NaN. */
  function DurationText(d: Numeric): string {
    if d.NaN? then "NaN хв"
    else
      var h := Hours(d.i);
      var m := Minutes(d.i);
      if h > 0 && m > 0 then IntToString(h) + " год " + IntToString(m) + " хв"
      else if h > 0 then IntToString(h) + " год"
      else IntToString(m) + " хв"
  }

  /** Reads a duration text back into minutes. */
  function ReadDuration(text: string): Numeric {
    var p := Split(text, ' ');
    if |p| == 4 && p[1] == "год" && p[3] == "хв" then Plus(Times(NumberOf(p[0]), 60), NumberOf(p[2]))
    else if |p| == 2 && p[1] == "год" then Times(NumberOf(p[0]), 60)
    else if |p| == 2 && p[1] == "хв" then NumberOf(p[0])
    else NaN
  }

  lemma NoSpaceInNumber(n: nat)
    ensures ' ' !in NatToString(n)
  {
    DigitsHaveNo(NatToString(n), ' ');
  }

  /** The duration text of a non-negative duration reads back as that duration,
      so no two durations share a text. */
  lemma ReadDurationText(d: int)
    requires d >= 0
    ensures ReadDuration(DurationText(Int(d))) == Int(d)
  {
    var h, m := Hours(d), Minutes(d);
    HoursMinutesRecompose(d);
    if h > 0 && m > 0 {
      ReadHoursMinutes(h, m);
    } else if h > 0 {
      ReadHours(h);
    } else {
      ReadMinutes(m);
    }
  }

  /** "H год M хв" reads back as H * 60 + M. */
  lemma ReadHoursMinutes(h: nat, m: nat)
    ensures ReadDuration(IntToString(h) + " год " + IntToString(m) + " хв") == Int(h * 60 + m)
  {
    NoSpaceInNumber(h);
    NoSpaceInNumber(m);
    NumberOfNatToString(h);
    NumberOfNatToString(m);
    var parts := [NatToString(h), "год", NatToString(m), "хв"];
    assert parts[1..][1..][1..] == ["хв"];
    assert parts[1..][1..] == [NatToString(m), "хв"];
    assert parts[1..] == ["год", NatToString(m), "хв"];
    assert " год " == " " + "год" + " " && " хв" == " " + "хв";
    assert Join(parts[1..][1..], " ") == NatToString(m) + " хв";
    assert Join(parts[1..], " ") == "год " + NatToString(m) + " хв";
    assert Join(parts, " ") == IntToString(h) + " год " + IntToString(m) + " хв";
    SplitJoin(parts, ' ');
  }

  /** "H год" reads back as H * 60. */
  lemma ReadHours(h: nat)
    ensures ReadDuration(IntToString(h) + " год") == Int(h * 60)
  {
    NoSpaceInNumber(h);
    NumberOfNatToString(h);
    var parts := [NatToString(h), "год"];
    assert " год" == " " + "год";
    assert Join(parts, " ") == IntToString(h) + " год";
    SplitJoin(parts, ' ');
  }

  /** "M хв" reads back as M. */
  lemma ReadMinutes(m: nat)
    ensures ReadDuration(IntToString(m) + " хв") == Int(m)
  {
    NoSpaceInNumber(m);
    NumberOfNatToString(m);
    var parts := [NatToString(m), "хв"];
    assert " хв" == " " + "хв";
    assert Join(parts, " ") == IntToString(m) + " хв";
    SplitJoin(parts, ' ');
  }

  lemma DurationTextInjective(a: int, b: int)
    requires a >= 0 && b >= 0 && DurationText(Int(a)) == DurationText(Int(b))
    ensures a == b
  {
    ReadDurationText(a);
    ReadDurationText(b);
  }

  /** What `endTime.split` throws when a range has no "-". */
  const EndTimeUndefined := "TypeError: endTime is undefined"

  /** The duration of a "HH:MM-HH:MM" range in minutes: end minus start. */
  function RangeDuration(timeRange: string): Result<Numeric, string> {
    var ends := Split(timeRange, '-');
    if |ends| < 2 then Failure(EndTimeUndefined)
    else Success(Minus(ClockMinutes(ends[1]), ClockMinutes(ends[0])))
  }

  /** A well-formed range lasts end - start minutes. */
  lemma RangeDurationOfText(range: string, a: nat, b: nat, c: nat, d: nat)
    requires range == ClockText(a, b) + "-" + ClockText(c, d)
    ensures RangeDuration(range) == Success(Int((c * 60 + d) - (a * 60 + b)))
  {
    TextHasNo(a, b, '-');
    TextHasNo(c, d, '-');
    SplitPair(ClockText(a, b), '-', ClockText(c, d));
    ClockMinutesOfText(a, b);
    ClockMinutesOfText(c, d);
  }

  lemma TextHasNo(h: nat, m: nat, c: char)
    requires !IsDigit(c) && c != ':'
    ensures c !in ClockText(h, m)
  {
    DigitsHaveNo(Pad2(h), c);
    DigitsHaveNo(Pad2(m), c);
  }

  // ---------------------------------------------------------------------------
  // Emergency timestamps "HH:MM DD.MM.YYYY"

  datatype DateParts = DateParts(hours: Numeric, minutes: Numeric, day: Numeric, month: Numeric, year: Numeric)

  /** `parseDate`: split at the space, then the time at ":" and the date at ".".
      Without a space the date half is `undefined` and `date.split` throws
      (None); a missing field is NaN. */
  function ParseDate(s: string): Option<DateParts> {
    var halves := Split(s, ' ');
    if |halves| < 2 then None
    else
      var time := Split(halves[0], ':');
      var date := Split(halves[1], '.');
      Some(DateParts(ToNumber(At(time, 0)), ToNumber(At(time, 1)),
                     ToNumber(At(date, 0)), ToNumber(At(date, 1)), ToNumber(At(date, 2))))
  }

  /** "DD.MM.YYYY". */
  function DateText(day: nat, month: nat, year: nat): string {
    Pad2(day) + "." + Pad2(month) + "." + NatToString(year)
  }

  /** `parseDate` splits a well-formed timestamp into its five fields. */
  lemma ParseDateOfText(h: nat, mi: nat, day: nat, month: nat, year: nat)
    ensures ParseDate(ClockText(h, mi) + " " + DateText(day, month, year))
         == Some(DateParts(Int(h), Int(mi), Int(day), Int(month), Int(year)))
  {
    var time := ClockText(h, mi);
    var date := DateText(day, month, year);
    TextHasNo(h, mi, ' ');
    DateHasNoSpace(day, month, year);
    SplitPair(time, ' ', date);
    ClockFields(h, mi);
    DateFields(day, month, year);
    NumberOfPad2(h);
    NumberOfPad2(mi);
    NumberOfPad2(day);
    NumberOfPad2(month);
    NumberOfNatToString(year);
  }

  lemma DateHasNoSpace(day: nat, month: nat, year: nat)
    ensures ' ' !in DateText(day, month, year)
  {
    DigitsHaveNo(Pad2(day), ' ');
    DigitsHaveNo(Pad2(month), ' ');
    NoSpaceInNumber(year);
  }

  /** The two fields of a clock text. */
  lemma ClockFields(h: nat, mi: nat)
    ensures Split(ClockText(h, mi), ':') == [Pad2(h), Pad2(mi)]
  {
    DigitsHaveNo(Pad2(h), ':');
    DigitsHaveNo(Pad2(mi), ':');
    SplitPair(Pad2(h), ':', Pad2(mi));
  }

  /** The three fields of a date text. */
  lemma DateFields(day: nat, month: nat, year: nat)
    ensures Split(DateText(day, month, year), '.') == [Pad2(day), Pad2(month), NatToString(year)]
  {
    DigitsHaveNo(Pad2(day), '.');
    DigitsHaveNo(Pad2(month), '.');
    DigitsHaveNo(NatToString(year), '.');
    var parts := [Pad2(day), Pad2(month), NatToString(year)];
    assert parts[1..][1..] == [NatToString(year)];
    assert parts[1..] == [Pad2(month), NatToString(year)];
    assert Join(parts[1..], ".") == Pad2(month) + "." + NatToString(year);
    assert Join(parts, ".") == DateText(day, month, year);
    SplitJoin(parts, '.');
  }

  /** Days since 1970-01-01 of a proleptic Gregorian date. */
  function DaysFromCivil(y: int, m: int, d: int): int
    requires 1 <= m <= 12
  {
    var y' := if m <= 2 then y - 1 else y;
    var era := y' / 400;
    var yoe := y' - era * 400;
    var mp := if m > 2 then m - 3 else m + 9;
    var doy := (153 * mp + 2) / 5 + d - 1;
    var doe := yoe * 365 + yoe / 4 - yoe / 100 + doy;
    era * 146097 + doe - 719468
  }

  /** The year rule of `new Date(y, ...)`: 0..99 mean 1900..1999. */
  function FullYear(y: int): int {
    if 0 <= y <= 99 then 1900 + y else y
  }

  /** `new Date(year, month - 1, day, hours, minutes)` in minutes, on a clock
      without daylight-saving shifts; an out-of-range month rolls into the next
      or previous year, and any NaN field gives an invalid date. */
  function LocalMinutes(p: DateParts): Numeric {
    if p.hours.NaN? || p.minutes.NaN? || p.day.NaN? || p.month.NaN? || p.year.NaN? then NaN
    else
      var m0 := p.month.i - 1;
      var y := FullYear(p.year.i) + m0 / 12;
      var days := DaysFromCivil(y, m0 % 12 + 1, 1) + p.day.i - 1;
      Int(days * 1440 + p.hours.i * 60 + p.minutes.i)
  }

  /** Two moments of the same day are as far apart as their clock readings. */
  lemma SameDayDistance(p: DateParts, q: DateParts)
    requires p.hours.Int? && p.minutes.Int? && q.hours.Int? && q.minutes.Int?
    requires p.day == q.day && p.month == q.month && p.year == q.year
    requires p.day.Int? && p.month.Int? && p.year.Int?
    ensures Minus(LocalMinutes(q), LocalMinutes(p))
         == Int((q.hours.i * 60 + q.minutes.i) - (p.hours.i * 60 + p.minutes.i))
  {
  }

  /** The start and end of an emergency outage as local minutes, computed only
      when both dates are present; None when `parseDate` throws. */
  function EmergencySpan(start: JsVal, end: JsVal): Option<(Numeric, Numeric)> {
    if !(Truthy(start) && Truthy(end)) then None
    else
      match (ParseDate(start.s), ParseDate(end.s))
      case (Some(s), Some(e)) => Some((LocalMinutes(s), LocalMinutes(e)))
      case _ => None
  }

  /** Two well-formed timestamps of the same day span as many minutes as their
      clock readings differ. */
  lemma SameDaySpan(h1: nat, m1: nat, h2: nat, m2: nat, day: nat, month: nat, year: nat)
    ensures var span := EmergencySpan(Str(ClockText(h1, m1) + " " + DateText(day, month, year)),
                                      Str(ClockText(h2, m2) + " " + DateText(day, month, year)));
            span.Some? && Minus(span.value.1, span.value.0) == Int((h2 * 60 + m2) - (h1 * 60 + m1))
  {
    var s := ClockText(h1, m1) + " " + DateText(day, month, year);
    var e := ClockText(h2, m2) + " " + DateText(day, month, year);
    var p := DateParts(Int(h1), Int(m1), Int(day), Int(month), Int(year));
    var q := DateParts(Int(h2), Int(m2), Int(day), Int(month), Int(year));
    ParseDateOfText(h1, m1, day, month, year);
    ParseDateOfText(h2, m2, day, month, year);
    assert |s| > 0 && |e| > 0;
    assert EmergencySpan(Str(s), Str(e)) == Some((LocalMinutes(p), LocalMinutes(q)));
    SameDayMinutes(h1, m1, h2, m2, day, month, year);
  }

  lemma SameDayMinutes(h1: nat, m1: nat, h2: nat, m2: nat, day: nat, month: nat, year: nat)
    ensures Minus(LocalMinutes(DateParts(Int(h2), Int(m2), Int(day), Int(month), Int(year))),
                  LocalMinutes(DateParts(Int(h1), Int(m1), Int(day), Int(month), Int(year))))
         == Int((h2 * 60 + m2) - (h1 * 60 + m1))
  {
    SameDayDistance(DateParts(Int(h1), Int(m1), Int(day), Int(month), Int(year)),
                    DateParts(Int(h2), Int(m2), Int(day), Int(month), Int(year)));
  }

  /** `kyivTime >= startTime && kyivTime < endTime`, with `now` the current
      local time in whole minutes. */
  predicate ActiveAt(span: Option<(Numeric, Numeric)>, now: int) {
    span.Some? && AtMost(span.value.0, now) && Above(span.value.1, now)
  }

  /** The duration shown for an emergency outage, "" when it was not computed. */
  function EmergencyDuration(span: Option<(Numeric, Numeric)>): string {
    if span.None? then "" else DurationText(Minus(span.value.1, span.value.0))
  }

  /** Every duration text is non-empty, so the duration section is shown
      exactly when the span was computed. */
  lemma EmergencyDurationShown(span: Option<(Numeric, Numeric)>)
    ensures EmergencyDuration(span) != "" <==> span.Some?
  {
    if span.Some? {
      var d := Minus(span.value.1, span.value.0);
      if d.Int? {
        var h, m := Hours(d.i), Minutes(d.i);
        assert |IntToString(m)| >= 1 && |IntToString(h)| >= 1;
      }
    }
  }
}

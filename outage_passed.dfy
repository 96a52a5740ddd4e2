/** test-outage-passed-message.js: the preview of the message sent when an
    emergency outage is over: the finished emergency with its duration, the
    next scheduled outage with its duration, and the two timestamps. */
module OutagePassed {
  import opened Optional
  import opened Js
  import opened Clock
  import opened Document
  import opened Detection
  import Schedule
  import Monitor

  /** `nextOutage`: `{timeRange, description, status}`. */
  datatype Upcoming = Upcoming(timeRange: JsVal, description: JsVal, status: JsVal)

  /** `{passedOutage, isEmergency, nextOutage, queueGroup}`. */
  datatype PassedInfo = PassedInfo(
    passedOutage: Option<EmergencyOutage>,
    isEmergency: bool,
    nextOutage: Option<Upcoming>,
    queueGroup: JsVal)

  /** What destructuring a missing `passedOutage` throws. */
  const NoPassedOutage := "TypeError: passedOutage is undefined"
  const PassedHeader := "✅ Екстрене відключення завершено!"
  const NextHeader := "⏰ Наступне відключення"

  /** The finished emergency: the three fields with "Невідомо" for a missing
      one, then the duration when both dates parsed. */
  function PassedSection(e: EmergencyOutage): seq<string> {
    var duration := EmergencyDuration(EmergencySpan(e.startDate, e.endDate));
    [PassedHeader, "", "ℹ️ Тип:", OrElse(e.subType, "Невідомо"),
     "", "🔴 Початок:", OrElse(e.startDate, "Невідомо"),
     "", "🟢 Завершено:", OrElse(e.endDate, "Невідомо")] +
    (if duration != "" then ["", "⏱ Тривалість:", duration] else [])
  }

  /** `nextOutage && nextOutage.timeRange`. */
  predicate ShowsNext(info: PassedInfo) {
    info.nextOutage.Some? && Truthy(info.nextOutage.value.timeRange)
  }

  /** The next outage: its range and how long it lasts; a range without "-"
      throws. */
  function NextSection(timeRange: string): Result<seq<string>, string> {
    match RangeDuration(timeRange)
    case Failure(err) => Failure(err)
    case Success(d) =>
      Success(["", Monitor.Divider, "", NextHeader, "", "🕐 Час:", timeRange, "", "⏱ Тривалість:", DurationText(d)])
  }

  function PassedFooter(updateTimestamp: JsVal, stamp: string): seq<string> {
    ["", "⏰ Час оновлення інформації:", OrElse(updateTimestamp, stamp), "⏰ Час оновлення повідомлення:", stamp]
  }

  /** The preview's lines, or the error it throws. */
  function PassedLines(info: PassedInfo, updateTimestamp: JsVal, stamp: string): Result<seq<string>, string> {
    if info.isEmergency && info.passedOutage.None? then Failure(NoPassedOutage)
    else
      var head := if info.isEmergency then PassedSection(info.passedOutage.value) else [];
      if ShowsNext(info) then
        match NextSection(info.nextOutage.value.timeRange.s)
        case Failure(err) => Failure(err)
        case Success(next) => Success(head + next + PassedFooter(updateTimestamp, stamp))
      else Success(head + PassedFooter(updateTimestamp, stamp))
  }

  /** `formatEmergencyOutagePassedMessage` with the message-time `stamp`:
      the text, or the TypeError it throws. */
  method FormatOutagePassedMessage(info: PassedInfo, updateTimestamp: JsVal, stamp: string)
    returns (r: Result<string, string>)
    ensures PassedLines(info, updateTimestamp, stamp).Failure? ==> r == Failure(PassedLines(info, updateTimestamp, stamp).error)
    ensures PassedLines(info, updateTimestamp, stamp).Success? ==>
              r == Success(Join(PassedLines(info, updateTimestamp, stamp).value, "\n"))
  {
    var messageParts: seq<string> := [];
    if info.isEmergency {
      if info.passedOutage.None? {
        return Failure(NoPassedOutage);
      }
      var e := info.passedOutage.value;
      var duration := "";
      if Truthy(e.startDate) && Truthy(e.endDate) {
        var startParts := ParseDate(e.startDate.s);
        var endParts := ParseDate(e.endDate.s);
        if startParts.Some? && endParts.Some? {
          var startTime := LocalMinutes(startParts.value);
          var endTime := LocalMinutes(endParts.value);
          duration := DurationText(Minus(endTime, startTime));
        }
      }
      assert duration == EmergencyDuration(EmergencySpan(e.startDate, e.endDate));
      messageParts := messageParts + [PassedHeader, "", "ℹ️ Тип:", OrElse(e.subType, "Невідомо"),
                                      "", "🔴 Початок:", OrElse(e.startDate, "Невідомо"),
                                      "", "🟢 Завершено:", OrElse(e.endDate, "Невідомо")];
      if duration != "" {
        messageParts := messageParts + ["", "⏱ Тривалість:", duration];
      }
      assert messageParts == PassedSection(e);
    }
    ghost var head := messageParts;
    if info.nextOutage.Some? && Truthy(info.nextOutage.value.timeRange) {
      var timeRange := info.nextOutage.value.timeRange.s;
      var ends := Split(timeRange, '-');
      if |ends| < 2 {
        return Failure(EndTimeUndefined);
      }
      var startInMinutes := ClockMinutes(ends[0]);
      var endInMinutes := ClockMinutes(ends[1]);
      var durationInMinutes := Minus(endInMinutes, startInMinutes);
      var nextDuration := DurationText(durationInMinutes);
      messageParts := messageParts + ["", Monitor.Divider, "", NextHeader, "", "🕐 Час:", timeRange,
                                      "", "⏱ Тривалість:", nextDuration];
      assert messageParts == head + NextSection(timeRange).value;
    }
    messageParts := messageParts + ["", "⏰ Час оновлення інформації:", OrElse(updateTimestamp, stamp),
                                    "⏰ Час оновлення повідомлення:", stamp];
    r := Success(Join(messageParts, "\n"));
  }

  /** The preview throws exactly when the emergency is flagged without its
      record, or the next range has no "-". Otherwise it opens with the
      "finished" header exactly when the emergency is flagged, shows the next
      range and its duration just before the two timestamps when there is a
      next range, and consists of the timestamps alone when there is neither. */
  lemma PassedLayout(info: PassedInfo, updateTimestamp: JsVal, stamp: string)
    ensures var r := PassedLines(info, updateTimestamp, stamp);
            r.Failure? <==>
              (info.isEmergency && info.passedOutage.None?) ||
              (ShowsNext(info) && '-' !in info.nextOutage.value.timeRange.s)
    ensures var r := PassedLines(info, updateTimestamp, stamp);
            r.Success? ==>
              var p := r.value;
              |p| >= 5 && p[|p| - 5..] == PassedFooter(updateTimestamp, stamp) &&
              (p[0] == PassedHeader <==> info.isEmergency) &&
              (info.isEmergency ==> p[3] == OrElse(info.passedOutage.value.subType, "Невідомо")) &&
              (ShowsNext(info) ==>
                 |p| >= 15 &&
                 p[|p| - 12] == NextHeader && p[|p| - 9] == info.nextOutage.value.timeRange.s &&
                 p[|p| - 6] == DurationText(RangeDuration(info.nextOutage.value.timeRange.s).value)) &&
              (!info.isEmergency && !ShowsNext(info) ==> p == PassedFooter(updateTimestamp, stamp))
  {
    PassedFailure(info, updateTimestamp, stamp);
    PassedPieces(info, updateTimestamp, stamp);
    PassedEnds(info, updateTimestamp, stamp);
    PassedNext(info, updateTimestamp, stamp);
  }

  /** A preview that does not throw is the finished section (when flagged),
      the next section (when shown) and the footer. */
  lemma PassedPieces(info: PassedInfo, updateTimestamp: JsVal, stamp: string)
    ensures var r := PassedLines(info, updateTimestamp, stamp);
            r.Success? ==>
              r.value == (if info.isEmergency then PassedSection(info.passedOutage.value) else []) +
                         (if ShowsNext(info) then NextSection(info.nextOutage.value.timeRange.s).value else []) +
                         PassedFooter(updateTimestamp, stamp)
  {
    var r := PassedLines(info, updateTimestamp, stamp);
    if r.Success? && !ShowsNext(info) {
      var head := if info.isEmergency then PassedSection(info.passedOutage.value) else [];
      assert head + [] == head;
    }
  }

  lemma PassedEnds(info: PassedInfo, updateTimestamp: JsVal, stamp: string)
    ensures var r := PassedLines(info, updateTimestamp, stamp);
            r.Success? ==>
              var p := r.value;
              |p| >= 5 && p[|p| - 5..] == PassedFooter(updateTimestamp, stamp) &&
              (p[0] == PassedHeader <==> info.isEmergency) &&
              (info.isEmergency ==> p[3] == OrElse(info.passedOutage.value.subType, "Невідомо")) &&
              (!info.isEmergency && !ShowsNext(info) ==> p == PassedFooter(updateTimestamp, stamp))
  {
    var r := PassedLines(info, updateTimestamp, stamp);
    if r.Success? {
      PassedPieces(info, updateTimestamp, stamp);
      var head := if info.isEmergency then PassedSection(info.passedOutage.value) else [];
      var next := if ShowsNext(info) then NextSection(info.nextOutage.value.timeRange.s).value else [];
      var foot := PassedFooter(updateTimestamp, stamp);
      if info.isEmergency {
        PassedSectionHead(info.passedOutage.value);
      }
      if ShowsNext(info) {
        PassedFailure(info, updateTimestamp, stamp);
        NextSectionShape(info.nextOutage.value.timeRange.s);
      }
      SectionsAround(head, next, foot);
    }
  }

  lemma PassedNext(info: PassedInfo, updateTimestamp: JsVal, stamp: string)
    ensures var r := PassedLines(info, updateTimestamp, stamp);
            r.Success? && ShowsNext(info) ==>
              var p := r.value;
              |p| >= 15 &&
              p[|p| - 12] == NextHeader && p[|p| - 9] == info.nextOutage.value.timeRange.s &&
              p[|p| - 6] == DurationText(RangeDuration(info.nextOutage.value.timeRange.s).value)
  {
    var r := PassedLines(info, updateTimestamp, stamp);
    if r.Success? && ShowsNext(info) {
      PassedPieces(info, updateTimestamp, stamp);
      var head := if info.isEmergency then PassedSection(info.passedOutage.value) else [];
      var next := NextSection(info.nextOutage.value.timeRange.s).value;
      PassedFailure(info, updateTimestamp, stamp);
      NextSectionShape(info.nextOutage.value.timeRange.s);
      SectionsAround(head, next, PassedFooter(updateTimestamp, stamp));
    }
  }

  /** The finished section opens with its header and has the reason on its
      fourth line. */
  lemma PassedSectionHead(e: EmergencyOutage)
    ensures var p := PassedSection(e);
            |p| >= 10 && p[0] == PassedHeader && p[3] == OrElse(e.subType, "Невідомо")
  {
  }

  /** A next section that is shown has ten lines: the header on the fourth,
      the range on the seventh and its duration on the tenth. */
  lemma NextSectionShape(timeRange: string)
    requires RangeDuration(timeRange).Success?
    ensures var n := NextSection(timeRange);
            n.Success? && |n.value| == 10 && n.value[0] == "" && n.value[3] == NextHeader &&
            n.value[6] == timeRange && n.value[9] == DurationText(RangeDuration(timeRange).value)
  {
  }

  /** The preview throws exactly in the two cases named above. */
  lemma PassedFailure(info: PassedInfo, updateTimestamp: JsVal, stamp: string)
    ensures PassedLines(info, updateTimestamp, stamp).Failure? <==>
              (info.isEmergency && info.passedOutage.None?) ||
              (ShowsNext(info) && '-' !in info.nextOutage.value.timeRange.s)
  {
    if ShowsNext(info) {
      var t := info.nextOutage.value.timeRange.s;
      if '-' in t {
        SplitHasSeparator(t, '-');
      } else {
        SplitWithoutSeparator(t, '-');
      }
    }
  }

  /** Where the pieces of a preview sit once they are put together. */
  lemma SectionsAround(head: seq<string>, next: seq<string>, foot: seq<string>)
    requires |foot| == 5 && (|next| == 0 || |next| == 10)
    ensures var p := head + next + foot;
            p[|p| - 5..] == foot &&
            (|head| > 0 ==> p[0] == head[0]) &&
            (|head| >= 4 ==> p[3] == head[3]) &&
            (|head| == 0 ==> p[0] == (if |next| > 0 then next[0] else foot[0])) &&
            (|next| == 10 ==> p[|p| - 12] == next[3] && p[|p| - 9] == next[6] && p[|p| - 6] == next[9])
  {
    var p := head + next + foot;
    assert p[|p| - 5..] == foot;
  }

  /** When both dates parse, the finished emergency takes thirteen lines:
      the header, the reason on the fourth and the duration on the last. */
  lemma PassedSectionShape(e: EmergencyOutage)
    requires EmergencySpan(e.startDate, e.endDate).Some?
    ensures var p := PassedSection(e);
            |p| == 13 && p[0] == PassedHeader && p[3] == OrElse(e.subType, "Невідомо") &&
            p[12] == EmergencyDuration(EmergencySpan(e.startDate, e.endDate))
  {
    EmergencyDurationShown(EmergencySpan(e.startDate, e.endDate));
  }

  /** A flagged emergency followed by a well-formed next range: the finished
      emergency, the next outage and the footer, in that order. */
  lemma PassedLinesWithNext(info: PassedInfo, updateTimestamp: JsVal, stamp: string)
    requires info.isEmergency && info.passedOutage.Some? && ShowsNext(info)
    requires NextSection(info.nextOutage.value.timeRange.s).Success?
    ensures PassedLines(info, updateTimestamp, stamp) ==
            Success(PassedSection(info.passedOutage.value) + NextSection(info.nextOutage.value.timeRange.s).value +
                    PassedFooter(updateTimestamp, stamp))
  {
  }

  // ---------------------------------------------------------------------------
  // The script's own example

  /** The outage passed at noon, and the next one from 10:00 to 13:00. */
  const Example := PassedInfo(
    Some(EmergencyOutage(Str(RealEmergencyText), Str("07:55 20.01.2026"), Str("12:00 20.01.2026"), Str("2"))),
    true,
    Some(Upcoming(Str("10:00-13:00"), Str("Світла немає"), Str("no"))),
    Str("GPV1.2"))

  lemma ExampleDigits()
    ensures Pad2(7) == "07" && Pad2(1) == "01" && Pad2(0) == "00"
    ensures Pad2(55) == "55" && Pad2(20) == "20" && Pad2(12) == "12" && Pad2(10) == "10" && Pad2(13) == "13"
  {
    Schedule.PadZero();
    Schedule.Pad2Of(55);
    Schedule.Pad2Of(20);
    Schedule.Pad2Of(12);
    Schedule.Pad2Of(10);
    Schedule.Pad2Of(13);
    assert NatToString(7) == "7" && NatToString(1) == "1";
  }

  lemma ExampleYear()
    ensures NatToString(2026) == "2026"
  {
    assert NatToString(20) == "20" by {
      assert NatToString(20) == NatToString(2) + [DigitChar(0)];
    }
    assert NatToString(202) == NatToString(20) + [DigitChar(2)];
    assert NatToString(2026) == NatToString(202) + [DigitChar(6)];
  }

  lemma ExampleDate()
    ensures DateText(20, 1, 2026) == "20.01.2026"
  {
    ExampleDigits();
    ExampleYear();
  }

  lemma ExampleStartText()
    ensures "07:55 20.01.2026" == ClockText(7, 55) + " " + DateText(20, 1, 2026)
  {
    ExampleDigits();
    ExampleDate();
  }

  lemma ExampleEndText()
    ensures "12:00 20.01.2026" == ClockText(12, 0) + " " + DateText(20, 1, 2026)
  {
    ExampleDigits();
    ExampleDate();
  }

  lemma ExampleRangeText()
    ensures "10:00-13:00" == ClockText(10, 0) + "-" + ClockText(13, 0)
  {
    ExampleDigits();
  }

  /** The emergency outage ran from 07:55 to 12:00, 245 minutes. */
  lemma ExampleSpan()
    ensures var e := Example.passedOutage.value;
            var span := EmergencySpan(e.startDate, e.endDate);
            span.Some? && Minus(span.value.1, span.value.0) == Int(245)
  {
    var start := ClockText(7, 55) + " " + DateText(20, 1, 2026);
    var end := ClockText(12, 0) + " " + DateText(20, 1, 2026);
    SameDaySpan(7, 55, 12, 0, 20, 1, 2026);
    assert Example.passedOutage.value.startDate == Str(start) by {
      ExampleStartText();
    }
    assert Example.passedOutage.value.endDate == Str(end) by {
      ExampleEndText();
    }
  }

  lemma ExampleDurations()
    ensures DurationText(Int(245)) == "4 год 5 хв"
    ensures DurationText(Int(180)) == "3 год"
  {
    assert IntToString(4) == "4" && IntToString(5) == "5" && IntToString(3) == "3";
  }

  lemma ExampleNext()
    ensures var n := NextSection("10:00-13:00");
            n.Success? && |n.value| == 10 && n.value[3] == NextHeader &&
            n.value[6] == "10:00-13:00" && n.value[9] == "3 год"
  {
    ExampleRange();
    ExampleDurations();
    NextSectionShape("10:00-13:00");
  }

  lemma ExampleRange()
    ensures RangeDuration("10:00-13:00") == Success(Int(180))
  {
    ExampleRangeText();
    FixtureRange("10:00-13:00");
  }

  /** The fixture's range, built from its clock readings, lasts 180 minutes. */
  lemma FixtureRange(range: string)
    requires range == ClockText(10, 0) + "-" + ClockText(13, 0)
    ensures RangeDuration(range) == Success(Int(180))
  {
    RangeDurationOfText(range, 10, 0, 13, 0);
  }

  lemma ExamplePassed()
    ensures var p := PassedSection(Example.passedOutage.value);
            |p| == 13 && p[0] == PassedHeader && p[3] == RealEmergencyText && p[12] == "4 год 5 хв"
  {
    ExampleSpan();
    FixturePassed(Example.passedOutage.value);
  }

  /** A finished emergency with the fixture's reason that lasted 245 minutes. */
  lemma FixturePassed(e: EmergencyOutage)
    requires e.subType == Str(RealEmergencyText)
    requires var span := EmergencySpan(e.startDate, e.endDate);
             span.Some? && Minus(span.value.1, span.value.0) == Int(245)
    ensures var p := PassedSection(e);
            |p| == 13 && p[0] == PassedHeader && p[3] == RealEmergencyText && p[12] == "4 год 5 хв"
  {
    PassedSectionShape(e);
    ExampleDurations();
    assert |RealEmergencyText| > 0;
  }

  /** The example's message: 28 lines, the reason on the fourth, "4 год 5 хв"
      for the emergency, the range "10:00-13:00" lasting "3 год", and the
      provider's timestamp shown as the update time. */
  lemma ExampleMessage(stamp: string)
    ensures var r := PassedLines(Example, Str("08:18 20.01.2026"), stamp);
            r.Success? && |r.value| == 28 &&
            r.value[0] == PassedHeader && r.value[3] == RealEmergencyText &&
            r.value[12] == "4 год 5 хв" && r.value[19] == "10:00-13:00" && r.value[22] == "3 год" &&
            r.value[25] == "08:18 20.01.2026" && r.value[27] == stamp
  {
    var u := Str("08:18 20.01.2026");
    ExampleNext();
    ExamplePassed();
    PassedLinesWithNext(Example, u, stamp);
    ThreeParts(PassedSection(Example.passedOutage.value), NextSection("10:00-13:00").value, PassedFooter(u, stamp));
  }

  lemma ThreeParts(a: seq<string>, b: seq<string>, c: seq<string>)
    requires |a| == 13 && |b| == 10 && |c| == 5
    ensures var p := a + b + c;
            |p| == 28 && p[0] == a[0] && p[3] == a[3] && p[12] == a[12] &&
            p[19] == b[6] && p[22] == b[9] && p[25] == c[2] && p[27] == c[4]
  {
  }
}

/** test-emergency-message.js: the preview of the emergency message. The
    script detects an emergency by the text markers alone, and formats the
    reason, the start and the expected restoration, whether the outage is
    active now, and how long it lasts. */
module EmergencyMessage {
  import opened Optional
  import opened Js
  import opened Clock
  import opened Document
  import opened Detection
  import Monitor

  /** The script's `checkOutage`: a missing document or house reads as an
      empty record, and only a marked reason counts. */
  function CheckEmergency(info: Info, house: string): (e: Option<EmergencyOutage>)
    ensures e.Some? <==> EmergencyText(HouseOf(info, house).subType)
    ensures e.Some? ==> e.value == EmergencyOf(HouseOf(info, house)) && Flags(FieldRule, HouseOf(info, house))
  {
    var h := HouseOf(info, house);
    var isEmergencyOutageText := EmergencyText(h.subType);
    var hasEmergencyOutage := isEmergencyOutageText && FieldsPresent(h);
    if hasEmergencyOutage then Some(EmergencyOf(h)) else None
  }

  /** Whatever the preview shows, the monitor reports too; the converse fails
      for an unmarked reason. */
  lemma PreviewRefinesMonitor(info: Info, house: string, now: int, todayKey: int)
    requires info.data.Some?
    ensures CheckEmergency(info, house).Some? ==> Monitor.CheckOutage(info, house, now, todayKey).value.emergency.Some?
    ensures CheckEmergency(info, house).Some? ==>
              Monitor.CheckOutage(info, house, now, todayKey).value.emergency == CheckEmergency(info, house)
  {
  }

  const Banner := "🚨🚨🚨 ЕКСТРЕНЕ ВІДКЛЮЧЕННЯ! 🚨🚨🚨"
  const ActiveNotice := "⚠️ ЗАРАЗ АКТИВНЕ!"
  const WarningNotice := "⚠️ УВАГА! Аварійне відключення!"

  /** The preview's lines: the banner, the notice (active now or not), the three
      fields with "Невідомо" for a missing one, the duration when it was
      computed, then the heavy line and the two timestamps. */
  function EmergencyLines(e: EmergencyOutage, updateTimestamp: JsVal, now: int, stamp: string): seq<string> {
    var span := EmergencySpan(e.startDate, e.endDate);
    var duration := EmergencyDuration(span);
    [Banner, "", if ActiveAt(span, now) then ActiveNotice else WarningNotice, "",
     "ℹ️ Тип:", OrElse(e.subType, "Невідомо"),
     "", "🔴 Початок:", OrElse(e.startDate, "Невідомо"),
     "", "🟢 Очікуване відновлення:", OrElse(e.endDate, "Невідомо")] +
    (if duration != "" then ["", "⏱ Тривалість:", duration] else []) +
    ["", Monitor.Divider, "", "⏰ Час оновлення інформації:", OrElse(updateTimestamp, stamp),
     "⏰ Час оновлення повідомлення:", stamp]
  }

  /** `formatEmergencyMessage` at local minute `now`, with the message-time
      `stamp`: parse both dates when both are present, derive the activity
      flag and the duration, then push the lines. */
  method FormatEmergencyMessage(e: EmergencyOutage, updateTimestamp: JsVal, now: int, stamp: string)
    returns (text: string)
    ensures text == Join(EmergencyLines(e, updateTimestamp, now, stamp), "\n")
  {
    var isActiveNow := false;
    var duration := "";
    if Truthy(e.startDate) && Truthy(e.endDate) {
      var startParts := ParseDate(e.startDate.s);
      var endParts := ParseDate(e.endDate.s);
      if startParts.Some? && endParts.Some? {
        var startTime := LocalMinutes(startParts.value);
        var endTime := LocalMinutes(endParts.value);
        isActiveNow := AtMost(startTime, now) && Above(endTime, now);
        duration := DurationText(Minus(endTime, startTime));
      }
    }
    ghost var span := EmergencySpan(e.startDate, e.endDate);
    assert isActiveNow == ActiveAt(span, now) && duration == EmergencyDuration(span);
    var messageParts := [Banner, "", if isActiveNow then ActiveNotice else WarningNotice, "",
                         "ℹ️ Тип:", OrElse(e.subType, "Невідомо"),
                         "", "🔴 Початок:", OrElse(e.startDate, "Невідомо"),
                         "", "🟢 Очікуване відновлення:", OrElse(e.endDate, "Невідомо")];
    ghost var head := messageParts;
    if duration != "" {
      messageParts := messageParts + ["", "⏱ Тривалість:", duration];
    }
    assert messageParts == head + (if duration != "" then ["", "⏱ Тривалість:", duration] else []);
    messageParts := messageParts + ["", Monitor.Divider, "", "⏰ Час оновлення інформації:",
                                    OrElse(updateTimestamp, stamp), "⏰ Час оновлення повідомлення:", stamp];
    assert messageParts == EmergencyLines(e, updateTimestamp, now, stamp);
    text := Join(messageParts, "\n");
  }

  /** The notice says "active now" exactly when the local time lies within
      the parsed span; the duration lines appear exactly when both dates
      parsed; the two timestamps close the message. */
  lemma EmergencyLayout(e: EmergencyOutage, updateTimestamp: JsVal, now: int, stamp: string)
    ensures var p := EmergencyLines(e, updateTimestamp, now, stamp);
            var span := EmergencySpan(e.startDate, e.endDate);
            |p| == (if span.Some? then 22 else 19) &&
            (p[2] == ActiveNotice <==> ActiveAt(span, now)) &&
            (ActiveAt(span, now) ==> Truthy(e.startDate) && Truthy(e.endDate)) &&
            p[5] == OrElse(e.subType, "Невідомо") &&
            (span.Some? ==> p[13] == "⏱ Тривалість:" && p[14] == DurationText(Minus(span.value.1, span.value.0))) &&
            p[|p| - 3] == OrElse(updateTimestamp, stamp) && p[|p| - 1] == stamp
  {
    EmergencyDurationShown(EmergencySpan(e.startDate, e.endDate));
    assert ActiveNotice != WarningNotice by {
      assert |ActiveNotice| != |WarningNotice|;
    }
  }
}

/** daily-summary.js: the morning summary. `checkPlannedOutages` reads the
    house record with the same populated-field rule as the monitor, and
    `sendDailySummary` picks one of two fixed templates and posts it to the
    chat. */
module DailySummary {
  import opened Optional
  import opened Js
  import opened Document
  import opened Detection
  import Monitor

  /** `{hasOutage: false}`, or `{hasOutage: true, sub_type, start_date,
      end_date, type}`. */
  datatype PlannedOutages = NothingPlanned | Planned(outage: EmergencyOutage)

  /** `checkPlannedOutages`: the error for a document without `data`; a house
      that is not listed reads as an empty record. */
  function CheckPlannedOutages(info: Info, house: string): (r: Result<PlannedOutages, string>)
    ensures r.Failure? <==> info.data.None?
    ensures r.Failure? ==> r.error == Monitor.InfoMissed
    ensures r.Success? ==> (r.value.Planned? <==> FieldsPresent(HouseOf(info, house)))
    ensures r.Success? && r.value.Planned? ==> r.value.outage == EmergencyOf(HouseOf(info, house))
  {
    if info.data.None? then Failure(Monitor.InfoMissed)
    else
      var h := HouseOf(info, house);
      // `v && v !== ""` is the truthiness of a string-or-missing field.
      var hasOutageInfo := Truthy(h.subType) || Truthy(h.startDate) || Truthy(h.endDate) || Truthy(h.typeCode);
      if hasOutageInfo then Success(Planned(EmergencyOutage(h.subType, h.startDate, h.endDate, h.typeCode)))
      else Success(NothingPlanned)
  }

  /** The summary announces a planned outage exactly when the monitor reports
      an emergency for the same document, and with the same four fields. */
  lemma SummaryAgreesWithMonitor(info: Info, house: string, now: int, todayKey: int)
    requires info.data.Some?
    ensures var r := CheckPlannedOutages(info, house);
            var m := Monitor.CheckOutage(info, house, now, todayKey);
            r.Success? && m.Success? &&
            (r.value.Planned? <==> m.value.emergency.Some?) &&
            (r.value.Planned? ==> m.value.emergency == Some(r.value.outage))
  {
  }

  /** A house missing from the document has nothing planned. */
  lemma UnlistedHouseHasNothingPlanned(info: Info, house: string)
    requires info.data.Some? && house !in info.data.value
    ensures CheckPlannedOutages(info, house) == Success(NothingPlanned)
  {
  }

  const Greeting := "🌅 <b>Доброго ранку!</b>"
  const PlannedHeading := "📋 <b>Інформація про відключення на сьогодні:</b>"
  const GoodNews := "✅ <b>Відмінні новини!</b>"
  const NothingToday := "Планових відключень електроенергії на сьогодні не заплановано."
  const StampHeading := "⏰ <b>Час формування повідомлення:</b>"

  /** The lines of the summary for the Kyiv `timestamp` "HH:MM DD.MM.YYYY". */
  function SummaryLines(planned: PlannedOutages, timestamp: string): seq<string> {
    match planned
    case Planned(e) =>
      [Greeting, "", PlannedHeading, "",
       "⚠️ <b>Статус:</b>", "Заплановане відключення", "",
       "ℹ️ <b>Причина:</b>", OrElse(e.subType, "Невідома") + ".", "",
       "🔴 <b>Час початку:</b>", OrElse(e.startDate, "Невідомий"), "",
       "🟢 <b>Час відновлення:</b>", OrElse(e.endDate, "Невідомий"), "",
       StampHeading, timestamp]
    case NothingPlanned =>
      [Greeting, "", GoodNews, "", NothingToday, "",
       "⚡️ Можете планувати свій день без обмежень!", "",
       StampHeading, timestamp]
  }

  /** The `sendMessage` request: the chat, the text, and HTML parse mode. */
  datatype SummaryRequest = SummaryRequest(endpoint: string, chatId: string, text: string, parseMode: string)

  /** `sendDailySummary`: the two configuration errors, then the request; a
      `sendError` of the transport is rethrown as it came. */
  function SendDailySummary(token: JsVal, chatId: JsVal, planned: PlannedOutages, timestamp: string,
                            sendError: Option<string>): (r: Result<SummaryRequest, string>)
    ensures !Truthy(token) ==> r == Failure(Monitor.MissingToken)
    ensures Truthy(token) && !Truthy(chatId) ==> r == Failure(Monitor.MissingChatId)
    ensures Truthy(token) && Truthy(chatId) && sendError.Some? ==> r == Failure(sendError.value)
    ensures r.Success? <==> Truthy(token) && Truthy(chatId) && sendError.None?
    ensures r.Success? ==>
              r.value.endpoint == Monitor.SendEndpoint && r.value.chatId == chatId.s && r.value.parseMode == "HTML" &&
              r.value.text == Join(SummaryLines(planned, timestamp), "\n")
  {
    if !Truthy(token) then Failure(Monitor.MissingToken)
    else if !Truthy(chatId) then Failure(Monitor.MissingChatId)
    else
      var text := Join(SummaryLines(planned, timestamp), "\n");
      if sendError.Some? then Failure(sendError.value)
      else Success(SummaryRequest(Monitor.SendEndpoint, chatId.s, text, "HTML"))
  }

  /** The outage template is used exactly when an outage is planned; missing
      fields read "Невідома"/"Невідомий", the reason line always ends in a
      full stop, and the timestamp is the last line of either template. */
  lemma SummaryLayout(planned: PlannedOutages, timestamp: string)
    ensures var p := SummaryLines(planned, timestamp);
            |p| == (if planned.Planned? then 18 else 10) &&
            p[0] == Greeting && p[|p| - 2] == StampHeading && p[|p| - 1] == timestamp &&
            (p[2] == PlannedHeading <==> planned.Planned?) &&
            (p[2] == GoodNews <==> planned.NothingPlanned?) &&
            (planned.Planned? ==>
               var e := planned.outage;
               p[8][|p[8]| - 1] == '.' &&
               (p[8] == "Невідома." <==> !Truthy(e.subType) || e.subType.s == "Невідома") &&
               p[11] == OrElse(e.startDate, "Невідомий") && p[14] == OrElse(e.endDate, "Невідомий"))
  {
    assert PlannedHeading != GoodNews by {
      assert |PlannedHeading| != |GoodNews|;
    }
    if planned.Planned? {
      var s := OrElse(planned.outage.subType, "Невідома");
      assert s + "." == "Невідома." <==> s == "Невідома" by {
        if s + "." == "Невідома." {
          assert s == (s + ".")[..|s|];
        }
      }
    }
  }

  /** The sent text opens with the greeting and closes with a line break and
      the timestamp, whichever template was chosen. */
  lemma SummaryTextEnds(planned: PlannedOutages, timestamp: string)
    ensures var p := SummaryLines(planned, timestamp);
            var text := Join(p, "\n");
            text == Join(p[..|p| - 1], "\n") + "\n" + timestamp &&
            |text| >= |Greeting| && text[..|Greeting|] == Greeting
  {
    var p := SummaryLines(planned, timestamp);
    assert p == p[..|p| - 1] + [timestamp];
    JoinSnoc(p[..|p| - 1], "\n", timestamp);
    assert Join(p, "\n") == Greeting + "\n" + Join(p[1..], "\n");
  }
}

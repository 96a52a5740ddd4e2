/** monitor.js around the schedule lookup: `checkOutage`, the outage-state
    hash and the ten-minute duplicate check, the bounded message history, the
    stored last message with its daily reset, and the notification text and
    Telegram delivery of `sendNotification`. */
module Monitor {
  import opened Optional
  import opened Js
  import opened Document
  import opened Detection
  import opened Schedule

  // ---------------------------------------------------------------------------
  // checkOutage

  datatype OutageData = OutageData(
    isOutageDetected: bool,
    emergency: Option<EmergencyOutage>,
    scheduled: Option<ScheduledOutage>)

  const InfoMissed := "❌ Power outage info missed."

  /** `info.preset?.data && info.fact?.data && sub_type_reason`: the scheduled
      lookup needs the legend, the grid and the queue list. */
  predicate LooksUpSchedule(info: Info, h: HouseRecord) {
    info.presetData && info.factData.Some? && h.subTypeReason.Some?
  }

  /** `checkOutage`, with the current Kyiv minute and today's day key passed
      in for the scheduled lookup. */
  function CheckOutage(info: Info, house: string, now: int, todayKey: int): (r: Result<OutageData, string>)
    ensures r.Failure? <==> info.data.None?
    ensures r.Failure? ==> r.error == InfoMissed
    ensures r.Success? ==>
              var h := HouseOf(info, house);
              (r.value.emergency.Some? <==> FieldsPresent(h)) &&
              (r.value.emergency.Some? ==> r.value.emergency.value == EmergencyOf(h)) &&
              (r.value.scheduled.Some? ==> LooksUpSchedule(info, h)) &&
              (LooksUpSchedule(info, h) ==>
                 r.value.scheduled == ScheduledWindow(info, h.subTypeReason.value, now, todayKey)) &&
              (r.value.isOutageDetected <==> r.value.emergency.Some? || r.value.scheduled.Some?)
  {
    if info.data.None? then Failure(InfoMissed)
    else
      var h := HouseOf(info, house);
      var emergency := if FieldsPresent(h) then Some(EmergencyOf(h)) else None;
      var scheduled := if LooksUpSchedule(info, h) then ScheduledWindow(info, h.subTypeReason.value, now, todayKey)
                       else None;
      Success(OutageData(FieldsPresent(h) || scheduled.Some?, emergency, scheduled))
  }

  /** An outage is detected exactly when some emergency field is filled in, or
      the lookup runs and today's row flags an hour whose merged range holds
      `now` or starts after it. */
  lemma DetectedWhen(info: Info, house: string, now: int, todayKey: int)
    requires info.data.Some?
    ensures var h := HouseOf(info, house);
            CheckOutage(info, house, now, todayKey).value.isOutageDetected <==>
              FieldsPresent(h) ||
              (LooksUpSchedule(info, h) &&
               var row := TodayRow(info, Show(At(h.subTypeReason.value, 0)), todayKey);
               row.Some? &&
               (exists hr :: 1 <= hr <= 24 && FlaggedAt(row.value, hr)) &&
               (var ranges := Merged(Decoded(row.value, info.legend, info.statusNames, 24));
                exists k :: 0 <= k < |ranges| && (Holds(ranges[k], now) || StartsAfter(ranges[k], now))))
  {
    var h := HouseOf(info, house);
    if LooksUpSchedule(info, h) {
      WindowCases(info, h.subTypeReason.value, now, todayKey);
    }
  }

  // ---------------------------------------------------------------------------
  // createMessageHash

  /** What the hash records of an outage state: the emergency's reason and
      dates, the queue group, and the time ranges of the current and the next
      scheduled outage. Descriptions, statuses and the type code are not part
      of it. */
  datatype HashKey = HashKey(
    emergency: Option<(string, string, string)>,
    queue: Option<(string, Option<string>, Option<string>)>)

  function TimeOf(o: Option<Outage>): Option<string> {
    if o.Some? then Some(o.value.timeRange) else None
  }

  function KeyOf(d: OutageData): HashKey {
    HashKey(
      if d.emergency.Some? then
        Some((Show(d.emergency.value.subType), Show(d.emergency.value.startDate), Show(d.emergency.value.endDate)))
      else None,
      if d.scheduled.Some? then
        Some((Show(d.scheduled.value.queueGroup), TimeOf(d.scheduled.value.current), TimeOf(d.scheduled.value.next)))
      else None)
  }

  /** The hash split at every "|": tagged fields, the emergency's dates untagged. */
  function Pieces(k: HashKey): seq<string> {
    (if k.emergency.Some? then ["E:" + k.emergency.value.0, k.emergency.value.1, k.emergency.value.2] else []) +
    QueuePieces(k.queue)
  }

  function QueuePieces(q: Option<(string, Option<string>, Option<string>)>): seq<string> {
    if q.None? then []
    else
      ["Q:" + q.value.0] +
      (if q.value.1.Some? then ["C:" + q.value.1.value] else []) +
      (if q.value.2.Some? then ["N:" + q.value.2.value] else [])
  }

  /** The outage-state hash: the pieces joined with "|". */
  function MessageHash(d: OutageData): string {
    Join(Pieces(KeyOf(d)), "|")
  }

  /** `createMessageHash`, pushing its parts one by one. */
  method CreateMessageHash(d: OutageData) returns (hash: string)
    ensures hash == MessageHash(d)
  {
    var parts: seq<string> := [];
    if d.emergency.Some? {
      var e := d.emergency.value;
      parts := parts + ["E:" + Show(e.subType) + "|" + Show(e.startDate) + "|" + Show(e.endDate)];
    }
    ghost var before := parts;
    if d.scheduled.Some? {
      var s := d.scheduled.value;
      parts := parts + ["Q:" + Show(s.queueGroup)];
      if s.current.Some? {
        parts := parts + ["C:" + s.current.value.timeRange];
      }
      if s.next.Some? {
        parts := parts + ["N:" + s.next.value.timeRange];
      }
    }
    assert parts == before + QueuePieces(KeyOf(d).queue);
    hash := Join(parts, "|");
    var k := KeyOf(d);
    var q := QueuePieces(k.queue);
    assert parts == (if d.emergency.Some? then [parts[0]] else []) + q;
    if d.emergency.Some? {
      var e := k.emergency.value;
      var three := ["E:" + e.0, e.1, e.2];
      assert parts[0] == three[0] + "|" + three[1] + "|" + three[2];
      assert Pieces(k) == three + q;
      JoinFlatten(three, q);
    } else {
      assert Pieces(k) == q;
    }
  }

  /** Joining with "|" a part that itself contains the separators is joining
      its pieces. */
  lemma JoinFlatten(three: seq<string>, rest: seq<string>)
    requires |three| == 3
    ensures Join([three[0] + "|" + three[1] + "|" + three[2]] + rest, "|") == Join(three + rest, "|")
  {
    var w := three + rest;
    var big := three[0] + "|" + three[1] + "|" + three[2];
    assert w[1..][1..] == [three[2]] + rest;
    assert Join(w, "|") == three[0] + "|" + Join(w[1..], "|");
    assert Join(w[1..], "|") == three[1] + "|" + Join(w[1..][1..], "|");
    if rest == [] {
      assert Join([big] + rest, "|") == big;
      assert Join(w[1..][1..], "|") == three[2];
    } else {
      assert ([three[2]] + rest)[1..] == rest;
      assert ([big] + rest)[1..] == rest;
      assert Join([big] + rest, "|") == big + "|" + Join(rest, "|");
      assert Join(w[1..][1..], "|") == three[2] + "|" + Join(rest, "|");
    }
  }

  lemma QueuePiecesShape(q: Option<(string, Option<string>, Option<string>)>)
    ensures q.None? <==> QueuePieces(q) == []
    ensures q.Some? ==> QueuePieces(q)[0] == "Q:" + q.value.0
  {
  }

  /** No part of the hash is empty-headed: the hash is the empty string exactly
      when there is neither an emergency nor a scheduled outage. */
  lemma HashEmptyIffNothing(d: OutageData)
    ensures MessageHash(d) == "" <==> d.emergency.None? && d.scheduled.None?
  {
    var p := Pieces(KeyOf(d));
    QueuePiecesShape(KeyOf(d).queue);
    if p != [] {
      assert |p[0]| >= 2;
      JoinStartsWith(p);
    }
  }

  lemma JoinStartsWith(p: seq<string>)
    requires |p| >= 1
    ensures |Join(p, "|")| >= |p[0]|
  {
  }

  /** A checked outage state is reported exactly when its hash is non-empty. */
  lemma DetectedIffHash(info: Info, house: string, now: int, todayKey: int)
    requires info.data.Some?
    ensures var d := CheckOutage(info, house, now, todayKey).value;
            d.isOutageDetected <==> MessageHash(d) != ""
  {
    HashEmptyIffNothing(CheckOutage(info, house, now, todayKey).value);
  }

  /** Different outage states have different pieces. */
  lemma {:induction false} PiecesInjective(k1: HashKey, k2: HashKey)
    requires Pieces(k1) == Pieces(k2)
    ensures k1 == k2
  {
    var p := Pieces(k1);
    QueuePiecesShape(k1.queue);
    QueuePiecesShape(k2.queue);
    FirstTagOf(k1);
    FirstTagOf(k2);
    assert k1.emergency.Some? == k2.emergency.Some?;
    if k1.emergency.Some? && k2.emergency.Some? {
      var a, b := k1.emergency.value, k2.emergency.value;
      assert p[0] == "E:" + a.0 && p[0] == "E:" + b.0;
      TagInjective("E:", a.0, b.0);
      assert QueuePieces(k1.queue) == p[3..] == QueuePieces(k2.queue);
      QueueInjective(k1.queue, k2.queue);
    } else if k1.emergency.None? && k2.emergency.None? {
      assert p == QueuePieces(k1.queue) == QueuePieces(k2.queue);
      QueueInjective(k1.queue, k2.queue);
    }
  }

  /** The first character of the hash: 'E' with an emergency, 'Q' with only
      a scheduled outage. */
  function FirstTag(k: HashKey): char {
    if k.emergency.Some? then 'E' else if k.queue.Some? then 'Q' else ' '
  }

  lemma FirstTagOf(k: HashKey)
    ensures Pieces(k) == [] <==> k.emergency.None? && k.queue.None?
    ensures Pieces(k) != [] ==> |Pieces(k)[0]| > 0 && Pieces(k)[0][0] == FirstTag(k)
  {
    QueuePiecesShape(k.queue);
  }

  lemma TagInjective(tag: string, a: string, b: string)
    requires tag + a == tag + b
    ensures a == b
  {
    assert a == (tag + a)[|tag|..];
    assert b == (tag + b)[|tag|..];
  }

  lemma QueueInjective(q1: Option<(string, Option<string>, Option<string>)>,
                       q2: Option<(string, Option<string>, Option<string>)>)
    requires QueuePieces(q1) == QueuePieces(q2)
    ensures q1 == q2
  {
    QueuePiecesShape(q1);
    QueuePiecesShape(q2);
    if q1.Some? && q2.Some? {
      var p := QueuePieces(q1);
      TagInjective("Q:", q1.value.0, q2.value.0);
      var (_, c1, n1) := q1.value;
      var (_, c2, n2) := q2.value;
      TagsOf(q1);
      TagsOf(q2);
      assert |Tags(q1)| == |Tags(q2)|;
      assert forall i :: 0 <= i < |Tags(q1)| ==> Tags(q1)[i] == p[i][0] == Tags(q2)[i];
      assert Tags(q1) == Tags(q2);
      assert c1.Some? == c2.Some? && n1.Some? == n2.Some?;
      if c1.Some? {
        assert p[1] == "C:" + c1.value && QueuePieces(q2)[1] == "C:" + c2.value;
        TagInjective("C:", c1.value, c2.value);
      }
      if n1.Some? {
        assert p[|p| - 1] == "N:" + n1.value && QueuePieces(q2)[|p| - 1] == "N:" + n2.value;
        TagInjective("N:", n1.value, n2.value);
      }
    }
  }

  /** The first character of each piece of the queue part. */
  function Tags(q: Option<(string, Option<string>, Option<string>)>): seq<char> {
    if q.None? then []
    else ['Q'] + (if q.value.1.Some? then ['C'] else []) + (if q.value.2.Some? then ['N'] else [])
  }

  lemma TagsOf(q: Option<(string, Option<string>, Option<string>)>)
    ensures |Tags(q)| == |QueuePieces(q)|
    ensures forall i :: 0 <= i < |Tags(q)| ==> |QueuePieces(q)[i]| > 0 && QueuePieces(q)[i][0] == Tags(q)[i]
  {
  }

  /** Every recorded field is free of the "|" separator. */
  predicate BarFree(k: HashKey) {
    (k.emergency.Some? ==> '|' !in k.emergency.value.0 && '|' !in k.emergency.value.1 && '|' !in k.emergency.value.2) &&
    (k.queue.Some? ==>
       '|' !in k.queue.value.0 &&
       (k.queue.value.1.Some? ==> '|' !in k.queue.value.1.value) &&
       (k.queue.value.2.Some? ==> '|' !in k.queue.value.2.value))
  }

  lemma PiecesBarFree(k: HashKey)
    requires BarFree(k)
    ensures forall i :: 0 <= i < |Pieces(k)| ==> '|' !in Pieces(k)[i]
  {
    var q := QueuePieces(k.queue);
    assert forall i :: 0 <= i < |q| ==> '|' !in q[i];
  }

  /** When no recorded field contains "|", two outage states share a hash
      exactly when they agree on everything the hash records: the reason and
      dates of the emergency, the queue group and the two time ranges. */
  lemma HashDeterminesKey(d1: OutageData, d2: OutageData)
    requires BarFree(KeyOf(d1)) && BarFree(KeyOf(d2))
    ensures MessageHash(d1) == MessageHash(d2) <==> KeyOf(d1) == KeyOf(d2)
  {
    if MessageHash(d1) == MessageHash(d2) {
      var p1, p2 := Pieces(KeyOf(d1)), Pieces(KeyOf(d2));
      HashEmptyIffNothing(d1);
      HashEmptyIffNothing(d2);
      QueuePiecesShape(KeyOf(d1).queue);
      QueuePiecesShape(KeyOf(d2).queue);
      if p1 != [] && p2 != [] {
        PiecesBarFree(KeyOf(d1));
        PiecesBarFree(KeyOf(d2));
        SplitJoin(p1, '|');
        SplitJoin(p2, '|');
        PiecesInjective(KeyOf(d1), KeyOf(d2));
      }
    }
  }

  /** A "|" inside a reason makes two different emergencies share a hash. */
  lemma HashCollides()
    ensures var d1 := OutageData(true, Some(EmergencyOutage(Str("a|b"), Str("c"), Str("d"), Undefined)), None);
            var d2 := OutageData(true, Some(EmergencyOutage(Str("a"), Str("b|c"), Str("d"), Undefined)), None);
            KeyOf(d1) != KeyOf(d2) && MessageHash(d1) == MessageHash(d2)
  {
    var k1 := KeyOf(OutageData(true, Some(EmergencyOutage(Str("a|b"), Str("c"), Str("d"), Undefined)), None));
    var k2 := KeyOf(OutageData(true, Some(EmergencyOutage(Str("a"), Str("b|c"), Str("d"), Undefined)), None));
    assert k1 == HashKey(Some(("a|b", "c", "d")), None);
    assert k2 == HashKey(Some(("a", "b|c", "d")), None);
    assert "E:" + "a|b" == "E:a|b" && "E:" + "a" == "E:a";
    assert Pieces(k1) == ["E:a|b", "c", "d"];
    assert Pieces(k2) == ["E:a", "b|c", "d"];
    assert Join(["d"], "|") == "d";
    assert Join(["c", "d"], "|") == "c|d";
    assert Join(["b|c", "d"], "|") == "b|c|d";
    assert k1.emergency.value.0 != k2.emergency.value.0 by {
      assert |k1.emergency.value.0| == 3 && |k2.emergency.value.0| == 1;
    }
  }

  // ---------------------------------------------------------------------------
  // Message history and the duplicate check

  /** `{timestamp, hash, sent}`; the ISO timestamp is kept as milliseconds,
      NaN when it does not parse. */
  datatype HistoryEntry = HistoryEntry(timestamp: Numeric, hash: string, sent: bool)

  /** Ten minutes, in milliseconds. */
  const DuplicateWindowMs := 600000

  /** `isDuplicateMessage` at time `nowMs`: the last entry carries the same
      hash and was sent less than ten minutes ago. */
  function IsDuplicateMessage(history: seq<HistoryEntry>, data: OutageData, nowMs: int): (dup: bool)
    ensures dup <==>
              |history| > 0 && history[|history| - 1].hash == MessageHash(data) &&
              history[|history| - 1].timestamp.Int? &&
              nowMs - history[|history| - 1].timestamp.i < DuplicateWindowMs
  {
    if |history| == 0 then false
    else
      var last := history[|history| - 1];
      if last.hash == MessageHash(data) && last.timestamp.Int? then
        var diffMinutes := (nowMs - last.timestamp.i) as real / 1000.0 / 60.0;
        diffMinutes < 10.0
      else false
  }

  const MaxEntries := 50

  /** The history `saveMessageHistory` writes: the oldest entry dropped when
      the history already holds fifty, then the new entry appended. */
  function Retained(history: seq<HistoryEntry>, entry: HistoryEntry): (h: seq<HistoryEntry>)
    ensures |history| < MaxEntries ==> h == history + [entry]
    ensures |history| >= MaxEntries ==> h == history[1..] + [entry]
    ensures |history| <= MaxEntries ==> |h| <= MaxEntries
    ensures |h| > 0 && h[|h| - 1] == entry
  {
    (if |history| >= MaxEntries then history[1..] else history) + [entry]
  }

  /** `saveMessageHistory`: shift, then push. */
  method SaveMessageHistory(history: seq<HistoryEntry>, entry: HistoryEntry) returns (saved: seq<HistoryEntry>)
    ensures saved == Retained(history, entry)
  {
    saved := history;
    if |saved| >= MaxEntries {
      saved := saved[1..];
    }
    saved := saved + [entry];
  }

  /** The history after saving `entries` one by one, starting from none. */
  function Log(entries: seq<HistoryEntry>): seq<HistoryEntry>
    decreases |entries|
  {
    if entries == [] then [] else Retained(Log(entries[..|entries| - 1]), entries[|entries| - 1])
  }

  function Min(a: int, b: int): int {
    if a < b then a else b
  }

  /** The latest fifty of `entries` (all of them when fewer), oldest first. */
  function Latest(entries: seq<HistoryEntry>): seq<HistoryEntry> {
    entries[|entries| - Min(|entries|, MaxEntries)..]
  }

  /** The history always holds exactly the latest fifty entries, oldest first. */
  lemma {:induction false} LogKeepsLatest(entries: seq<HistoryEntry>)
    ensures Log(entries) == Latest(entries)
    decreases |entries|
  {
    if entries != [] {
      var n := |entries|;
      var before := entries[..n - 1];
      var x := entries[n - 1];
      LogKeepsLatest(before);
      RetainSuffix(before, x);
      assert before + [x] == entries;
    }
  }

  /** Saving after the latest entries keeps the latest entries. */
  lemma RetainSuffix(entries: seq<HistoryEntry>, x: HistoryEntry)
    ensures Retained(Latest(entries), x) == Latest(entries + [x])
  {
    var k := |entries| - Min(|entries|, MaxEntries);
    var h := entries[k..];
    var all := entries + [x];
    assert h + [x] == all[k..];
    if |h| >= MaxEntries {
      assert all[k..][1..] == all[k + 1..];
    }
  }

  /** Right after an entry is saved, the same outage state is a duplicate for
      exactly the next ten minutes. */
  lemma SavedIsDuplicateForTenMinutes(history: seq<HistoryEntry>, data: OutageData, sent: bool, t: int, later: int)
    ensures IsDuplicateMessage(Retained(history, HistoryEntry(Int(t), MessageHash(data), sent)), data, later)
            <==> later - t < DuplicateWindowMs
  {
  }

  /** A changed outage state is never a duplicate of the one just saved,
      unless the two differ only in what the hash does not record. */
  lemma ChangedStateIsNotDuplicate(history: seq<HistoryEntry>, d1: OutageData, d2: OutageData, sent: bool, t: int, later: int)
    requires BarFree(KeyOf(d1)) && BarFree(KeyOf(d2)) && KeyOf(d1) != KeyOf(d2)
    ensures !IsDuplicateMessage(Retained(history, HistoryEntry(Int(t), MessageHash(d1), sent)), d2, later)
  {
    HashDeterminesKey(d1, d2);
  }

  // ---------------------------------------------------------------------------
  // The stored last message

  /** `artifacts/last-message.json`: `{message_id, date}` of the last message
      sent, the date in Unix seconds. */
  datatype LastMessage = LastMessage(messageId: Option<int>, date: Option<int>)

  /** The `artifacts` directory: the last message and the message history. */
  datatype Artifacts = Artifacts(last: Option<LastMessage>, history: seq<HistoryEntry>)

  const DaySeconds := 86400
  const DayMs := 86400000

  /** The message's UTC day is before today's: comparing the ISO dates
      "YYYY-MM-DD" compares the day numbers. A zero or missing date is never
      stale. */
  predicate Stale(m: LastMessage, today: int) {
    m.date.Some? && m.date.value != 0 && m.date.value / DaySeconds < today
  }

  /** `deleteLastMessage` as written: it removes the whole `artifacts`
      directory, the message history with it. */
  function DeleteLastMessageAsWritten(store: Artifacts): (s: Artifacts)
    ensures s.last.None? && s.history == []
  {
    Artifacts(None, [])
  }

  /** `deleteLastMessage` as intended: only the last message goes. */
  function DeleteLastMessage(store: Artifacts): (s: Artifacts)
    ensures s.last.None? && s.history == store.history
  {
    store.(last := None)
  }

  /** `loadLastMessage` on day `today`, as written. */
  function LoadLastMessageAsWritten(store: Artifacts, today: int): (Option<LastMessage>, Artifacts) {
    if store.last.Some? && Stale(store.last.value, today) then (None, DeleteLastMessageAsWritten(store))
    else (store.last, store)
  }

  /** `loadLastMessage` with the intended delete: a message from an earlier
      day is forgotten, the history is kept. */
  function LoadLastMessage(store: Artifacts, today: int): (r: (Option<LastMessage>, Artifacts))
    ensures r.0.None? <==> store.last.None? || Stale(store.last.value, today)
    ensures r.0.Some? ==> r.0 == store.last && r.1 == store
    ensures r.1.last == r.0 && r.1.history == store.history
  {
    if store.last.Some? && Stale(store.last.value, today) then (None, DeleteLastMessage(store))
    else (store.last, store)
  }

  /** As written, the first message of a new day saves a history of that one
      entry: the forty-nine before it are erased with the directory. */
  lemma NewDayErasesHistoryAsWritten(store: Artifacts, today: int, entry: HistoryEntry)
    requires store.last.Some? && Stale(store.last.value, today)
    ensures Retained(LoadLastMessageAsWritten(store, today).1.history, entry) == [entry]
  {
  }

  /** A concrete run of it: a message from day 0 loaded on day 1 with a saved
      entry behind it. */
  lemma NewDayErasesHistoryExample()
    ensures var e := HistoryEntry(Int(0), "Q:1.1", true);
            var store := Artifacts(Some(LastMessage(Some(7), Some(60))), [e]);
            Stale(store.last.value, 1) && LoadLastMessageAsWritten(store, 1).1.history != store.history
  {
  }

  /** Which `deleteLastMessage` a send runs: the code's, which removes the
      whole `artifacts` directory, or the intended one, which removes only
      the last message. */
  datatype Deletion = WholeDirectory | LastMessageOnly

  /** The stored message is present and from an earlier UTC day. */
  predicate StoredStale(store: Artifacts, today: int) {
    store.last.Some? && Stale(store.last.value, today)
  }

  /** With the intended delete, the history survives the reset and keeps
      growing to fifty entries. */
  lemma NewDayKeepsHistory(store: Artifacts, today: int, entry: HistoryEntry)
    ensures Retained(LoadLastMessage(store, today).1.history, entry) == Retained(store.history, entry)
  {
  }

  // ---------------------------------------------------------------------------
  // The notification text

  const AlertHeader := "🚨 <b>УВАГА! Аварійне відключення!</b>"
  const QueueHeader := "📊 <b>Черга:</b>"
  const CurrentHeader := "⚡️ <b>Поточне відключення</b>"
  const NextHeader := "⏰ <b>Наступне відключення</b>"
  const Divider := "━━━━━━━━━━━━━━━━━━━━"
  const Dash := "—————————————"

  /** The emergency section: reason (with a full stop), start and restoration. */
  function EmergencySection(e: EmergencyOutage): seq<string> {
    [AlertHeader, "", "ℹ️ <b>Причина:</b>", OrElse(e.subType, "Невідома") + ".",
     "", "🔴 <b>Час початку:</b>", OrElse(e.startDate, "Невідомий"),
     "", "🟢 <b>Час відновлення:</b>", OrElse(e.endDate, "Невідомий")]
  }

  /** One scheduled outage under its heading: time range and description. */
  function OutageSection(header: string, o: Outage): seq<string> {
    [header, "", "🕐 <b>Час:</b>", o.timeRange, "", "ℹ️ <b>Тип:</b>", o.description]
  }

  /** The scheduled section: the queue group, then the current and the next
      outage, a dashed line between them when both are there. */
  function ScheduledSection(s: ScheduledOutage): seq<string> {
    [QueueHeader, Element(s.queueGroup), ""] +
    (if s.current.Some? then OutageSection(CurrentHeader, s.current.value) else []) +
    (if s.current.Some? && s.next.Some? then ["", Dash, ""] else []) +
    (if s.next.Some? then OutageSection(NextHeader, s.next.value) else [])
  }

  /** The closing lines: when the provider updated its data (falling back to
      the message time) and when the message was made. */
  function Metadata(updateTimestamp: JsVal, stamp: string): seq<string> {
    ["", "⏰ <b>Час оновлення інформації:</b>", OrElse(updateTimestamp, stamp),
     "⏰ <b>Час оновлення повідомлення:</b>", stamp]
  }

  /** The message lines: the sections present, a heavy line between the
      emergency and the scheduled section, the metadata last. */
  function NotificationParts(d: OutageData, updateTimestamp: JsVal, stamp: string): seq<string> {
    (if d.emergency.Some? then EmergencySection(d.emergency.value) else []) +
    (if d.emergency.Some? && d.scheduled.Some? then ["", Divider, ""] else []) +
    (if d.scheduled.Some? then ScheduledSection(d.scheduled.value) else []) +
    Metadata(updateTimestamp, stamp)
  }

  /** `messageParts` of `sendNotification`, pushed section by section. */
  method NotificationLines(d: OutageData, updateTimestamp: JsVal, stamp: string) returns (messageParts: seq<string>)
    ensures messageParts == NotificationParts(d, updateTimestamp, stamp)
  {
    messageParts := [];
    if d.emergency.Some? {
      var e := d.emergency.value;
      messageParts := messageParts + [AlertHeader, "", "ℹ️ <b>Причина:</b>", OrElse(e.subType, "Невідома") + ".",
                                      "", "🔴 <b>Час початку:</b>", OrElse(e.startDate, "Невідомий"),
                                      "", "🟢 <b>Час відновлення:</b>", OrElse(e.endDate, "Невідомий")];
      assert messageParts == EmergencySection(e);
      if d.scheduled.Some? {
        messageParts := messageParts + ["", Divider, ""];
      }
    }
    if d.scheduled.Some? {
      var lines := ScheduledLines(d.scheduled.value);
      messageParts := messageParts + lines;
    }
    messageParts := messageParts + ["", "⏰ <b>Час оновлення інформації:</b>", OrElse(updateTimestamp, stamp),
                                    "⏰ <b>Час оновлення повідомлення:</b>", stamp];
  }

  /** The scheduled block of `sendNotification`: the queue group, then the
      current and the next outage. */
  method ScheduledLines(s: ScheduledOutage) returns (lines: seq<string>)
    ensures lines == ScheduledSection(s)
  {
    lines := [QueueHeader, Element(s.queueGroup), ""];
    if s.current.Some? {
      lines := lines + [CurrentHeader, "", "🕐 <b>Час:</b>", s.current.value.timeRange,
                        "", "ℹ️ <b>Тип:</b>", s.current.value.description];
      if s.next.Some? {
        lines := lines + ["", Dash, ""];
      }
    }
    ghost var shown := lines;
    assert shown == [QueueHeader, Element(s.queueGroup), ""] +
                    (if s.current.Some? then OutageSection(CurrentHeader, s.current.value) else []) +
                    (if s.current.Some? && s.next.Some? then ["", Dash, ""] else []);
    if s.next.Some? {
      lines := lines + [NextHeader, "", "🕐 <b>Час:</b>", s.next.value.timeRange,
                        "", "ℹ️ <b>Тип:</b>", s.next.value.description];
      assert lines == shown + OutageSection(NextHeader, s.next.value);
    }
  }

  /** Where each part lands: the alert header opens the message exactly when
      there is an emergency, the reason line falls back to "Невідома.", a heavy
      line separates the two sections, the queue group follows its header,
      and the five metadata lines close the message. */
  lemma NotificationLayout(d: OutageData, updateTimestamp: JsVal, stamp: string)
    ensures var p := NotificationParts(d, updateTimestamp, stamp);
            |p| >= 5 && p[|p| - 5..] == Metadata(updateTimestamp, stamp) && p[|p| - 1] == stamp &&
            (p[0] == AlertHeader <==> d.emergency.Some?) &&
            (d.emergency.Some? ==>
               p[..10] == EmergencySection(d.emergency.value) &&
               p[3] == OrElse(d.emergency.value.subType, "Невідома") + ".") &&
            (d.emergency.Some? && d.scheduled.Some? ==> p[10..13] == ["", Divider, ""] && p[13] == QueueHeader) &&
            (d.emergency.None? && d.scheduled.Some? ==>
               p[0] == QueueHeader && p[1] == Element(d.scheduled.value.queueGroup)) &&
            (d.emergency.None? && d.scheduled.None? ==> p == Metadata(updateTimestamp, stamp))
  {
    NotificationTail(d, updateTimestamp, stamp);
    NotificationHead(d, updateTimestamp, stamp);
    assert AlertHeader != QueueHeader && AlertHeader != "" by {
      assert AlertHeader[0] != QueueHeader[0];
    }
  }

  lemma NotificationTail(d: OutageData, updateTimestamp: JsVal, stamp: string)
    ensures var p := NotificationParts(d, updateTimestamp, stamp);
            |p| >= 5 && p[|p| - 5..] == Metadata(updateTimestamp, stamp) && p[|p| - 1] == stamp &&
            (d.emergency.None? && d.scheduled.None? ==> p == Metadata(updateTimestamp, stamp))
  {
    var p := NotificationParts(d, updateTimestamp, stamp);
    var body := (if d.emergency.Some? then EmergencySection(d.emergency.value) else []) +
                (if d.emergency.Some? && d.scheduled.Some? then ["", Divider, ""] else []) +
                (if d.scheduled.Some? then ScheduledSection(d.scheduled.value) else []);
    assert p == body + Metadata(updateTimestamp, stamp);
    assert p[|p| - 5..] == Metadata(updateTimestamp, stamp);
  }

  lemma NotificationHead(d: OutageData, updateTimestamp: JsVal, stamp: string)
    ensures var p := NotificationParts(d, updateTimestamp, stamp);
            |p| >= 5 &&
            (d.emergency.Some? ==>
               p[0] == AlertHeader && p[..10] == EmergencySection(d.emergency.value) &&
               p[3] == OrElse(d.emergency.value.subType, "Невідома") + ".") &&
            (d.emergency.Some? && d.scheduled.Some? ==> p[10..13] == ["", Divider, ""] && p[13] == QueueHeader) &&
            (d.emergency.None? && d.scheduled.Some? ==>
               p[0] == QueueHeader && p[1] == Element(d.scheduled.value.queueGroup)) &&
            (d.emergency.None? && d.scheduled.None? ==> p[0] == "")
  {
    var e := if d.emergency.Some? then EmergencySection(d.emergency.value) else [];
    var divider := if d.emergency.Some? && d.scheduled.Some? then ["", Divider, ""] else [];
    var s := if d.scheduled.Some? then ScheduledSection(d.scheduled.value) else [];
    var m := Metadata(updateTimestamp, stamp);
    if d.emergency.Some? {
      EmergencySectionShape(d.emergency.value);
    }
    if d.scheduled.Some? {
      ScheduledLayout(d.scheduled.value);
    }
    PartsAt(e, divider, s, m);
  }

  lemma EmergencySectionShape(e: EmergencyOutage)
    ensures var p := EmergencySection(e);
            |p| == 10 && p[0] == AlertHeader && p[3] == OrElse(e.subType, "Невідома") + "."
  {
  }

  /** Where the first lines of four pieces put together come from. */
  lemma PartsAt(e: seq<string>, divider: seq<string>, s: seq<string>, m: seq<string>)
    requires |e| == 0 || |e| == 10
    requires |m| == 5
    ensures var p := e + divider + s + m;
            |p| >= 5 &&
            (|e| == 10 ==> p[..10] == e && p[0] == e[0] && p[3] == e[3]) &&
            (|e| == 10 && |divider| == 3 && |s| > 0 ==> p[10..13] == divider && p[13] == s[0]) &&
            (|e| == 0 && |divider| == 0 && |s| >= 2 ==> p[0] == s[0] && p[1] == s[1]) &&
            (|e| == 0 && |divider| == 0 && |s| == 0 ==> p[0] == m[0])
  {
    var p := e + divider + s + m;
    if |e| == 10 {
      assert p[..10] == e;
    }
  }

  /** The scheduled section shows the current outage right after the queue
      lines and the next outage last, with the dashed line exactly when both
      are shown. */
  lemma ScheduledLayout(s: ScheduledOutage)
    ensures var p := ScheduledSection(s);
            |p| == 3 + (if s.current.Some? then 7 else 0) + (if s.next.Some? then 7 else 0)
                     + (if s.current.Some? && s.next.Some? then 3 else 0) &&
            (s.current.Some? ==> p[3..10] == OutageSection(CurrentHeader, s.current.value)) &&
            (s.next.Some? ==> p[|p| - 7..] == OutageSection(NextHeader, s.next.value)) &&
            (s.current.Some? && s.next.Some? ==> p[10..13] == ["", Dash, ""])
  {
  }

  // ---------------------------------------------------------------------------
  // sendNotification

  const MissingToken := "❌ Missing telegram bot token or chat id."
  const MissingChatId := "❌ Missing telegram chat id."
  const EditEndpoint := "editMessageText"
  const SendEndpoint := "sendMessage"

  /** What the Telegram API answered: `ok` and the `{message_id, date}` of
      `result`, each missing when absent. */
  datatype Reply = Reply(ok: bool, messageId: Option<int>, date: Option<int>)

  datatype Delivery =
    | Duplicate
      /** The request went out to `endpoint` (editing `messageId` when set). */
    | Delivered(endpoint: string, messageId: Option<int>, text: string, success: bool, store: Artifacts)
      /** The request threw; the last message was deleted before the retry. */
    | Undelivered(text: string, store: Artifacts)

  /** The message id loaded for `store` on `today`, if any. */
  function StoredId(store: Artifacts, today: int): Option<int> {
    var last := LoadLastMessage(store, today).0;
    if last.Some? then last.value.messageId else None
  }

  /** The message is edited in place when the stored id is set and non-zero. */
  predicate Edits(store: Artifacts, today: int) {
    var id := StoredId(store, today);
    id.Some? && id.value != 0
  }

  /** `sendNotification` at `nowMs`, with the environment's token and chat
      id, the artifacts found on disk, the message-time `stamp` and the
      API's reply (None when the request throws). `how` picks the delete:
      `WholeDirectory` is the code as written, where a stale day or a throw
      takes the history with it; `LastMessageOnly` is the intended one. */
  method SendNotification(how: Deletion, token: JsVal, chatId: JsVal, updateTimestamp: JsVal, data: OutageData,
                          nowMs: int, stamp: string, store: Artifacts, reply: Option<Reply>)
    returns (r: Result<Delivery, string>)
    ensures !Truthy(token) ==> r == Failure(MissingToken)
    ensures Truthy(token) && !Truthy(chatId) ==> r == Failure(MissingChatId)
    ensures r.Success? <==> Truthy(token) && Truthy(chatId)
    ensures r.Success? ==> (r.value.Duplicate? <==> IsDuplicateMessage(store.history, data, nowMs))
    ensures r.Success? && !r.value.Duplicate? ==>
              r.value.text == Join(NotificationParts(data, updateTimestamp, stamp), "\n") &&
              (r.value.Delivered? <==> reply.Some?)
    ensures r.Success? && r.value.Delivered? ==>
              var today := nowMs / DayMs;
              (r.value.endpoint == EditEndpoint <==> Edits(store, today)) &&
              (r.value.endpoint == SendEndpoint <==> !Edits(store, today)) &&
              r.value.messageId == StoredId(store, today) &&
              r.value.success == reply.value.ok &&
              var erased := how == WholeDirectory && StoredStale(store, today);
              r.value.store == Artifacts(Some(LastMessage(reply.value.messageId, reply.value.date)),
                                         Retained(if erased then [] else store.history,
                                                  HistoryEntry(Int(nowMs), MessageHash(data), reply.value.ok)))
    ensures r.Success? && r.value.Undelivered? ==>
              r.value.store == Artifacts(None, if how == WholeDirectory then [] else store.history)
  {
    if !Truthy(token) {
      return Failure(MissingToken);
    }
    if !Truthy(chatId) {
      return Failure(MissingChatId);
    }
    if IsDuplicateMessage(store.history, data, nowMs) {
      return Success(Duplicate);
    }
    var messageParts := NotificationLines(data, updateTimestamp, stamp);
    var text := Join(messageParts, "\n");
    var load := if how == WholeDirectory then LoadLastMessageAsWritten(store, nowMs / DayMs)
                else LoadLastMessage(store, nowMs / DayMs);
    var lastMessage, loaded := load.0, load.1;
    assert lastMessage == LoadLastMessage(store, nowMs / DayMs).0;
    assert loaded.history == if how == WholeDirectory && StoredStale(store, nowMs / DayMs) then [] else store.history;
    var messageId := if lastMessage.Some? then lastMessage.value.messageId else None;
    var endpoint := if messageId.Some? && messageId.value != 0 then EditEndpoint else SendEndpoint;
    if reply.None? {
      var deleted := if how == WholeDirectory then DeleteLastMessageAsWritten(loaded) else DeleteLastMessage(loaded);
      return Success(Undelivered(text, deleted));
    }
    var hash := CreateMessageHash(data);
    var history := SaveMessageHistory(loaded.history, HistoryEntry(Int(nowMs), hash, reply.value.ok));
    var saved := Artifacts(Some(LastMessage(reply.value.messageId, reply.value.date)), history);
    r := Success(Delivered(endpoint, messageId, text, reply.value.ok, saved));
  }

  // ---------------------------------------------------------------------------
  // run

  /** `run`: check, and notify only when an outage is detected (None when
      nothing is sent), with the delete chosen by `how`. */
  method Run(how: Deletion, info: Info, house: string, now: int, todayKey: int,
             token: JsVal, chatId: JsVal, nowMs: int, stamp: string, store: Artifacts, reply: Option<Reply>)
    returns (r: Result<Option<Delivery>, string>)
    ensures info.data.None? ==> r == Failure(InfoMissed)
    ensures info.data.Some? ==>
              var d := CheckOutage(info, house, now, todayKey).value;
              (!d.isOutageDetected ==> r == Success(None)) &&
              (d.isOutageDetected && !Truthy(token) ==> r == Failure(MissingToken)) &&
              (d.isOutageDetected && Truthy(token) && !Truthy(chatId) ==> r == Failure(MissingChatId)) &&
              (d.isOutageDetected && Truthy(token) && Truthy(chatId) ==>
                 r.Success? && r.value.Some? &&
                 var sent := r.value.value;
                 (sent.Duplicate? <==> IsDuplicateMessage(store.history, d, nowMs)) &&
                 (!sent.Duplicate? ==>
                    sent.text == Join(NotificationParts(d, info.updateTimestamp, stamp), "\n") &&
                    (sent.Delivered? <==> reply.Some?)) &&
                 (sent.Delivered? ==>
                    (sent.endpoint == EditEndpoint <==> Edits(store, nowMs / DayMs)) &&
                    sent.success == reply.value.ok))
  {
    var checked := CheckOutage(info, house, now, todayKey);
    if checked.Failure? {
      return Failure(checked.error);
    }
    var outageData := checked.value;
    if !outageData.isOutageDetected {
      return Success(None);
    }
    var sent := SendNotification(how, token, chatId, info.updateTimestamp, outageData, nowMs, stamp, store, reply);
    if sent.Failure? {
      return Failure(sent.error);
    }
    r := Success(Some(sent.value));
  }
}

# dtek-monitor outage engine in Dafny

The model covers the outage-interpretation core of dtek-monitor. dtek-monitor polls the DTEK Kyiv Regional
Electric Networks shutdown page for a single house and tells a Telegram chat when power is
off or about to go off. The model covers:

- **The provider document.** `Document` holds the house record (`sub_type`, `start_date`, `end_date`,
  `type`, `sub_type_reason`), the hourly grid `fact.data` keyed by day and queue group, and the hour
  legend `preset.time_zone`.
- **Emergency classification** (`Detection`). The plain field rule of the monitor and the daily
  summary sits beside the heuristics of the helper scripts as a family of strategies: the text
  markers, the schedule-text exclusion, the three options of the improved detection script, and
  the emergency/scheduled/unknown verdict. Lemmas prove how they relate.
- **The scheduled-outage engine** (`Schedule`, from `findNextScheduledOutage` in `monitor.js`).
  - Hours 1..24 of today's row are decoded into slots: the first half, second half or whole
    legend hour, or `(h-1):00-h:00` when the legend has no entry.
  - Slots whose minutes touch are merged into ranges.
  - A range holding the current minute is selected as current, and the first range starting
    after it as next.
  - Each loop is a method proved equal to a functional specification. The lemmas cover the
    specification: one slot per flagged hour, in order; merged ranges cover exactly the slots'
    minutes and never touch; the selection's characterisation.
- **Deduplication state** (`Monitor`):
  - The outage-state hash of `createMessageHash`.
  - The ten-minute duplicate window.
  - The history capped at fifty entries.
  - The stored last message and its new-day reset.
- **Message assembly**: the Telegram notification (`Monitor`), the emergency preview
  (`EmergencyMessage`), the outage-passed preview (`OutagePassed`) and the morning summary
  (`DailySummary`). Each is a sequence of lines joined by `"\n"`. The line-pushing code is a
  method proved equal to a line function, and layout lemmas say where every part lands.
- **Shared helpers.** `Js` gives JavaScript value semantics: `undefined`/`null`/strings,
  truthiness, `||`, template interpolation, `Number()` with `NaN`, `split`/`join`, `includes`,
  `padStart` and the truncating `%`. `Clock` handles `"HH:MM"` arithmetic, durations and
  `parseDate`.

Things the program reads from its environment are parameters:

- `now`, the current time in minutes. For the monitor (`Monitor.CheckOutage`) it is the Kyiv minute of the day. For the emergency preview (`EmergencyMessage.EmergencyLines`, `FormatEmergencyMessage`, `EmergencyLayout`) it counts local minutes since the epoch, on the scale of `Clock.LocalMinutes`, and is compared with the outage's span;
- today's UTC day key (`todayKey`);
- the current time in milliseconds (`nowMs`);
- the formatted message time (`stamp`);
- the bot token and chat id;
- the artifacts found on disk;
- the Telegram reply (None when the request throws).

Where the code and the design description of the system disagree, the model follows the code:

- Merging extends a range exactly when a slot starts at the minute the range ends. No half-hour
  boundary forces a new range, so a `second` hour followed by a `no` hour merges, and a `first`
  hour followed by a `no` hour does not (`Schedule.SecondThenNoMerge`, `Schedule.FirstThenNoApart`).
  The expected strings of `daily-summary.test.js` agree.
- The hash includes the emergency's `sub_type`, not only its timestamps.
- There is no "outage ended" decision and no notification kind. The code keeps a list of sent
  hashes and the last message id, and nothing more.
- The stored last message is also deleted when a send throws, not only on a new day.

## Model

| member | source | states |
|---|---|---|
| Clock.ClockMinutesOfText | monitor.js:189-193 | A well-formed `"HH:MM"` converts to `h*60+m` minutes since midnight |
| Clock.HoursMinutesRecompose | test-outage-passed-message.js:103-104 | For a non-negative duration, whole hours times 60 plus the leftover minutes give the duration back, with the minutes below 60 |
| Clock.ReadDurationText | test-outage-passed-message.js:106-113 | The three-way "год"/"хв" text of a non-negative duration reads back as that duration |
| Clock.DurationTextInjective | test-emergency-message.js:117-127 | Two non-negative durations with the same text are equal |
| Clock.RangeDurationOfText | test-outage-passed-message.js:95-101 | A well-formed `"a:b-c:d"` range lasts `(c*60+d)-(a*60+b)` minutes |
| Clock.ParseDateOfText | test-emergency-message.js:106-111 | `parseDate` splits a well-formed `"HH:MM DD.MM.YYYY"` into its five numbers |
| Clock.SameDayDistance | test-emergency-message.js:110-119 | Two moments of the same day are as many minutes apart as their clock readings |
| Clock.SameDaySpan | test-emergency-message.js:104-117 | Two well-formed timestamps of one day give a span, and its length is the clock difference |
| Clock.EmergencyDurationShown | test-emergency-message.js:158-164 | The duration is non-empty exactly when both dates were present and parsed |
| Detection.StrategyRelations | test-improved-detection.js:76-117 | Options 1 and 3 are the same rule. The old rule is option 2. Every heuristic implies the field rule. A marker implies a non-empty text, so the marker rule is the marker test alone |
| Detection.Recommend | test-improved-detection.js:128-135 | The advice is "scheduled only" exactly when no field is filled in, or the type code is not 1/2 and the text names the schedule. The unscheduled-emergency advice implies the exclusion rule fires without an emergency type code |
| Detection.Classify | test-detection-logic.js:12-39 | The verdict is "emergency" exactly when a marker occurs. "Scheduled" implies no marker and a non-empty text. The script's emergency flag holds exactly for a non-empty text not judged scheduled |
| Detection.EmptyIsNoEmergency | test-detection-logic.js:26 | The empty text is never an emergency and is classified as unknown |
| Detection.RealEmergencyIsMarked | test-detection-logic.js:43-46 | The provider's emergency text carries an emergency marker and also mentions the hourly schedule |
| Detection.StabilisationIsNotMarked | test-detection-logic.js:48-51 | The stabilisation text carries no emergency marker and is schedule text in both senses |
| Detection.ScheduleOnlyIsNotMarked | test-detection-logic.js:58-61 | The bare schedule phrase carries no marker and is schedule text in both senses |
| Detection.UnlistedIsUnmarked | test-detection-logic.js:12-24 | The text "Планові роботи" matches neither the marker list nor either schedule list |
| Detection.ClassifyFixtures | test-detection-logic.js:43-66 | The script's five texts get verdicts: emergency, scheduled, emergency, scheduled, and unknown for the empty text |
| Detection.MarkerAndExclusionDisagree | test-emergency-detection.js:85-102 | The marker rule and the schedule-text exclusion rule disagree both ways. The exclusion misses the real emergency text. An unlisted text passes only the exclusion |
| Detection.TypeRuleOverridesScheduleText | test-improved-detection.js:107-135 | A stabilisation record of type "2" is flagged by option 1 but not option 2, and is recommended as an emergency. Without a type code it is "scheduled only" |
| Detection.UnknownDefaultsToEmergency | test-detection-logic.js:26-38 | A non-empty text of unknown verdict is flagged as an emergency there, while the preview's marker rule rejects it |
| Detection.UnlistedIsUnknown | test-detection-logic.js:33-38 | The unlisted text is classified as unknown and still flagged as an emergency |
| Schedule.DecodedSlotsOfRow | monitor.js:151-202 | Every decoded slot is the slot of a flagged hour in 1..n |
| Schedule.DecodedAscending | monitor.js:151-204 | The decoded slots' hours strictly ascend and stay within 1..n |
| Schedule.DecodedComplete | monitor.js:151-204 | Every flagged hour in 1..n has a decoded slot |
| Schedule.DecodedIsRow | monitor.js:151-204 | The decoded slots are exactly one slot per flagged hour, in hour order |
| Schedule.NoSlotsIffNoFlags | monitor.js:151-209 | There are no slots exactly when no hour of the row is flagged, which is when the lookup returns null |
| Schedule.DecodeSlots | monitor.js:147-204 | The hour loop returns exactly the specified slots: one per flagged hour, in hour order |
| Schedule.LegendSlot | monitor.js:163-193 | With legend `a:b`-`c:d`: `first` covers `[a:00,a:30)`, `second` covers `[a:30,c:d)`, and `no`/`maybe` cover the legend range, in minutes and text |
| Schedule.FallbackSlot | monitor.js:182-193 | Without a legend entry, hour `h` covers `[(h-1)*60, h*60)` as `"(h-1):00-h:00"`, zero-padded |
| Schedule.Merged | monitor.js:211-253 | Merging yields no more ranges than slots, and no range exactly when there is no slot |
| Schedule.MergeSlots | monitor.js:211-253 | The merge loop, with its open range and its closing push, returns exactly the specified merge |
| Schedule.MergedNeverTouch | monitor.js:226-244 | No merged range ends at the minute where the next one starts |
| Schedule.AbsorbCovers | monitor.js:215-245 | One merge step keeps ranges proper and adds exactly the new slot's minutes |
| Schedule.MergedCovers | monitor.js:211-253 | The merged ranges cover exactly the minutes the slots cover |
| Schedule.MergedSeparated | monitor.js:211-253 | Slots in time order merge into ranges with a gap between any two, the last ending where the last slot ends |
| Schedule.FirstAfter | monitor.js:267-273 | The first range in list order starting after now; None exactly when no range starts after now |
| Schedule.DoneStays | monitor.js:275-276 | Once both current and next are found, later ranges change nothing |
| Schedule.SelectOutage | monitor.js:255-277 | The selection loop with its `break` returns the specified pick |
| Schedule.PickedIs | monitor.js:259-280 | There is a current range exactly when some range holds now, and it holds now. The next range is the first starting after now and never holds now |
| Schedule.PickedOnlyHolding | monitor.js:259-266 | Among separated ranges, the current one is the unique range holding now |
| Schedule.FindNextScheduledOutage | monitor.js:110-309 | The whole lookup equals the specified window: today's row (falling back to `fact.today`), decode, merge, select, and null when nothing is selected |
| Schedule.WindowCases | monitor.js:133-308 | The lookup reports an outage exactly when a row exists, some hour is flagged, and some merged range holds now or starts after it; earlier ranges alone give null |
| Schedule.HourLegendSlot | daily-summary.test.js:18-30 | Under the test suite's hour legend, every slot lies within its own hour |
| Schedule.HourLegendOrdered | daily-summary.test.js:18-30 | Under that legend, the decoded slots are in time order |
| Schedule.HourLegendSeparated | daily-summary.test.js:18-30 | Under that legend, the merged ranges are separated, so at most one holds any minute |
| Schedule.DecodedPair | monitor.js:151-204 | A row flagging exactly two neighbouring hours decodes to their two slots |
| Schedule.MergeTwo | monitor.js:215-253 | Two slots merge into one range exactly when the first ends where the second starts |
| Schedule.MergeTouching | monitor.js:226-253 | Touching slots `p-q` and `q-r` merge into the one range `p-r` |
| Schedule.SecondThenNoMerge | daily-summary.test.js:352-367 | A `second` hour followed by a `no` hour merges into one range from the half hour to the end of the next hour |
| Schedule.FirstThenNoApart | daily-summary.test.js:369-384 | A `first` hour followed by a `no` hour stays two ranges |
| Schedule.MergeExamples | daily-summary.test.js:352-384 | The test suite's strings: hours 22/23 give `"21:30-23:00"`; hours 12/13 give `"11:00-11:30"` and `"12:00-13:00"` |
| Monitor.CheckOutage | monitor.js:63-108 | Throws exactly when `data` is missing. The emergency is present exactly when a field is filled in, and then holds the house's four fields. The scheduled lookup runs only with legend, grid and queue list. Detected is emergency or scheduled |
| Monitor.DetectedWhen | monitor.js:74-97 | An outage is detected exactly when a field is filled in, or the lookup runs and finds a flagged hour whose merged range holds or follows now |
| Monitor.CreateMessageHash | monitor.js:377-401 | Pushing the parts and joining them with `"\|"` gives the specified hash of the outage key |
| Monitor.HashEmptyIffNothing | monitor.js:377-401 | The hash is empty exactly when there is neither an emergency nor a scheduled outage |
| Monitor.DetectedIffHash | monitor.js:97-107 | For `checkOutage`'s results, an outage is detected exactly when the hash is non-empty |
| Monitor.PiecesInjective | monitor.js:381-398 | Different outage keys give different part lists |
| Monitor.HashDeterminesKey | monitor.js:377-401 | When no recorded field contains `"\|"`, two states have the same hash exactly when they agree on reason, dates, queue group and both ranges |
| Monitor.HashCollides | monitor.js:384-386 | Two different emergencies whose fields contain `"\|"` share a hash |
| Monitor.IsDuplicateMessage | monitor.js:403-423 | A duplicate holds exactly when the history is non-empty, its last hash equals the current hash, and less than 600000 ms have passed since that entry |
| Monitor.Retained | monitor.js:362-375 | Below fifty entries the new entry is appended. At fifty or more, the oldest is dropped first. The result ends with the new entry, and a history of at most fifty stays at most fifty |
| Monitor.SaveMessageHistory | monitor.js:362-375 | The shift/push update yields exactly the retained history |
| Monitor.LogKeepsLatest | monitor.js:365-371 | Saving entries one by one from an empty history keeps exactly the latest fifty, in order |
| Monitor.SavedIsDuplicateForTenMinutes | monitor.js:403-423 | Right after saving a state's entry, the same state is a duplicate exactly for the next ten minutes |
| Monitor.ChangedStateIsNotDuplicate | monitor.js:403-423 | A state with a different key, and `"\|"`-free fields, is never a duplicate of the entry just saved |
| Monitor.DeleteLastMessageAsWritten | monitor.js:344-346 | As written, deleting the last message empties the whole artifacts directory, history included |
| Monitor.DeleteLastMessage | monitor.js:344-346 | As intended, only the last message goes and the history stays |
| Monitor.LoadLastMessage | monitor.js:311-331 | The intended `loadLastMessage`, used with the intended delete. The stored message is returned unless it is missing or dated before today's UTC day. A stale one is forgotten and the history is kept. As written, the history goes too (`Monitor.NewDayErasesHistoryAsWritten`) |
| Monitor.NewDayErasesHistoryAsWritten | monitor.js:318-326 | As written, the first save after a stale-day reset leaves a history of that single entry |
| Monitor.NewDayErasesHistoryExample | monitor.js:318-326 | A message from day 0 loaded on day 1 loses a non-empty history |
| Monitor.NewDayKeepsHistory | monitor.js:311-331 | With the intended delete, saving after the reset gives the same history as without it |
| Monitor.NotificationLines | monitor.js:449-518 | The section-by-section pushes yield exactly the specified notification lines |
| Monitor.NotificationLayout | monitor.js:449-518 | The alert header opens the message exactly when there is an emergency. The reason line falls back to "Невідома.". A heavy line separates the two sections. The queue group follows its header. The five metadata lines close the message |
| Monitor.ScheduledLines | monitor.js:474-509 | The scheduled block pushes the queue lines, the current outage, the dashed line when both outages are there, and the next outage, exactly as the scheduled section specifies |
| Monitor.ScheduledLayout | monitor.js:474-509 | The current outage follows the queue lines and the next comes last. The dashed line appears exactly when both are shown |
| Monitor.SendNotification | monitor.js:425-562 | The two configuration errors come first. A duplicate is skipped exactly when the window says so. The text is the joined lines. It edits exactly when today's stored id is non-zero. A reply stores its message and appends the hash to the history. A throw forgets the last message. With the delete as written (`WholeDirectory`), a stale stored message means the hash is appended to an empty history, and a throw leaves no history at all. With the intended delete (`LastMessageOnly`), the history is kept in both cases |
| Monitor.Run | monitor.js:613-624 | A missing `data` is the error. Nothing is sent without a detected outage. A detected outage reaches the configuration checks, then the send. The send is skipped as a duplicate exactly when the window says so. Otherwise it carries the joined notification lines, is delivered exactly when there is a reply, and edits exactly when today's stored id is non-zero |
| EmergencyMessage.CheckEmergency | test-emergency-message.js:67-91 | The preview asserts an emergency exactly when a marker occurs in `sub_type`, and then copies the four fields |
| EmergencyMessage.PreviewRefinesMonitor | test-emergency-message.js:71-88 | Whatever emergency the preview asserts, the monitor reports too, with the same fields |
| EmergencyMessage.FormatEmergencyMessage | test-emergency-message.js:93-177 | The parse, the activity flag, the duration and the pushes give exactly the specified preview lines, joined |
| EmergencyMessage.EmergencyLayout | test-emergency-message.js:143-174 | 22 lines when both dates parsed, else 19. "ЗАРАЗ АКТИВНЕ!" exactly when start ≤ now < end. Missing fields read "Невідомо". The timestamps come last |
| OutagePassed.FormatOutagePassedMessage | test-outage-passed-message.js:22-138 | The preview's pushes give the specified lines joined, or the TypeError the code throws |
| OutagePassed.PassedLayout | test-outage-passed-message.js:39-135 | It throws exactly for a flagged emergency without its record, or a next range without `"-"`. The finished header opens it exactly when flagged. The next range and its duration sit before the footer. With neither section, only the footer remains |
| OutagePassed.PassedSectionShape | test-outage-passed-message.js:71-90 | When both dates parse, the finished section has thirteen lines: the header, the reason fourth and the duration last |
| OutagePassed.PassedLinesWithNext | test-outage-passed-message.js:39-135 | A flagged emergency and a well-formed next range give the finished section, the next section and the footer, in that order |
| OutagePassed.ExampleSpan | test-outage-passed-message.js:9-10 | The fixture's emergency ran 245 minutes |
| OutagePassed.ExampleDurations | test-outage-passed-message.js:59-65 | 245 minutes read "4 год 5 хв" and 180 minutes read "3 год" |
| OutagePassed.ExampleRange | test-outage-passed-message.js:15 | The fixture's range `"10:00-13:00"` lasts 180 minutes |
| OutagePassed.ExampleNext | test-outage-passed-message.js:94-127 | The fixture's next section shows its range and "3 год" |
| OutagePassed.ExamplePassed | test-outage-passed-message.js:6-12 | The fixture's finished section shows the reason and "4 год 5 хв" |
| OutagePassed.ExampleMessage | test-outage-passed-message.js:144 | The script's own call yields 28 lines: the reason, both durations, the range, and the provider's timestamp as update time |
| DailySummary.CheckPlannedOutages | daily-summary.js:58-95 | Throws exactly when `data` is missing. An outage is planned exactly when a field is filled in, and then carries the house's four fields |
| DailySummary.SummaryAgreesWithMonitor | daily-summary.js:71-75 | The summary plans an outage exactly when the monitor reports an emergency, with the same four fields |
| DailySummary.UnlistedHouseHasNothingPlanned | daily-summary.js:65-68 | A house missing from the document has nothing planned |
| DailySummary.SendDailySummary | daily-summary.js:97-174 | The two configuration errors, then a transport error rethrown. Otherwise a `sendMessage` request to the chat in HTML mode carrying the joined template |
| DailySummary.SummaryLayout | daily-summary.js:115-150 | 18 lines for a planned outage, else 10. The outage template is used exactly when one is planned. The reason line ends in "." and falls back to "Невідома.". Start and end fall back to "Невідомий". The timestamp is last |
| DailySummary.SummaryTextEnds | daily-summary.js:117-149 | The sent text opens with the greeting and ends with a line break and the timestamp |

## Left out

- Scraping is not modelled: every `getInfo` (Playwright, the CSRF token, the `/ua/ajax` request), investigate-popup.js, check-emergency-prompt.js and capture-emergency-data.js. The provider document is a parameter.
- The Telegram transport is reduced to the endpoint, the chat and the text; the reply is a parameter. The retry after a throw (monitor.js:556-561) would recurse without bound, so the model stops after forgetting the last message.
- `commitMessageHistory` (monitor.js:564-611) is git through `execSync`, which is outside the model.
- File reads, writes and JSON parsing of the artifacts are values passed in and returned. An unreadable history counting as empty is not modelled.
- Time zones and locale formatting (`Europe/Kyiv`, `toLocaleString`, `toLocaleTimeString`, `toLocaleDateString`) are replaced by the parameters `now`, `todayKey`, `nowMs` and `stamp`.
- Clock.LocalMinutes: `new Date(y, m-1, d, h, min)` is a proleptic Gregorian count without daylight-saving shifts. A span across a daylight-saving change is therefore an hour off from the code's.
- Monitor.Stale, Clock.LocalMinutes: dates are unbounded integers. The floored day number orders dates the same way as the ISO `YYYY-MM-DD` strings for every four-digit year, including years before 1970. Two cases are not modelled:
  - Years from 10000 on. There `toISOString` writes `+010000-…`, which compares below today, so the code deletes the message and the model does not.
  - Dates beyond the ±8.64e15 ms range of a JavaScript `Date`. Such a date is invalid. `toISOString` then throws a `RangeError` in `loadLastMessage`, and `new Date(…)` gives `NaN` durations and "not active" in the previews.
- Monitor.IsDuplicateMessage takes the history timestamp as milliseconds. Parsing the ISO string is not modelled; an unparsable one is `NaN` and never a duplicate.
- `Number()` is modelled for the empty string and for runs of ASCII digits; any other text is `NaN`. Signs, spaces, decimals and exponents are left out.
- House fields are `undefined`, `null` or strings. Numbers, booleans or objects in those fields are not modelled, and neither is `sub_type_reason` given as a string.
- Legend entries are three strings. A malformed entry (too short, not an array) is not modelled.
- Console logging is not modelled.
- daily-summary.test.js describes functions that daily-summary.js does not have (`getDetailedTimeRange`, `formatScheduleDescription`, `scheduledOutage`). Its expected strings serve only as examples for the monitor's decoder and merger.

## Findings

| source | as written | input that shows it | evidently intended | confidence | as-written member | corrected member |
|---|---|---|---|---|---|---|
| monitor.js:344-346 | `deleteLastMessage` removes the directory of `last-message.json`. That is `artifacts`, which also holds `message-history.json`, and `loadLastMessage` calls it on every new day (monitor.js:318-326) | a last message dated the day before and a non-empty history: after the reset and one send, the history holds only the new entry | remove only the last message and keep the deduplication history | not executed | Monitor.NewDayErasesHistoryAsWritten | Monitor.NewDayKeepsHistory |

`Monitor.SendNotification` and `Monitor.Run` take the delete as a parameter of type `Monitor.Deletion`. `WholeDirectory` is the code as written. `LastMessageOnly` is the intended delete. Their contracts state the stored artifacts for both. The other functions on the stored message, `Monitor.LoadLastMessage`, `Monitor.StoredId` and `Monitor.Edits`, use the intended delete. Both deletes load the same last message, so those functions mean the same under either.

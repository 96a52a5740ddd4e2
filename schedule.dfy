/** The scheduled-outage engine of the monitor: the hourly status row of a
    queue group is decoded into one slot per flagged hour, touching slots are
    merged into ranges, and the range holding the current minute and the first
    range starting after it are selected. Each step is an imperative method
    proved against a function that states what it computes. */
module Schedule {
  import opened Optional
  import opened Js
  import opened Clock
  import opened Document

  /** The statuses that describe an outage; "yes" and unknown codes do not. */
  predicate Flagged(status: string) {
    status == "no" || status == "first" || status == "second" || status == "maybe"
  }

  /** `timeTypes[status] || status`. */
  function StatusName(status: string, names: map<string, string>): string {
    if status in names && names[status] != "" then names[status] else status
  }

  /** The clock texts bounding a flagged hour: the first or second half of the
      legend's hour, the whole legend range, or `(hour-1):00`-`hour:00` when the
      legend has no entry for the hour. */
  function SlotBounds(hour: int, status: string, legend: map<int, LegendEntry>): (string, string)
    requires hour >= 1
  {
    if hour in legend then
      var e := legend[hour];
      if status == "first" then
        var h := Split(e.start, ':')[0];
        (h + ":00", h + ":30")
      else if status == "second" then
        var h := Split(e.start, ':')[0];
        (h + ":30", e.end)
      else (e.start, e.end)
    else (Pad2(hour - 1) + ":00", Pad2(hour) + ":00")
  }

  datatype Slot = Slot(hour: int, timeRange: string, status: string, description: string,
                       startMin: Numeric, endMin: Numeric)

  /** The slot emitted for a flagged hour. */
  function SlotFor(hour: int, status: string, legend: map<int, LegendEntry>, names: map<string, string>): Slot
    requires hour >= 1
  {
    var (start, end) := SlotBounds(hour, status, legend);
    Slot(hour, start + "-" + end, status, StatusName(status, names), ClockMinutes(start), ClockMinutes(end))
  }

  predicate FlaggedAt(row: DayRow, hour: int) {
    hour in row && Flagged(row[hour])
  }

  /** The slots of hours 1..n, in hour order. */
  function Decoded(row: DayRow, legend: map<int, LegendEntry>, names: map<string, string>, n: nat): seq<Slot>
    decreases n
  {
    if n == 0 then []
    else Decoded(row, legend, names, n - 1) +
         (if FlaggedAt(row, n) then [SlotFor(n, row[n], legend, names)] else [])
  }

  /** Each slot is the slot of a flagged hour in 1..n. */
  predicate SlotsOfRow(slots: seq<Slot>, row: DayRow, legend: map<int, LegendEntry>,
                       names: map<string, string>, n: nat)
  {
    forall k :: 0 <= k < |slots| ==>
      1 <= slots[k].hour <= n && FlaggedAt(row, slots[k].hour) &&
      slots[k] == SlotFor(slots[k].hour, row[slots[k].hour], legend, names)
  }

  /** The hours of the slots ascend strictly. */
  predicate Ascending(slots: seq<Slot>) {
    forall j, k :: 0 <= j < k < |slots| ==> slots[j].hour < slots[k].hour
  }

  /** Every flagged hour in 1..n has a slot. */
  predicate Complete(slots: seq<Slot>, row: DayRow, n: nat) {
    forall h :: 1 <= h <= n && FlaggedAt(row, h) ==> exists k :: 0 <= k < |slots| && slots[k].hour == h
  }

  /** What the decoded slots are: one slot per flagged hour, in hour order. */
  predicate DecodesRow(slots: seq<Slot>, row: DayRow, legend: map<int, LegendEntry>,
                       names: map<string, string>, n: nat)
  {
    SlotsOfRow(slots, row, legend, names, n) && Ascending(slots) && Complete(slots, row, n)
  }

  lemma {:induction false} DecodedSlotsOfRow(row: DayRow, legend: map<int, LegendEntry>,
                                             names: map<string, string>, n: nat)
    ensures SlotsOfRow(Decoded(row, legend, names, n), row, legend, names, n)
    decreases n
  {
    if n > 0 {
      DecodedSlotsOfRow(row, legend, names, n - 1);
    }
  }

  lemma {:induction false} DecodedAscending(row: DayRow, legend: map<int, LegendEntry>,
                                            names: map<string, string>, n: nat)
    ensures Ascending(Decoded(row, legend, names, n))
    ensures forall k :: 0 <= k < |Decoded(row, legend, names, n)| ==> Decoded(row, legend, names, n)[k].hour <= n
    decreases n
  {
    if n > 0 {
      DecodedAscending(row, legend, names, n - 1);
      DecodedSlotsOfRow(row, legend, names, n - 1);
    }
  }

  lemma {:induction false} DecodedComplete(row: DayRow, legend: map<int, LegendEntry>,
                                           names: map<string, string>, n: nat)
    ensures Complete(Decoded(row, legend, names, n), row, n)
    decreases n
  {
    if n > 0 {
      var prev := Decoded(row, legend, names, n - 1);
      DecodedComplete(row, legend, names, n - 1);
      var slots := Decoded(row, legend, names, n);
      forall h | 1 <= h <= n && FlaggedAt(row, h)
        ensures exists k :: 0 <= k < |slots| && slots[k].hour == h
      {
        if h < n {
          var k :| 0 <= k < |prev| && prev[k].hour == h;
          assert slots[k] == prev[k];
        } else {
          assert slots[|slots| - 1].hour == h;
        }
      }
    }
  }

  lemma DecodedIsRow(row: DayRow, legend: map<int, LegendEntry>, names: map<string, string>, n: nat)
    ensures DecodesRow(Decoded(row, legend, names, n), row, legend, names, n)
  {
    DecodedSlotsOfRow(row, legend, names, n);
    DecodedAscending(row, legend, names, n);
    DecodedComplete(row, legend, names, n);
  }

  /** No slot at all exactly when no hour 1..n is flagged. */
  lemma NoSlotsIffNoFlags(row: DayRow, legend: map<int, LegendEntry>, names: map<string, string>, n: nat)
    ensures Decoded(row, legend, names, n) == [] <==> forall h :: 1 <= h <= n ==> !FlaggedAt(row, h)
  {
    var slots := Decoded(row, legend, names, n);
    DecodedIsRow(row, legend, names, n);
    if slots != [] {
      assert FlaggedAt(row, slots[0].hour);
    }
  }

  /** Hours without a flag add nothing. */
  lemma {:induction false} DecodedSkips(row: DayRow, legend: map<int, LegendEntry>,
                                        names: map<string, string>, m: nat, n: nat)
    requires m <= n
    requires forall h :: m < h <= n ==> !FlaggedAt(row, h)
    ensures Decoded(row, legend, names, n) == Decoded(row, legend, names, m)
    decreases n
  {
    if m < n {
      DecodedSkips(row, legend, names, m, n - 1);
    }
  }

  /** The decoding loop over the hours 1..24. */
  method DecodeSlots(row: DayRow, legend: map<int, LegendEntry>, names: map<string, string>)
    returns (slots: seq<Slot>)
    ensures slots == Decoded(row, legend, names, 24)
    ensures DecodesRow(slots, row, legend, names, 24)
  {
    slots := [];
    for hour := 1 to 25
      invariant slots == Decoded(row, legend, names, hour - 1)
    {
      if hour in row {
        var status := row[hour];
        if status == "no" || status == "first" || status == "second" || status == "maybe" {
          var (start, end) := SlotBounds(hour, status, legend);
          var slot := Slot(hour, start + "-" + end, status, StatusName(status, names),
                           ClockMinutes(start), ClockMinutes(end));
          assert slot == SlotFor(hour, row[hour], legend, names);
          slots := slots + [slot];
        }
      }
      assert Decoded(row, legend, names, hour) ==
             Decoded(row, legend, names, hour - 1) +
             (if FlaggedAt(row, hour) then [SlotFor(hour, row[hour], legend, names)] else []);
    }
    DecodedIsRow(row, legend, names, 24);
  }

  // ---------------------------------------------------------------------------
  // Slot minutes

  lemma PadZero()
    ensures Pad2(0) == "00" && Pad2(30) == "30"
  {
    assert NatToString(0) == "0";
    assert NatToString(3) == "3";
    assert NatToString(30) == NatToString(3) + [DigitChar(0)];
  }

  /** For a legend entry of well-formed clock texts `a:b`-`c:d`, the first half
      is `[a:00, a:30)`, the second half `[a:30, c:d)` and the other statuses the
      whole entry. */
  lemma LegendSlot(hour: int, status: string, legend: map<int, LegendEntry>, names: map<string, string>,
                   a: nat, b: nat, c: nat, d: nat)
    requires hour >= 1 && hour in legend
    requires legend[hour].start == ClockText(a, b) && legend[hour].end == ClockText(c, d)
    ensures var s := SlotFor(hour, status, legend, names);
            (status == "first" ==>
               s.startMin == Int(a * 60) && s.endMin == Int(a * 60 + 30) &&
               s.timeRange == ClockText(a, 0) + "-" + ClockText(a, 30)) &&
            (status == "second" ==>
               s.startMin == Int(a * 60 + 30) && s.endMin == Int(c * 60 + d) &&
               s.timeRange == ClockText(a, 30) + "-" + ClockText(c, d)) &&
            (status != "first" && status != "second" ==>
               s.startMin == Int(a * 60 + b) && s.endMin == Int(c * 60 + d) &&
               s.timeRange == ClockText(a, b) + "-" + ClockText(c, d))
  {
    if status == "first" {
      HalfHourEnds(a, b);
      ClockMinutesOfText(a, 0);
      ClockMinutesOfText(a, 30);
    } else if status == "second" {
      HalfHourEnds(a, b);
      ClockMinutesOfText(a, 30);
      ClockMinutesOfText(c, d);
    } else {
      ClockMinutesOfText(a, b);
      ClockMinutesOfText(c, d);
    }
  }

  /** The hour field of `a:b`, followed by ":00" or ":30". */
  lemma HalfHourEnds(a: nat, b: nat)
    ensures Split(ClockText(a, b), ':')[0] + ":00" == ClockText(a, 0)
    ensures Split(ClockText(a, b), ':')[0] + ":30" == ClockText(a, 30)
  {
    PadZero();
    ClockHour(a, b);
  }

  /** Without a legend entry the hour `h` covers `[(h-1)*60, h*60)`. */
  lemma FallbackSlot(hour: int, status: string, legend: map<int, LegendEntry>, names: map<string, string>)
    requires hour >= 1 && hour !in legend
    ensures var s := SlotFor(hour, status, legend, names);
            s.startMin == Int((hour - 1) * 60) && s.endMin == Int(hour * 60) &&
            s.timeRange == ClockText(hour - 1, 0) + "-" + ClockText(hour, 0)
  {
    PadZero();
    assert Pad2(hour - 1) + ":00" == ClockText(hour - 1, 0);
    assert Pad2(hour) + ":00" == ClockText(hour, 0);
    ClockMinutesOfText(hour - 1, 0);
    ClockMinutesOfText(hour, 0);
  }

  // ---------------------------------------------------------------------------
  // Merging touching slots into ranges

  datatype Range = Range(startTime: string, endTime: JsVal, startMin: Numeric, endMin: Numeric,
                         description: string, status: string)

  /** `${startTime}-${endTime}`. */
  function RangeText(r: Range): string {
    r.startTime + "-" + Show(r.endTime)
  }

  /** The range a slot opens. */
  function Open(s: Slot): Range {
    var ends := Split(s.timeRange, '-');
    Range(ends[0], At(ends, 1), s.startMin, s.endMin, s.description, s.status)
  }

  /** The open range (the last one) grown by a slot that starts where it ends. */
  function Grow(r: Range, s: Slot): Range {
    r.(endTime := At(Split(s.timeRange, '-'), 1), endMin := s.endMin)
  }

  /** One step of the merge loop: the last range is the open one. */
  function Absorb(ranges: seq<Range>, s: Slot): seq<Range> {
    if |ranges| == 0 then [Open(s)]
    else if SameNumber(ranges[|ranges| - 1].endMin, s.startMin) then
      ranges[..|ranges| - 1] + [Grow(ranges[|ranges| - 1], s)]
    else ranges + [Open(s)]
  }

  /** The ranges the merge loop produces from the slots. */
  function Merged(slots: seq<Slot>): (ranges: seq<Range>)
    ensures |ranges| <= |slots|
    ensures |ranges| == 0 <==> |slots| == 0
    decreases |slots|
  {
    if |slots| == 0 then [] else Absorb(Merged(slots[..|slots| - 1]), slots[|slots| - 1])
  }

  /** The merge loop, with the range under construction held apart until it
      is closed by a gap or by the end of the slots. */
  method MergeSlots(slots: seq<Slot>) returns (merged: seq<Range>)
    ensures merged == Merged(slots)
  {
    merged := [];
    var current: Option<Range> := None;
    for i := 0 to |slots|
      invariant current.None? <==> i == 0
      invariant current.None? ==> merged == []
      invariant Pending(merged, current) == Merged(slots[..i])
    {
      var slot := slots[i];
      assert slots[..i + 1][..i] == slots[..i];
      ghost var before := Pending(merged, current);
      if current.None? {
        var ends := Split(slot.timeRange, '-');
        current := Some(Range(ends[0], At(ends, 1), slot.startMin, slot.endMin, slot.description, slot.status));
        assert current.value == Open(slot);
      } else if SameNumber(current.value.endMin, slot.startMin) {
        ghost var open := current.value;
        current := Some(current.value.(endTime := At(Split(slot.timeRange, '-'), 1), endMin := slot.endMin));
        assert current.value == Grow(open, slot);
        AbsorbGrows(merged, open, slot);
      } else {
        ghost var open := current.value;
        AbsorbOpens(merged, open, slot);
        merged := merged + [current.value];
        var ends := Split(slot.timeRange, '-');
        current := Some(Range(ends[0], At(ends, 1), slot.startMin, slot.endMin, slot.description, slot.status));
        assert current.value == Open(slot);
      }
      assert Pending(merged, current) == Absorb(before, slot);
    }
    assert slots[..|slots|] == slots;
    if current.Some? {
      merged := merged + [current.value];
    }
  }

  /** The ranges closed so far followed by the open one, if any. */
  function Pending(closed: seq<Range>, open: Option<Range>): seq<Range> {
    if open.Some? then closed + [open.value] else closed
  }

  /** A slot that starts where the open range ends grows that range. */
  lemma AbsorbGrows(closed: seq<Range>, open: Range, s: Slot)
    requires SameNumber(open.endMin, s.startMin)
    ensures Absorb(closed + [open], s) == closed + [Grow(open, s)]
  {
    assert (closed + [open])[..|closed|] == closed;
  }

  /** Any other slot closes the open range and opens its own. */
  lemma AbsorbOpens(closed: seq<Range>, open: Range, s: Slot)
    requires !SameNumber(open.endMin, s.startMin)
    ensures Absorb(closed + [open], s) == closed + [open] + [Open(s)]
  {
  }

  /** No range ends exactly where the next one starts. */
  predicate NeverTouch(ranges: seq<Range>) {
    forall k :: 0 <= k < |ranges| - 1 ==> !SameNumber(ranges[k].endMin, ranges[k + 1].startMin)
  }

  lemma {:induction false} MergedNeverTouch(slots: seq<Slot>)
    ensures NeverTouch(Merged(slots))
    decreases |slots|
  {
    if |slots| > 0 {
      var prev := Merged(slots[..|slots| - 1]);
      MergedNeverTouch(slots[..|slots| - 1]);
      var ranges := Merged(slots);
      if |prev| > 0 && SameNumber(prev[|prev| - 1].endMin, slots[|slots| - 1].startMin) {
        assert forall k :: 0 <= k < |prev| - 1 ==> ranges[k] == prev[k];
        assert forall k :: 0 <= k < |prev| ==> ranges[k].startMin == prev[k].startMin;
      } else {
        assert forall k :: 0 <= k < |prev| ==> ranges[k] == prev[k];
      }
    }
  }

  /** A slot or range with integer bounds, start not after end. */
  predicate Proper(startMin: Numeric, endMin: Numeric) {
    startMin.Int? && endMin.Int? && startMin.i <= endMin.i
  }

  predicate ProperSlots(slots: seq<Slot>) {
    forall k :: 0 <= k < |slots| ==> Proper(slots[k].startMin, slots[k].endMin)
  }

  predicate ProperRanges(ranges: seq<Range>) {
    forall k :: 0 <= k < |ranges| ==> Proper(ranges[k].startMin, ranges[k].endMin)
  }

  predicate InSpan(startMin: Numeric, endMin: Numeric, t: int) {
    AtMost(startMin, t) && Above(endMin, t)
  }

  /** Minute `t` lies in some slot. */
  predicate SlotsCover(slots: seq<Slot>, t: int) {
    exists k :: 0 <= k < |slots| && InSpan(slots[k].startMin, slots[k].endMin, t)
  }

  /** Minute `t` lies in some range. */
  predicate RangesCover(ranges: seq<Range>, t: int) {
    exists k :: 0 <= k < |ranges| && InSpan(ranges[k].startMin, ranges[k].endMin, t)
  }

  lemma AbsorbCovers(ranges: seq<Range>, s: Slot, t: int)
    requires ProperRanges(ranges) && Proper(s.startMin, s.endMin)
    ensures ProperRanges(Absorb(ranges, s))
    ensures RangesCover(Absorb(ranges, s), t) <==> RangesCover(ranges, t) || InSpan(s.startMin, s.endMin, t)
  {
    var next := Absorb(ranges, s);
    if |ranges| > 0 && SameNumber(ranges[|ranges| - 1].endMin, s.startMin) {
      var n := |ranges| - 1;
      assert forall k :: 0 <= k < n ==> next[k] == ranges[k];
      if RangesCover(next, t) {
        var k :| 0 <= k < |next| && InSpan(next[k].startMin, next[k].endMin, t);
        if k < n {
          assert InSpan(ranges[k].startMin, ranges[k].endMin, t);
        } else if t < ranges[n].endMin.i {
          assert InSpan(ranges[n].startMin, ranges[n].endMin, t);
        }
      }
      if RangesCover(ranges, t) {
        var k :| 0 <= k < |ranges| && InSpan(ranges[k].startMin, ranges[k].endMin, t);
        assert InSpan(next[k].startMin, next[k].endMin, t);
      }
      if InSpan(s.startMin, s.endMin, t) {
        assert InSpan(next[n].startMin, next[n].endMin, t);
      }
    } else {
      assert forall k :: 0 <= k < |ranges| ==> next[k] == ranges[k];
      if RangesCover(next, t) {
        var k :| 0 <= k < |next| && InSpan(next[k].startMin, next[k].endMin, t);
        if k < |ranges| {
          assert InSpan(ranges[k].startMin, ranges[k].endMin, t);
        }
      }
      if RangesCover(ranges, t) {
        var k :| 0 <= k < |ranges| && InSpan(ranges[k].startMin, ranges[k].endMin, t);
        assert InSpan(next[k].startMin, next[k].endMin, t);
      }
      if InSpan(s.startMin, s.endMin, t) {
        assert InSpan(next[|next| - 1].startMin, next[|next| - 1].endMin, t);
      }
    }
  }

  /** The merged ranges cover exactly the minutes the slots cover. */
  lemma {:induction false} MergedCovers(slots: seq<Slot>, t: int)
    requires ProperSlots(slots)
    ensures ProperRanges(Merged(slots))
    ensures RangesCover(Merged(slots), t) <==> SlotsCover(slots, t)
    decreases |slots|
  {
    if |slots| > 0 {
      var init, s := slots[..|slots| - 1], slots[|slots| - 1];
      assert forall k :: 0 <= k < |init| ==> init[k] == slots[k];
      MergedCovers(init, t);
      AbsorbCovers(Merged(init), s, t);
      if SlotsCover(slots, t) {
        var k :| 0 <= k < |slots| && InSpan(slots[k].startMin, slots[k].endMin, t);
        if k < |init| {
          assert InSpan(init[k].startMin, init[k].endMin, t);
        }
      }
      if SlotsCover(init, t) {
        var k :| 0 <= k < |init| && InSpan(init[k].startMin, init[k].endMin, t);
        assert InSpan(slots[k].startMin, slots[k].endMin, t);
      }
    }
  }

  /** Slots in time order: each proper, and none starting before the previous ends. */
  predicate OrderedSlots(slots: seq<Slot>) {
    ProperSlots(slots) &&
    forall k :: 0 <= k < |slots| - 1 ==> slots[k].endMin.i <= slots[k + 1].startMin.i
  }

  /** Ranges in time order with a gap between any two. */
  predicate Separated(ranges: seq<Range>) {
    ProperRanges(ranges) &&
    forall j, k :: 0 <= j < k < |ranges| ==> ranges[j].endMin.i < ranges[k].startMin.i
  }

  /** Slots in time order merge into separated ranges; the last range ends
      where the last slot ends. */
  lemma {:induction false} MergedSeparated(slots: seq<Slot>)
    requires OrderedSlots(slots)
    ensures Separated(Merged(slots))
    ensures |slots| > 0 ==> Merged(slots)[|Merged(slots)| - 1].endMin == slots[|slots| - 1].endMin
    decreases |slots|
  {
    if |slots| > 0 {
      var init, s := slots[..|slots| - 1], slots[|slots| - 1];
      assert forall k :: 0 <= k < |init| ==> init[k] == slots[k];
      MergedSeparated(init);
      if |init| > 0 {
        assert Merged(init)[|Merged(init)| - 1].endMin.i <= s.startMin.i;
      }
      AbsorbSeparated(Merged(init), s);
    }
  }

  /** One merge step keeps the ranges separated when the slot starts no
      earlier than the last range ends. */
  lemma AbsorbSeparated(prev: seq<Range>, s: Slot)
    requires Separated(prev) && Proper(s.startMin, s.endMin)
    requires |prev| > 0 ==> prev[|prev| - 1].endMin.i <= s.startMin.i
    ensures var ranges := Absorb(prev, s);
            Separated(ranges) && ranges[|ranges| - 1].endMin == s.endMin
  {
    var ranges := Absorb(prev, s);
    if |prev| > 0 {
      var n := |prev| - 1;
      if SameNumber(prev[n].endMin, s.startMin) {
        assert forall k :: 0 <= k < n ==> ranges[k] == prev[k];
        assert ranges[n].startMin == prev[n].startMin;
      } else {
        assert forall k :: 0 <= k < |prev| ==> ranges[k] == prev[k];
      }
    }
  }

  // ---------------------------------------------------------------------------
  // Selecting the current and the next range

  /** `range.startInMinutes <= now && range.endInMinutes > now`. */
  predicate Holds(r: Range, now: int) {
    AtMost(r.startMin, now) && Above(r.endMin, now)
  }

  /** `range.startInMinutes > now`. */
  predicate StartsAfter(r: Range, now: int) {
    Above(r.startMin, now)
  }

  datatype Pick = Pick(current: Option<Range>, next: Option<Range>)

  predicate Done(p: Pick) {
    p.current.Some? && p.next.Some?
  }

  /** One pass of the selection loop. */
  function Visit(p: Pick, r: Range, now: int): Pick {
    if Holds(r, now) then p.(current := Some(r))
    else if p.next.None? && StartsAfter(r, now) then p.(next := Some(r))
    else p
  }

  /** The selection after the loop; it stops once both are found. */
  function Picked(ranges: seq<Range>, now: int): Pick
    decreases |ranges|
  {
    if |ranges| == 0 then Pick(None, None)
    else
      var p := Picked(ranges[..|ranges| - 1], now);
      if Done(p) then p else Visit(p, ranges[|ranges| - 1], now)
  }

  /** The first range in list order that starts after `now`. */
  function FirstAfter(ranges: seq<Range>, now: int): (r: Option<Range>)
    ensures r.None? <==> forall k :: 0 <= k < |ranges| ==> !StartsAfter(ranges[k], now)
    ensures r.Some? ==> exists k :: 0 <= k < |ranges| && ranges[k] == r.value && StartsAfter(ranges[k], now) &&
                                    forall j :: 0 <= j < k ==> !StartsAfter(ranges[j], now)
    decreases |ranges|
  {
    if |ranges| == 0 then None
    else
      var init := ranges[..|ranges| - 1];
      var f := FirstAfter(init, now);
      assert forall k :: 0 <= k < |init| ==> init[k] == ranges[k];
      if f.Some? then f
      else if StartsAfter(ranges[|ranges| - 1], now) then Some(ranges[|ranges| - 1])
      else None
  }

  /** Once both are found, later ranges change nothing. */
  lemma {:induction false} DoneStays(ranges: seq<Range>, i: nat, j: nat, now: int)
    requires i <= j <= |ranges| && Done(Picked(ranges[..i], now))
    ensures Picked(ranges[..j], now) == Picked(ranges[..i], now)
    decreases j
  {
    if i < j {
      DoneStays(ranges, i, j - 1, now);
      assert ranges[..j][..j - 1] == ranges[..j - 1];
    }
  }

  /** The selection loop, with its `break`. */
  method SelectOutage(ranges: seq<Range>, now: int) returns (current: Option<Range>, next: Option<Range>)
    ensures Pick(current, next) == Picked(ranges, now)
  {
    current, next := None, None;
    var i := 0;
    while i < |ranges|
      invariant 0 <= i <= |ranges|
      invariant Pick(current, next) == Picked(ranges[..i], now)
      invariant !Done(Pick(current, next))
    {
      var range := ranges[i];
      assert ranges[..i + 1][..i] == ranges[..i];
      if AtMost(range.startMin, now) && Above(range.endMin, now) {
        current := Some(range);
      } else if next.None? && Above(range.startMin, now) {
        next := Some(range);
      }
      i := i + 1;
      if current.Some? && next.Some? {
        DoneStays(ranges, i, |ranges|, now);
        break;
      }
    }
    assert ranges[..|ranges|] == ranges;
  }

  /** What the selection finds: a current range exactly when some range holds
      `now`, and then one that does; as next the first range starting after
      `now`, which therefore never holds `now`. */
  lemma {:induction false} PickedIs(ranges: seq<Range>, now: int)
    ensures Picked(ranges, now).current.Some? <==> exists k :: 0 <= k < |ranges| && Holds(ranges[k], now)
    ensures Picked(ranges, now).current.Some? ==>
              Picked(ranges, now).current.value in ranges && Holds(Picked(ranges, now).current.value, now)
    ensures Picked(ranges, now).next == FirstAfter(ranges, now)
    ensures Picked(ranges, now).next.Some? ==> !Holds(Picked(ranges, now).next.value, now)
    decreases |ranges|
  {
    if |ranges| > 0 {
      var init := ranges[..|ranges| - 1];
      PickedIs(init, now);
      assert forall k :: 0 <= k < |init| ==> init[k] == ranges[k];
      if Picked(init, now).current.Some? {
        assert Picked(init, now).current.value in ranges;
      }
    }
  }

  /** Among separated ranges at most one holds `now`, so the current range is
      the one range that does. */
  lemma PickedOnlyHolding(ranges: seq<Range>, now: int, k: int)
    requires Separated(ranges) && 0 <= k < |ranges| && Holds(ranges[k], now)
    ensures Picked(ranges, now).current == Some(ranges[k])
  {
    PickedIs(ranges, now);
  }

  // ---------------------------------------------------------------------------
  // The whole lookup

  datatype Outage = Outage(timeRange: string, description: string, status: string)

  datatype ScheduledOutage = ScheduledOutage(queueGroup: JsVal, current: Option<Outage>, next: Option<Outage>)

  function AsOutage(r: Option<Range>): Option<Outage> {
    if r.None? then None else Some(Outage(RangeText(r.value), r.value.description, r.value.status))
  }

  /** `info.fact?.data?.[day]?.[group]`. */
  function RowAt(fact: Option<FactData>, day: int, group: string): Option<DayRow> {
    if fact.Some? && day in fact.value && group in fact.value[day] then Some(fact.value[day][group])
    else None
  }

  /** Today's row: under today's key, or else under the document's own `today`
      key when that is set and non-zero. */
  function TodayRow(info: Info, group: string, todayKey: int): Option<DayRow> {
    var row := RowAt(info.factData, todayKey, group);
    if row.None? && info.factToday.Some? && info.factToday.value != 0 then
      RowAt(info.factData, info.factToday.value, group)
    else row
  }

  /** The scheduled outage reported for the queue group `reason[0]` at minute
      `now` of the day keyed `todayKey`. */
  function ScheduledWindow(info: Info, reason: seq<string>, now: int, todayKey: int): Option<ScheduledOutage> {
    var group := At(reason, 0);
    var row := TodayRow(info, Show(group), todayKey);
    if row.None? then None
    else
      var slots := Decoded(row.value, info.legend, info.statusNames, 24);
      if slots == [] then None
      else
        var p := Picked(Merged(slots), now);
        if p.current.None? && p.next.None? then None
        else Some(ScheduledOutage(group, AsOutage(p.current), AsOutage(p.next)))
  }

  /** `findNextScheduledOutage`, with the current Kyiv minute and today's key
      passed in. */
  method FindNextScheduledOutage(info: Info, reason: seq<string>, now: int, todayKey: int)
    returns (r: Option<ScheduledOutage>)
    ensures r == ScheduledWindow(info, reason, now, todayKey)
  {
    var queueGroup := At(reason, 0);
    var todaySchedule := RowAt(info.factData, todayKey, Show(queueGroup));
    if todaySchedule.None? && info.factToday.Some? && info.factToday.value != 0 {
      todaySchedule := RowAt(info.factData, info.factToday.value, Show(queueGroup));
    }
    if todaySchedule.None? {
      return None;
    }
    var outageSlots := DecodeSlots(todaySchedule.value, info.legend, info.statusNames);
    if |outageSlots| == 0 {
      return None;
    }
    var mergedOutages := MergeSlots(outageSlots);
    var currentOutage, nextOutage := SelectOutage(mergedOutages, now);
    if currentOutage.None? && nextOutage.None? {
      return None;
    }
    r := Some(ScheduledOutage(queueGroup, AsOutage(currentOutage), AsOutage(nextOutage)));
  }

  /** When the lookup reports nothing: no row, no flagged hour, or no range
      holding `now` and none starting after it (earlier ranges are ignored).
      Otherwise it names the queue group and the ranges selected. */
  lemma WindowCases(info: Info, reason: seq<string>, now: int, todayKey: int)
    ensures var row := TodayRow(info, Show(At(reason, 0)), todayKey);
            ScheduledWindow(info, reason, now, todayKey).None? <==>
              row.None? ||
              (forall h :: 1 <= h <= 24 ==> !FlaggedAt(row.value, h)) ||
              (var ranges := Merged(Decoded(row.value, info.legend, info.statusNames, 24));
               (forall k :: 0 <= k < |ranges| ==> !Holds(ranges[k], now) && !StartsAfter(ranges[k], now)))
    ensures ScheduledWindow(info, reason, now, todayKey).Some? ==>
              ScheduledWindow(info, reason, now, todayKey).value.queueGroup == At(reason, 0)
  {
    var row := TodayRow(info, Show(At(reason, 0)), todayKey);
    if row.Some? {
      NoSlotsIffNoFlags(row.value, info.legend, info.statusNames, 24);
      var ranges := Merged(Decoded(row.value, info.legend, info.statusNames, 24));
      PickedIs(ranges, now);
    }
  }

  // ---------------------------------------------------------------------------
  // The provider's hour legend

  /** Hour `h` runs from `(h-1):00` to `h:00`. */
  function HourLegend(): map<int, LegendEntry> {
    map h | 1 <= h <= 24 :: HourEntry(h)
  }

  function HourEntry(h: int): LegendEntry
    requires h >= 1
  {
    LegendEntry(Pad2(h - 1) + "-" + Pad2(h), ClockText(h - 1, 0), ClockText(h, 0))
  }

  /** Under the hour legend a slot lies within its own hour. */
  lemma HourLegendSlot(h: int, status: string, names: map<string, string>)
    requires 1 <= h <= 24
    ensures var s := SlotFor(h, status, HourLegend(), names);
            Proper(s.startMin, s.endMin) && (h - 1) * 60 <= s.startMin.i && s.endMin.i <= h * 60
  {
    LegendSlot(h, status, HourLegend(), names, h - 1, 0, h, 0);
  }

  /** Under the hour legend the decoded slots are in time order. */
  lemma HourLegendOrdered(row: DayRow, names: map<string, string>)
    ensures OrderedSlots(Decoded(row, HourLegend(), names, 24))
  {
    var slots := Decoded(row, HourLegend(), names, 24);
    DecodedIsRow(row, HourLegend(), names, 24);
    forall k | 0 <= k < |slots|
      ensures Proper(slots[k].startMin, slots[k].endMin)
      ensures (slots[k].hour - 1) * 60 <= slots[k].startMin.i && slots[k].endMin.i <= slots[k].hour * 60
    {
      HourLegendSlot(slots[k].hour, row[slots[k].hour], names);
    }
  }

  /** Hence the merged ranges are separated, and at most one holds any minute. */
  lemma HourLegendSeparated(row: DayRow, names: map<string, string>)
    ensures Separated(Merged(Decoded(row, HourLegend(), names, 24)))
  {
    HourLegendOrdered(row, names);
    MergedSeparated(Decoded(row, HourLegend(), names, 24));
  }

  /** A row flagging two neighbouring hours and nothing else. */
  function PairRow(h: int, first: string, second: string): DayRow {
    map k | 1 <= k <= 24 :: PairStatus(h, first, second, k)
  }

  function PairStatus(h: int, first: string, second: string, k: int): string {
    if k == h then first else if k == h + 1 then second else "yes"
  }

  lemma {:induction false} DecodedPairUpTo(h: int, first: string, second: string, legend: map<int, LegendEntry>,
                                           names: map<string, string>, n: nat)
    requires 1 <= h && h + 1 <= n <= 24 && Flagged(first) && Flagged(second)
    ensures Decoded(PairRow(h, first, second), legend, names, n)
         == [SlotFor(h, first, legend, names), SlotFor(h + 1, second, legend, names)]
    decreases n
  {
    if n > h + 1 {
      PairRowAt(h, first, second, n);
      DecodedPairUpTo(h, first, second, legend, names, n - 1);
      assert Decoded(PairRow(h, first, second), legend, names, n)
          == Decoded(PairRow(h, first, second), legend, names, n - 1);
    } else {
      DecodedPairAt(h, first, second, legend, names);
    }
  }

  /** Up to the second hour of the pair, the slots are the pair's two. */
  lemma DecodedPairAt(h: int, first: string, second: string, legend: map<int, LegendEntry>,
                      names: map<string, string>)
    requires 1 <= h <= 23 && Flagged(first) && Flagged(second)
    ensures Decoded(PairRow(h, first, second), legend, names, h + 1)
         == [SlotFor(h, first, legend, names), SlotFor(h + 1, second, legend, names)]
  {
    var row := PairRow(h, first, second);
    PairRowAt(h, first, second, h);
    PairRowAt(h, first, second, h + 1);
    DecodedNone(h, first, second, legend, names, h - 1);
    DecodedTakes(row, legend, names, h);
    DecodedTakes(row, legend, names, h + 1);
  }

  /** A flagged hour adds its slot after those of the earlier hours. */
  lemma DecodedTakes(row: DayRow, legend: map<int, LegendEntry>, names: map<string, string>, n: nat)
    requires n >= 1 && FlaggedAt(row, n)
    ensures Decoded(row, legend, names, n) == Decoded(row, legend, names, n - 1) + [SlotFor(n, row[n], legend, names)]
  {
  }

  /** The pair row's status at each hour of the day. */
  lemma PairRowAt(h: int, first: string, second: string, k: int)
    requires 1 <= k <= 24
    ensures var row := PairRow(h, first, second);
            k in row && row[k] == PairStatus(h, first, second, k) &&
            (k != h && k != h + 1 ==> !Flagged(row[k]))
  {
  }

  lemma {:induction false} DecodedNone(h: int, first: string, second: string, legend: map<int, LegendEntry>,
                                       names: map<string, string>, n: nat)
    requires n < h && n <= 24
    ensures Decoded(PairRow(h, first, second), legend, names, n) == []
    decreases n
  {
    if n > 0 {
      PairRowAt(h, first, second, n);
      DecodedNone(h, first, second, legend, names, n - 1);
    }
  }

  lemma DecodedPair(h: int, first: string, second: string, legend: map<int, LegendEntry>, names: map<string, string>)
    requires 1 <= h <= 23 && Flagged(first) && Flagged(second)
    ensures Decoded(PairRow(h, first, second), legend, names, 24)
         == [SlotFor(h, first, legend, names), SlotFor(h + 1, second, legend, names)]
  {
    DecodedPairUpTo(h, first, second, legend, names, 24);
  }

  lemma RangeEnds(a: nat, b: nat, c: nat, d: nat)
    ensures Split(ClockText(a, b) + "-" + ClockText(c, d), '-') == [ClockText(a, b), ClockText(c, d)]
  {
    TextHasNo(a, b, '-');
    TextHasNo(c, d, '-');
    SplitPair(ClockText(a, b), '-', ClockText(c, d));
  }

  /** Two slots merge into one range exactly when the first ends where the
      second starts. */
  lemma MergeTwo(a: Slot, b: Slot)
    ensures SameNumber(a.endMin, b.startMin) ==> Merged([a, b]) == [Grow(Open(a), b)]
    ensures !SameNumber(a.endMin, b.startMin) ==> Merged([a, b]) == [Open(a), Open(b)]
  {
    assert [a, b][..1] == [a];
  }

  /** A slot of the hour legend, status by status. */
  lemma HourSlot(h: int, status: string, names: map<string, string>)
    requires 1 <= h <= 24
    ensures var s := SlotFor(h, status, HourLegend(), names);
            (status == "first" ==>
               s.startMin == Int((h - 1) * 60) && s.endMin == Int((h - 1) * 60 + 30) &&
               s.timeRange == ClockText(h - 1, 0) + "-" + ClockText(h - 1, 30)) &&
            (status == "second" ==>
               s.startMin == Int((h - 1) * 60 + 30) && s.endMin == Int(h * 60) &&
               s.timeRange == ClockText(h - 1, 30) + "-" + ClockText(h, 0)) &&
            (status != "first" && status != "second" ==>
               s.startMin == Int((h - 1) * 60) && s.endMin == Int(h * 60) &&
               s.timeRange == ClockText(h - 1, 0) + "-" + ClockText(h, 0))
  {
    HourEntrySlot(h, status, HourLegend(), names);
  }

  /** The same for any legend whose entry for the hour is the hour's own. */
  lemma HourEntrySlot(h: int, status: string, legend: map<int, LegendEntry>, names: map<string, string>)
    requires 1 <= h && h in legend && legend[h] == HourEntry(h)
    ensures var s := SlotFor(h, status, legend, names);
            (status == "first" ==>
               s.startMin == Int((h - 1) * 60) && s.endMin == Int((h - 1) * 60 + 30) &&
               s.timeRange == ClockText(h - 1, 0) + "-" + ClockText(h - 1, 30)) &&
            (status == "second" ==>
               s.startMin == Int((h - 1) * 60 + 30) && s.endMin == Int(h * 60) &&
               s.timeRange == ClockText(h - 1, 30) + "-" + ClockText(h, 0)) &&
            (status != "first" && status != "second" ==>
               s.startMin == Int((h - 1) * 60) && s.endMin == Int(h * 60) &&
               s.timeRange == ClockText(h - 1, 0) + "-" + ClockText(h, 0))
  {
    LegendSlot(h, status, legend, names, h - 1, 0, h, 0);
  }

  /** Two touching slots `p-q` and `q-r` merge into the one range `p-r`. */
  lemma MergeTouching(a: Slot, b: Slot, p: string, q: string, r: string)
    requires '-' !in p && '-' !in q && '-' !in r
    requires a.timeRange == p + "-" + q && b.timeRange == q + "-" + r
    requires SameNumber(a.endMin, b.startMin)
    ensures Merged([a, b]) == [Range(p, Str(r), a.startMin, b.endMin, a.description, a.status)]
  {
    MergeTwo(a, b);
    SplitPair(p, '-', q);
    SplitPair(q, '-', r);
  }

  /** A "second" hour followed by a "no" hour merges into one range from the
      half hour to the end of the second hour. */
  lemma SecondThenNoMerge(h: int, names: map<string, string>)
    requires 1 <= h <= 23
    ensures var ranges := Merged(Decoded(PairRow(h, "second", "no"), HourLegend(), names, 24));
            |ranges| == 1 && RangeText(ranges[0]) == ClockText(h - 1, 30) + "-" + ClockText(h + 1, 0) &&
            ranges[0].startMin == Int((h - 1) * 60 + 30) && ranges[0].endMin == Int((h + 1) * 60)
  {
    var a := SlotFor(h, "second", HourLegend(), names);
    var b := SlotFor(h + 1, "no", HourLegend(), names);
    DecodedPair(h, "second", "no", HourLegend(), names);
    SecondThenNoSlots(h, names);
    TextHasNo(h - 1, 30, '-');
    TextHasNo(h, 0, '-');
    TextHasNo(h + 1, 0, '-');
    MergeTouching(a, b, ClockText(h - 1, 30), ClockText(h, 0), ClockText(h + 1, 0));
  }

  /** The slots of a "second" hour and a following "no" hour. */
  lemma SecondThenNoSlots(h: int, names: map<string, string>)
    requires 1 <= h <= 23
    ensures var a := SlotFor(h, "second", HourLegend(), names);
            var b := SlotFor(h + 1, "no", HourLegend(), names);
            a.startMin == Int((h - 1) * 60 + 30) && a.endMin == Int(h * 60) &&
            b.startMin == Int(h * 60) && b.endMin == Int((h + 1) * 60) &&
            a.timeRange == ClockText(h - 1, 30) + "-" + ClockText(h, 0) &&
            b.timeRange == ClockText(h, 0) + "-" + ClockText(h + 1, 0)
  {
    HourSlot(h, "second", names);
    HourSlot(h + 1, "no", names);
  }

  /** A "first" hour followed by a "no" hour leaves a half-hour gap, so the two
      stay apart. */
  lemma FirstThenNoApart(h: int, names: map<string, string>)
    requires 1 <= h <= 23
    ensures var ranges := Merged(Decoded(PairRow(h, "first", "no"), HourLegend(), names, 24));
            |ranges| == 2 &&
            RangeText(ranges[0]) == ClockText(h - 1, 0) + "-" + ClockText(h - 1, 30) &&
            RangeText(ranges[1]) == ClockText(h, 0) + "-" + ClockText(h + 1, 0)
  {
    var a := SlotFor(h, "first", HourLegend(), names);
    var b := SlotFor(h + 1, "no", HourLegend(), names);
    DecodedPair(h, "first", "no", HourLegend(), names);
    FirstThenNoSlots(h, names);
    MergeTwo(a, b);
    OpenText(a, h - 1, 0, h - 1, 30);
    OpenText(b, h, 0, h + 1, 0);
  }

  /** The slots of a "first" hour and a following "no" hour. */
  lemma FirstThenNoSlots(h: int, names: map<string, string>)
    requires 1 <= h <= 23
    ensures var a := SlotFor(h, "first", HourLegend(), names);
            var b := SlotFor(h + 1, "no", HourLegend(), names);
            a.endMin == Int((h - 1) * 60 + 30) && b.startMin == Int(h * 60) &&
            a.timeRange == ClockText(h - 1, 0) + "-" + ClockText(h - 1, 30) &&
            b.timeRange == ClockText(h, 0) + "-" + ClockText(h + 1, 0)
  {
    HourSlot(h, "first", names);
    HourSlot(h + 1, "no", names);
  }

  /** The range a slot `p-q` opens reads `p-q`. */
  lemma OpenText(s: Slot, a: nat, b: nat, c: nat, d: nat)
    requires s.timeRange == ClockText(a, b) + "-" + ClockText(c, d)
    ensures RangeText(Open(s)) == ClockText(a, b) + "-" + ClockText(c, d)
  {
    RangeEnds(a, b, c, d);
  }

  lemma Pad2Of(n: nat)
    requires 10 <= n < 100
    ensures Pad2(n) == [DigitChar(n / 10), DigitChar(n % 10)]
  {
    assert NatToString(n) == NatToString(n / 10) + [DigitChar(n % 10)];
  }

  /** The range texts of the two cases for the evening and the midday hours. */
  lemma EveningRangeText()
    ensures ClockText(21, 30) + "-" + ClockText(23, 0) == "21:30-23:00"
  {
    PadZero();
    Pad2Of(21);
    Pad2Of(23);
  }

  lemma MiddayRangeTexts()
    ensures ClockText(11, 0) + "-" + ClockText(11, 30) == "11:00-11:30"
    ensures ClockText(12, 0) + "-" + ClockText(13, 0) == "12:00-13:00"
  {
    PadZero();
    Pad2Of(11);
    Pad2Of(12);
    Pad2Of(13);
  }

  /** The two cases spelled out for the evening and the midday hours. */
  lemma MergeExamples(names: map<string, string>)
    ensures var ranges := Merged(Decoded(PairRow(22, "second", "no"), HourLegend(), names, 24));
            |ranges| == 1 && RangeText(ranges[0]) == "21:30-23:00"
    ensures var ranges := Merged(Decoded(PairRow(12, "first", "no"), HourLegend(), names, 24));
            |ranges| == 2 && RangeText(ranges[0]) == "11:00-11:30" && RangeText(ranges[1]) == "12:00-13:00"
  {
    SecondThenNoMerge(22, names);
    FirstThenNoApart(12, names);
    EveningRangeText();
    MiddayRangeTexts();
  }
}

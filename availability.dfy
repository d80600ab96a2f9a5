/** server/routes/availability.js: the stored weekly schedule of a
    professional, its default, and the `/slots` route that turns the schedule
    into the `{ time, available }` list of one date. */
module Availability {
  import opened Common
  import opened Text
  import opened Docs
  import opened Clock
  import opened Calendar
  import opened Model

  /** The schedule both GET routes use when none is stored: Monday to Friday,
      09:00 to 19:00, one-hour slots, break from 12:00 to 14:00. */
  const DefaultSettings: Settings :=
    Settings(["Lundi", "Mardi", "Mercredi", "Jeudi", "Vendredi"], 540, 1140, 60, At(720), At(840))

  /** `GET /settings/:professionalId` and step 1 of `/slots`: the stored
      schedule, or the default when the professional has none. */
  function SettingsFor(stored: map<Id, Settings>, pid: Id): (s: Settings)
    ensures pid in stored ==> s == stored[pid]
    ensures pid !in stored ==> s == DefaultSettings
  {
    if pid in stored then stored[pid] else DefaultSettings
  }

  /** The default schedule, stated in the route's own texts. */
  lemma DefaultSchedule(stored: map<Id, Settings>, pid: Id)
    requires pid !in stored
    ensures SettingsFor(stored, pid).workingDays == ["Lundi", "Mardi", "Mercredi", "Jeudi", "Vendredi"]
    ensures Format(SettingsFor(stored, pid).start) == "09:00" && Format(SettingsFor(stored, pid).end) == "19:00"
    ensures SettingsFor(stored, pid).slotDuration == 60
    ensures SettingsFor(stored, pid).breakStart == At(720) && Format(720) == "12:00"
    ensures SettingsFor(stored, pid).breakEnd == At(840) && Format(840) == "14:00"
  {
  }

  /** `POST /settings`: upserts the caller's schedule with the posted fields
      and leaves every other professional's schedule and every other
      collection as it was. */
  method SaveSettings(db: Db, caller: Id, posted: Settings)
    modifies db`settings
    ensures db.settings == old(db.settings)[caller := posted]
    ensures forall pid :: pid != caller && pid in old(db.settings) ==> pid in db.settings && db.settings[pid] == old(db.settings)[pid]
    ensures SettingsFor(db.settings, caller) == posted
  {
    db.settings := db.settings[caller := posted];
  }

  // ----- break window ---------------------------------------------------

  /** `currentTime >= settings.breakStart`. */
  predicate AtOrAfter(t: int, b: TimeField) {
    match b
    case Missing => false
    case Blank => true
    case At(m) => t >= m
  }

  /** `currentTime < settings.breakEnd`. */
  predicate Before(t: int, b: TimeField) {
    match b
    case Missing => false
    case Blank => false
    case At(m) => t < m
  }

  /** The break test of the loop: only the slot's start is compared. */
  predicate InBreak(s: Settings, t: int) {
    AtOrAfter(t, s.breakStart) && Before(t, s.breakEnd)
  }

  /** The break test on minutes is the route's test on the formatted texts. */
  lemma BreakTestMatchesText(t: Minute, b: Minute)
    ensures AtOrAfter(t, At(b)) <==> !StrLess(Format(t), Format(b))
    ensures Before(t, At(b)) <==> StrLess(Format(t), Format(b))
    ensures AtOrAfter(t, Blank) <==> !StrLess(Format(t), "")
    ensures !Before(t, Blank) && !StrLess(Format(t), "")
  {
    FormatOrder(t, b);
  }

  // ----- slot times -----------------------------------------------------

  /** The start times the loop emits from `t` on: every `t + k * slotDuration`
      below `end` whose start is not in the break. Minutes are not wrapped here
      (see `WrapNeverReachesEnd` for the route's wrap at midnight). */
  function SlotTimesFrom(s: Settings, t: nat): seq<Minute>
    requires s.slotDuration > 0
    decreases s.end - t
  {
    if t >= s.end then []
    else (if InBreak(s, t) then [] else [t]) + SlotTimesFrom(s, t + s.slotDuration)
  }

  /** The `k`-th point of the slot grid that starts at `t0`. */
  function GridPoint(t0: int, d: int, k: nat): int {
    t0 + k * d
  }

  /** Every emitted time lies in `[t0, end)`, is not in the break, and is a
      point of the slot grid that starts at `t0`. */
  lemma {:induction false} SlotTimesBounds(s: Settings, t0: nat)
    requires s.slotDuration > 0
    ensures forall t :: t in SlotTimesFrom(s, t0) ==>
      t0 <= t < s.end && !InBreak(s, t) && exists k: nat :: t == GridPoint(t0, s.slotDuration, k)
    ensures forall i :: 0 <= i < |SlotTimesFrom(s, t0)| ==> t0 <= SlotTimesFrom(s, t0)[i] < s.end
    decreases s.end - t0
  {
    if t0 < s.end {
      var d := s.slotDuration;
      SlotTimesBounds(s, t0 + d);
      var head: seq<int> := if InBreak(s, t0) then [] else [t0];
      var rest := SlotTimesFrom(s, t0 + d);
      assert SlotTimesFrom(s, t0) == head + rest;
      assert t0 == GridPoint(t0, d, 0);
      forall t | t in rest ensures exists k: nat :: t == GridPoint(t0, d, k) {
        var k: nat :| t == GridPoint(t0 + d, d, k);
        assert t == GridPoint(t0, d, k + 1);
      }
    }
  }

  /** Emitted times are strictly increasing. */
  lemma {:induction false} SlotTimesIncreasing(s: Settings, t0: nat)
    requires s.slotDuration > 0
    ensures forall i, j :: 0 <= i < j < |SlotTimesFrom(s, t0)| ==> SlotTimesFrom(s, t0)[i] < SlotTimesFrom(s, t0)[j]
    decreases s.end - t0
  {
    if t0 < s.end {
      var d := s.slotDuration;
      SlotTimesIncreasing(s, t0 + d);
      SlotTimesBounds(s, t0 + d);
      var rest := SlotTimesFrom(s, t0 + d);
      if !InBreak(s, t0) {
        var all := SlotTimesFrom(s, t0);
        assert all == [t0] + rest;
        forall i, j | 0 <= i < j < |all| ensures all[i] < all[j] {
          assert all[j] == rest[j - 1];
          if i > 0 { assert all[i] == rest[i - 1]; }
        }
      }
    }
  }

  /** Nothing bookable is skipped: every `t0 + k * slotDuration` below `end`
      whose start is outside the break is emitted. */
  lemma {:induction false} SlotTimesComplete(s: Settings, t0: nat, k: nat)
    requires s.slotDuration > 0
    requires GridPoint(t0, s.slotDuration, k) < s.end && !InBreak(s, GridPoint(t0, s.slotDuration, k))
    ensures GridPoint(t0, s.slotDuration, k) in SlotTimesFrom(s, t0)
    decreases k
  {
    if k > 0 {
      assert GridPoint(t0, s.slotDuration, k) == GridPoint(t0 + s.slotDuration, s.slotDuration, k - 1);
      SlotTimesComplete(s, t0 + s.slotDuration, k - 1);
    }
  }

  /** Only the start of a slot is tested against the break: with the default
      break, a one-hour slot starting at 11:30 runs into the break and is
      still offered. */
  lemma SlotRunningIntoBreakIsOffered()
    ensures var s := DefaultSettings.(start := 690);
      SlotTimesFrom(s, s.start)[0] == 690 && 690 + s.slotDuration > 720
  {
    var s := DefaultSettings.(start := 690);
    assert SlotTimesFrom(s, 690) == [690] + SlotTimesFrom(s, 750);
  }

  // ----- conflict lookup ------------------------------------------------

  /** A non-cancelled booking of `pid` at `date` and `time`. */
  predicate Occupies(b: Booking, pid: Id, date: string, time: string) {
    b.professionalId == pid && b.date == date && b.time == time && b.status != Cancelled
  }

  /** `findOne({ professionalId, date, time, status: { $ne: 'cancelled' } })`.
      The route queries `professionalId: new ObjectId(professionalId)` while
      bookings.js stores the request's string, so in the deployed system the
      query never matches; the model uses one identifier type on both sides
      and does not reproduce that mismatch. */
  function FindOccupying(bookings: seq<Doc<Booking>>, pid: Id, date: string, time: string): (r: Option<Booking>)
    ensures r.Some? ==> Occupies(r.value, pid, date, time)
    ensures r.None? <==> forall i :: 0 <= i < |bookings| ==> !Occupies(bookings[i].val, pid, date, time)
  {
    if bookings == [] then None
    else if Occupies(bookings[0].val, pid, date, time) then Some(bookings[0].val)
    else FindOccupying(bookings[1..], pid, date, time)
  }

  predicate Booked(bookings: seq<Doc<Booking>>, pid: Id, date: string, time: string) {
    exists i :: 0 <= i < |bookings| && Occupies(bookings[i].val, pid, date, time)
  }

  datatype Slot = Slot(time: string, available: bool)

  /** The slot list for the given start times, in their order. */
  function Annotate(bookings: seq<Doc<Booking>>, pid: Id, date: string, times: seq<Minute>): (r: seq<Slot>)
    ensures |r| == |times|
  {
    if times == [] then []
    else [Slot(Format(times[0]), FindOccupying(bookings, pid, date, Format(times[0])).None?)]
         + Annotate(bookings, pid, date, times[1..])
  }

  /** Slot `i` shows the `i`-th time and is available exactly when no
      non-cancelled booking of the professional holds that date and time. */
  lemma {:induction false} AnnotateSpec(bookings: seq<Doc<Booking>>, pid: Id, date: string, times: seq<Minute>)
    ensures forall i :: 0 <= i < |times| ==>
      Annotate(bookings, pid, date, times)[i].time == Format(times[i])
      && (Annotate(bookings, pid, date, times)[i].available <==> !Booked(bookings, pid, date, Format(times[i])))
  {
    if times != [] {
      AnnotateSpec(bookings, pid, date, times[1..]);
      var r := Annotate(bookings, pid, date, times);
      forall i | 0 < i < |times|
        ensures r[i] == Annotate(bookings, pid, date, times[1..])[i - 1]
      {
      }
    }
  }

  /** The schedule read for `pid` has a positive slot duration, the only
      durations whose walk is modelled: with 0 the loop never ends (see
      `ZeroDurationNeverEnds`). The schedules of the other professionals take
      no part. */
  predicate Walkable(stored: map<Id, Settings>, pid: Id) {
    SettingsFor(stored, pid).slotDuration > 0
  }

  /** The route reads the slot duration only once it walks a working day:
      a missing date and a closed day are answered whatever is stored. */
  predicate Answerable(stored: map<Id, Settings>, pid: Id, date: string) {
    date != "" && DayName(ParseDate(date)) in SettingsFor(stored, pid).workingDays ==> Walkable(stored, pid)
  }

  /** The slots of a working day under schedule `s`. */
  function SlotList(bookings: seq<Doc<Booking>>, pid: Id, date: string, s: Settings): seq<Slot>
    requires s.slotDuration > 0
  {
    Annotate(bookings, pid, date, SlotTimesFrom(s, s.start))
  }

  /** The answer of `GET /slots/:professionalId?date=...`. */
  function SlotsAnswer(stored: map<Id, Settings>, bookings: seq<Doc<Booking>>, pid: Id, date: string): Result<seq<Slot>>
    requires Answerable(stored, pid, date)
  {
    if date == "" then Err(BadRequest)
    else
      var s := SettingsFor(stored, pid);
      if DayName(ParseDate(date)) !in s.workingDays then Ok([])
      else Ok(SlotList(bookings, pid, date, s))
  }

  /** One step of the walk: the time at `t`, if any, then the rest. */
  lemma SlotTimesStep(s: Settings, t: nat)
    requires s.slotDuration > 0 && t < s.end
    ensures SlotTimesFrom(s, t) == (if InBreak(s, t) then [] else [t]) + SlotTimesFrom(s, t + s.slotDuration)
  {
  }

  /** One turn of the slot loop: a start outside the break moves from the
      times still to walk to the emitted ones, with its slot. */
  lemma WalkStep(bookings: seq<Doc<Booking>>, pid: Id, date: string, s: Settings, emitted: seq<Minute>, t: nat)
    requires s.slotDuration > 0 && t < s.end
    ensures InBreak(s, t) ==> emitted + SlotTimesFrom(s, t) == emitted + SlotTimesFrom(s, t + s.slotDuration)
    ensures !InBreak(s, t) ==>
      && emitted + SlotTimesFrom(s, t) == (emitted + [t]) + SlotTimesFrom(s, t + s.slotDuration)
      && Annotate(bookings, pid, date, emitted + [t])
         == Annotate(bookings, pid, date, emitted) + [Slot(Format(t), FindOccupying(bookings, pid, date, Format(t)).None?)]
  {
    SlotTimesStep(s, t);
    if !InBreak(s, t) {
      AnnotateSnoc(bookings, pid, date, emitted, t);
      ConcatAssoc(emitted, [t], SlotTimesFrom(s, t + s.slotDuration));
    }
  }

  lemma ConcatAssoc(a: seq<Minute>, b: seq<Minute>, c: seq<Minute>)
    ensures a + (b + c) == (a + b) + c
  {
  }

  /** The slot loop of the route: walks the schedule from `start` to `end`
      and annotates every start outside the break with its availability. */
  method WalkSlots(bookings: seq<Doc<Booking>>, pid: Id, date: string, s: Settings) returns (slots: seq<Slot>)
    requires s.slotDuration > 0
    ensures slots == SlotList(bookings, pid, date, s)
  {
    ghost var all := SlotTimesFrom(s, s.start);
    slots := [];
    ghost var emitted: seq<Minute> := [];
    var currentTime: nat := s.start;
    while currentTime < s.end
      invariant s.start <= currentTime
      invariant emitted + SlotTimesFrom(s, currentTime) == all
      invariant slots == Annotate(bookings, pid, date, emitted)
      decreases s.end - currentTime
    {
      WalkStep(bookings, pid, date, s, emitted, currentTime);
      if !InBreak(s, currentTime) {
        var time := Format(currentTime);
        var existingBooking := FindOccupying(bookings, pid, date, time);
        slots := slots + [Slot(time, existingBooking.None?)];
        emitted := emitted + [currentTime];
      }
      currentTime := currentTime + s.slotDuration;
    }
    assert SlotTimesFrom(s, currentTime) == [];
    assert emitted == all;
  }

  /** `GET /slots/:professionalId?date=...`. */
  method GenerateSlots(db: Db, pid: Id, date: string) returns (r: Result<seq<Slot>>)
    requires Answerable(db.settings, pid, date)
    ensures r == SlotsAnswer(db.settings, db.bookings, pid, date)
  {
    if date == "" {
      return Err(BadRequest);
    }
    var s := SettingsFor(db.settings, pid);
    var dayName := DayName(ParseDate(date));
    if dayName !in s.workingDays {
      return Ok([]);
    }
    var slots := WalkSlots(db.bookings, pid, date, s);
    return Ok(slots);
  }

  lemma {:induction false} AnnotateSnoc(bookings: seq<Doc<Booking>>, pid: Id, date: string, times: seq<Minute>, t: Minute)
    ensures Annotate(bookings, pid, date, times + [t])
         == Annotate(bookings, pid, date, times) + [Slot(Format(t), FindOccupying(bookings, pid, date, Format(t)).None?)]
  {
    if times != [] {
      assert (times + [t])[1..] == times[1..] + [t];
      AnnotateSnoc(bookings, pid, date, times[1..], t);
    }
  }

  // ----- properties of the answer ---------------------------------------

  /** A missing `date` is a 400 answer and no slots. */
  lemma MissingDateRejected(stored: map<Id, Settings>, bookings: seq<Doc<Booking>>, pid: Id)
    ensures SlotsAnswer(stored, bookings, pid, "") == Err(BadRequest)
  {
  }

  /** On a day outside `workingDays` the professional is closed: no slots. */
  lemma ClosedDayHasNoSlots(stored: map<Id, Settings>, bookings: seq<Doc<Booking>>, pid: Id, date: string)
    requires date != ""
    requires DayName(ParseDate(date)) !in SettingsFor(stored, pid).workingDays
    ensures SlotsAnswer(stored, bookings, pid, date) == Ok([])
  {
  }

  /** On a working day, the answer lists one slot per emitted time: each
      within the working hours, outside the break and on the slot grid, in
      strictly increasing order of its `HH:MM` text, and available exactly
      when no non-cancelled booking of the professional holds that date and
      time. */
  lemma {:induction false} SlotsAnswerSpec(stored: map<Id, Settings>, bookings: seq<Doc<Booking>>, pid: Id, date: string, s: Settings)
    requires Walkable(stored, pid) && date != "" && s == SettingsFor(stored, pid)
    requires DayName(ParseDate(date)) in s.workingDays
    ensures SlotsAnswer(stored, bookings, pid, date).Ok?
    ensures |SlotsAnswer(stored, bookings, pid, date).value| == |SlotTimesFrom(s, s.start)|
    ensures forall i :: 0 <= i < |SlotsAnswer(stored, bookings, pid, date).value| ==>
      var t, slot := SlotTimesFrom(s, s.start)[i], SlotsAnswer(stored, bookings, pid, date).value[i];
      && s.start <= t < s.end && !InBreak(s, t) && (exists k: nat :: t == GridPoint(s.start, s.slotDuration, k))
      && slot.time == Format(t)
      && (slot.available <==> !Booked(bookings, pid, date, slot.time))
    ensures forall i, j :: 0 <= i < j < |SlotsAnswer(stored, bookings, pid, date).value| ==>
      StrLess(SlotsAnswer(stored, bookings, pid, date).value[i].time, SlotsAnswer(stored, bookings, pid, date).value[j].time)
  {
    SlotListSpec(bookings, pid, date, s);
  }

  /** The slot list of a working day under schedule `s`, slot by slot. */
  lemma SlotListSpec(bookings: seq<Doc<Booking>>, pid: Id, date: string, s: Settings)
    requires s.slotDuration > 0
    ensures |SlotList(bookings, pid, date, s)| == |SlotTimesFrom(s, s.start)|
    ensures forall i :: 0 <= i < |SlotList(bookings, pid, date, s)| ==>
      var t, slot := SlotTimesFrom(s, s.start)[i], SlotList(bookings, pid, date, s)[i];
      && s.start <= t < s.end && !InBreak(s, t) && (exists k: nat :: t == GridPoint(s.start, s.slotDuration, k))
      && slot.time == Format(t)
      && (slot.available <==> !Booked(bookings, pid, date, slot.time))
    ensures forall i, j :: 0 <= i < j < |SlotList(bookings, pid, date, s)| ==>
      StrLess(SlotList(bookings, pid, date, s)[i].time, SlotList(bookings, pid, date, s)[j].time)
  {
    var times := SlotTimesFrom(s, s.start);
    SlotTimesBounds(s, s.start);
    AnnotateSpec(bookings, pid, date, times);
    SlotListOrder(bookings, pid, date, s);
  }

  /** The slot texts of a working day strictly increase. */
  lemma SlotListOrder(bookings: seq<Doc<Booking>>, pid: Id, date: string, s: Settings)
    requires s.slotDuration > 0
    ensures forall i, j :: 0 <= i < j < |SlotList(bookings, pid, date, s)| ==>
      StrLess(SlotList(bookings, pid, date, s)[i].time, SlotList(bookings, pid, date, s)[j].time)
  {
    var times := SlotTimesFrom(s, s.start);
    var r := SlotList(bookings, pid, date, s);
    SlotTimesIncreasing(s, s.start);
    AnnotateTimes(bookings, pid, date, times);
    forall i, j | 0 <= i < j < |r| ensures StrLess(r[i].time, r[j].time) {
      FormatOrder(times[i], times[j]);
    }
  }

  /** Slot `i` shows the `i`-th time. */
  lemma {:induction false} AnnotateTimes(bookings: seq<Doc<Booking>>, pid: Id, date: string, times: seq<Minute>)
    ensures forall i :: 0 <= i < |times| ==> Annotate(bookings, pid, date, times)[i].time == Format(times[i])
  {
    if times != [] {
      AnnotateTimes(bookings, pid, date, times[1..]);
      var r := Annotate(bookings, pid, date, times);
      forall i | 0 < i < |times|
        ensures r[i] == Annotate(bookings, pid, date, times[1..])[i - 1]
      {
      }
    }
  }

  // ----- the route as written: midnight wrap ----------------------------

  /** The `k`-th value of `currentTime` in the route's loop, which advances
      with `addMinutes` and so wraps at midnight. */
  function WrappedCandidate(s: Settings, k: nat): Minute {
    if k == 0 then s.start else AddMinutes(WrappedCandidate(s, k - 1), s.slotDuration)
  }

  /** Until midnight is passed the route's candidates are the unwrapped ones,
      so the route and `SlotTimesFrom` emit the same slots whenever the first
      candidate at or past `end` is still before midnight. */
  lemma {:induction false} WrappedAgreesBeforeMidnight(s: Settings, k: nat)
    requires s.slotDuration > 0 && s.start + k * s.slotDuration < MinutesPerDay
    ensures WrappedCandidate(s, k) == s.start + k * s.slotDuration
  {
    if k > 0 {
      MulStep(k, s.slotDuration);
      WrappedAgreesBeforeMidnight(s, k - 1);
      AddMinutesBelowMidnight(WrappedCandidate(s, k - 1), s.slotDuration);
    }
  }

  lemma MulStep(k: nat, d: int)
    requires k > 0 && d > 0
    ensures k * d == (k - 1) * d + d && (k - 1) * d < k * d
  {
  }

  /** The schedule of the counterexample: 23:00 to 23:30, one-hour slots, no break. */
  const LateSchedule: Settings :=
    DefaultSettings.(start := 1380, end := 1410, breakStart := Missing, breakEnd := Missing)

  /** The hour of the `k`-th candidate under `LateSchedule`: 23, 0, 1, ... */
  function HourAt(k: nat): (h: nat)
    ensures h < 24
  {
    if k == 0 then 23 else if HourAt(k - 1) == 23 then 0 else HourAt(k - 1) + 1
  }

  /** One hour after the mark of hour `h` is the mark of the next hour, 00:00 after 23:00. */
  lemma NextHourMark(h: nat)
    requires h < 24
    ensures AddMinutes(60 * h, 60) == 60 * (if h == 23 then 0 else h + 1)
  {
  }

  lemma {:induction false} WrappedHours(k: nat)
    ensures WrappedCandidate(LateSchedule, k) == 60 * HourAt(k)
  {
    if k > 0 {
      WrappedHours(k - 1);
      NextHourMark(HourAt(k - 1));
    }
  }

  /** With hours 23:00 to 23:30 and one-hour slots the route's `currentTime`
      goes 23:00, 00:00, 01:00, ... and never reaches `end`: the loop
      `while (currentTime < endTime)` does not terminate. */
  lemma WrapNeverReachesEnd(k: nat)
    ensures WrappedCandidate(LateSchedule, k) % 60 == 0 && WrappedCandidate(LateSchedule, k) < LateSchedule.end
  {
    WrappedHours(k);
  }

  /** The counterexample's hours with 70-minute slots. */
  const LateSchedule70: Settings := LateSchedule.(slotDuration := 70)

  /** Past midnight the candidates of `LateSchedule70` are 00:10, 01:20, ...,
      climbing back to 23:30. */
  lemma {:induction false} WrappedAfterMidnight(k: nat)
    requires 1 <= k <= 21
    ensures WrappedCandidate(LateSchedule70, k) == 70 * k - 60
  {
    if k > 1 {
      WrappedAfterMidnight(k - 1);
      AddMinutesBelowMidnight(70 * (k - 1) - 60, 70);
    }
  }

  /** Some wrapping schedules do stop, after emitting slots past midnight out
      of time order: with hours 23:00 to 23:30 and 70-minute slots the second
      candidate is 00:10, earlier than the first, every later one up to the
      21st is below `end`, and the 21st is 23:30, where the loop exits. */
  lemma WrapStopsOutOfOrder()
    ensures WrappedCandidate(LateSchedule70, 1) < WrappedCandidate(LateSchedule70, 0)
    ensures forall k :: 0 <= k < 21 ==> WrappedCandidate(LateSchedule70, k) < LateSchedule70.end
    ensures WrappedCandidate(LateSchedule70, 21) == LateSchedule70.end
  {
    WrappedAfterMidnight(1);
    WrappedAfterMidnight(21);
    forall k | 1 <= k < 21 ensures WrappedCandidate(LateSchedule70, k) < LateSchedule70.end {
      WrappedAfterMidnight(k);
    }
  }

  // ----- the route as written: a stored duration of 0 ---------------------

  /** `POST /settings` stores `parseInt(slotDuration)` unchecked, so a posted
      "0" is saved; from then on the slot route for that professional never
      moves `currentTime` and, with `start < end`, never leaves its loop. */
  lemma {:induction false} ZeroDurationNeverEnds(stored: map<Id, Settings>, pid: Id, posted: Settings, k: nat)
    requires posted.slotDuration == 0 && posted.start < posted.end
    ensures !Walkable(stored[pid := posted], pid)
    ensures WrappedCandidate(SettingsFor(stored[pid := posted], pid), k) == posted.start < posted.end
  {
    if k > 0 {
      ZeroDurationNeverEnds(stored, pid, posted, k - 1);
    }
  }

  /** Every stored schedule has a positive slot duration. */
  predicate AllWalkable(stored: map<Id, Settings>) {
    forall pid :: pid in stored ==> stored[pid].slotDuration > 0
  }

  /** `POST /settings` with the check the route lacks: a slot duration that is
      not positive is refused with 400 and nothing is stored; otherwise the
      caller's schedule is upserted as by `SaveSettings`. */
  method SaveCheckedSettings(db: Db, caller: Id, posted: Settings) returns (r: Result<Settings>)
    modifies db`settings
    ensures posted.slotDuration <= 0 ==> r == Err(BadRequest) && db.settings == old(db.settings)
    ensures posted.slotDuration > 0 ==> r == Ok(posted) && db.settings == old(db.settings)[caller := posted]
    ensures AllWalkable(old(db.settings)) ==> AllWalkable(db.settings)
  {
    if posted.slotDuration <= 0 {
      return Err(BadRequest);
    }
    SaveSettings(db, caller, posted);
    return Ok(posted);
  }

  /** With only checked saves, the slot route ends for every professional,
      with a stored schedule or with the default one. */
  lemma CheckedStoresAreWalkable(stored: map<Id, Settings>, pid: Id)
    requires AllWalkable(stored)
    ensures Walkable(stored, pid)
  {
  }
}

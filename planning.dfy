/** client/src/components/common/planning.jsx: the professional's planning
    page. It keeps the schedule being edited and the fetched bookings grouped
    by `date-time`, toggles working days, and draws the rows of the daily
    grid. */
module Planning {
  import opened Common
  import opened Seqs
  import opened Text
  import opened Docs
  import opened Clock
  import opened Model
  import Availability
  import Bookings

  // ----- the grid rows --------------------------------------------------

  /** The row times of hour `h`: `HH:00`, then `HH:30` when slots are shorter
      than an hour. */
  function Row(h: nat, half: bool): (r: seq<Minute>)
    requires h < 24
    ensures |r| == if half then 2 else 1
  {
    if half then [60 * h, 60 * h + 30] else [60 * h]
  }

  /** The row times for every hour in `[startHour, endHour)`. */
  function GridRows(startHour: nat, endHour: nat, half: bool): seq<Minute>
    requires endHour <= 24
    decreases endHour
  {
    if endHour <= startHour then []
    else GridRows(startHour, endHour - 1, half) + Row(endHour - 1, half)
  }

  function Labels(times: seq<Minute>): (r: seq<string>)
    ensures |r| == |times| && forall i :: 0 <= i < |times| ==> r[i] == Format(times[i])
  {
    seq(|times|, i requires 0 <= i < |times| => Format(times[i]))
  }

  /** One row per hour, two when slots are shorter than an hour, none when
      the end hour is not after the start hour. */
  lemma {:induction false} GridRowsLength(startHour: nat, endHour: nat, half: bool)
    requires endHour <= 24
    ensures |GridRows(startHour, endHour, half)|
         == (if endHour <= startHour then 0 else endHour - startHour) * (if half then 2 else 1)
    decreases endHour
  {
    if startHour < endHour {
      GridRowsLength(startHour, endHour - 1, half);
    }
  }

  /** Every row time lies in the hours `[startHour, endHour)`, on the hour
      or the half hour. */
  lemma {:induction false} GridRowsBounds(startHour: nat, endHour: nat, half: bool)
    requires endHour <= 24
    ensures forall t :: t in GridRows(startHour, endHour, half) ==>
      60 * startHour <= t < 60 * endHour && (t % 60 == 0 || (half && t % 60 == 30))
    decreases endHour
  {
    if startHour < endHour {
      GridRowsBounds(startHour, endHour - 1, half);
      assert GridRows(startHour, endHour, half) == GridRows(startHour, endHour - 1, half) + Row(endHour - 1, half);
    }
  }

  /** Row times are strictly increasing. */
  lemma {:induction false} GridRowsIncreasing(startHour: nat, endHour: nat, half: bool)
    requires endHour <= 24
    ensures forall i, j :: 0 <= i < j < |GridRows(startHour, endHour, half)| ==>
      GridRows(startHour, endHour, half)[i] < GridRows(startHour, endHour, half)[j]
    decreases endHour
  {
    if startHour < endHour {
      var front := GridRows(startHour, endHour - 1, half);
      var row := Row(endHour - 1, half);
      var g := front + row;
      GridRowsIncreasing(startHour, endHour - 1, half);
      GridRowsBounds(startHour, endHour - 1, half);
      assert GridRows(startHour, endHour, half) == g;
      forall i, j | 0 <= i < j < |g| ensures g[i] < g[j] {
        if j < |front| {
          assert g[i] == front[i] && g[j] == front[j];
        } else if i < |front| {
          assert g[i] == front[i] && front[i] in front;
          assert g[j] == row[j - |front|];
        } else {
          assert g[i] == row[i - |front|] && g[j] == row[j - |front|];
        }
      }
    }
  }

  /** The row labels are strictly increasing as texts too. */
  lemma LabelsIncreasing(startHour: nat, endHour: nat, half: bool)
    requires endHour <= 24
    ensures var l := Labels(GridRows(startHour, endHour, half));
      forall i, j :: 0 <= i < j < |l| ==> StrLess(l[i], l[j])
  {
    var g := GridRows(startHour, endHour, half);
    GridRowsIncreasing(startHour, endHour, half);
    forall i, j | 0 <= i < j < |g| ensures StrLess(Format(g[i]), Format(g[j])) {
      assert g[i] < g[j];
      FormatOrder(g[i], g[j]);
    }
  }

  /** A bucket entry of the booking map. */
  datatype Entry = Entry(id: Id, name: string, service: string, status: BookingStatus)

  /** The bucket key of a booking: `${date}-${time}`. */
  function Key(d: Doc<Booking>): string {
    d.val.date + "-" + d.val.time
  }

  function EntryOf(d: Doc<Booking>): Entry {
    Entry(d.id, OrElse(d.val.clientName, "Réservation"), d.val.serviceName, d.val.status)
  }

  function KeyIs(k: string): Doc<Booking> -> bool {
    (d: Doc<Booking>) => Key(d) == k
  }

  function Entries(s: seq<Doc<Booking>>): (r: seq<Entry>)
    ensures |r| == |s| && forall i :: 0 <= i < |s| ==> r[i] == EntryOf(s[i])
  {
    seq(|s|, i requires 0 <= i < |s| => EntryOf(s[i]))
  }

  /** The bucket of key `k`: the entries of the bookings with that key, in
      the fetched order. */
  function Bucket(s: seq<Doc<Booking>>, k: string): seq<Entry> {
    Entries(Filter(s, KeyIs(k)))
  }

  function Keys(s: seq<Doc<Booking>>): set<string> {
    set i | 0 <= i < |s| :: Key(s[i])
  }

  /** Appending a booking extends its own bucket by its entry and no other. */
  lemma BucketSnoc(s: seq<Doc<Booking>>, d: Doc<Booking>, k: string)
    ensures Bucket(s + [d], k) == Bucket(s, k) + (if Key(d) == k then [EntryOf(d)] else [])
  {
    FilterAppend(s, [d], KeyIs(k));
    assert [d][1..] == [];
    assert Filter([d], KeyIs(k)) == if Key(d) == k then [d] else [];
  }

  /** Each booking's entry is in the bucket of its own key and in no other. */
  lemma OneBucketEach(s: seq<Doc<Booking>>, d: Doc<Booking>, k: string)
    requires d in s
    ensures d in Filter(s, KeyIs(k)) <==> k == Key(d)
  {
    Bookings.FilterMembers(s, KeyIs(k));
  }

  /** Bucket contents keep the fetched order. */
  lemma BucketOrder(s: seq<Doc<Booking>>, k: string)
    ensures IsSubseq(Filter(s, KeyIs(k)), s)
  {
    FilterIsSubseq(s, KeyIs(k));
  }

  /** The body of `GET /settings/:professionalId` as the page reads it: its
      `workingDays` may be missing. */
  datatype FetchedSettings = FetchedSettings(
    workingDays: Option<seq<string>>,
    start: Minute,
    end: Minute,
    slotDuration: int,
    breakStart: TimeField,
    breakEnd: TimeField)

  /** A fetched schedule that carries its working days, as the page stores it. */
  function WithDays(f: FetchedSettings): (s: Settings)
    requires f.workingDays.Some?
    ensures s.workingDays == f.workingDays.value && s.start == f.start && s.end == f.end
    ensures s.slotDuration == f.slotDuration && s.breakStart == f.breakStart && s.breakEnd == f.breakEnd
  {
    Settings(f.workingDays.value, f.start, f.end, f.slotDuration, f.breakStart, f.breakEnd)
  }

  /** The planning page's state. */
  class PlanningPage {
    var settings: Settings
    var bookingMap: map<string, seq<Entry>>

    /** The page starts with the same schedule the server uses by default. */
    constructor ()
      ensures settings == Availability.DefaultSettings && bookingMap == map[]
    {
      settings := Availability.DefaultSettings;
      bookingMap := map[];
    }

    /** `fetchData`: the booking map becomes the fetched bookings grouped by
        `date-time`, in fetched order. */
    method GroupBookings(data: seq<Doc<Booking>>)
      modifies this`bookingMap
      ensures bookingMap.Keys == Keys(data)
      ensures forall k :: k in bookingMap ==> bookingMap[k] == Bucket(data, k)
    {
      var m := GroupByKey(data);
      bookingMap := m;
    }

    /** `toggleDay`. */
    method ToggleDay(day: string)
      modifies this`settings
      ensures settings == old(settings).(workingDays := Toggle(old(settings).workingDays, day))
    {
      settings := settings.(workingDays := Toggle(settings.workingDays, day));
    }

    /** `fetchSettings`: the answer replaces the local schedule only when the
        response is ok, its body is not `null` and it carries `workingDays`
        (an empty list is an array, which JavaScript counts as truthy). A
        failed or refused fetch changes nothing. */
    method ReplaceSettings(ok: bool, data: Option<FetchedSettings>)
      modifies this`settings
      ensures ok && data.Some? && data.value.workingDays.Some? ==> settings == WithDays(data.value)
      ensures !(ok && data.Some? && data.value.workingDays.Some?) ==> settings == old(settings)
    {
      if ok {
        if data.Some? && data.value.workingDays.Some? {
          settings := WithDays(data.value);
        }
      }
    }

    /** `generateTimeSlots`: the row labels of the daily grid, from the hour
        parts of the schedule's start and end. */
    method GenerateTimeSlots() returns (slots: seq<string>)
      ensures slots == Labels(GridRows(settings.start / 60, settings.end / 60, settings.slotDuration < 60))
    {
      slots := [];
      var startHour := settings.start / 60;
      var endHour := settings.end / 60;
      var half := settings.slotDuration < 60;
      if endHour <= startHour {
        return;
      }
      for hour := startHour to endHour
        invariant slots == Labels(GridRows(startHour, hour, half))
      {
        assert GridRows(startHour, hour + 1, half) == GridRows(startHour, hour, half) + Row(hour, half);
        slots := slots + [Format(60 * hour)];
        if half {
          slots := slots + [Format(60 * hour + 30)];
        }
      }
    }
  }

  /** The `forEach` of `fetchData`: each booking's entry is pushed onto the
      bucket of its `date-time` key, created empty when missing. */
  method GroupByKey(data: seq<Doc<Booking>>) returns (m: map<string, seq<Entry>>)
    ensures m.Keys == Keys(data)
    ensures forall k :: k in m ==> m[k] == Bucket(data, k)
  {
    m := map[];
    GroupedEmpty(data);
    for i := 0 to |data|
      invariant Grouped(m, data[..i])
    {
      GroupPrefixStep(m, data, i);
      m := Push(m, data[i]);
    }
    assert data[..|data|] == data;
  }

  /** `m` is the booking map of the bookings `s`. */
  predicate Grouped(m: map<string, seq<Entry>>, s: seq<Doc<Booking>>) {
    m.Keys == Keys(s) && forall k :: k in m ==> m[k] == Bucket(s, k)
  }

  /** One turn of the `forEach`: the booking's entry goes to the end of its
      key's bucket, which is created empty when missing. */
  function Push(m: map<string, seq<Entry>>, d: Doc<Booking>): map<string, seq<Entry>> {
    var k := Key(d);
    m[k := (if k in m then m[k] else []) + [EntryOf(d)]]
  }

  /** Before the first turn, the empty map groups no bookings. */
  lemma GroupedEmpty(data: seq<Doc<Booking>>)
    ensures Grouped(map[], data[..0])
  {
    assert Keys(data[..0]) == {};
  }

  /** Turn `i` of the `forEach` extends the grouped prefix by one booking. */
  lemma GroupPrefixStep(m: map<string, seq<Entry>>, data: seq<Doc<Booking>>, i: nat)
    requires i < |data| && Grouped(m, data[..i])
    ensures Grouped(Push(m, data[i]), data[..i + 1])
  {
    var prefix, next := data[..i], data[..i + 1];
    assert next == prefix + [data[i]];
    GroupStep(m, prefix, data[i]);
  }

  /** Pushing a booking keeps the map grouped. */
  lemma GroupStep(m: map<string, seq<Entry>>, s: seq<Doc<Booking>>, d: Doc<Booking>)
    requires Grouped(m, s)
    ensures Grouped(Push(m, d), s + [d])
  {
    var key := Key(d);
    var m' := m[key := (if key in m then m[key] else []) + [EntryOf(d)]];
    KeysSnoc(s, d);
    forall k | k in m' ensures m'[k] == Bucket(s + [d], k) {
      BucketSnoc(s, d, k);
      if k == key && key !in m {
        forall j | 0 <= j < |s| ensures !KeyIs(key)(s[j]) {
          assert Key(s[j]) in Keys(s);
        }
        FilterNone(s, KeyIs(key));
      }
    }
  }

  lemma KeysSnoc(s: seq<Doc<Booking>>, d: Doc<Booking>)
    ensures Keys(s + [d]) == Keys(s) + {Key(d)}
  {
    assert (s + [d])[|s|] == d;
    forall k | k in Keys(s) ensures k in Keys(s + [d]) {
      var j :| 0 <= j < |s| && Key(s[j]) == k;
      assert (s + [d])[j] == s[j];
    }
  }

  lemma {:induction false} FilterNone<T>(s: seq<T>, p: T -> bool)
    requires forall j :: 0 <= j < |s| ==> !p(s[j])
    ensures Filter(s, p) == []
  {
    if s != [] {
      FilterNone(s[1..], p);
    }
  }

  /** `toggleDay(day)`: removes every occurrence of a listed day, appends an
      unlisted one at the end. */
  function Toggle(days: seq<string>, day: string): (r: seq<string>)
    ensures day in days ==> day !in r && forall d :: d in days && d != day ==> d in r
    ensures day in days ==> forall d :: d in r ==> d in days
    ensures day in days ==> IsSubseq(r, days)
    ensures day in days ==> forall d :: d != day ==> multiset(r)[d] == multiset(days)[d]
    ensures day !in days ==> r == days + [day]
  {
    if day in days then
      FilterIsSubseq(days, (d: string) => d != day);
      forall d | d != day ensures multiset(Filter(days, (d: string) => d != day))[d] == multiset(days)[d] {
        FilterMultiset(days, (d: string) => d != day, d);
      }
      Filter(days, (d: string) => d != day)
    else days + [day]
  }

  /** Toggling an unlisted day twice gives back the original list. */
  lemma ToggleTwice(days: seq<string>, day: string)
    requires day !in days
    ensures Toggle(Toggle(days, day), day) == days
  {
    var p := (d: string) => d != day;
    FilterAppend(days, [day], p);
    FilterAll(days, p);
    assert [day][1..] == [];
    assert Filter([day], p) == [];
  }
}

/** The statistics service: the Python that runs after the queries. `GetStats` files the
    per-(station, date) groups of the recent-recordings query into a nested table;
    `GetDetailedStats` turns the per-(stream, day) sums and the per-stream error counts into
    one report per configured stream: totals, today / week / month windows, error count and
    a zero-filled daily activity timeline.

    Dates are day numbers (days since 1970-01-01): the `YYYY-MM-DD` text the database and
    `strftime` produce is one-to-one with them, and every comparison the service makes on
    dates (equality with today, midnight of the day against a cutoff) is stated on the
    number. Sizes are bytes and durations whole seconds. */
module Stats {
  import opened Common
  import opened Timestamps
  import opened Models

  // ---------------------------------------------------------------------------------------
  // get_stats: groups filed by station name, then date.

  /** One row of the grouped query: station name, date, summed size, summed duration and
      the number of recordings. The sums are NULL (None) when every summand is. */
  datatype DayGroup = DayGroup(
    name: string, date: string, size: Option<int>, duration: Option<int>, count: int)

  datatype Bucket = Bucket(sizeBytes: Option<int>, durationSeconds: Option<int>, count: int)

  type Table = map<string, map<string, Bucket>>

  function BucketOf(g: DayGroup): Bucket { Bucket(g.size, g.duration, g.count) }

  predicate Has(t: Table, name: string, date: string) { name in t && date in t[name] }

  /** File one group: its bucket lands at (name, date); every other cell is kept. */
  function Put(t: Table, g: DayGroup): (t': Table)
    ensures t'.Keys == t.Keys + {g.name}
    ensures Has(t', g.name, g.date) && t'[g.name][g.date] == BucketOf(g)
    ensures forall n, d | n != g.name || d != g.date ::
      Has(t', n, d) == Has(t, n, d) && (Has(t, n, d) ==> t'[n][d] == t[n][d])
  {
    var inner := if g.name in t then t[g.name] else map[];
    t[g.name := inner[g.date := BucketOf(g)]]
  }

  /** The table after filing every group in order. */
  function StatsOf(groups: seq<DayGroup>): Table
    decreases |groups|
  {
    if groups == [] then map[]
    else Put(StatsOf(groups[..|groups| - 1]), groups[|groups| - 1])
  }

  /** The loop of `get_stats`: a station's map is created on its first group, then the
      group's bucket is stored under its date. */
  method GetStats(groups: seq<DayGroup>) returns (stats: Table)
    ensures stats == StatsOf(groups)
  {
    stats := map[];
    var i := 0;
    while i < |groups|
      invariant 0 <= i <= |groups|
      invariant stats == StatsOf(groups[..i])
    {
      var g := groups[i];
      if g.name !in stats {
        stats := stats[g.name := map[]];
      }
      stats := stats[g.name := stats[g.name][g.date := BucketOf(g)]];
      assert groups[..i + 1][..i] == groups[..i];
      i := i + 1;
    }
    assert groups[..i] == groups;
  }

  /** A cell exists exactly when some group carries that name and date. */
  lemma {:induction false} StatsOfCells(groups: seq<DayGroup>, name: string, date: string)
    ensures Has(StatsOf(groups), name, date) <==>
      exists k | 0 <= k < |groups| :: groups[k].name == name && groups[k].date == date
    decreases |groups|
  {
    if groups != [] {
      var init := groups[..|groups| - 1];
      StatsOfCells(init, name, date);
      if exists k | 0 <= k < |init| :: init[k].name == name && init[k].date == date {
        var k :| 0 <= k < |init| && init[k].name == name && init[k].date == date;
        assert groups[k] == init[k];
      }
      if exists k | 0 <= k < |groups| :: groups[k].name == name && groups[k].date == date {
        var k :| 0 <= k < |groups| && groups[k].name == name && groups[k].date == date;
        if k < |init| { assert init[k] == groups[k]; }
      }
    }
  }

  /** A station appears exactly when some group carries its name. */
  lemma {:induction false} StatsOfStations(groups: seq<DayGroup>, name: string)
    ensures name in StatsOf(groups) <==> exists k | 0 <= k < |groups| :: groups[k].name == name
    decreases |groups|
  {
    if groups != [] {
      var init := groups[..|groups| - 1];
      StatsOfStations(init, name);
      if exists k | 0 <= k < |init| :: init[k].name == name {
        var k :| 0 <= k < |init| && init[k].name == name;
        assert groups[k] == init[k];
      }
      if exists k | 0 <= k < |groups| :: groups[k].name == name {
        var k :| 0 <= k < |groups| && groups[k].name == name;
        if k < |init| { assert init[k] == groups[k]; }
      }
    }
  }

  /** A cell holds the bucket of the last group filed under its name and date. */
  lemma {:induction false} StatsOfLast(groups: seq<DayGroup>, k: int)
    requires 0 <= k < |groups|
    requires forall j | k < j < |groups| ::
      groups[j].name != groups[k].name || groups[j].date != groups[k].date
    ensures Has(StatsOf(groups), groups[k].name, groups[k].date)
    ensures StatsOf(groups)[groups[k].name][groups[k].date] == BucketOf(groups[k])
    decreases |groups|
  {
    if k < |groups| - 1 {
      var init := groups[..|groups| - 1];
      assert init[k] == groups[k];
      StatsOfLast(init, k);
    }
  }

  // ---------------------------------------------------------------------------------------
  // get_detailed_stats: per-stream reports.

  /** One row of the per-(stream, day) query: summed size and duration, NULL when absent. */
  datatype DayUsage = DayUsage(streamId: int, day: int, size: Option<int>, duration: Option<int>)

  /** One row of the per-stream error query. */
  datatype ErrorTally = ErrorTally(streamId: int, count: int)

  datatype Usage = Usage(size: int, duration: int)

  /** A stream's figures while the rows are being added; `activity` is keyed by day. */
  datatype Entry = Entry(
    name: string, status: string,
    totalSize: int, totalDuration: int,
    today: Usage, week: Usage, month: Usage,
    errorCount: int,
    activity: map<int, Usage>)

  /** One point of the timeline: a day and what was recorded on it. */
  datatype ActivityPoint = ActivityPoint(day: int, duration: int, size: int)

  /** A stream's finished report: the figures and the timeline. */
  datatype Report = Report(
    name: string, status: string,
    totalSize: int, totalDuration: int,
    today: Usage, week: Usage, month: Usage,
    errorCount: int,
    activity: seq<ActivityPoint>)

  const NoUsage := Usage(0, 0)

  /** NULL counts as zero. */
  function OrZero(o: Option<int>): (n: int)
    ensures o.Some? ==> n == o.value
    ensures o.None? ==> n == 0
  {
    if o.Some? then o.value else 0
  }

  function Fresh(s: Stream): Entry
  {
    Entry(s.name, s.status, 0, 0, NoUsage, NoUsage, NoUsage, 0, map[])
  }

  /** One entry per configured stream, all figures zero. */
  function Initial(streams: seq<Stream>): (m: map<int, Entry>)
    decreases |streams|
  {
    if streams == [] then map[]
    else
      var last := streams[|streams| - 1];
      Initial(streams[..|streams| - 1])[last.id := Fresh(last)]
  }

  /** The three windows: the day is today; midnight of the day is no more than 7 (30)
      days before now. */
  predicate InToday(day: int, now: int) { day == DayOf(now) }
  predicate InWeek(day: int, now: int) { day * SecondsPerDay >= now - 7 * SecondsPerDay }
  predicate InMonth(day: int, now: int) { day * SecondsPerDay >= now - 30 * SecondsPerDay }

  function AddUsage(u: Usage, size: int, duration: int): Usage
  {
    Usage(u.size + size, u.duration + duration)
  }

  /** Add one row to its stream's entry. */
  function Credit(e: Entry, r: DayUsage, now: int): Entry
  {
    var size := OrZero(r.size);
    var duration := OrZero(r.duration);
    e.(totalSize := e.totalSize + size,
       totalDuration := e.totalDuration + duration,
       activity := e.activity[r.day := Usage(size, duration)],
       today := if InToday(r.day, now) then AddUsage(e.today, size, duration) else e.today,
       week := if InWeek(r.day, now) then AddUsage(e.week, size, duration) else e.week,
       month := if InMonth(r.day, now) then AddUsage(e.month, size, duration) else e.month)
  }

  /** Add the rows in order; a row for a stream without an entry changes nothing. */
  function Accumulate(m: map<int, Entry>, rows: seq<DayUsage>, now: int): (m': map<int, Entry>)
    ensures m'.Keys == m.Keys
    decreases |rows|
  {
    if rows == [] then m
    else
      var p := Accumulate(m, rows[..|rows| - 1], now);
      var r := rows[|rows| - 1];
      if r.streamId in p then p[r.streamId := Credit(p[r.streamId], r, now)] else p
  }

  /** Store the error tallies in order; a tally for an unknown stream changes nothing. */
  function SetErrors(m: map<int, Entry>, errs: seq<ErrorTally>): (m': map<int, Entry>)
    ensures m'.Keys == m.Keys
    decreases |errs|
  {
    if errs == [] then m
    else
      var p := SetErrors(m, errs[..|errs| - 1]);
      var e := errs[|errs| - 1];
      if e.streamId in p then p[e.streamId := p[e.streamId].(errorCount := e.count)] else p
  }

  /** The last `days` days, oldest first, ending today. */
  function DateRange(now: int, days: int): seq<int>
  {
    seq(if days > 0 then days else 0, k => DayOf(now) - (days - 1) + k)
  }

  function PointOn(activity: map<int, Usage>, day: int): ActivityPoint
  {
    if day in activity then ActivityPoint(day, activity[day].duration, activity[day].size)
    else ActivityPoint(day, 0, 0)
  }

  /** The timeline over a range of days: the recorded usage, or zero on a day without one. */
  function Fill(activity: map<int, Usage>, range: seq<int>): (pts: seq<ActivityPoint>)
    ensures |pts| == |range|
    ensures forall k | 0 <= k < |range| :: pts[k].day == range[k]
    ensures forall k | 0 <= k < |range| ::
      if range[k] in activity
      then pts[k].duration == activity[range[k]].duration && pts[k].size == activity[range[k]].size
      else pts[k].duration == 0 && pts[k].size == 0
  {
    seq(|range|, k requires 0 <= k < |range| => PointOn(activity, range[k]))
  }

  function Finish(e: Entry, range: seq<int>): Report
  {
    Report(e.name, e.status, e.totalSize, e.totalDuration, e.today, e.week, e.month,
           e.errorCount, Fill(e.activity, range))
  }

  function Entries(streams: seq<Stream>, rows: seq<DayUsage>, errs: seq<ErrorTally>, now: int)
    : map<int, Entry>
  {
    SetErrors(Accumulate(Initial(streams), rows, now), errs)
  }

  /** What `get_detailed_stats` returns. */
  function DetailedStats(
    streams: seq<Stream>, rows: seq<DayUsage>, errs: seq<ErrorTally>, now: int, days: int)
    : map<int, Report>
  {
    var m := Entries(streams, rows, errs, now);
    map sid | sid in m :: Finish(m[sid], DateRange(now, days))
  }

  // ----- the method and its loops

  /** The first loop: a zeroed entry per stream. */
  method InitEntries(streams: seq<Stream>) returns (m: map<int, Entry>)
    ensures m == Initial(streams)
  {
    m := map[];
    var i := 0;
    while i < |streams|
      invariant 0 <= i <= |streams|
      invariant m == Initial(streams[..i])
    {
      var s := streams[i];
      m := m[s.id := Entry(s.name, s.status, 0, 0, NoUsage, NoUsage, NoUsage, 0, map[])];
      assert streams[..i + 1][..i] == streams[..i];
      i := i + 1;
    }
    assert streams[..i] == streams;
  }

  /** The body of the row loop for a known stream. */
  method CreditRow(e: Entry, r: DayUsage, now: int) returns (e': Entry)
    ensures e' == Credit(e, r, now)
  {
    var size := if r.size.Some? then r.size.value else 0;
    var duration := if r.duration.Some? then r.duration.value else 0;
    e' := e.(totalSize := e.totalSize + size, totalDuration := e.totalDuration + duration);
    e' := e'.(activity := e'.activity[r.day := Usage(size, duration)]);
    if r.day == DayOf(now) {
      e' := e'.(today := Usage(e'.today.size + size, e'.today.duration + duration));
    }
    if r.day * SecondsPerDay >= now - 7 * SecondsPerDay {
      e' := e'.(week := Usage(e'.week.size + size, e'.week.duration + duration));
    }
    if r.day * SecondsPerDay >= now - 30 * SecondsPerDay {
      e' := e'.(month := Usage(e'.month.size + size, e'.month.duration + duration));
    }
  }

  /** The row loop. */
  method AccumulateRows(m0: map<int, Entry>, rows: seq<DayUsage>, now: int)
    returns (m: map<int, Entry>)
    ensures m == Accumulate(m0, rows, now)
  {
    m := m0;
    var i := 0;
    while i < |rows|
      invariant 0 <= i <= |rows|
      invariant m == Accumulate(m0, rows[..i], now)
    {
      var r := rows[i];
      assert rows[..i + 1][..i] == rows[..i];
      if r.streamId in m {
        var e := CreditRow(m[r.streamId], r, now);
        m := m[r.streamId := e];
      }
      i := i + 1;
    }
    assert rows[..i] == rows;
  }

  /** The error loop. */
  method ApplyErrors(m0: map<int, Entry>, errs: seq<ErrorTally>) returns (m: map<int, Entry>)
    ensures m == SetErrors(m0, errs)
  {
    m := m0;
    var i := 0;
    while i < |errs|
      invariant 0 <= i <= |errs|
      invariant m == SetErrors(m0, errs[..i])
    {
      var e := errs[i];
      assert errs[..i + 1][..i] == errs[..i];
      if e.streamId in m {
        m := m[e.streamId := m[e.streamId].(errorCount := e.count)];
      }
      i := i + 1;
    }
    assert errs[..i] == errs;
  }

  /** Going back i whole days from t lowers its day number by i. */
  lemma DayShift(t: int, i: int)
    ensures DayOf(t - i * SecondsPerDay) == DayOf(t) - i
  {
    var q := t / SecondsPerDay;
    var r := t % SecondsPerDay;
    assert t == q * SecondsPerDay + r;
    assert t - i * SecondsPerDay == (q - i) * SecondsPerDay + r;
    DivUnique(t - i * SecondsPerDay, q - i, r);
  }

  lemma DivUnique(x: int, q: int, r: int)
    requires x == q * SecondsPerDay + r && 0 <= r < SecondsPerDay
    ensures x / SecondsPerDay == q
  {
  }

  /** The range as the source builds it: today minus i days for i below `days`, then
      reversed. */
  method BuildDateRange(now: int, days: int) returns (range: seq<int>)
    ensures range == DateRange(now, days)
  {
    var newestFirst: seq<int> := [];
    var i := 0;
    while i < days
      invariant 0 <= i && (days > 0 ==> i <= days) && (days <= 0 ==> i == 0)
      invariant |newestFirst| == i
      invariant forall j | 0 <= j < i :: newestFirst[j] == DayOf(now) - j
    {
      DayShift(now, i);
      newestFirst := newestFirst + [DayOf(now - i * SecondsPerDay)];
      i := i + 1;
    }
    range := seq(|newestFirst|, k requires 0 <= k < |newestFirst| => newestFirst[|newestFirst| - 1 - k]);
    assert |range| == if days > 0 then days else 0;
  }

  /** The fill loop for one stream. */
  method FillActivity(activity: map<int, Usage>, range: seq<int>) returns (pts: seq<ActivityPoint>)
    ensures pts == Fill(activity, range)
  {
    pts := [];
    var i := 0;
    while i < |range|
      invariant 0 <= i <= |range|
      invariant pts == Fill(activity, range[..i])
    {
      var d := range[i];
      if d in activity {
        pts := pts + [ActivityPoint(d, activity[d].duration, activity[d].size)];
      } else {
        pts := pts + [ActivityPoint(d, 0, 0)];
      }
      assert range[..i + 1][..i] == range[..i];
      i := i + 1;
    }
    assert range[..i] == range;
  }

  /** The outer fill loop: every stream's activity map becomes its timeline. */
  method FinishAll(m: map<int, Entry>, range: seq<int>) returns (out: map<int, Report>)
    ensures out == map sid | sid in m :: Finish(m[sid], range)
  {
    out := map[];
    var todo := m.Keys;
    while todo != {}
      invariant todo <= m.Keys
      invariant out == map sid | sid in m.Keys - todo :: Finish(m[sid], range)
      decreases todo
    {
      NonEmptyHasId(todo);
      var sid :| sid in todo;
      var e := m[sid];
      var pts := FillActivity(e.activity, range);
      out := out[sid := Report(e.name, e.status, e.totalSize, e.totalDuration,
                               e.today, e.week, e.month, e.errorCount, pts)];
      todo := todo - {sid};
    }
  }

  lemma NonEmptyHasId(s: set<int>)
    requires s != {}
    ensures exists x :: x in s
  {
    if forall x :: x !in s { assert false; }
  }

  /** `get_detailed_stats` after its queries. */
  method GetDetailedStats(
    streams: seq<Stream>, rows: seq<DayUsage>, errs: seq<ErrorTally>, now: int, days: int)
    returns (stats: map<int, Report>)
    ensures stats == DetailedStats(streams, rows, errs, now, days)
  {
    var m := InitEntries(streams);
    m := AccumulateRows(m, rows, now);
    m := ApplyErrors(m, errs);
    var range := BuildDateRange(now, days);
    stats := FinishAll(m, range);
  }

  // ----- what the reports satisfy

  /** Every configured stream, and only those, has an entry. */
  lemma {:induction false} InitialKeys(streams: seq<Stream>)
    ensures Initial(streams).Keys == set s | s in streams :: s.id
    decreases |streams|
  {
    if streams != [] {
      var init := streams[..|streams| - 1];
      InitialKeys(init);
      assert streams == init + [streams[|streams| - 1]];
    }
  }

  /** A stream's entry starts at zero, carrying the name and status of its row. */
  lemma {:induction false} InitialFresh(streams: seq<Stream>, k: int)
    requires 0 <= k < |streams|
    requires forall j | k < j < |streams| :: streams[j].id != streams[k].id
    ensures streams[k].id in Initial(streams)
    ensures Initial(streams)[streams[k].id] == Fresh(streams[k])
    decreases |streams|
  {
    if k < |streams| - 1 {
      var init := streams[..|streams| - 1];
      assert init[k] == streams[k];
      InitialFresh(init, k);
    }
  }

  /** The report has exactly one entry per configured stream. */
  lemma ReportKeys(
    streams: seq<Stream>, rows: seq<DayUsage>, errs: seq<ErrorTally>, now: int, days: int)
    ensures DetailedStats(streams, rows, errs, now, days).Keys == set s | s in streams :: s.id
  {
    InitialKeys(streams);
  }

  /** The rows of `rows` whose stream has an entry in `known`. */
  function KnownRows(rows: seq<DayUsage>, known: set<int>): (kept: seq<DayUsage>)
    ensures forall r | r in kept :: r in rows && r.streamId in known
    decreases |rows|
  {
    if rows == [] then []
    else
      var init := KnownRows(rows[..|rows| - 1], known);
      var r := rows[|rows| - 1];
      if r.streamId in known then init + [r] else init
  }

  /** Rows for unknown streams are ignored: dropping them changes nothing. */
  lemma {:induction false} UnknownRowsIgnored(m: map<int, Entry>, rows: seq<DayUsage>, now: int)
    ensures Accumulate(m, rows, now) == Accumulate(m, KnownRows(rows, m.Keys), now)
    decreases |rows|
  {
    if rows != [] {
      var init := rows[..|rows| - 1];
      var r := rows[|rows| - 1];
      UnknownRowsIgnored(m, init, now);
      var kept := KnownRows(init, m.Keys);
      if r.streamId in m.Keys {
        assert KnownRows(rows, m.Keys) == kept + [r];
        assert (kept + [r])[..|kept + [r]| - 1] == kept;
      }
    }
  }

  /** Sum of a stream's row sizes (NULL as zero). */
  function SizeSum(rows: seq<DayUsage>, sid: int): int
    decreases |rows|
  {
    if rows == [] then 0
    else
      var r := rows[|rows| - 1];
      SizeSum(rows[..|rows| - 1], sid) + (if r.streamId == sid then OrZero(r.size) else 0)
  }

  /** Sum of a stream's row durations (NULL as zero). */
  function DurationSum(rows: seq<DayUsage>, sid: int): int
    decreases |rows|
  {
    if rows == [] then 0
    else
      var r := rows[|rows| - 1];
      DurationSum(rows[..|rows| - 1], sid) + (if r.streamId == sid then OrZero(r.duration) else 0)
  }

  /** The totals grow by exactly the stream's row sums. */
  lemma {:induction false} TotalsAreSums(m: map<int, Entry>, rows: seq<DayUsage>, now: int, sid: int)
    requires sid in m
    ensures Accumulate(m, rows, now)[sid].totalSize == m[sid].totalSize + SizeSum(rows, sid)
    ensures Accumulate(m, rows, now)[sid].totalDuration == m[sid].totalDuration + DurationSum(rows, sid)
    decreases |rows|
  {
    if rows != [] {
      TotalsAreSums(m, rows[..|rows| - 1], now, sid);
    }
  }

  /** In the report, a stream's totals are its row sums. */
  lemma ReportTotals(
    streams: seq<Stream>, rows: seq<DayUsage>, errs: seq<ErrorTally>, now: int, days: int, sid: int)
    requires sid in DetailedStats(streams, rows, errs, now, days)
    ensures DetailedStats(streams, rows, errs, now, days)[sid].totalSize == SizeSum(rows, sid)
    ensures DetailedStats(streams, rows, errs, now, days)[sid].totalDuration == DurationSum(rows, sid)
  {
    var m0 := Initial(streams);
    InitialKeys(streams);
    var k := LastWithId(streams, sid);
    InitialFresh(streams, k);
    TotalsAreSums(m0, rows, now, sid);
    SetErrorsCount(Accumulate(m0, rows, now), errs, sid);
  }

  /** The position of the last stream row with a given id. */
  lemma LastWithId(streams: seq<Stream>, sid: int) returns (k: int)
    requires sid in set s | s in streams :: s.id
    ensures 0 <= k < |streams| && streams[k].id == sid
    ensures forall j | k < j < |streams| :: streams[j].id != sid
  {
    k := |streams| - 1;
    while streams[k].id != sid
      invariant 0 <= k < |streams|
      invariant forall j | k < j < |streams| :: streams[j].id != sid
      decreases k
    {
      if k == 0 {
        var s :| s in streams && s.id == sid;
        var i :| 0 <= i < |streams| && streams[i] == s;
        assert false;
      }
      k := k - 1;
    }
  }

  /** Today lies inside the week, and the week inside the month. */
  lemma WindowsNested(day: int, now: int)
    ensures InToday(day, now) ==> InWeek(day, now)
    ensures InWeek(day, now) ==> InMonth(day, now)
  {
    if InToday(day, now) {
      assert now == day * SecondsPerDay + now % SecondsPerDay;
    }
  }

  /** today ≤ week ≤ month ≤ total, for sizes and for durations. */
  predicate Ordered(e: Entry)
  {
    && 0 <= e.today.size <= e.week.size <= e.month.size <= e.totalSize
    && 0 <= e.today.duration <= e.week.duration <= e.month.duration <= e.totalDuration
  }

  predicate NonNegative(rows: seq<DayUsage>)
  {
    forall k | 0 <= k < |rows| :: OrZero(rows[k].size) >= 0 && OrZero(rows[k].duration) >= 0
  }

  lemma CreditOrdered(e: Entry, r: DayUsage, now: int)
    requires Ordered(e) && OrZero(r.size) >= 0 && OrZero(r.duration) >= 0
    ensures Ordered(Credit(e, r, now))
  {
    WindowsNested(r.day, now);
  }

  /** With no negative sums, every entry keeps today ≤ week ≤ month ≤ total. */
  lemma {:induction false} AccumulateOrdered(m: map<int, Entry>, rows: seq<DayUsage>, now: int)
    requires forall sid | sid in m :: Ordered(m[sid])
    requires NonNegative(rows)
    ensures forall sid | sid in Accumulate(m, rows, now) :: Ordered(Accumulate(m, rows, now)[sid])
    decreases |rows|
  {
    if rows != [] {
      var init := rows[..|rows| - 1];
      assert NonNegative(init) by {
        forall k | 0 <= k < |init| ensures OrZero(init[k].size) >= 0 && OrZero(init[k].duration) >= 0 {
          assert init[k] == rows[k];
        }
      }
      AccumulateOrdered(m, init, now);
      var p := Accumulate(m, init, now);
      var r := rows[|rows| - 1];
      if r.streamId in p {
        CreditOrdered(p[r.streamId], r, now);
      }
    }
  }

  lemma {:induction false} SetErrorsOrdered(m: map<int, Entry>, errs: seq<ErrorTally>)
    requires forall sid | sid in m :: Ordered(m[sid])
    ensures forall sid | sid in SetErrors(m, errs) :: Ordered(SetErrors(m, errs)[sid])
    decreases |errs|
  {
    if errs != [] {
      SetErrorsOrdered(m, errs[..|errs| - 1]);
    }
  }

  /** In every report today ≤ week ≤ month ≤ total, when no row sum is negative. */
  lemma ReportOrdered(
    streams: seq<Stream>, rows: seq<DayUsage>, errs: seq<ErrorTally>, now: int, days: int, sid: int)
    requires NonNegative(rows)
    requires sid in DetailedStats(streams, rows, errs, now, days)
    ensures var r := DetailedStats(streams, rows, errs, now, days)[sid];
      && 0 <= r.today.size <= r.week.size <= r.month.size <= r.totalSize
      && 0 <= r.today.duration <= r.week.duration <= r.month.duration <= r.totalDuration
  {
    var m0 := Initial(streams);
    InitialAllFresh(streams);
    AccumulateOrdered(m0, rows, now);
    SetErrorsOrdered(Accumulate(m0, rows, now), errs);
  }

  lemma {:induction false} InitialAllFresh(streams: seq<Stream>)
    ensures forall sid | sid in Initial(streams) :: Ordered(Initial(streams)[sid])
    decreases |streams|
  {
    if streams != [] {
      InitialAllFresh(streams[..|streams| - 1]);
    }
  }

  /** The count of the last tally for a stream, if any. */
  function LastCount(errs: seq<ErrorTally>, sid: int): Option<int>
    decreases |errs|
  {
    if errs == [] then None
    else if errs[|errs| - 1].streamId == sid then Some(errs[|errs| - 1].count)
    else LastCount(errs[..|errs| - 1], sid)
  }

  /** A known stream's error count is its last tally, or stays as it was without one;
      nothing else in the entry changes. */
  lemma {:induction false} SetErrorsCount(m: map<int, Entry>, errs: seq<ErrorTally>, sid: int)
    requires sid in m
    ensures SetErrors(m, errs)[sid] ==
      m[sid].(errorCount := if LastCount(errs, sid).Some? then LastCount(errs, sid).value
                            else m[sid].errorCount)
    decreases |errs|
  {
    if errs != [] {
      SetErrorsCount(m, errs[..|errs| - 1], sid);
    }
  }

  /** The activity timeline of every report: `days` points (none when `days` is not
      positive), one per day, oldest first, the last one today; each carries the day's
      recorded usage or zero. */
  lemma ReportTimeline(
    streams: seq<Stream>, rows: seq<DayUsage>, errs: seq<ErrorTally>, now: int, days: int, sid: int)
    requires sid in DetailedStats(streams, rows, errs, now, days)
    ensures var a := DetailedStats(streams, rows, errs, now, days)[sid].activity;
      var e := Entries(streams, rows, errs, now)[sid];
      && |a| == (if days > 0 then days else 0)
      && (forall k | 0 <= k < |a| - 1 :: a[k + 1].day == a[k].day + 1)
      && (days > 0 ==> a[|a| - 1].day == DayOf(now))
      && (forall k | 0 <= k < |a| ::
            if a[k].day in e.activity
            then a[k].duration == e.activity[a[k].day].duration && a[k].size == e.activity[a[k].day].size
            else a[k].duration == 0 && a[k].size == 0)
  {
  }

  /** A day appears in a stream's activity map exactly when a row for it was added. */
  lemma {:induction false} ActivityDays(m: map<int, Entry>, rows: seq<DayUsage>, now: int, sid: int, day: int)
    requires sid in m
    ensures day in Accumulate(m, rows, now)[sid].activity <==>
      day in m[sid].activity || exists k | 0 <= k < |rows| :: rows[k].streamId == sid && rows[k].day == day
    decreases |rows|
  {
    if rows != [] {
      var init := rows[..|rows| - 1];
      ActivityDays(m, init, now, sid, day);
      if exists k | 0 <= k < |init| :: init[k].streamId == sid && init[k].day == day {
        var k :| 0 <= k < |init| && init[k].streamId == sid && init[k].day == day;
        assert rows[k] == init[k];
      }
      if exists k | 0 <= k < |rows| :: rows[k].streamId == sid && rows[k].day == day {
        var k :| 0 <= k < |rows| && rows[k].streamId == sid && rows[k].day == day;
        if k < |init| { assert init[k] == rows[k]; }
      }
    }
  }
}

/** The two HTTP handlers over speech blocks: rebuilding a station's day, and listing a
    station's blocks of a day. Both answer 404 for a station that does not exist. The block
    table is passed in and, for a rebuild, handed back changed. */
module SpeechBlocksApi {
  import opened Common
  import opened Sorting
  import opened Models
  import opened SpeechBlocks

  const NotFound: int := 404
  /** The builder's defaults the rebuild handler relies on. */
  const DefaultGap: int := 5
  const DefaultMinDuration: int := 60

  datatype RebuildSummary = RebuildSummary(stationId: int, day: int, blocksCreated: int, totalSpeechMinutes: int)

  function TotalDuration(bs: seq<SpeechBlock>): int
    decreases |bs|
  {
    if |bs| == 0 then 0 else TotalDuration(bs[..|bs| - 1]) + bs[|bs| - 1].duration
  }

  /** The rebuild handler: 404 for an unknown station and then nothing is rebuilt; otherwise
      the summary of the blocks the builder created and the new block table. */
  function RebuildSpeechBlocks(stations: set<int>, bs: seq<SpeechBlock>, rs: seq<Recording>, station: int, day: int)
    : (r: Result<(RebuildSummary, seq<SpeechBlock>), int>)
    ensures station !in stations <==> r.Err?
    ensures r.Err? ==> r.error == NotFound
    ensures r.Ok? ==> r.value.1 == Rebuild(bs, rs, station, day, DefaultGap, DefaultMinDuration)
  {
    if station !in stations then Err(NotFound)
    else
      var created := Segment(station, DayRecordings(rs, station, day), DefaultGap, DefaultMinDuration);
      var summary := RebuildSummary(station, day, |created|, TotalDuration(created) / 60);
      Ok((summary, Rebuild(bs, rs, station, day, DefaultGap, DefaultMinDuration)))
  }

  lemma {:induction false} TotalDurationAtLeast(bs: seq<SpeechBlock>, m: int)
    requires forall i | 0 <= i < |bs| :: bs[i].duration >= m
    ensures TotalDuration(bs) >= |bs| * m
    decreases |bs|
  {
    if |bs| > 0 {
      TotalDurationAtLeast(bs[..|bs| - 1], m);
    }
  }

  /** The summary counts the created blocks and gives their total length in whole minutes,
      rounded down; since every block lasts at least a minute, there are at least as many
      minutes as blocks. */
  lemma RebuildSummaryCounts(stations: set<int>, bs: seq<SpeechBlock>, rs: seq<Recording>, station: int, day: int)
    requires station in stations
    ensures var r := RebuildSpeechBlocks(stations, bs, rs, station, day);
      var created := Segment(station, DayRecordings(rs, station, day), DefaultGap, DefaultMinDuration);
      && r.Ok?
      && r.value.0.blocksCreated == |created|
      && r.value.0.totalSpeechMinutes * 60 <= TotalDuration(created) < r.value.0.totalSpeechMinutes * 60 + 60
      && r.value.0.totalSpeechMinutes >= r.value.0.blocksCreated
  {
    var created := Segment(station, DayRecordings(rs, station, day), DefaultGap, DefaultMinDuration);
    SegmentBlocks(station, DayRecordings(rs, station, day), DefaultGap, DefaultMinDuration);
    TotalDurationAtLeast(created, 60);
  }

  /** The station's blocks whose start lies within the day, in table order. */
  function BlocksOfDay(bs: seq<SpeechBlock>, station: int, day: int): (sel: seq<SpeechBlock>)
    ensures forall k | 0 <= k < |sel| :: Replaced(sel[k], station, day)
    decreases |bs|
  {
    if |bs| == 0 then []
    else
      var init := BlocksOfDay(bs[..|bs| - 1], station, day);
      var b := bs[|bs| - 1];
      if Replaced(b, station, day) then init + [b] else init
  }

  /** The selection keeps every block of the day as often as the table holds it, and
      nothing the table does not hold. */
  lemma {:induction false} BlocksOfDayCounts(bs: seq<SpeechBlock>, station: int, day: int)
    ensures multiset(BlocksOfDay(bs, station, day)) <= multiset(bs)
    ensures forall b | Replaced(b, station, day) :: multiset(BlocksOfDay(bs, station, day))[b] == multiset(bs)[b]
    decreases |bs|
  {
    if |bs| > 0 {
      var init, b := bs[..|bs| - 1], bs[|bs| - 1];
      BlocksOfDayCounts(init, station, day);
      assert bs == init + [b];
      assert multiset(bs) == multiset(init) + multiset{b};
    }
  }

  /** The listing handler: 404 for an unknown station, otherwise the station's blocks of
      the day ordered by start. */
  function ListSpeechBlocks(stations: set<int>, bs: seq<SpeechBlock>, station: int, day: int)
    : (r: Result<seq<SpeechBlock>, int>)
    ensures station !in stations <==> r.Err?
    ensures r.Err? ==> r.error == NotFound
    ensures r.Ok? ==> SortedBy(r.value, BlockStart)
    ensures r.Ok? ==> forall k | 0 <= k < |r.value| :: Replaced(r.value[k], station, day)
    ensures r.Ok? ==> multiset(r.value) <= multiset(bs)
    ensures r.Ok? ==> forall b | Replaced(b, station, day) :: multiset(r.value)[b] == multiset(bs)[b]
  {
    if station !in stations then Err(NotFound)
    else
      var sel := BlocksOfDay(bs, station, day);
      var sorted := SortBy(sel, BlockStart);
      BlocksOfDayCounts(bs, station, day);
      forall k | 0 <= k < |sorted| ensures Replaced(sorted[k], station, day) {
        assert sorted[k] in multiset(sel);
      }
      Ok(sorted)
  }

  lemma {:induction false} BlocksOfDayConcat(bs: seq<SpeechBlock>, cs: seq<SpeechBlock>, station: int, day: int)
    ensures BlocksOfDay(bs + cs, station, day) == BlocksOfDay(bs, station, day) + BlocksOfDay(cs, station, day)
    decreases |cs|
  {
    if |cs| == 0 {
      assert bs + cs == bs;
    } else {
      assert (bs + cs)[..|bs + cs| - 1] == bs + cs[..|cs| - 1];
      BlocksOfDayConcat(bs, cs[..|cs| - 1], station, day);
    }
  }

  lemma {:induction false} BlocksOfDayAll(bs: seq<SpeechBlock>, station: int, day: int)
    requires forall k | 0 <= k < |bs| :: Replaced(bs[k], station, day)
    ensures BlocksOfDay(bs, station, day) == bs
    decreases |bs|
  {
    if |bs| > 0 {
      var init, b := bs[..|bs| - 1], bs[|bs| - 1];
      assert forall k | 0 <= k < |init| :: init[k] == bs[k];
      BlocksOfDayAll(init, station, day);
      assert Replaced(b, station, day);
      assert bs == init + [b];
    }
  }

  lemma {:induction false} BlocksOfDayNone(bs: seq<SpeechBlock>, station: int, day: int)
    requires forall k | 0 <= k < |bs| :: !Replaced(bs[k], station, day)
    ensures BlocksOfDay(bs, station, day) == []
    decreases |bs|
  {
    if |bs| > 0 {
      var init, b := bs[..|bs| - 1], bs[|bs| - 1];
      assert forall k | 0 <= k < |init| :: init[k] == bs[k];
      BlocksOfDayNone(init, station, day);
      assert !Replaced(b, station, day);
    }
  }

  /** Listing a day right after rebuilding it returns exactly the blocks the rebuild created,
      in the order it created them. */
  lemma ListAfterRebuild(stations: set<int>, bs: seq<SpeechBlock>, rs: seq<Recording>, station: int, day: int)
    requires station in stations
    ensures var created := Segment(station, DayRecordings(rs, station, day), DefaultGap, DefaultMinDuration);
      ListSpeechBlocks(stations, Rebuild(bs, rs, station, day, DefaultGap, DefaultMinDuration), station, day) == Ok(created)
  {
    var kept := RemoveDay(bs, station, day);
    var dr := DayRecordings(rs, station, day);
    var created := Segment(station, dr, DefaultGap, DefaultMinDuration);
    BlocksOfDayConcat(kept, created, station, day);
    BlocksOfDayNone(kept, station, day);
    RebuiltBlocksReplaced(rs, station, day, DefaultGap, DefaultMinDuration);
    BlocksOfDayAll(created, station, day);
    assert [] + created == created;
    SegmentSorted(station, dr, DefaultGap, DefaultMinDuration);
    SortBySorted(created, BlockStart);
  }
}

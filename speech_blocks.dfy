/** Grouping a station's recordings of one day into speech blocks.

    One pass over the recordings in start order keeps an open block. A speech recording
    joins the open block when it starts at most `gap` seconds after the block's current end,
    and otherwise closes it and opens a new one; any other recording closes the open block.
    A closed block shorter than the minimum duration is dropped. Rebuilding a day first
    deletes the station's blocks of that day, so the stored result does not depend on how
    often the day is rebuilt. */
module SpeechBlocks {
  import opened Common
  import opened Sorting
  import opened Timestamps
  import opened Models

  // ---------------------------------------------------------------------------
  // Recordings as the segmenter sees them.

  /** When a recording ends: its stored end, else its start plus a positive duration,
      else its start. */
  function EffectiveEnd(r: Recording): (t: int)
    ensures r.end.Some? ==> t == r.end.value
    ensures r.end.None? && r.duration > 0 ==> t == r.start + r.duration
    ensures r.end.None? && r.duration <= 0 ==> t == r.start
    ensures r.end.None? ==> t >= r.start
  {
    match r.end
    case Some(e) => e
    case None => if r.duration > 0 then r.start + r.duration else r.start
  }

  predicate IsSpeech(r: Recording) { r.classification == Some("speech") }

  /** The transcript, with a missing one read as the empty text. */
  function TranscriptText(r: Recording): string
  {
    match r.transcript
    case Some(t) => t
    case None => ""
  }

  function Texts(rs: seq<Recording>): (ts: seq<string>)
    ensures |ts| == |rs| && forall k | 0 <= k < |rs| :: ts[k] == TranscriptText(rs[k])
  {
    seq(|rs|, k requires 0 <= k < |rs| => TranscriptText(rs[k]))
  }

  /** The texts that are not empty, in order. */
  function NonEmpty(ts: seq<string>): (r: seq<string>)
    ensures forall k | 0 <= k < |r| :: r[k] != "" && r[k] in ts
    ensures forall t | t in ts && t != "" :: t in r
    decreases |ts|
  {
    if |ts| == 0 then []
    else
      var init := NonEmpty(ts[..|ts| - 1]);
      assert ts == ts[..|ts| - 1] + [ts[|ts| - 1]];
      if ts[|ts| - 1] == "" then init else init + [ts[|ts| - 1]]
  }

  /** Dropping empty texts works text by text: over a concatenation it keeps what it keeps of
      each part, in order, and of a single text it keeps the text iff it is not empty. */
  lemma {:induction false} NonEmptyConcat(a: seq<string>, b: seq<string>)
    ensures NonEmpty(a + b) == NonEmpty(a) + NonEmpty(b)
    ensures |b| == 1 ==> NonEmpty(b) == if b[0] == "" then [] else b
    decreases |b|
  {
    if |b| == 0 {
      assert a + b == a;
    } else {
      assert (a + b)[..|a + b| - 1] == a + b[..|b| - 1];
      NonEmptyConcat(a, b[..|b| - 1]);
      if |b| == 1 {
        assert b[..0] == [];
      }
    }
  }

  // ---------------------------------------------------------------------------
  // Day bounds.

  /** The first and the last second of a day: midnight and 23:59:59 of the same date. */
  function DayBounds(day: int): (b: (int, int))
    ensures b.0 <= b.1
    ensures forall t :: b.0 <= t <= b.1 <==> DayOf(t) == day
  {
    var lo := day * SecondsPerDay;
    forall t ensures lo <= t <= lo + SecondsPerDay - 1 <==> DayOf(t) == day {
      DayOfBounds(t, day);
    }
    (lo, lo + SecondsPerDay - 1)
  }

  lemma DayOfBounds(t: int, day: int)
    ensures day * SecondsPerDay <= t < day * SecondsPerDay + SecondsPerDay <==> DayOf(t) == day
  {
    var q, r := t / SecondsPerDay, t % SecondsPerDay;
    assert t == q * SecondsPerDay + r && 0 <= r < SecondsPerDay;
    if q < day {
      assert q * SecondsPerDay <= (day - 1) * SecondsPerDay;
    } else if q > day {
      assert q * SecondsPerDay >= (day + 1) * SecondsPerDay;
    }
  }

  predicate InDay(t: int, day: int) { DayBounds(day).0 <= t <= DayBounds(day).1 }

  // ---------------------------------------------------------------------------
  // The specification of the pass.

  /** A block under construction or closed: its members in encounter order, the start of the
      first member and the latest end seen. */
  datatype Group = Group(members: seq<Recording>, start: int, end: int)

  datatype ScanState = ScanState(closed: seq<Group>, open: Option<Group>)

  function Begin(r: Recording): Group { Group([r], r.start, EffectiveEnd(r)) }

  function Extend(g: Group, r: Recording): Group
  {
    Group(g.members + [r], g.start, if EffectiveEnd(r) > g.end then EffectiveEnd(r) else g.end)
  }

  function Close(o: Option<Group>): seq<Group>
  {
    match o
    case None => []
    case Some(g) => [g]
  }

  /** What one recording does to the pass. */
  function Step(st: ScanState, r: Recording, gap: int): ScanState
  {
    if !IsSpeech(r) then ScanState(st.closed + Close(st.open), None)
    else match st.open
      case None => ScanState(st.closed, Some(Begin(r)))
      case Some(g) =>
        if r.start - g.end <= gap then ScanState(st.closed, Some(Extend(g, r)))
        else ScanState(st.closed + [g], Some(Begin(r)))
  }

  /** The pass continued from a state over further recordings. */
  function Continue(st: ScanState, rs: seq<Recording>, gap: int): ScanState
    decreases |rs|
  {
    if |rs| == 0 then st else Step(Continue(st, rs[..|rs| - 1], gap), rs[|rs| - 1], gap)
  }

  function ScanAll(rs: seq<Recording>, gap: int): ScanState
  {
    Continue(ScanState([], None), rs, gap)
  }

  /** Every block the pass closes, before the minimum-duration filter. */
  function Groups(rs: seq<Recording>, gap: int): seq<Group>
  {
    var st := ScanAll(rs, gap);
    st.closed + Close(st.open)
  }

  predicate LongEnough(g: Group, minDur: int) { g.end - g.start >= minDur }

  function ToBlock(station: int, g: Group): SpeechBlock
  {
    SpeechBlock(station, g.start, g.end, g.end - g.start, Ids(g.members), Join(NonEmpty(Texts(g.members)), "\n"))
  }

  /** The stored blocks of the groups that last long enough, in order. */
  function Keep(station: int, gs: seq<Group>, minDur: int): (bs: seq<SpeechBlock>)
    ensures |bs| <= |gs|
    decreases |gs|
  {
    if |gs| == 0 then []
    else
      var init := Keep(station, gs[..|gs| - 1], minDur);
      var g := gs[|gs| - 1];
      if LongEnough(g, minDur) then init + [ToBlock(station, g)] else init
  }

  predicate FromLongGroups(station: int, bs: seq<SpeechBlock>, gs: seq<Group>, minDur: int)
  {
    forall i | 0 <= i < |bs| :: exists j | 0 <= j < |gs| :: bs[i] == ToBlock(station, gs[j]) && LongEnough(gs[j], minDur)
  }

  /** Each kept block is the stored form of a long-enough group, and each long-enough group
      is kept. */
  lemma {:induction false} KeepExactly(station: int, gs: seq<Group>, minDur: int)
    ensures FromLongGroups(station, Keep(station, gs, minDur), gs, minDur)
    ensures forall j | 0 <= j < |gs| && LongEnough(gs[j], minDur) :: ToBlock(station, gs[j]) in Keep(station, gs, minDur)
    decreases |gs|
  {
    if |gs| > 0 {
      var init := gs[..|gs| - 1];
      KeepExactly(station, init, minDur);
      assert forall j | 0 <= j < |init| :: init[j] == gs[j];
      var bs, ib := Keep(station, gs, minDur), Keep(station, init, minDur);
      assert bs == if LongEnough(gs[|gs| - 1], minDur) then ib + [ToBlock(station, gs[|gs| - 1])] else ib;
      forall i | 0 <= i < |bs|
        ensures exists j | 0 <= j < |gs| :: bs[i] == ToBlock(station, gs[j]) && LongEnough(gs[j], minDur)
      {
        if i < |ib| {
          assert FromLongGroups(station, ib, init, minDur);
          var j :| 0 <= j < |init| && ib[i] == ToBlock(station, init[j]) && LongEnough(init[j], minDur);
          assert bs[i] == ib[i] && init[j] == gs[j];
        } else {
          assert bs[i] == ToBlock(station, gs[|gs| - 1]);
        }
      }
    }
  }

  /** The blocks a station's recordings of a day yield. */
  function Segment(station: int, rs: seq<Recording>, gap: int, minDur: int): seq<SpeechBlock>
  {
    Keep(station, Groups(rs, gap), minDur)
  }

  // ---------------------------------------------------------------------------
  // The pass as the service runs it.

  /** Closing the open block: nothing when there is none, nothing when it is too short,
      otherwise its stored form. */
  function Finalize(station: int, minDur: int, ids: seq<int>, texts: seq<string>,
                    start: Option<int>, end: Option<int>): (closed: seq<SpeechBlock>)
    ensures |closed| <= 1
    ensures |closed| == 1 <==> |ids| > 0 && start.Some? && end.Some? && end.value - start.value >= minDur
    ensures |closed| == 1 ==>
      && closed[0].chunkIds == ids && closed[0].streamId == station
      && closed[0].start == start.value && closed[0].end == end.value
      && closed[0].duration == closed[0].end - closed[0].start >= minDur
      && closed[0].text == Join(NonEmpty(texts), "\n")
  {
    if |ids| == 0 || start.None? || end.None? then []
    else
      var duration := end.value - start.value;
      if duration < minDur then []
      else [SpeechBlock(station, start.value, end.value, duration, ids, Join(NonEmpty(texts), "\n"))]
  }

  /** The service's local variables hold the open group of the specification. */
  ghost predicate HoldsOpen(o: Option<Group>, cur: seq<Recording>, ids: seq<int>, texts: seq<string>,
                            start: Option<int>, end: Option<int>)
  {
    match o
    case None => ids == [] && texts == [] && start.None? && end.None?
    case Some(g) =>
      && |cur| > 0 && cur == g.members && ids == Ids(cur) && texts == Texts(cur)
      && start == Some(g.start) && end == Some(g.end)
  }

  lemma FinalizeCloses(station: int, minDur: int, closed: seq<Group>, o: Option<Group>,
                       cur: seq<Recording>, ids: seq<int>, texts: seq<string>, start: Option<int>, end: Option<int>)
    requires HoldsOpen(o, cur, ids, texts, start, end)
    ensures Keep(station, closed + Close(o), minDur) == Keep(station, closed, minDur) + Finalize(station, minDur, ids, texts, start, end)
  {
    if o.Some? {
      assert (closed + [o.value])[..|closed|] == closed;
    } else {
      assert closed + [] == closed;
    }
  }

  /** One pass over recordings sorted by start, closing blocks as they end. */
  method BuildBlocks(station: int, recordings: seq<Recording>, gap: int, minDur: int) returns (blocks: seq<SpeechBlock>)
    ensures blocks == Segment(station, recordings, gap, minDur)
  {
    blocks := [];
    var ids: seq<int> := [];
    var texts: seq<string> := [];
    var blockStart: Option<int> := None;
    var blockEnd: Option<int> := None;
    ghost var cur: seq<Recording> := [];
    for i := 0 to |recordings|
      invariant blocks == Keep(station, ScanAll(recordings[..i], gap).closed, minDur)
      invariant HoldsOpen(ScanAll(recordings[..i], gap).open, cur, ids, texts, blockStart, blockEnd)
    {
      var rec := recordings[i];
      ghost var st := ScanAll(recordings[..i], gap);
      assert recordings[..i + 1][..i] == recordings[..i];
      assert ScanAll(recordings[..i + 1], gap) == Step(st, rec, gap);
      var recEnd := EffectiveEnd(rec);
      if !IsSpeech(rec) {
        FinalizeCloses(station, minDur, st.closed, st.open, cur, ids, texts, blockStart, blockEnd);
        blocks := blocks + Finalize(station, minDur, ids, texts, blockStart, blockEnd);
        ids, texts, blockStart, blockEnd, cur := [], [], None, None, [];
      } else if ids == [] {
        assert st.open.None?;
        blockStart, blockEnd := Some(rec.start), Some(recEnd);
        ids, texts, cur := [rec.id], [TranscriptText(rec)], [rec];
      } else if rec.start - blockEnd.value <= gap {
        assert Step(st, rec, gap) == ScanState(st.closed, Some(Extend(st.open.value, rec)));
        assert Ids(cur + [rec]) == ids + [rec.id];
        assert Texts(cur + [rec]) == texts + [TranscriptText(rec)];
        ids, texts, cur := ids + [rec.id], texts + [TranscriptText(rec)], cur + [rec];
        if recEnd > blockEnd.value {
          blockEnd := Some(recEnd);
        }
      } else {
        assert Step(st, rec, gap) == ScanState(st.closed + [st.open.value], Some(Begin(rec)));
        FinalizeCloses(station, minDur, st.closed, st.open, cur, ids, texts, blockStart, blockEnd);
        blocks := blocks + Finalize(station, minDur, ids, texts, blockStart, blockEnd);
        blockStart, blockEnd := Some(rec.start), Some(recEnd);
        ids, texts, cur := [rec.id], [TranscriptText(rec)], [rec];
      }
    }
    assert recordings[..|recordings|] == recordings;
    ghost var st := ScanAll(recordings, gap);
    FinalizeCloses(station, minDur, st.closed, st.open, cur, ids, texts, blockStart, blockEnd);
    blocks := blocks + Finalize(station, minDur, ids, texts, blockStart, blockEnd);
  }

  // ---------------------------------------------------------------------------
  // What the pass guarantees.

  /** The speech recordings, in order. */
  function Speech(rs: seq<Recording>): (sp: seq<Recording>)
    ensures |sp| <= |rs|
    ensures forall k | 0 <= k < |sp| :: IsSpeech(sp[k]) && sp[k] in rs
    decreases |rs|
  {
    if |rs| == 0 then []
    else
      var init := Speech(rs[..|rs| - 1]);
      var r := rs[|rs| - 1];
      assert forall k | 0 <= k < |init| :: init[k] in rs[..|rs| - 1];
      if IsSpeech(r) then init + [r] else init
  }

  /** The members of the groups, group after group. */
  function MembersOf(gs: seq<Group>): seq<Recording>
    decreases |gs|
  {
    if |gs| == 0 then [] else MembersOf(gs[..|gs| - 1]) + gs[|gs| - 1].members
  }

  lemma MembersOfSnoc(gs: seq<Group>, g: Group)
    ensures MembersOf(gs + [g]) == MembersOf(gs) + g.members
  {
    assert (gs + [g])[..|gs|] == gs;
  }

  lemma MembersOfHead(gs: seq<Group>)
    requires |gs| > 0
    ensures MembersOf(gs) == gs[0].members + MembersOf(gs[1..])
  {
    var g := gs[0];
    assert [g][..0] == [];
    assert MembersOf([g]) == g.members;
    MembersOfAppend([g], gs[1..]);
    assert [g] + gs[1..] == gs;
  }

  lemma {:induction false} MembersOfAppend(gs: seq<Group>, hs: seq<Group>)
    ensures MembersOf(gs + hs) == MembersOf(gs) + MembersOf(hs)
    decreases |hs|
  {
    if |hs| == 0 {
      assert gs + hs == gs;
    } else {
      assert (gs + hs)[..|gs + hs| - 1] == gs + hs[..|hs| - 1];
      MembersOfAppend(gs, hs[..|hs| - 1]);
    }
  }

  /** The latest effective end among some recordings. */
  function MaxEnd(ms: seq<Recording>): (e: int)
    requires |ms| > 0
    ensures EffectiveEnd(ms[|ms| - 1]) <= e
    decreases |ms|
  {
    if |ms| == 1 then EffectiveEnd(ms[0])
    else
      var init := ms[..|ms| - 1];
      var m := MaxEnd(init);
      var e := EffectiveEnd(ms[|ms| - 1]);
      if e > m then e else m
  }

  /** Each member after the first starts at most `gap` seconds after the latest end of the
      members before it. */
  predicate Chained(ms: seq<Recording>, gap: int)
  {
    forall k | 1 <= k < |ms| :: ms[k].start - MaxEnd(ms[..k]) <= gap
  }

  predicate WellFormedGroup(g: Group, gap: int)
  {
    && |g.members| > 0
    && g.start == g.members[0].start
    && g.end == MaxEnd(g.members)
    && (forall k | 0 <= k < |g.members| :: IsSpeech(g.members[k]))
    && Chained(g.members, gap)
  }

  predicate AllWellFormed(gs: seq<Group>, gap: int)
  {
    forall i | 0 <= i < |gs| :: WellFormedGroup(gs[i], gap)
  }

  lemma ExtendWellFormed(g: Group, r: Recording, gap: int)
    requires WellFormedGroup(g, gap) && IsSpeech(r) && r.start - g.end <= gap
    ensures WellFormedGroup(Extend(g, r), gap)
  {
    var ms := g.members + [r];
    var n := |g.members|;
    assert ms[..n] == g.members;
    assert MaxEnd(ms) == Extend(g, r).end;
    forall k | 1 <= k < |ms| ensures ms[k].start - MaxEnd(ms[..k]) <= gap {
      if k < n {
        assert ms[..k] == g.members[..k] && ms[k] == g.members[k];
      } else {
        assert ms[k] == r;
      }
    }
    assert forall k | 0 <= k < |ms| :: IsSpeech(ms[k]);
  }

  lemma TextsConcat(a: seq<Recording>, b: seq<Recording>)
    ensures Texts(a + b) == Texts(a) + Texts(b)
  {
  }

  /** A group's block text begins as its first recording's transcript (empty when it has
      none). */
  lemma BeginText(station: int, r: Recording)
    ensures ToBlock(station, Begin(r)).text == TranscriptText(r)
  {
    assert Texts([r]) == [TranscriptText(r)];
    NonEmptyConcat([], [TranscriptText(r)]);
    assert [] + [TranscriptText(r)] == [TranscriptText(r)];
  }

  /** Each recording added to a group appends its non-empty transcript to the block text,
      after a newline when the text so far is not empty: the text is the group's non-empty
      transcripts joined by newlines in encounter order. */
  lemma ExtendText(station: int, g: Group, r: Recording)
    ensures var old_ := NonEmpty(Texts(g.members));
      ToBlock(station, Extend(g, r)).text ==
        if TranscriptText(r) == "" then ToBlock(station, g).text
        else if old_ == [] then TranscriptText(r)
        else ToBlock(station, g).text + "\n" + TranscriptText(r)
  {
    var t := TranscriptText(r);
    TextsConcat(g.members, [r]);
    assert Texts([r]) == [t];
    NonEmptyConcat(Texts(g.members), [t]);
    var old_ := NonEmpty(Texts(g.members));
    if t != "" {
      if old_ == [] {
        assert old_ + [t] == [t];
      } else {
        JoinLast(old_, t, "\n");
      }
    } else {
      assert old_ + [] == old_;
    }
  }

  /** How one more recording changes the groups: a non-speech recording changes nothing, a
      speech recording close enough to the open group extends it, and any other speech
      recording adds a group of its own. */
  lemma GroupsSnoc(p: seq<Recording>, r: Recording, gap: int)
    ensures var st := ScanAll(p, gap);
      Groups(p + [r], gap) ==
        if !IsSpeech(r) then Groups(p, gap)
        else if st.open.Some? && r.start - st.open.value.end <= gap then st.closed + [Extend(st.open.value, r)]
        else Groups(p, gap) + [Begin(r)]
  {
    var st := ScanAll(p, gap);
    assert (p + [r])[..|p|] == p;
    assert ScanAll(p + [r], gap) == Step(st, r, gap);
    if st.open.None? {
      assert st.closed + [] == st.closed;
    }
  }

  lemma SpeechSnoc(p: seq<Recording>, r: Recording)
    ensures Speech(p + [r]) == if IsSpeech(r) then Speech(p) + [r] else Speech(p)
  {
    assert (p + [r])[..|p|] == p;
  }

  /** The groups split the speech recordings: every speech recording is a member of exactly
      one group, in encounter order, and no other recording is a member. */
  lemma {:induction false} GroupsPartitionSpeech(rs: seq<Recording>, gap: int)
    ensures MembersOf(Groups(rs, gap)) == Speech(rs)
    decreases |rs|
  {
    if |rs| > 0 {
      var p, r := rs[..|rs| - 1], rs[|rs| - 1];
      assert rs == p + [r];
      GroupsPartitionSpeech(p, gap);
      PartitionStep(p, r, gap);
    }
  }

  lemma PartitionStep(p: seq<Recording>, r: Recording, gap: int)
    requires MembersOf(Groups(p, gap)) == Speech(p)
    ensures MembersOf(Groups(p + [r], gap)) == Speech(p + [r])
  {
    GroupsSnoc(p, r, gap);
    SpeechSnoc(p, r);
    var st := ScanAll(p, gap);
    var G := Groups(p, gap);
    if IsSpeech(r) {
      if st.open.Some? && r.start - st.open.value.end <= gap {
        var g := st.open.value;
        assert G == st.closed + [g];
        MembersOfSnoc(st.closed, g);
        MembersOfSnoc(st.closed, Extend(g, r));
      } else {
        MembersOfSnoc(G, Begin(r));
      }
    }
  }


  lemma AllWellFormedAppend(gs: seq<Group>, h: Group, gap: int)
    requires AllWellFormed(gs, gap) && WellFormedGroup(h, gap)
    ensures AllWellFormed(gs + [h], gap)
  {
    forall i | 0 <= i < |gs + [h]| ensures WellFormedGroup((gs + [h])[i], gap) {
      if i < |gs| {
        assert (gs + [h])[i] == gs[i];
      }
    }
  }

  lemma ExtendLastWellFormed(closed: seq<Group>, g: Group, r: Recording, gap: int)
    requires AllWellFormed(closed + [g], gap) && IsSpeech(r) && r.start - g.end <= gap
    ensures AllWellFormed(closed + [Extend(g, r)], gap)
  {
    assert (closed + [g])[|closed|] == g;
    assert AllWellFormed(closed, gap) by {
      forall i | 0 <= i < |closed| ensures WellFormedGroup(closed[i], gap) {
        assert (closed + [g])[i] == closed[i];
      }
    }
    ExtendWellFormed(g, r, gap);
    AllWellFormedAppend(closed, Extend(g, r), gap);
  }

  /** Every group is non-empty, starts with its first member, ends at the latest end of its
      members, holds only speech and only takes members that start within `gap` of that end. */
  lemma {:induction false} GroupsWellFormed(rs: seq<Recording>, gap: int)
    ensures AllWellFormed(Groups(rs, gap), gap)
    decreases |rs|
  {
    if |rs| > 0 {
      var p, r := rs[..|rs| - 1], rs[|rs| - 1];
      assert rs == p + [r];
      GroupsWellFormed(p, gap);
      GroupsSnoc(p, r, gap);
      var st := ScanAll(p, gap);
      if IsSpeech(r) {
        if st.open.Some? && r.start - st.open.value.end <= gap {
          ExtendLastWellFormed(st.closed, st.open.value, r, gap);
        } else {
          AllWellFormedAppend(Groups(p, gap), Begin(r), gap);
        }
      }
    }
  }

  lemma MembersOfContains(gs: seq<Group>, i: int, k: int)
    requires 0 <= i < |gs| && 0 <= k < |gs[i].members|
    ensures gs[i].members[k] in MembersOf(gs)
  {
    assert gs == gs[..i] + [gs[i]] + gs[i + 1..];
    MembersOfAppend(gs[..i] + [gs[i]], gs[i + 1..]);
    MembersOfAppend(gs[..i], [gs[i]]);
    assert MembersOf([gs[i]]) == gs[i].members;
  }

  /** A member of a group is a member of the groups. */
  lemma MemberOfGroup(gs: seq<Group>, m: int, j: int, rs: seq<Recording>, gap: int)
    requires MembersOf(gs) == Speech(rs)
    requires 0 <= m < |gs| && 0 <= j < |gs[m].members|
    ensures gs[m].members[j].id in Ids(Speech(rs))
  {
    MembersOfContains(gs, m, j);
    var sp := Speech(rs);
    var k :| 0 <= k < |sp| && sp[k] == gs[m].members[j];
    assert Ids(sp)[k] == sp[k].id;
  }

  /** Every stored block belongs to the station, has members, lasts end minus start seconds
      and at least the minimum, and its chunk ids are ids of speech recordings of the input. */
  lemma SegmentBlocks(station: int, rs: seq<Recording>, gap: int, minDur: int)
    ensures var bs := Segment(station, rs, gap, minDur);
      forall i | 0 <= i < |bs| ::
        && bs[i].streamId == station
        && |bs[i].chunkIds| > 0
        && bs[i].duration == bs[i].end - bs[i].start
        && bs[i].duration >= minDur
        && (forall j | 0 <= j < |bs[i].chunkIds| :: bs[i].chunkIds[j] in Ids(Speech(rs)))
  {
    var gs := Groups(rs, gap);
    var bs := Segment(station, rs, gap, minDur);
    GroupsPartitionSpeech(rs, gap);
    GroupsWellFormed(rs, gap);
    KeepExactly(station, gs, minDur);
    assert FromLongGroups(station, bs, gs, minDur);
    forall i | 0 <= i < |bs|
      ensures |bs[i].chunkIds| > 0
      ensures forall j | 0 <= j < |bs[i].chunkIds| :: bs[i].chunkIds[j] in Ids(Speech(rs))
    {
      var m :| 0 <= m < |gs| && bs[i] == ToBlock(station, gs[m]) && LongEnough(gs[m], minDur);
      assert WellFormedGroup(gs[m], gap);
      forall j | 0 <= j < |bs[i].chunkIds| ensures bs[i].chunkIds[j] in Ids(Speech(rs)) {
        MemberOfGroup(gs, m, j, rs, gap);
      }
    }
  }

  /** With distinct recording ids, a recording that is not speech is never a block member. */
  lemma NonSpeechNeverMember(station: int, rs: seq<Recording>, gap: int, minDur: int, x: int)
    requires forall k, l | 0 <= k < l < |rs| :: rs[k].id != rs[l].id
    requires 0 <= x < |rs| && !IsSpeech(rs[x])
    ensures forall i | 0 <= i < |Segment(station, rs, gap, minDur)| ::
      rs[x].id !in Segment(station, rs, gap, minDur)[i].chunkIds
  {
    SegmentBlocks(station, rs, gap, minDur);
  }

  // ---------------------------------------------------------------------------
  // Where blocks are cut.

  lemma {:induction false} ContinueAppend(st: ScanState, a: seq<Recording>, b: seq<Recording>, gap: int)
    ensures Continue(st, a + b, gap) == Continue(Continue(st, a, gap), b, gap)
    decreases |b|
  {
    if |b| == 0 {
      assert a + b == a;
    } else {
      assert (a + b)[..|a + b| - 1] == a + b[..|b| - 1];
      ContinueAppend(st, a, b[..|b| - 1], gap);
    }
  }

  /** Blocks already closed before the pass continues stay in front of everything it closes later. */
  lemma {:induction false} ContinueShift(done: seq<Group>, closed: seq<Group>, o: Option<Group>, b: seq<Recording>, gap: int)
    ensures Continue(ScanState(done + closed, o), b, gap) ==
      ScanState(done + Continue(ScanState(closed, o), b, gap).closed, Continue(ScanState(closed, o), b, gap).open)
    decreases |b|
  {
    if |b| > 0 {
      ContinueShift(done, closed, o, b[..|b| - 1], gap);
      var s := Continue(ScanState(closed, o), b[..|b| - 1], gap);
      var r := b[|b| - 1];
      assert done + s.closed + Close(s.open) == done + (s.closed + Close(s.open));
      if s.open.Some? {
        assert done + s.closed + [s.open.value] == done + (s.closed + [s.open.value]);
      }
    }
  }

  /** A recording that is not speech cuts the day in two: the blocks are those of the
      recordings before it followed by those of the recordings after it. */
  lemma NonSpeechSplits(a: seq<Recording>, x: Recording, b: seq<Recording>, gap: int)
    requires !IsSpeech(x)
    ensures Groups(a + [x] + b, gap) == Groups(a, gap) + Groups(b, gap)
  {
    var init := ScanState([], None);
    ContinueAppend(init, a + [x], b, gap);
    assert (a + [x])[..|a|] == a;
    assert ScanAll(a + [x], gap) == ScanState(Groups(a, gap), None);
    assert Groups(a, gap) + [] == Groups(a, gap);
    ContinueShift(Groups(a, gap), [], None, b, gap);
  }

  /** A speech recording that starts more than `gap` seconds after the open block's end (or
      finds no open block) begins a new block: the blocks before it are those of the earlier
      recordings alone. */
  lemma GapSplits(a: seq<Recording>, r: Recording, b: seq<Recording>, gap: int)
    requires IsSpeech(r)
    requires ScanAll(a, gap).open.None? || r.start - ScanAll(a, gap).open.value.end > gap
    ensures Groups(a + [r] + b, gap) == Groups(a, gap) + Groups([r] + b, gap)
  {
    var init := ScanState([], None);
    ContinueAppend(init, a + [r], b, gap);
    ContinueAppend(init, [r], b, gap);
    GapStep(a, r, gap);
    assert ScanAll([r], gap) == ScanState([], Some(Begin(r))) by {
      assert [r][..0] == [];
    }
    ContinueShift(Groups(a, gap), [], Some(Begin(r)), b, gap);
    assert Groups(a, gap) + [] == Groups(a, gap);
  }

  /** The recording past the gap closes whatever block was open and opens its own. */
  lemma GapStep(a: seq<Recording>, r: Recording, gap: int)
    requires IsSpeech(r)
    requires ScanAll(a, gap).open.None? || r.start - ScanAll(a, gap).open.value.end > gap
    ensures ScanAll(a + [r], gap) == ScanState(Groups(a, gap), Some(Begin(r)))
  {
    assert (a + [r])[..|a|] == a;
    var st := ScanAll(a, gap);
    assert ScanAll(a + [r], gap) == Step(st, r, gap);
    if st.open.None? {
      assert st.closed + [] == st.closed;
    }
  }

  /** The first block of recordings that begin with a speech recording starts with it. */
  lemma FirstGroupStartsWith(r: Recording, b: seq<Recording>, gap: int)
    requires IsSpeech(r)
    ensures |Groups([r] + b, gap)| > 0 && |Groups([r] + b, gap)[0].members| > 0
    ensures Groups([r] + b, gap)[0].members[0] == r
  {
    GroupsPartitionSpeech([r] + b, gap);
    GroupsWellFormed([r] + b, gap);
    var gs := Groups([r] + b, gap);
    SpeechFirst(r, b);
    assert |gs| > 0;
    MembersOfHead(gs);
    assert WellFormedGroup(gs[0], gap);
  }

  lemma {:induction false} SpeechFirst(r: Recording, b: seq<Recording>)
    requires IsSpeech(r)
    ensures |Speech([r] + b)| > 0 && Speech([r] + b)[0] == r
    decreases |b|
  {
    if |b| == 0 {
      assert [r] + b == [r];
      assert [r][..0] == [];
    } else {
      assert ([r] + b)[..|b|] == [r] + b[..|b| - 1];
      SpeechFirst(r, b[..|b| - 1]);
    }
  }

  // ---------------------------------------------------------------------------
  // Order and composition of the result.

  function RecordingStart(r: Recording): int { r.start }

  function BlockStart(b: SpeechBlock): int { b.start }

  predicate StartsSorted(gs: seq<Group>)
  {
    forall i, j | 0 <= i < j < |gs| :: gs[i].start <= gs[j].start
  }

  predicate StartsAtMost(gs: seq<Group>, x: int)
  {
    forall i | 0 <= i < |gs| :: gs[i].start <= x
  }

  lemma AppendSorted(gs: seq<Group>, g: Group)
    requires StartsSorted(gs) && StartsAtMost(gs, g.start)
    ensures StartsSorted(gs + [g]) && StartsAtMost(gs + [g], g.start)
  {
    var hs := gs + [g];
    forall i, j | 0 <= i < j < |hs| ensures hs[i].start <= hs[j].start {
      assert hs[i] == gs[i];
      if j < |gs| { assert hs[j] == gs[j]; }
    }
  }

  lemma ReplaceLastSorted(gs: seq<Group>, g: Group, x: int)
    requires |gs| > 0 && StartsSorted(gs) && StartsAtMost(gs, x)
    requires g.start == gs[|gs| - 1].start
    ensures StartsSorted(gs[..|gs| - 1] + [g]) && StartsAtMost(gs[..|gs| - 1] + [g], x)
  {
    var hs := gs[..|gs| - 1] + [g];
    assert forall i | 0 <= i < |hs| :: hs[i].start == gs[i].start;
  }

  lemma SortedByPrefix(rs: seq<Recording>)
    requires |rs| > 0 && SortedBy(rs, RecordingStart)
    ensures SortedBy(rs[..|rs| - 1], RecordingStart)
    ensures |rs| > 1 ==> rs[|rs| - 2].start <= rs[|rs| - 1].start
  {
    var p := rs[..|rs| - 1];
    forall i, j | 0 <= i < j < |p| ensures RecordingStart(p[i]) <= RecordingStart(p[j]) {
      assert p[i] == rs[i] && p[j] == rs[j];
    }
    if |rs| > 1 {
      assert RecordingStart(rs[|rs| - 2]) <= RecordingStart(rs[|rs| - 1]);
    }
  }

  lemma StartsAtMostWeaken(gs: seq<Group>, x: int, y: int)
    requires StartsAtMost(gs, x) && x <= y
    ensures StartsAtMost(gs, y)
  {
  }

  /** Over recordings sorted by start, the groups are sorted by start and none starts after
      the last recording. */
  lemma {:induction false} GroupsSorted(rs: seq<Recording>, gap: int)
    requires SortedBy(rs, RecordingStart)
    ensures StartsSorted(Groups(rs, gap))
    ensures |rs| > 0 ==> StartsAtMost(Groups(rs, gap), rs[|rs| - 1].start)
    decreases |rs|
  {
    if |rs| > 0 {
      var p, r := rs[..|rs| - 1], rs[|rs| - 1];
      assert rs == p + [r];
      SortedByPrefix(rs);
      GroupsSorted(p, gap);
      GroupsSnoc(p, r, gap);
      var G := Groups(p, gap);
      if |p| > 0 {
        StartsAtMostWeaken(G, p[|p| - 1].start, r.start);
      }
      assert StartsAtMost(G, r.start);
      var st := ScanAll(p, gap);
      if !IsSpeech(r) {
      } else if st.open.Some? && r.start - st.open.value.end <= gap {
        assert G == st.closed + [st.open.value];
        assert G[..|G| - 1] == st.closed;
        ReplaceLastSorted(G, Extend(st.open.value, r), r.start);
      } else {
        AppendSorted(G, Begin(r));
      }
    }
  }

  lemma {:induction false} KeepSorted(station: int, gs: seq<Group>, minDur: int)
    requires StartsSorted(gs)
    ensures SortedBy(Keep(station, gs, minDur), BlockStart)
    decreases |gs|
  {
    if |gs| > 0 {
      var init, g := gs[..|gs| - 1], gs[|gs| - 1];
      assert StartsSorted(init) by {
        forall i, j | 0 <= i < j < |init| ensures init[i].start <= init[j].start {
          assert init[i] == gs[i] && init[j] == gs[j];
        }
      }
      KeepSorted(station, init, minDur);
      KeepExactly(station, init, minDur);
      var ib := Keep(station, init, minDur);
      assert FromLongGroups(station, ib, init, minDur);
      forall i | 0 <= i < |ib| ensures BlockStart(ib[i]) <= g.start {
        var j :| 0 <= j < |init| && ib[i] == ToBlock(station, init[j]) && LongEnough(init[j], minDur);
        assert init[j] == gs[j];
      }
      if LongEnough(g, minDur) {
        BlocksAppendSorted(ib, ToBlock(station, g));
      }
    }
  }

  lemma BlocksAppendSorted(bs: seq<SpeechBlock>, b: SpeechBlock)
    requires SortedBy(bs, BlockStart)
    requires forall i | 0 <= i < |bs| :: BlockStart(bs[i]) <= b.start
    ensures SortedBy(bs + [b], BlockStart)
  {
    var cs := bs + [b];
    forall i, j | 0 <= i < j < |cs| ensures BlockStart(cs[i]) <= BlockStart(cs[j]) {
      assert cs[i] == bs[i];
      if j < |bs| { assert cs[j] == bs[j]; }
    }
  }

  lemma SegmentSorted(station: int, rs: seq<Recording>, gap: int, minDur: int)
    requires SortedBy(rs, RecordingStart)
    ensures SortedBy(Segment(station, rs, gap, minDur), BlockStart)
  {
    GroupsSorted(rs, gap);
    KeepSorted(station, Groups(rs, gap), minDur);
  }

  lemma {:induction false} KeepConcat(station: int, gs: seq<Group>, hs: seq<Group>, minDur: int)
    ensures Keep(station, gs + hs, minDur) == Keep(station, gs, minDur) + Keep(station, hs, minDur)
    decreases |hs|
  {
    if |hs| == 0 {
      assert gs + hs == gs;
    } else {
      assert (gs + hs)[..|gs + hs| - 1] == gs + hs[..|hs| - 1];
      KeepConcat(station, gs, hs[..|hs| - 1], minDur);
    }
  }

  /** The stored blocks of a day cut by a non-speech recording are the blocks of the part
      before it followed by the blocks of the part after it. */
  lemma SegmentSplitsAtNonSpeech(station: int, a: seq<Recording>, x: Recording, b: seq<Recording>, gap: int, minDur: int)
    requires !IsSpeech(x)
    ensures Segment(station, a + [x] + b, gap, minDur) == Segment(station, a, gap, minDur) + Segment(station, b, gap, minDur)
  {
    NonSpeechSplits(a, x, b, gap);
    KeepConcat(station, Groups(a, gap), Groups(b, gap), minDur);
  }

  /** Every block starts at the start of one of the recordings it was built from. */
  lemma SegmentStartsFromInput(station: int, rs: seq<Recording>, gap: int, minDur: int, lo: int, hi: int)
    requires forall k | 0 <= k < |rs| :: lo <= rs[k].start <= hi
    ensures forall i | 0 <= i < |Segment(station, rs, gap, minDur)| :: lo <= Segment(station, rs, gap, minDur)[i].start <= hi
  {
    var gs := Groups(rs, gap);
    GroupsPartitionSpeech(rs, gap);
    GroupsWellFormed(rs, gap);
    forall m | 0 <= m < |gs| ensures lo <= gs[m].start <= hi {
      GroupStartInRange(gs, m, rs, gap, lo, hi);
    }
    KeepStartsInRange(station, gs, minDur, lo, hi);
  }

  lemma {:induction false} KeepStartsInRange(station: int, gs: seq<Group>, minDur: int, lo: int, hi: int)
    requires forall m | 0 <= m < |gs| :: lo <= gs[m].start <= hi
    ensures forall i | 0 <= i < |Keep(station, gs, minDur)| :: lo <= Keep(station, gs, minDur)[i].start <= hi
    decreases |gs|
  {
    if |gs| > 0 {
      KeepStartsInRange(station, gs[..|gs| - 1], minDur, lo, hi);
    }
  }

  lemma GroupStartInRange(gs: seq<Group>, m: int, rs: seq<Recording>, gap: int, lo: int, hi: int)
    requires 0 <= m < |gs| && AllWellFormed(gs, gap) && MembersOf(gs) == Speech(rs)
    requires forall k | 0 <= k < |rs| :: lo <= rs[k].start <= hi
    ensures lo <= gs[m].start <= hi
  {
    assert WellFormedGroup(gs[m], gap);
    MembersOfContains(gs, m, 0);
    assert gs[m].members[0] in Speech(rs);
  }

  // ---------------------------------------------------------------------------
  // The two cases the service's own tests describe.

  function SpeechAt(id: int, station: int, start: int, duration: int, text: string): Recording
  {
    Recording(id, station, "", start, None, 0, duration, "completed", Some("speech"), Some(text))
  }

  /** Thirty seconds of speech at t and thirty more at t + 35, with a 5-second gap allowance
      and a 20-second minimum, make one 65-second block holding both. */
  lemma AdjacentSpeechMerges(station: int, t: int)
    ensures Segment(station, [SpeechAt(1, station, t, 30, "hello world"), SpeechAt(2, station, t + 35, 30, "second chunk")], 5, 20)
      == [SpeechBlock(station, t, t + 65, 65, [1, 2], "hello world" + "\n" + "second chunk")]
  {
    var r1, r2 := SpeechAt(1, station, t, 30, "hello world"), SpeechAt(2, station, t + 35, 30, "second chunk");
    TwoSpeechRecordingsClose(station, r1, r2, 5, 20);
    AdjacentGroup(station, t, r1, r2);
    KeepOne(station, Extend(Begin(r1), r2), 20);
  }

  lemma AdjacentGroup(station: int, t: int, r1: Recording, r2: Recording)
    requires r1 == SpeechAt(1, station, t, 30, "hello world") && r2 == SpeechAt(2, station, t + 35, 30, "second chunk")
    ensures LongEnough(Extend(Begin(r1), r2), 20)
    ensures ToBlock(station, Extend(Begin(r1), r2)) == SpeechBlock(station, t, t + 65, 65, [1, 2], "hello world" + "\n" + "second chunk")
  {
    var g := Extend(Begin(r1), r2);
    assert g == Group([r1, r2], t, t + 65);
    TwoTexts(r1, r2, "hello world", "second chunk");
  }

  lemma TwoSpeechRecordingsClose(station: int, r: Recording, r': Recording, gap: int, minDur: int)
    requires IsSpeech(r) && IsSpeech(r') && r'.start - EffectiveEnd(r) <= gap
    ensures Segment(station, [r, r'], gap, minDur) == Keep(station, [Extend(Begin(r), r')], minDur)
  {
    assert [r, r'][..1] == [r] && [r][..0] == [];
    assert ScanAll([r], gap) == Step(Continue(ScanState([], None), [], gap), r, gap);
    assert ScanAll([r, r'], gap) == Step(ScanAll([r], gap), r', gap);
    assert Groups([r, r'], gap) == [] + [Extend(Begin(r), r')];
  }

  lemma KeepOne(station: int, g: Group, minDur: int)
    requires LongEnough(g, minDur)
    ensures Keep(station, [g], minDur) == [ToBlock(station, g)]
  {
    assert [g][..0] == [];
  }

  /** Two recordings with non-empty transcripts give the two texts joined by a newline, in
      order, and the two ids in order. */
  lemma TwoTexts(r: Recording, r': Recording, a: string, b: string)
    requires r.transcript == Some(a) && r'.transcript == Some(b) && a != "" && b != ""
    ensures Ids([r, r']) == [r.id, r'.id]
    ensures Join(NonEmpty(Texts([r, r'])), "\n") == a + "\n" + b
  {
    assert Texts([r, r']) == [a, b];
    NonEmptyTwo(a, b);
    JoinTwo(a, b, "\n");
  }

  lemma NonEmptyTwo(a: string, b: string)
    requires a != "" && b != ""
    ensures NonEmpty([a, b]) == [a, b]
  {
    assert [a][..0] == [];
    assert NonEmpty([a]) == [a];
    assert [a, b][..1] == [a];
  }

  lemma JoinTwo(a: string, b: string, sep: string)
    ensures Join([a, b], sep) == a + sep + b
  {
    assert [a, b][1..] == [b];
  }

  /** Speech of 70 s, music, speech of 80 s starting after the music, and speech of 70 s
      starting 100 s after that, with the defaults (5-second gap, 60-second minimum), make
      three single-recording blocks. */
  lemma MusicAndGapSplit(station: int, t: int)
    ensures var rs := [SpeechAt(1, station, t, 70, "segment one"),
                       Recording(2, station, "", t + 120, None, 0, 30, "completed", Some("music"), None),
                       SpeechAt(3, station, t + 180, 80, "segment two"),
                       SpeechAt(4, station, t + 360, 70, "segment three")];
      Segment(station, rs, 5, 60) ==
        [SpeechBlock(station, t, t + 70, 70, [1], "segment one"),
         SpeechBlock(station, t + 180, t + 260, 80, [3], "segment two"),
         SpeechBlock(station, t + 360, t + 430, 70, [4], "segment three")]
  {
    var r1 := SpeechAt(1, station, t, 70, "segment one");
    var m := Recording(2, station, "", t + 120, None, 0, 30, "completed", Some("music"), None);
    var r3 := SpeechAt(3, station, t + 180, 80, "segment two");
    var r4 := SpeechAt(4, station, t + 360, 70, "segment three");
    assert [r1, m, r3, r4] == [r1] + [m] + [r3, r4];
    SegmentSplitsAtNonSpeech(station, [r1], m, [r3, r4], 5, 60);
    BeforeMusic(station, t);
    AfterMusic(station, t);
  }

  lemma BeforeMusic(station: int, t: int)
    ensures Segment(station, [SpeechAt(1, station, t, 70, "segment one")], 5, 60)
      == [SpeechBlock(station, t, t + 70, 70, [1], "segment one")]
  {
    var r1 := SpeechAt(1, station, t, 70, "segment one");
    assert r1.transcript.value != "";
    OneSpeechRecording(station, r1, 5, 60);
    SingleBlock(station, r1, 60);
    assert Keep(station, [Begin(r1)], 60) == [SpeechBlock(station, t, t + 70, 70, [1], "segment one")];
  }

  lemma AfterMusic(station: int, t: int)
    ensures Segment(station, [SpeechAt(3, station, t + 180, 80, "segment two"), SpeechAt(4, station, t + 360, 70, "segment three")], 5, 60)
      == [SpeechBlock(station, t + 180, t + 260, 80, [3], "segment two"),
          SpeechBlock(station, t + 360, t + 430, 70, [4], "segment three")]
  {
    var r3 := SpeechAt(3, station, t + 180, 80, "segment two");
    var r4 := SpeechAt(4, station, t + 360, 70, "segment three");
    TwoSpeechRecordingsApart(station, r3, r4, 5, 60);
    SingleBlock(station, r3, 60);
    SingleBlock(station, r4, 60);
  }

  lemma OneSpeechRecording(station: int, r: Recording, gap: int, minDur: int)
    requires IsSpeech(r)
    ensures Segment(station, [r], gap, minDur) == Keep(station, [Begin(r)], minDur)
  {
    assert [r][..0] == [];
    assert ScanAll([r], gap) == Step(Continue(ScanState([], None), [], gap), r, gap);
  }

  lemma TwoSpeechRecordingsApart(station: int, r: Recording, r': Recording, gap: int, minDur: int)
    requires IsSpeech(r) && IsSpeech(r') && r'.start - EffectiveEnd(r) > gap
    ensures Segment(station, [r, r'], gap, minDur) == Keep(station, [Begin(r)], minDur) + Keep(station, [Begin(r')], minDur)
  {
    assert [r, r'][..1] == [r] && [r][..0] == [];
    assert ScanAll([r], gap) == Step(Continue(ScanState([], None), [], gap), r, gap);
    assert ScanAll([r, r'], gap) == Step(ScanAll([r], gap), r', gap);
    assert Groups([r, r'], gap) == [Begin(r)] + [Begin(r')];
    KeepConcat(station, [Begin(r)], [Begin(r')], minDur);
  }

  lemma SingleBlock(station: int, r: Recording, minDur: int)
    requires r.end.None? && r.duration >= minDur && r.duration > 0 && r.transcript.Some? && r.transcript.value != ""
    ensures Keep(station, [Begin(r)], minDur) ==
      [SpeechBlock(station, r.start, r.start + r.duration, r.duration, [r.id], r.transcript.value)]
  {
    assert [Begin(r)][..0] == [];
    assert Ids([r]) == [r.id];
    assert Texts([r]) == [r.transcript.value];
    assert [r.transcript.value][..0] == [];
    assert NonEmpty([r.transcript.value]) == [r.transcript.value];
    assert EffectiveEnd(r) == r.start + r.duration;
  }

  // ---------------------------------------------------------------------------
  // Rebuilding a day in the store.

  /** A station's recordings that start within a day, as the store selects them. */
  function RecordingsOfDay(rs: seq<Recording>, station: int, day: int): (sel: seq<Recording>)
    ensures forall k | 0 <= k < |sel| :: sel[k] in rs && sel[k].streamId == station && InDay(sel[k].start, day)
    ensures forall r | r in rs && r.streamId == station && InDay(r.start, day) :: r in sel
    decreases |rs|
  {
    if |rs| == 0 then []
    else
      var init := RecordingsOfDay(rs[..|rs| - 1], station, day);
      var r := rs[|rs| - 1];
      assert rs == rs[..|rs| - 1] + [r];
      if r.streamId == station && InDay(r.start, day) then init + [r] else init
  }

  /** The selection keeps each of the station's recordings of the day as often as the table
      holds it, and nothing else. */
  lemma {:induction false} RecordingsOfDayCounts(rs: seq<Recording>, station: int, day: int)
    ensures multiset(RecordingsOfDay(rs, station, day)) <= multiset(rs)
    ensures forall r: Recording | r.streamId == station && InDay(r.start, day) ::
      multiset(RecordingsOfDay(rs, station, day))[r] == multiset(rs)[r]
    decreases |rs|
  {
    if |rs| > 0 {
      var init, r := rs[..|rs| - 1], rs[|rs| - 1];
      RecordingsOfDayCounts(init, station, day);
      assert rs == init + [r];
      assert multiset(rs) == multiset(init) + multiset{r};
    }
  }

  /** The recordings the rebuild reads: the station's recordings of the day, ordered by start. */
  function DayRecordings(rs: seq<Recording>, station: int, day: int): seq<Recording>
  {
    SortBy(RecordingsOfDay(rs, station, day), RecordingStart)
  }

  predicate Replaced(b: SpeechBlock, station: int, day: int) { b.streamId == station && InDay(b.start, day) }

  /** The stored blocks that survive deleting a station's blocks of a day. */
  function RemoveDay(bs: seq<SpeechBlock>, station: int, day: int): (r: seq<SpeechBlock>)
    ensures forall k | 0 <= k < |r| :: r[k] in bs && !Replaced(r[k], station, day)
    ensures forall b | b in bs && !Replaced(b, station, day) :: b in r
    decreases |bs|
  {
    if |bs| == 0 then []
    else
      var init := RemoveDay(bs[..|bs| - 1], station, day);
      var b := bs[|bs| - 1];
      assert bs == bs[..|bs| - 1] + [b];
      if Replaced(b, station, day) then init else init + [b]
  }

  /** The blocks stored after rebuilding a station's day. */
  function Rebuild(bs: seq<SpeechBlock>, rs: seq<Recording>, station: int, day: int, gap: int, minDur: int): seq<SpeechBlock>
  {
    RemoveDay(bs, station, day) + Segment(station, DayRecordings(rs, station, day), gap, minDur)
  }

  lemma {:induction false} RemoveDayConcat(bs: seq<SpeechBlock>, cs: seq<SpeechBlock>, station: int, day: int)
    ensures RemoveDay(bs + cs, station, day) == RemoveDay(bs, station, day) + RemoveDay(cs, station, day)
    decreases |cs|
  {
    if |cs| == 0 {
      assert bs + cs == bs;
    } else {
      assert (bs + cs)[..|bs + cs| - 1] == bs + cs[..|cs| - 1];
      RemoveDayConcat(bs, cs[..|cs| - 1], station, day);
    }
  }

  lemma {:induction false} RemoveDayKeeps(bs: seq<SpeechBlock>, station: int, day: int)
    requires forall k | 0 <= k < |bs| :: !Replaced(bs[k], station, day)
    ensures RemoveDay(bs, station, day) == bs
    decreases |bs|
  {
    if |bs| > 0 {
      RemoveDayKeeps(bs[..|bs| - 1], station, day);
    }
  }

  lemma {:induction false} RemoveDayDrops(bs: seq<SpeechBlock>, station: int, day: int)
    requires forall k | 0 <= k < |bs| :: Replaced(bs[k], station, day)
    ensures RemoveDay(bs, station, day) == []
    decreases |bs|
  {
    if |bs| > 0 {
      RemoveDayDrops(bs[..|bs| - 1], station, day);
    }
  }

  lemma DayRecordingsInDay(rs: seq<Recording>, station: int, day: int)
    ensures var dr := DayRecordings(rs, station, day);
      forall k | 0 <= k < |dr| :: DayBounds(day).0 <= dr[k].start <= DayBounds(day).1
  {
    var sel := RecordingsOfDay(rs, station, day);
    var dr := DayRecordings(rs, station, day);
    forall k | 0 <= k < |dr| ensures DayBounds(day).0 <= dr[k].start <= DayBounds(day).1 {
      assert dr[k] in multiset(dr);
      assert dr[k] in multiset(sel);
      var j :| 0 <= j < |sel| && sel[j] == dr[k];
      assert InDay(sel[j].start, day);
    }
  }

  /** Every block a rebuild creates belongs to the station and starts within the day. */
  lemma RebuiltBlocksReplaced(rs: seq<Recording>, station: int, day: int, gap: int, minDur: int)
    ensures var created := Segment(station, DayRecordings(rs, station, day), gap, minDur);
      forall k | 0 <= k < |created| :: Replaced(created[k], station, day)
  {
    var dr := DayRecordings(rs, station, day);
    var created := Segment(station, dr, gap, minDur);
    DayRecordingsInDay(rs, station, day);
    SegmentStartsFromInput(station, dr, gap, minDur, DayBounds(day).0, DayBounds(day).1);
    SegmentBlocks(station, dr, gap, minDur);
    forall k | 0 <= k < |created| ensures Replaced(created[k], station, day) {
      assert created[k].streamId == station;
      assert InDay(created[k].start, day);
    }
  }

  /** Rebuilding a day twice over the same recordings stores what rebuilding it once does:
      the old blocks of the day are replaced, never duplicated. */
  lemma RebuildIdempotent(bs: seq<SpeechBlock>, rs: seq<Recording>, station: int, day: int, gap: int, minDur: int)
    ensures Rebuild(Rebuild(bs, rs, station, day, gap, minDur), rs, station, day, gap, minDur)
      == Rebuild(bs, rs, station, day, gap, minDur)
  {
    var kept := RemoveDay(bs, station, day);
    var created := Segment(station, DayRecordings(rs, station, day), gap, minDur);
    RemoveDayConcat(kept, created, station, day);
    RemoveDayKeeps(kept, station, day);
    RebuiltBlocksReplaced(rs, station, day, gap, minDur);
    RemoveDayDrops(created, station, day);
    assert kept + [] == kept;
  }

  /** Blocks of other stations or other days are neither removed nor added by a rebuild. */
  lemma RebuildKeepsOthers(bs: seq<SpeechBlock>, rs: seq<Recording>, station: int, day: int, gap: int, minDur: int, b: SpeechBlock)
    requires !Replaced(b, station, day)
    ensures b in Rebuild(bs, rs, station, day, gap, minDur) <==> b in bs
  {
    RebuiltBlocksReplaced(rs, station, day, gap, minDur);
  }

  /** The speech-block table and the recording table it is built from. */
  class SpeechBlockStore {
    var blocks: seq<SpeechBlock>
    var recordings: seq<Recording>

    constructor(blocks: seq<SpeechBlock>, recordings: seq<Recording>)
      ensures this.blocks == blocks && this.recordings == recordings
    {
      this.blocks := blocks;
      this.recordings := recordings;
    }

    /** Deletes the station's blocks of the day, reads its recordings of the day in start
        order, segments them and stores the new blocks, which it also returns. */
    method BuildSpeechBlocks(station: int, day: int, gap: int, minDur: int) returns (created: seq<SpeechBlock>)
      modifies this
      ensures created == Segment(station, DayRecordings(old(recordings), station, day), gap, minDur)
      ensures blocks == Rebuild(old(blocks), old(recordings), station, day, gap, minDur)
      ensures recordings == old(recordings)
    {
      blocks := RemoveDay(blocks, station, day);
      var dayRecordings := DayRecordings(recordings, station, day);
      created := BuildBlocks(station, dayRecordings, gap, minDur);
      blocks := blocks + created;
    }
  }
}

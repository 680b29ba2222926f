/** The recording watcher. Each scan walks the directory of every enabled stream and adds
    a `completed` recording for each finished segment file the table does not hold yet.

    The filesystem, the clock and ffprobe are inputs: a listing per base directory (None
    when the directory does not exist), and for each listed file what os.stat returned,
    the clock reading taken for it and how the probe ended. Segment files are named
    `<prefix>_<YYYYMMDDHHMMSS>.<ext>`. */
module Watcher {
  import opened Common
  import opened Timestamps
  import opened Models
  import FfmpegBuilder

  /** What os.stat reports for a file: its size in bytes and its modification time. */
  datatype FileStat = FileStat(size: int, mtime: int)

  /** How the ffprobe call ended: its exit code and standard output, or an exception. */
  datatype ProbeOutcome = Exited(code: int, stdout: string) | ProbeRaised

  /** One file os.walk lists: its directory, its name, what os.stat gave (None where it
      raised), the clock when the file was examined, and how probing it ends. */
  datatype FileEntry = FileEntry(dir: string, name: string, stat: Option<FileStat>, clock: int, probe: ProbeOutcome)

  /** The recording table's rows and the id the store gives the next row it inserts. */
  datatype Table = Table(rows: seq<Recording>, nextId: int)

  /** A file modified more recently than this many seconds ago may still be written to. */
  const StabilitySeconds: int := 10

  /** The directory a stream's segments are written under. */
  function BaseDir(name: string): string { FfmpegBuilder.RecordingsRoot + name }

  predicate HasAudioExtension(name: string) { EndsWith(name, ".wav") || EndsWith(name, ".mp3") }

  function PathOf(e: FileEntry): string { JoinPath(e.dir, e.name) }

  predicate Known(rows: seq<Recording>, path: string)
  {
    exists k | 0 <= k < |rows| :: rows[k].path == path
  }

  // ---------------------------------------------------------------------------
  // Reading a file's duration and start.

  /** get_duration: the probe's output, stripped and read as a number of seconds, when
      ffprobe exits with 0; 0 when it exits otherwise, raises, or prints something that is
      not a number. `toSeconds` stands for float() (None where float() raises). */
  function Duration(probe: ProbeOutcome, toSeconds: string -> Option<int>): (d: int)
    ensures probe.ProbeRaised? || probe.code != 0 ==> d == 0
  {
    match probe
    case ProbeRaised => 0
    case Exited(code, out) =>
      if code != 0 then 0
      else match toSeconds(Strip(out))
        case None => 0
        case Some(v) => v
  }

  /** Surrounding whitespace in the probe's output does not change the duration. */
  lemma DurationIgnoresPadding(out: string, toSeconds: string -> Option<int>)
    ensures Duration(Exited(0, out), toSeconds) == Duration(Exited(0, Strip(out)), toSeconds)
  {
    StripIdempotent(out);
  }

  /** file.split("_")[1].split(".")[0]: the text after the first '_' up to the next '_' or
      '.'; None where the name has no '_' (the IndexError). */
  function StampText(name: string): Option<string>
  {
    var parts := SplitOn(name, '_');
    if |parts| < 2 then None else Some(SplitOn(parts[1], '.')[0])
  }

  /** The start a file name gives, as seconds since the epoch; None where the name has no
      '_' or strptime rejects the stamp. */
  function ParseStart(name: string): Option<int>
  {
    match StampText(name)
    case None => None
    case Some(stamp) =>
      match Strptime(CompactFormat, stamp)
      case None => None
      case Some(dt) => Some(EpochSeconds(dt))
  }

  /** The prefix before the '_' is not looked at, and neither is the extension: a stamp
      written by the capture process is read back as the start it encodes. */
  lemma ParseStartRoundTrip(prefix: string, dt: DateTime, ext: string)
    requires ValidDateTime(dt) && '_' !in prefix
    ensures ParseStart(prefix + "_" + CompactStamp(dt) + "." + ext) == Some(EpochSeconds(dt))
  {
    var stamp := CompactStamp(dt);
    var name := prefix + "_" + stamp + "." + ext;
    StampHasNoSeparators(stamp);
    assert name == prefix + ['_'] + (stamp + "." + ext);
    SplitOnFirst(prefix, '_', stamp + "." + ext);
    assert SplitOn(name, '_')[1] == SplitOn(stamp + "." + ext, '_')[0];
    assert stamp + "." + ext == (stamp + ".") + ext;
    SplitOnHead(stamp + ".", '_', ext);
    var rest := SplitOn(ext, '_')[0];
    assert stamp + "." + rest == stamp + ['.'] + rest;
    SplitOnFirst(stamp, '.', rest);
    assert StampText(name) == Some(stamp);
    CompactStampRoundTrip(dt);
  }

  lemma StampHasNoSeparators(stamp: string)
    requires AllDigits(stamp)
    ensures '_' !in stamp && '.' !in stamp && '_' !in stamp + "."
  {
  }

  /** The files the capture process writes are read back with the start of their segment. */
  lemma SegmentFileStart(dt: DateTime, fmt: string)
    requires ValidDateTime(dt)
    ensures ParseStart(FfmpegBuilder.SegmentFileName(dt, fmt)) == Some(EpochSeconds(dt))
  {
    ParseStartRoundTrip("chunk", dt, fmt);
    assert "chunk" + "_" + CompactStamp(dt) == "chunk_" + CompactStamp(dt);
  }

  /** A name without '_' gives no start. */
  lemma NoUnderscoreNoStart(name: string)
    requires '_' !in name
    ensures ParseStart(name).None?
  {
    SplitOnAbsent(name, '_');
  }

  /** A stamp that does not begin with a digit gives no start. */
  lemma NonDigitStampRejected(stamp: string)
    requires |stamp| == 0 || !IsDigit(stamp[0])
    ensures Strptime(CompactFormat, stamp).None?
  {
    var f := CompactFormat;
    var alts := YearField.alts;
    if |stamp| > 0 {
      assert !ClassMatches(alts[0][0], stamp[0]);
    }
    assert !AltMatchesAt(alts[0], stamp, 0);
    assert TryAlts(Year, alts, f[1..], stamp, 0) == TryAlts(Year, alts[1..], f[1..], stamp, 0);
    assert MatchFrom(f, stamp, 0).None?;
  }

  // ---------------------------------------------------------------------------
  // One scan, as a specification.

  /** Whether the scan adds a listed file to a table that does not yet hold its path: an
      audio file that could be statted, untouched for at least ten seconds, and whose name
      gives a start. */
  predicate Eligible(e: FileEntry)
  {
    && HasAudioExtension(e.name)
    && e.stat.Some?
    && e.clock - e.stat.value.mtime >= StabilitySeconds
    && ParseStart(e.name).Some?
  }

  /** The row the scan inserts for an eligible file. */
  function NewRecording(id: int, streamId: int, e: FileEntry, toSeconds: string -> Option<int>): Recording
    requires Eligible(e)
  {
    Recording(id, streamId, PathOf(e), ParseStart(e.name).value, None, e.stat.value.size,
              Duration(e.probe, toSeconds), "completed", None, None)
  }

  function ScanFile(t: Table, streamId: int, e: FileEntry, toSeconds: string -> Option<int>): Table
  {
    if Eligible(e) && !Known(t.rows, PathOf(e)) then
      Table(t.rows + [NewRecording(t.nextId, streamId, e, toSeconds)], t.nextId + 1)
    else t
  }

  function ScanEntries(t: Table, streamId: int, es: seq<FileEntry>, toSeconds: string -> Option<int>): Table
    decreases |es|
  {
    if |es| == 0 then t
    else ScanFile(ScanEntries(t, streamId, es[..|es| - 1], toSeconds), streamId, es[|es| - 1], toSeconds)
  }

  /** A disabled stream, or one whose directory does not exist, is not looked at. */
  function ScanStream(t: Table, s: Stream, walk: string -> Option<seq<FileEntry>>, toSeconds: string -> Option<int>): Table
  {
    if !s.enabled then t
    else match walk(BaseDir(s.name))
      case None => t
      case Some(es) => ScanEntries(t, s.id, es, toSeconds)
  }

  function Scan(t: Table, ss: seq<Stream>, walk: string -> Option<seq<FileEntry>>, toSeconds: string -> Option<int>): Table
    decreases |ss|
  {
    if |ss| == 0 then t else ScanStream(Scan(t, ss[..|ss| - 1], walk, toSeconds), ss[|ss| - 1], walk, toSeconds)
  }

  // ---------------------------------------------------------------------------
  // What a scan adds.

  /** The ids of the streams a scan looks at. */
  function ScannedIds(ss: seq<Stream>, walk: string -> Option<seq<FileEntry>>): set<int>
  {
    set i | 0 <= i < |ss| && ss[i].enabled && walk(BaseDir(ss[i].name)).Some? :: ss[i].id
  }

  /** A row as the watcher inserts it: a finished audio file of a scanned stream, not yet
      classified or transcribed, with an id no earlier row had. */
  predicate Discovered(r: Recording, ids: set<int>, lo: int)
  {
    && r.streamId in ids
    && HasAudioExtension(r.path)
    && r.status == "completed"
    && r.end.None? && r.classification.None? && r.transcript.None?
    && r.id >= lo
  }

  /** A table whose ids lie below the next id and whose paths are pairwise different. */
  predicate ValidTable(t: Table)
  {
    && (forall k | 0 <= k < |t.rows| :: t.rows[k].id < t.nextId)
    && (forall i, j | 0 <= i < j < |t.rows| :: t.rows[i].id != t.rows[j].id)
    && (forall i, j | 0 <= i < j < |t.rows| :: t.rows[i].path != t.rows[j].path)
  }

  /** t' extends t with rows discovered for the given streams, with ids from lo on. */
  predicate GrowsFrom(t: Table, t': Table, ids: set<int>, lo: int)
  {
    && |t.rows| <= |t'.rows|
    && t'.rows[..|t.rows|] == t.rows
    && t.nextId <= t'.nextId
    && forall k | |t.rows| <= k < |t'.rows| :: Discovered(t'.rows[k], ids, lo)
  }

  lemma AudioPath(e: FileEntry)
    requires HasAudioExtension(e.name)
    ensures HasAudioExtension(PathOf(e))
  {
    var p := PathOf(e);
    if EndsWith(e.name, ".wav") {
      assert p[|p| - 4..] == e.name[|e.name| - 4..];
    } else {
      assert p[|p| - 4..] == e.name[|e.name| - 4..];
    }
  }

  /** One file keeps the table valid and adds at most a row for it. */
  lemma ScanFileGrows(t: Table, streamId: int, e: FileEntry, toSeconds: string -> Option<int>, ids: set<int>, lo: int)
    requires ValidTable(t) && streamId in ids && lo <= t.nextId
    ensures var t' := ScanFile(t, streamId, e, toSeconds);
      ValidTable(t') && GrowsFrom(t, t', ids, lo)
  {
    var t' := ScanFile(t, streamId, e, toSeconds);
    if Eligible(e) && !Known(t.rows, PathOf(e)) {
      var r := NewRecording(t.nextId, streamId, e, toSeconds);
      assert t' == Table(t.rows + [r], t.nextId + 1);
      NewRecordingDiscovered(t.nextId, streamId, e, toSeconds, ids, lo);
      AppendValid(t, r);
      AppendGrows(t, r, ids, lo);
    } else {
      assert t' == t;
      assert t.rows[..|t.rows|] == t.rows;
    }
  }

  lemma NewRecordingDiscovered(id: int, streamId: int, e: FileEntry, toSeconds: string -> Option<int>, ids: set<int>, lo: int)
    requires Eligible(e) && streamId in ids && lo <= id
    ensures var r := NewRecording(id, streamId, e, toSeconds);
      Discovered(r, ids, lo) && r.id == id && r.path == PathOf(e)
  {
    AudioPath(e);
  }

  lemma AppendGrows(t: Table, r: Recording, ids: set<int>, lo: int)
    requires Discovered(r, ids, lo)
    ensures GrowsFrom(t, Table(t.rows + [r], t.nextId + 1), ids, lo)
  {
    assert (t.rows + [r])[..|t.rows|] == t.rows;
  }

  lemma AppendValid(t: Table, r: Recording)
    requires ValidTable(t) && r.id == t.nextId && !Known(t.rows, r.path)
    ensures ValidTable(Table(t.rows + [r], t.nextId + 1))
  {
    var rows := t.rows + [r];
    forall i, j | 0 <= i < j < |rows| ensures rows[i].path != rows[j].path && rows[i].id != rows[j].id {
      assert rows[i] == t.rows[i];
      if j == |t.rows| {
        assert rows[j] == r;
      } else {
        assert rows[j] == t.rows[j];
      }
    }
    forall k | 0 <= k < |rows| ensures rows[k].id < t.nextId + 1 {
      if k < |t.rows| {
        assert rows[k] == t.rows[k];
      }
    }
  }

  lemma GrowsFromTrans(t0: Table, t1: Table, t2: Table, ids: set<int>, lo: int)
    requires GrowsFrom(t0, t1, ids, lo) && GrowsFrom(t1, t2, ids, lo)
    ensures GrowsFrom(t0, t2, ids, lo)
  {
    assert t2.rows[..|t0.rows|] == t2.rows[..|t1.rows|][..|t0.rows|];
    forall k | |t0.rows| <= k < |t2.rows| ensures Discovered(t2.rows[k], ids, lo) {
      if k < |t1.rows| {
        assert t2.rows[k] == t2.rows[..|t1.rows|][k];
      }
    }
  }

  lemma {:induction false} ScanEntriesGrows(t: Table, streamId: int, es: seq<FileEntry>, toSeconds: string -> Option<int>, ids: set<int>)
    requires ValidTable(t) && streamId in ids
    ensures var t' := ScanEntries(t, streamId, es, toSeconds);
      ValidTable(t') && GrowsFrom(t, t', ids, t.nextId)
    decreases |es|
  {
    if |es| > 0 {
      var mid := ScanEntries(t, streamId, es[..|es| - 1], toSeconds);
      ScanEntriesGrows(t, streamId, es[..|es| - 1], toSeconds, ids);
      ScanFileGrows(mid, streamId, es[|es| - 1], toSeconds, ids, t.nextId);
      GrowsFromTrans(t, mid, ScanEntries(t, streamId, es, toSeconds), ids, t.nextId);
    }
  }

  lemma ScannedIdsPrefix(ss: seq<Stream>, n: nat, walk: string -> Option<seq<FileEntry>>)
    requires n <= |ss|
    ensures ScannedIds(ss[..n], walk) <= ScannedIds(ss, walk)
  {
    forall x | x in ScannedIds(ss[..n], walk) ensures x in ScannedIds(ss, walk) {
      var i :| 0 <= i < n && ss[..n][i].enabled && walk(BaseDir(ss[..n][i].name)).Some? && ss[..n][i].id == x;
      assert ss[i] == ss[..n][i];
    }
  }

  lemma GrowsFromWiden(t: Table, t': Table, ids: set<int>, ids': set<int>, lo: int)
    requires GrowsFrom(t, t', ids, lo) && ids <= ids'
    ensures GrowsFrom(t, t', ids', lo)
  {
  }

  /** A scan keeps every row, keeps the table valid (ids below the next id, no path twice),
      and only appends rows discovered for the streams it looks at. */
  lemma {:induction false} ScanGrows(t: Table, ss: seq<Stream>, walk: string -> Option<seq<FileEntry>>, toSeconds: string -> Option<int>)
    requires ValidTable(t)
    ensures var t' := Scan(t, ss, walk, toSeconds);
      ValidTable(t') && GrowsFrom(t, t', ScannedIds(ss, walk), t.nextId)
    decreases |ss|
  {
    if |ss| > 0 {
      var ids := ScannedIds(ss, walk);
      var init := ss[..|ss| - 1];
      var s := ss[|ss| - 1];
      var mid := Scan(t, init, walk, toSeconds);
      ScanGrows(t, init, walk, toSeconds);
      ScannedIdsPrefix(ss, |ss| - 1, walk);
      assert init == ss[..|ss| - 1];
      GrowsFromWiden(t, mid, ScannedIds(init, walk), ids, t.nextId);
      var t' := Scan(t, ss, walk, toSeconds);
      if s.enabled && walk(BaseDir(s.name)).Some? {
        assert s.id in ids;
        ScanEntriesGrows(mid, s.id, walk(BaseDir(s.name)).value, toSeconds, ids);
        GrowsFromTrans(t, mid, t', ids, t.nextId);
      } else {
        assert t' == mid;
      }
    }
  }

  // ---------------------------------------------------------------------------
  // A file that is skipped is skipped alone, and a fresh file is added later.

  lemma {:induction false} ScanEntriesConcat(t: Table, streamId: int, a: seq<FileEntry>, b: seq<FileEntry>, toSeconds: string -> Option<int>)
    ensures ScanEntries(t, streamId, a + b, toSeconds) == ScanEntries(ScanEntries(t, streamId, a, toSeconds), streamId, b, toSeconds)
    decreases |b|
  {
    if |b| == 0 {
      assert a + b == a;
    } else {
      assert (a + b)[..|a + b| - 1] == a + b[..|b| - 1];
      ScanEntriesConcat(t, streamId, a, b[..|b| - 1], toSeconds);
    }
  }

  /** A file the scan cannot add (wrong extension, stat failed, too fresh, or a name that
      gives no start) changes nothing: the files around it are handled as if it were not
      listed. */
  lemma SkippedFileAlone(t: Table, streamId: int, a: seq<FileEntry>, e: FileEntry, b: seq<FileEntry>, toSeconds: string -> Option<int>)
    requires !Eligible(e)
    ensures ScanEntries(t, streamId, a + [e] + b, toSeconds) == ScanEntries(t, streamId, a + b, toSeconds)
  {
    ScanEntriesConcat(t, streamId, a + [e], b, toSeconds);
    ScanEntriesConcat(t, streamId, a, b, toSeconds);
    assert (a + [e])[..|a|] == a;
  }

  /** A file modified less than ten seconds before it is examined is left for a later
      scan, which adds it once it has been left alone long enough. */
  lemma FreshFileWaits(t: Table, streamId: int, e: FileEntry, later: int, toSeconds: string -> Option<int>)
    requires HasAudioExtension(e.name) && e.stat.Some? && ParseStart(e.name).Some? && !Known(t.rows, PathOf(e))
    requires e.clock - e.stat.value.mtime < StabilitySeconds <= later - e.stat.value.mtime
    ensures ScanFile(t, streamId, e, toSeconds) == t
    ensures ScanFile(t, streamId, e.(clock := later), toSeconds).rows
      == t.rows + [NewRecording(t.nextId, streamId, e.(clock := later), toSeconds)]
  {
  }

  /** A file whose path the table already holds is never added again. */
  lemma KnownFileSkipped(t: Table, streamId: int, e: FileEntry, toSeconds: string -> Option<int>)
    requires Known(t.rows, PathOf(e))
    ensures ScanFile(t, streamId, e, toSeconds) == t
  {
  }

  // ---------------------------------------------------------------------------
  // Scanning again finds nothing new.

  /** After a scan, an eligible file's path is in the table. */
  predicate Settled(rows: seq<Recording>, e: FileEntry)
  {
    Eligible(e) ==> Known(rows, PathOf(e))
  }

  predicate StreamSettled(rows: seq<Recording>, s: Stream, walk: string -> Option<seq<FileEntry>>)
  {
    s.enabled && walk(BaseDir(s.name)).Some? ==>
      forall j | 0 <= j < |walk(BaseDir(s.name)).value| :: Settled(rows, walk(BaseDir(s.name)).value[j])
  }

  predicate AllSettled(rows: seq<Recording>, ss: seq<Stream>, walk: string -> Option<seq<FileEntry>>)
  {
    forall i | 0 <= i < |ss| :: StreamSettled(rows, ss[i], walk)
  }

  lemma KnownGrows(rows: seq<Recording>, rows': seq<Recording>, p: string)
    requires |rows| <= |rows'| && rows'[..|rows|] == rows && Known(rows, p)
    ensures Known(rows', p)
  {
    var k :| 0 <= k < |rows| && rows[k].path == p;
    assert rows'[k] == rows'[..|rows|][k];
  }

  lemma SettledGrows(rows: seq<Recording>, rows': seq<Recording>, e: FileEntry)
    requires |rows| <= |rows'| && rows'[..|rows|] == rows && Settled(rows, e)
    ensures Settled(rows', e)
  {
    if Eligible(e) {
      KnownGrows(rows, rows', PathOf(e));
    }
  }

  lemma ScanFileSettles(t: Table, streamId: int, e: FileEntry, toSeconds: string -> Option<int>)
    ensures var t' := ScanFile(t, streamId, e, toSeconds);
      Settled(t'.rows, e) && |t.rows| <= |t'.rows| && t'.rows[..|t.rows|] == t.rows
  {
    var t' := ScanFile(t, streamId, e, toSeconds);
    if Eligible(e) && !Known(t.rows, PathOf(e)) {
      assert t'.rows[|t.rows|].path == PathOf(e);
    }
    assert t'.rows[..|t.rows|] == t.rows;
  }

  /** Every file a stream's scan went over is settled afterwards. */
  lemma {:induction false} ScanEntriesSettles(t: Table, streamId: int, es: seq<FileEntry>, toSeconds: string -> Option<int>)
    ensures var t' := ScanEntries(t, streamId, es, toSeconds);
      && |t.rows| <= |t'.rows| && t'.rows[..|t.rows|] == t.rows
      && forall j | 0 <= j < |es| :: Settled(t'.rows, es[j])
    decreases |es|
  {
    if |es| > 0 {
      var init := es[..|es| - 1];
      var mid := ScanEntries(t, streamId, init, toSeconds);
      var t' := ScanEntries(t, streamId, es, toSeconds);
      ScanEntriesSettles(t, streamId, init, toSeconds);
      ScanFileSettles(mid, streamId, es[|es| - 1], toSeconds);
      assert t'.rows[..|t.rows|] == t'.rows[..|mid.rows|][..|t.rows|];
      forall j | 0 <= j < |es| ensures Settled(t'.rows, es[j]) {
        if j < |es| - 1 {
          assert es[j] == init[j];
          SettledGrows(mid.rows, t'.rows, es[j]);
        }
      }
    }
  }

  /** Files that are all settled add nothing. */
  lemma {:induction false} SettledEntriesUnchanged(t: Table, streamId: int, es: seq<FileEntry>, toSeconds: string -> Option<int>)
    requires forall j | 0 <= j < |es| :: Settled(t.rows, es[j])
    ensures ScanEntries(t, streamId, es, toSeconds) == t
    decreases |es|
  {
    if |es| > 0 {
      var init := es[..|es| - 1];
      assert forall j | 0 <= j < |init| :: init[j] == es[j];
      SettledEntriesUnchanged(t, streamId, init, toSeconds);
      assert Settled(t.rows, es[|es| - 1]);
    }
  }

  lemma StreamSettledGrows(rows: seq<Recording>, rows': seq<Recording>, s: Stream, walk: string -> Option<seq<FileEntry>>)
    requires |rows| <= |rows'| && rows'[..|rows|] == rows && StreamSettled(rows, s, walk)
    ensures StreamSettled(rows', s, walk)
  {
    if s.enabled && walk(BaseDir(s.name)).Some? {
      var es := walk(BaseDir(s.name)).value;
      forall j | 0 <= j < |es| ensures Settled(rows', es[j]) {
        SettledGrows(rows, rows', es[j]);
      }
    }
  }

  lemma ScanStreamSettles(t: Table, s: Stream, walk: string -> Option<seq<FileEntry>>, toSeconds: string -> Option<int>)
    ensures var t' := ScanStream(t, s, walk, toSeconds);
      && |t.rows| <= |t'.rows| && t'.rows[..|t.rows|] == t.rows
      && StreamSettled(t'.rows, s, walk)
  {
    if s.enabled && walk(BaseDir(s.name)).Some? {
      ScanEntriesSettles(t, s.id, walk(BaseDir(s.name)).value, toSeconds);
    }
  }

  /** After a scan, every file of every stream it looked at is settled. */
  lemma {:induction false} ScanSettles(t: Table, ss: seq<Stream>, walk: string -> Option<seq<FileEntry>>, toSeconds: string -> Option<int>)
    ensures var t' := Scan(t, ss, walk, toSeconds);
      && |t.rows| <= |t'.rows| && t'.rows[..|t.rows|] == t.rows
      && AllSettled(t'.rows, ss, walk)
    decreases |ss|
  {
    if |ss| > 0 {
      var init := ss[..|ss| - 1];
      var mid := Scan(t, init, walk, toSeconds);
      var t' := Scan(t, ss, walk, toSeconds);
      ScanSettles(t, init, walk, toSeconds);
      ScanStreamSettles(mid, ss[|ss| - 1], walk, toSeconds);
      assert t'.rows[..|t.rows|] == t'.rows[..|mid.rows|][..|t.rows|];
      forall i | 0 <= i < |ss| ensures StreamSettled(t'.rows, ss[i], walk) {
        if i < |ss| - 1 {
          assert ss[i] == init[i];
          StreamSettledGrows(mid.rows, t'.rows, ss[i], walk);
        }
      }
    }
  }

  lemma {:induction false} SettledScanUnchanged(t: Table, ss: seq<Stream>, walk: string -> Option<seq<FileEntry>>, toSeconds: string -> Option<int>)
    requires AllSettled(t.rows, ss, walk)
    ensures Scan(t, ss, walk, toSeconds) == t
    decreases |ss|
  {
    if |ss| > 0 {
      var init := ss[..|ss| - 1];
      var s := ss[|ss| - 1];
      assert forall i | 0 <= i < |init| :: init[i] == ss[i];
      SettledScanUnchanged(t, init, walk, toSeconds);
      assert StreamSettled(t.rows, s, walk);
      if s.enabled && walk(BaseDir(s.name)).Some? {
        SettledEntriesUnchanged(t, s.id, walk(BaseDir(s.name)).value, toSeconds);
      }
    }
  }

  /** Scanning the same listing again adds nothing: no path is inserted twice. */
  lemma RescanAddsNothing(t: Table, ss: seq<Stream>, walk: string -> Option<seq<FileEntry>>, toSeconds: string -> Option<int>)
    ensures Scan(Scan(t, ss, walk, toSeconds), ss, walk, toSeconds) == Scan(t, ss, walk, toSeconds)
  {
    ScanSettles(t, ss, walk, toSeconds);
    SettledScanUnchanged(Scan(t, ss, walk, toSeconds), ss, walk, toSeconds);
  }

  // ---------------------------------------------------------------------------
  // The store and the watcher.

  /** The recording table as the store holds it. */
  class RecordingStore {
    var rows: seq<Recording>
    var nextId: int

    function State(): Table
      reads this
    {
      Table(rows, nextId)
    }

    constructor(rows: seq<Recording>, nextId: int)
      ensures State() == Table(rows, nextId)
    {
      this.rows := rows;
      this.nextId := nextId;
    }

    /** session.add and commit: the row is stored under the next id. */
    method Add(r: Recording) returns (id: int)
      modifies this
      ensures id == old(nextId)
      ensures rows == old(rows) + [r.(id := id)] && nextId == old(nextId) + 1
    {
      id := nextId;
      rows := rows + [r.(id := id)];
      nextId := nextId + 1;
    }
  }

  class RecordingWatcher {
    var running: bool

    constructor()
      ensures !running
    {
      running := false;
    }

    /** Marks the watcher running; the periodic loop that calls ScanFiles is not modelled. */
    method Start()
      modifies this
      ensures running
    {
      running := true;
    }

    /** One scan over the stream table, in table order, each stream's files in listing
        order. */
    method ScanFiles(store: RecordingStore, streams: seq<Stream>, walk: string -> Option<seq<FileEntry>>,
                     toSeconds: string -> Option<int>)
      modifies store
      ensures store.State() == Scan(old(store.State()), streams, walk, toSeconds)
    {
      var i := 0;
      while i < |streams|
        invariant 0 <= i <= |streams|
        invariant store.State() == Scan(old(store.State()), streams[..i], walk, toSeconds)
      {
        var stream := streams[i];
        assert streams[..i + 1][..i] == streams[..i] && streams[..i + 1][i] == stream;
        ghost var before := store.State();
        if stream.enabled {
          var listing := walk(BaseDir(stream.name));
          if listing.Some? {
            var files := listing.value;
            var j := 0;
            while j < |files|
              invariant 0 <= j <= |files|
              invariant store.State() == ScanEntries(before, stream.id, files[..j], toSeconds)
            {
              assert files[..j + 1][..j] == files[..j] && files[..j + 1][j] == files[j];
              ScanFileStep(store, stream.id, files[j], toSeconds);
              j := j + 1;
            }
            assert files[..j] == files;
          }
        }
        i := i + 1;
      }
      assert streams[..i] == streams;
    }
  }

  /** The per-file body of the scan, in the order the checks are made. */
  method ScanFileStep(store: RecordingStore, streamId: int, e: FileEntry, toSeconds: string -> Option<int>)
    modifies store
    ensures store.State() == ScanFile(old(store.State()), streamId, e, toSeconds)
  {
    if !HasAudioExtension(e.name) {
      return;
    }
    var path := JoinPath(e.dir, e.name);
    if Known(store.rows, path) {
      return;
    }
    match e.stat
    case None =>
    case Some(info) =>
      if e.clock - info.mtime < StabilitySeconds {
        return;
      }
      var duration := Duration(e.probe, toSeconds);
      var start := ParseStart(e.name);
      if start.Some? {
        var rec := Recording(0, streamId, path, start.value, None, info.size, duration, "completed", None, None);
        var _ := store.Add(rec);
      }
  }
}

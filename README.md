# radio_capture, modelled in Dafny

radio_capture records internet radio streams. It runs one ffmpeg capture process per
enabled stream. That process writes hourly segment files under
`/data/recordings/<name>/<year>/<month>/<day>/`. A watcher registers each finished segment
as a recording. A segmenter groups a day's speech recordings into speech blocks. A small
HTTP API exposes the blocks, the users and statistics. A daily job asks a language model to
summarise each station's transcripts and posts the result to a Telegram channel.

This project models the decision logic of that system. The filesystem, subprocesses,
the clock, the database session, the language model, the JSON serialiser and Telegram do
not appear as such: they become parameters (listings, function-valued oracles, integer
timestamps) or plain values. Times are whole seconds since the epoch; a day is an integer
day number (`Timestamps.DayOf`).

Modules, one per source file, plus shared helpers:

- `SpeechBlocks` (speech_blocks.dfy): the segmenter as a specification fold (`Segment`)
  and as the service's single pass (`BuildBlocks`). The store class
  `SpeechBlockStore` deletes a station's blocks of a day and stores the rebuilt ones.
- `SpeechBlocksApi` (speech_blocks_api.dfy): the rebuild and list handlers.
- `FfmpegBuilder` (ffmpeg_builder.dfy): the `Builder` class and its argument vector.
  It also models strftime over the output template.
- `Watcher` (watcher.dfy): the per-file decision of a scan and the filename parse. It
  contains the `RecordingStore` and `RecordingWatcher` classes.
- `StreamManager` (stream_manager.dfy): the `Manager` class over the process table.
  Specification functions cover one reconcile pass, start, stop, failure and shutdown, plus
  the day directories.
- `LoggingConfig` (logging_config.dfy): setup idempotence per name, handler choice, the
  file-name sanitiser and logger naming. The `LoggingState` class holds the registry.
- `Stats` (stats.dfy): `get_stats` and the post-query part of `get_detailed_stats`.
- `Users` (users.dfy): the user table with create, read, update and delete. The
  `UserStore` class holds the table.
- `DailySummary` (daily_summary.dfy): the intro table, the prompt, the station loop and the
  final message.
- `RunSummaries` (run_summaries.dfy): configuration loading, the required fields, the
  child's argument vector, the tally and the exit code.
- Shared helpers:
  - `Common` (common.dfy): Option/Result, integer rendering, join/split/strip.
  - `Sorting` (sorting.dfy): a sort by key.
  - `Timestamps` (timestamps.dfy): calendar arithmetic and a model of Python's
    `strptime` for `%Y%m%d%H%M%S` and `%Y-%m-%d`.
  - `Models` (models.dfy): the stream, event, recording and speech-block rows.

## Model

| member | source | states |
|---|---|---|
| SpeechBlocks.EffectiveEnd | app/services/speech_blocks.py:10-18 | a recording ends at its stored end, else at start plus a positive duration, else at its start |
| SpeechBlocks.DayBounds | app/services/speech_blocks.py:21-24 | the bounds run from midnight to the last second of the same date: a time lies within them iff it falls on that day |
| SpeechBlocks.Finalize | app/services/speech_blocks.py:72-94 | closing yields no block without members or shorter than the minimum, else one block with exactly the collected ids, the station, the group's start and end, duration = end − start ≥ minimum, and as text the non-empty transcripts joined by newlines |
| SpeechBlocks.KeepExactly | app/services/speech_blocks.py:77-80 | a block is kept iff its group lasts at least the minimum: every kept block comes from a long-enough group and every long-enough group is kept |
| SpeechBlocks.BuildBlocks | app/services/speech_blocks.py:96-122 | the imperative pass with its open-block variables returns exactly the specification's blocks (`Segment`) |
| SpeechBlocks.GroupsPartitionSpeech | app/services/speech_blocks.py:98-120 | the members of the groups, concatenated in order, are exactly the speech recordings in encounter order |
| SpeechBlocks.GroupsWellFormed | app/services/speech_blocks.py:102-120 | every group is non-empty, starts at its first member's start, ends at the latest member end, and each member starts within `gap` of the end so far |
| SpeechBlocks.Speech | app/services/speech_blocks.py:98-100 | only speech recordings of the input are kept, never more of them than the input holds |
| SpeechBlocks.ExtendWellFormed | app/services/speech_blocks.py:109-114 | appending a speech recording that starts within `gap` of the open block's end keeps the group well formed |
| SpeechBlocks.SegmentBlocks | app/services/speech_blocks.py:74-92 | every block belongs to the station, has member ids that are ids of speech recordings, and duration = end − start ≥ minimum |
| SpeechBlocks.NonSpeechNeverMember | app/services/speech_blocks.py:98-100 | with distinct ids, a non-speech recording's id is in no block |
| SpeechBlocks.NonSpeechSplits | app/services/speech_blocks.py:98-100 | a non-speech recording closes the open block: the groups are those before it followed by those after it |
| SpeechBlocks.SegmentSplitsAtNonSpeech | app/services/speech_blocks.py:98-100 | the stored blocks of a day cut by a non-speech recording are the blocks before it followed by the blocks after it |
| SpeechBlocks.GapSplits | app/services/speech_blocks.py:115-120 | a speech recording more than `gap` after the open block's end closes it and starts a new group |
| SpeechBlocks.GapStep | app/services/speech_blocks.py:115-120 | after such a recording the open group holds only it, and the earlier groups are closed |
| SpeechBlocks.FirstGroupStartsWith | app/services/speech_blocks.py:102-107 | a day that begins with speech has a first group whose first member is that recording |
| SpeechBlocks.TwoSpeechRecordingsClose | app/services/speech_blocks.py:109-114 | two speech recordings within `gap` form one group, the second appended to the first |
| SpeechBlocks.TwoSpeechRecordingsApart | app/services/speech_blocks.py:115-120 | two speech recordings more than `gap` apart form two groups |
| SpeechBlocks.GroupsSorted | app/services/speech_blocks.py:57-65 | over recordings sorted by start, the groups are sorted by start |
| SpeechBlocks.SegmentSorted | app/services/speech_blocks.py:57-65 | over recordings sorted by start, the blocks come in non-decreasing start order |
| SpeechBlocks.SegmentStartsFromInput | app/services/speech_blocks.py:103 | every block starts within any interval that holds all recording starts |
| SpeechBlocks.AdjacentSpeechMerges | tests/test_speech_blocks.py:40-58 | 30 s of speech at t and 30 s at t+35 (gap 5, minimum 20) make one 65 s block with ids [1, 2] and both texts joined by a newline |
| SpeechBlocks.MusicAndGapSplit | tests/test_speech_blocks.py:60-77 | speech 70 s, music, speech 80 s, and speech 70 s after a long gap give three single-recording blocks |
| SpeechBlocks.SingleBlock | app/services/speech_blocks.py:82-90 | a lone long-enough speech recording gives a block with its id, its start/end/duration and its transcript as text |
| SpeechBlocks.TwoTexts | app/services/speech_blocks.py:82 | for any two recordings with non-empty transcripts a and b, the block text is a, a newline, then b, and the ids are in encounter order |
| SpeechBlocks.NonEmptyConcat | app/services/speech_blocks.py:82 | the filter of a concatenation is the concatenation of the filters, and a single text is kept iff it is non-empty: the kept texts are the non-empty ones in encounter order |
| SpeechBlocks.BeginText | app/services/speech_blocks.py:102-107 | a newly opened block's text is its first recording's transcript, empty when it has none |
| SpeechBlocks.ExtendText | app/services/speech_blocks.py:109-114 | appending a recording leaves the text as it was for an empty transcript, and otherwise appends the transcript after a newline (without one when no text was collected yet) |
| SpeechBlocks.NonEmpty | app/services/speech_blocks.py:82 | every kept text is non-empty and from the input, and every non-empty input text is kept |
| SpeechBlocks.SpeechBlockStore.constructor | app/services/speech_blocks.py:27-32 | the store holds the given block and recording tables |
| SpeechBlocks.RecordingsOfDay | app/services/speech_blocks.py:57-65 | every selected recording is the station's and starts within the day, and every such recording is selected |
| SpeechBlocks.RecordingsOfDayCounts | app/services/speech_blocks.py:57-65 | the selection is a sub-multiset of the table holding every recording of the station's day exactly as often as the table does |
| SpeechBlocks.RemoveDay | app/services/speech_blocks.py:46-54 | the delete keeps exactly the blocks that are not the station's blocks of that day |
| SpeechBlocks.RebuiltBlocksReplaced | app/services/speech_blocks.py:44-65 | every block a rebuild creates belongs to the station and starts within the day, so a later rebuild deletes it |
| SpeechBlocks.RebuildIdempotent | app/services/speech_blocks.py:34-36 | rebuilding a day twice over the same recordings stores what rebuilding it once does, with no duplicates |
| SpeechBlocks.RebuildKeepsOthers | app/services/speech_blocks.py:47-53 | blocks of other stations or other days are neither removed nor added by a rebuild |
| SpeechBlocks.SpeechBlockStore.BuildSpeechBlocks | app/services/speech_blocks.py:27-127 | returns the day's blocks; the table becomes the old table minus the day's blocks plus the new ones; recordings are unchanged |
| SpeechBlocksApi.RebuildSpeechBlocks | app/api/speech_blocks.py:26-49 | 404 iff the station is unknown, and then nothing is rebuilt; otherwise the table is the rebuilt one |
| SpeechBlocksApi.RebuildSummaryCounts | app/api/speech_blocks.py:37-48 | `blocks_created` is the number of created blocks; `total_speech_minutes` is the floor of their total seconds over 60, and at least `blocks_created` |
| SpeechBlocksApi.TotalDurationAtLeast | app/api/speech_blocks.py:43 | blocks each lasting at least m seconds last at least m times their number in total |
| SpeechBlocksApi.BlocksOfDayCounts | app/api/speech_blocks.py:63-72 | the selection keeps every block of the station's day as often as the table holds it, and nothing else |
| SpeechBlocksApi.ListSpeechBlocks | app/api/speech_blocks.py:52-73 | 404 iff the station is unknown; otherwise a sub-multiset of the table, sorted by start, holding every block of the station within the day bounds exactly as often as the table does |
| SpeechBlocksApi.ListAfterRebuild | app/api/speech_blocks.py:16-19 | the API's day bounds agree with the service's: listing a day right after rebuilding it returns exactly the created blocks |
| FfmpegBuilder.Builder.constructor | app/services/ffmpeg_builder.py:6-22 | the builder holds the url, name and parameter maps of the configuration |
| FfmpegBuilder.Builder.BuildCommand | app/services/ffmpeg_builder.py:24-130 | fails with "Stream URL and Name are required" iff url or name is missing or empty; otherwise returns the vector grown step by step, equal to `Command` |
| FfmpegBuilder.InputLayout | app/services/ffmpeg_builder.py:30-62 | the vector opens with ffmpeg -nostdin -y -loglevel info -i url -map 0:a -segment_format fmt, then -c:a codec, then -b:a only for a non-empty bitrate, then -ac/-ar (defaults 1, 16000) only when the codec is not copy |
| FfmpegBuilder.OutputLayout | app/services/ffmpeg_builder.py:65-105 | after the input part come -f segment, -segment_time (default 3600), -strftime 1, -reset_timestamps 1, then the tokenised extra flags |
| FfmpegBuilder.CommandSplit | app/services/ffmpeg_builder.py:127-130 | the vector is the input part followed by the output part, whose last element is the output template, so flags never follow it |
| FfmpegBuilder.OutputPatternExpands | app/services/ffmpeg_builder.py:127 | for a name and format without '%', the template expands to `/data/recordings/<name>/<YYYY/MM/DD>/chunk_<YYYYMMDDHHMMSS>.<fmt>` |
| FfmpegBuilder.CompactTemplate | app/services/ffmpeg_builder.py:127 | the file part of the template expands to the compact start stamp and the format |
| FfmpegBuilder.DateTemplate | app/services/ffmpeg_builder.py:127 | the `%Y/%m/%d/` part of the template expands to the year, month and day directories |
| FfmpegBuilder.DayDirHoldsSegments | app/services/ffmpeg_builder.py:127 | the day directory is the directory the template puts that day's segment files in |
| Watcher.Duration | app/services/watcher.py:91-105 | a probe that raises or exits non-zero gives 0 and does not skip the file |
| Watcher.DurationIgnoresPadding | app/services/watcher.py:102 | surrounding whitespace in the probe output does not change the duration |
| Watcher.ParseStartRoundTrip | app/services/watcher.py:74-75 | the prefix and the extension are not checked: `<prefix>_<stamp>.<ext>` reads back as the stamp's time |
| Watcher.SegmentFileStart | app/services/watcher.py:73-75 | the segment files the capture process writes are read back with their start |
| Watcher.NoUnderscoreNoStart | app/services/watcher.py:74 | a name without '_' gives no start |
| Watcher.NonDigitStampRejected | app/services/watcher.py:75 | a stamp that does not begin with a digit is rejected by strptime |
| Watcher.SkippedFileAlone | app/services/watcher.py:50-89 | a file that is not added (extension, stat failure, too fresh, unparsable name) changes nothing, and the scan of the other files goes on as without it |
| Watcher.FreshFileWaits | app/services/watcher.py:66-68 | a file modified less than 10 s before it is examined is skipped, and is added by a later scan when it has settled |
| Watcher.KnownFileSkipped | app/services/watcher.py:57-59 | a file whose path the table holds is not added again |
| Watcher.ScanGrows | app/services/watcher.py:31-89 | a scan keeps every row and keeps the table valid (no path twice, distinct ids); each new row is a completed audio recording of an enabled stream with an existing directory |
| Watcher.ScanFileGrows | app/services/watcher.py:49-89 | examining one file keeps the table valid and adds at most a discovered row |
| Watcher.NewRecordingDiscovered | app/services/watcher.py:77-86 | a new row carries the next id, the file's path, an audio extension and status completed, with no end, classification or transcript |
| Watcher.SettledScanUnchanged | app/services/watcher.py:57-59 | a scan over streams whose eligible files are all registered leaves the table unchanged |
| Watcher.RecordingStore.constructor | app/services/watcher.py:85-86 | the store holds the given rows and next id |
| Watcher.RecordingWatcher.constructor | app/services/watcher.py:15-16 | a new watcher is not running |
| Watcher.ScanSettles | app/services/watcher.py:31-89 | after a scan, every eligible file of every scanned stream is in the table |
| Watcher.RescanAddsNothing | app/services/watcher.py:57-59 | scanning the same listing again adds nothing |
| Watcher.ScanFileStep | app/services/watcher.py:49-89 | the per-file body, checks in source order, changes the store exactly as the specification `ScanFile` says |
| Watcher.RecordingWatcher.ScanFiles | app/services/watcher.py:31-89 | the nested loops over streams and files leave the store equal to the specification `Scan` of the old one |
| Watcher.RecordingWatcher.Start | app/services/watcher.py:18-21 | start sets the running flag |
| Watcher.RecordingStore.Add | app/services/watcher.py:85-86 | the store appends the row under its next id |
| StreamManager.LaunchOutcome | app/services/stream_manager.py:113-127 | a failing makedirs, or an empty url or name, gives its message and no process; otherwise the process is spawned from the builder's vector |
| StreamManager.MarkStoppedConfigs | app/services/stream_manager.py:163-168 | marking a stream stopped changes only that stream's status |
| StreamManager.DisabledStopped | app/services/stream_manager.py:106-109 | after a pass, no disabled stream has a process, and one that had is marked stopped |
| StreamManager.UntrackedStarted | app/services/stream_manager.py:97-99 | an enabled untracked stream is started: tracked, running, last_up now, no error, and its own events gain exactly the info event; on a failed launch it is untracked with status error and the message, and its events are unchanged |
| StreamManager.DeadRetired | app/services/stream_manager.py:100-105 | an enabled stream whose process exited is untracked with status error and "Process exited unexpectedly", its own events gain exactly the error event, and it is not restarted in the same pass |
| StreamManager.LiveKept | app/services/stream_manager.py:100-105 | an enabled stream with a live process is left unchanged |
| StreamManager.OrphanUntouched | app/services/stream_manager.py:91-109 | a process whose stream row no longer exists is neither stopped nor replaced |
| StreamManager.ConvergedUnchanged | app/services/stream_manager.py:87-109 | a pass over a table where enabled means live and disabled means untracked changes nothing |
| StreamManager.DeadRestartedNextPass | app/services/stream_manager.py:184-187 | a stream retired in one pass is started by the next, when its launch succeeds |
| StreamManager.PassKeepsConfigs | app/services/stream_manager.py:87-109 | a pass writes only status fields |
| StreamManager.PassRows | app/services/stream_manager.py:94-109 | with distinct ids, a pass leaves each row and its process as that row's own step decides on the table the pass found |
| StreamManager.Manager.constructor | app/services/stream_manager.py:16-20 | no processes and not running |
| StreamManager.Manager.Start | app/services/stream_manager.py:22-26 | start sets the running flag |
| StreamManager.Manager.Stop | app/services/stream_manager.py:28-40 | not running and no processes; the signals sent are exactly one terminate per live process |
| StreamManager.Manager.StartStream | app/services/stream_manager.py:111-149 | the process table, stream row and events change exactly as `AfterStart` says |
| StreamManager.Manager.HandleFailure | app/services/stream_manager.py:170-182 | untracked, status error, the fixed error text, and one error event, as `AfterFailure` says |
| StreamManager.Manager.StopStream | app/services/stream_manager.py:151-168 | an untracked id changes nothing; a tracked one is signalled if live, untracked and marked stopped, as `AfterStop` says |
| StreamManager.Manager.ReconcileStream | app/services/stream_manager.py:94-109 | the loop body for one row changes the world as `ReconcileRow` says |
| StreamManager.Manager.ReconcileStreams | app/services/stream_manager.py:87-109 | the pass changes the world as `Reconcile` says |
| StreamManager.Manager.EnsureStreamDirectories | app/services/stream_manager.py:62-85 | today's then tomorrow's directory; a failure ends that stream's attempt |
| StreamManager.Manager.EnsureDirectories | app/services/stream_manager.py:55-85 | the directories made are those of `DirsMade` over the streams in order |
| StreamManager.EachStreamHasDirs | app/services/stream_manager.py:61-85 | every enabled stream gets today's directory when making it succeeds, and tomorrow's when both succeed, whatever happens for the others |
| StreamManager.OnlyEnabledDirs | app/services/stream_manager.py:60 | only the day directories of enabled streams are made |
| StreamManager.DateDirHoldsSegments | app/services/stream_manager.py:82 | the directory made for a day is the one the capture process writes that day's segments to |
| StreamManager.StopStep | app/services/stream_manager.py:33-39 | one step of stop() sends a terminate exactly when that process is live |
| StreamManager.TerminationsAdd | app/services/stream_manager.py:33-39 | visiting one more process adds its terminate signal iff it is still live |
| StreamManager.LaunchSameConfig | app/services/stream_manager.py:118-119 | the launch outcome depends only on the stream's configuration, not on its status fields |
| StreamManager.StreamStore.constructor | app/services/stream_manager.py:87-92 | the store holds the given stream and event tables |
| LoggingConfig.Sanitise | app/core/logging_config.py:71 | same length; letters, digits, '-', '_', '.' are kept and every other character becomes '_' |
| LoggingConfig.SanitiseFixed | app/core/logging_config.py:71 | a name is its own sanitised form iff it has only kept characters |
| LoggingConfig.SanitiseIdempotent | app/core/logging_config.py:71 | sanitising twice is sanitising once |
| LoggingConfig.SanitiseConcat | app/core/logging_config.py:71 | sanitising works character by character |
| LoggingConfig.SanitiseSpace | tests/test_logging.py:51 | "Kan Bet" becomes "Kan_Bet" |
| LoggingConfig.EnableLogsValues | app/core/logging_config.py:58 | file logging is on for true/1/yes in any case, and off when unset, empty or other |
| LoggingConfig.HandlersAdded | app/core/logging_config.py:52-85 | setup keeps the existing handlers and adds exactly one console handler |
| LoggingConfig.FirstSetup | app/core/logging_config.py:39-92 | a first setup registers the name, sets the level, turns propagation off, adds the console handler and, when enabled and not failing, a file handler rotating every 3 days with 10 backups at `<dir>/<sanitised base>.log`, base = file name if given else logger name |
| LoggingConfig.SetupIdempotent | app/core/logging_config.py:38-40 | a second setup of the same name returns the first setup's logger and changes nothing |
| LoggingConfig.SetupLocal | app/core/logging_config.py:36-44 | setup touches only its own logger |
| LoggingConfig.StreamLoggerNameInjective | app/core/logging_config.py:109 | the stream logger name `radio_capture.stream.<id>.<name>` determines id and name |
| LoggingConfig.IdBeforeSeparator | app/core/logging_config.py:109 | the id is read back before the separator that follows it in a logger name |
| LoggingConfig.StreamFilesDistinct | app/core/logging_config.py:110 | streams with distinct ids get distinct log files, even after sanitising |
| LoggingConfig.SanitisedStreamBase | app/core/logging_config.py:110 | sanitising `stream_<id>_<name>` keeps the prefix and the id and sanitises the name |
| LoggingConfig.LoggerName | app/core/logging_config.py:114-129 | the root name is given exactly for a missing or empty name; any other name is the root name, a dot, then the given name, which can be read back from it |
| LoggingConfig.LoggerNameInjective | app/core/logging_config.py:124-129 | two calls give the same logger name only if both names are missing or empty, or both are the same non-empty name |
| LoggingConfig.LoggingState.constructor | app/core/logging_config.py:12 | no loggers and no configured names |
| LoggingConfig.LoggingState.GetLogger | app/core/logging_config.py:36 | returns the registered logger or registers a fresh one; configured names are unchanged |
| LoggingConfig.LoggingState.SetupLogging | app/core/logging_config.py:15-94 | the registry and the returned logger are those of `Setup` |
| LoggingConfig.LoggingState.GetStreamLogger | app/core/logging_config.py:97-111 | setup with the stream logger name, INFO and the file base `stream_<id>_<name>` |
| LoggingConfig.LoggingState.GetNamedLogger | app/core/logging_config.py:114-129 | looks up the name `LoggerName` gives, without configuring it |
| Stats.Put | app/services/stats.py:33-38 | filing a row creates the station's map on demand and stores its bucket at (name, date); every other cell is kept |
| Stats.GetStats | app/services/stats.py:11-40 | the row loop builds exactly `StatsOf` |
| Stats.StatsOfCells | app/services/stats.py:31-38 | a cell exists iff some row carries that name and date |
| Stats.StatsOfStations | app/services/stats.py:31-33 | a station appears iff some row carries its name |
| Stats.StatsOfLast | app/services/stats.py:34-38 | a cell holds the size, duration and count of the last row with its name and date |
| Stats.InitEntries | app/services/stats.py:69-80 | the first loop builds `Initial` |
| Stats.InitialKeys | app/services/stats.py:69-80 | every stream, and only those, gets an entry |
| Stats.InitialFresh | app/services/stats.py:70-80 | a stream's entry starts at zero with its row's name and status |
| Stats.ReportKeys | app/services/stats.py:63-153 | the report has exactly one entry per stream, even one without recordings |
| Stats.Accumulate | app/services/stats.py:98-126 | adding rows never adds or removes an entry |
| Stats.CreditRow | app/services/stats.py:102-126 | the loop body adds one row as `Credit` says |
| Stats.AccumulateRows | app/services/stats.py:98-126 | the row loop computes `Accumulate` |
| Stats.UnknownRowsIgnored | app/services/stats.py:100 | rows of unknown streams are ignored: dropping them changes nothing |
| Stats.KnownRows | app/services/stats.py:100 | every kept row is an input row of a known stream |
| Stats.TotalsAreSums | app/services/stats.py:105-106 | the totals grow by exactly the stream's row sums, NULL as 0 |
| Stats.ReportTotals | app/services/stats.py:105-106 | in the report a stream's totals are its row sums |
| Stats.WindowsNested | app/services/stats.py:116-126 | a day counted in today is counted in week, and one in week is counted in month |
| Stats.AccumulateOrdered | app/services/stats.py:116-126 | with no negative sums, today ≤ week ≤ month ≤ total for sizes and durations |
| Stats.ReportOrdered | app/services/stats.py:116-126 | every report has today ≤ week ≤ month ≤ total, when no row sum is negative |
| Stats.ActivityDays | app/services/stats.py:108-112 | a day is in a stream's activity iff one of its rows has that day |
| Stats.SetErrors | app/services/stats.py:136-139 | error tallies never add or remove an entry |
| Stats.ApplyErrors | app/services/stats.py:136-139 | the error loop computes `SetErrors` |
| Stats.SetErrorsCount | app/services/stats.py:136-139 | a known stream's error count is its last tally, or unchanged without one; nothing else changes |
| Stats.BuildDateRange | app/services/stats.py:141-142 | today minus i days for i below `days`, reversed, equals `DateRange`: the last `days` day numbers oldest first, ending today |
| Stats.DayShift | app/services/stats.py:141 | i days before a time falls on its day number minus i |
| Stats.Fill | app/services/stats.py:144-151 | one point per day of the range, in order, with the recorded usage or zero |
| Stats.FillActivity | app/services/stats.py:145-150 | the fill loop for one stream computes `Fill` |
| Stats.FinishAll | app/services/stats.py:144-151 | every stream's activity map is replaced by its timeline |
| Stats.ReportTimeline | app/services/stats.py:141-151 | every report's activity has `days` points (none for `days` ≤ 0), ascending by day, ending today, zero-filled |
| Stats.GetDetailedStats | app/services/stats.py:42-153 | the whole post-query computation equals `DetailedStats` |
| Users.UserStore.constructor | app/api/users.py:24-26 | an empty valid table |
| Users.UserStore.ReadUser | app/api/users.py:28-33 | the row, or 404 "User not found" |
| Users.UserStore.CreateUser | app/api/users.py:35-52 | keeps the table valid; table and answer are those of `Create`; the next id advances only on success |
| Users.UserStore.UpdateUser | app/api/users.py:54-70 | keeps the table valid; table and answer are those of `Update` |
| Users.UserStore.DeleteUser | app/api/users.py:72-82 | keeps the table valid; table and answer are those of `Delete` |
| Users.CreateRejectsTaken | app/api/users.py:38-40 | creation fails iff the username is taken, and then with 400 "Username already registered" and no change |
| Users.CreateThenRead | app/api/users.py:42-52 | a created user reads back with the request's username, role and active flag and the password's hash |
| Users.CreateDefaults | app/api/users.py:13-17 | omitting role and active creates an active operator |
| Users.CreateKeepsValid | app/api/users.py:38-52 | creation under an unused id keeps usernames unique and every other row |
| Users.MissingIsNotFound | app/api/users.py:30-32 | reading, updating or deleting a missing id answers 404 and changes nothing (also lines 56-58 and 74-76) |
| Users.PatchedFields | app/api/users.py:60-65 | the hash changes iff a password with a non-space character is given; role and active follow the request when given; id and username never change |
| Users.UpdateIdempotent | app/api/users.py:54-70 | with a deterministic hash, applying the same update twice is applying it once |
| Users.UpdateRepeatedRehashes | app/api/users.py:54-70 | repeating an update with any hash changes at most the updated row's password hash, to the new hash of the password; without a non-blank password the repeat changes nothing |
| Users.UpdateKeepsValid | app/api/users.py:54-70 | an update touches only its own row, keeps the ids and unique usernames, and reads back |
| Users.DeleteSelfRefused | app/api/users.py:77-78 | deleting one's own id answers 400 "Cannot delete yourself" and removes nothing |
| Users.DeleteKeepsValid | app/api/users.py:72-82 | a delete succeeds iff the id exists and is not the caller's, and then removes exactly that row |
| DailySummary.IntroLookup | daily_radio_summary.py:33-53 | the seven codes get their own intro; any other code gets the English line |
| DailySummary.SpanishIsoCodeFallsBack | daily_radio_summary.py:38 | "es" gives English, and Spanish is reached only through "sp" |
| DailySummary.IntroTrimmed | daily_radio_summary.py:33-41 | every intro is non-empty with no whitespace at either end |
| DailySummary.Head | daily_radio_summary.py:193-232 | the preamble up to the interpretation notes has 39 parts |
| DailySummary.PromptShape | daily_radio_summary.py:193-242 | station, stream language and target language appear verbatim in header lines 3-5, and the prompt is the preamble joined by newlines, then a newline and the serialised transcripts |
| DailySummary.PreambleAsWrittenFuses | daily_radio_summary.py:233-237 | as written, the list has 42 parts: two notes and a blank line fuse into one, directly before the data header |
| DailySummary.PreambleSeparatesNotes | daily_radio_summary.py:225-237 | corrected, 44 parts: each note is its own part and both section headers follow a blank part |
| DailySummary.CollectSummaries | daily_radio_summary.py:347-381 | the station loop computes `SummariesOf`, stopping at the first failed call |
| DailySummary.FailureEndsLoop | daily_radio_summary.py:255-258 | once a station's call has failed, the later stations change nothing: the run has failed with that station |
| DailySummary.WithTranscripts | daily_radio_summary.py:355-359 | every station kept has transcripts and comes from the list |
| DailySummary.WithTranscriptsEmpty | daily_radio_summary.py:355-359 | no station is kept exactly when no station has transcripts |
| DailySummary.SummariesOkIff | daily_radio_summary.py:255-295 | the loop succeeds iff every station with transcripts gets an answer; a failure names such a station whose call failed |
| DailySummary.SummariesItems | daily_radio_summary.py:355-379 | a successful loop holds one item per station with transcripts, in station order, each the station's name and its stripped answer |
| DailySummary.SummariesFromStations | daily_radio_summary.py:255-379 | success iff every station with transcripts is answered; then one item per such station, in order, with its name and stripped answer, and none exactly when no station has transcripts; a failure names a station whose call failed |
| DailySummary.BuildMessage | daily_radio_summary.py:390-396 | the message loop computes `Message` |
| DailySummary.MessagePartsShape | daily_radio_summary.py:390-394 | the parts are the intro, a blank, then per summary `*<name>* — <summary>` and a blank |
| DailySummary.MessageTrimmed | daily_radio_summary.py:396 | the message begins with the intro and has no whitespace at either end |
| DailySummary.RunDaily | daily_radio_summary.py:321-399 | `main` after its arguments computes `DailyRun` |
| DailySummary.ExitCode | daily_radio_summary.py:255-399 | exit 0 without stations or summaries and after a delivered post; exit 1 after a failed call or a failed post |
| DailySummary.PostsIffTranscripts | daily_radio_summary.py:255-399 | a message is handed to Telegram iff some enabled station has transcripts and every call succeeds; the run stops at a failed call iff some call fails; it exits 0 iff every call succeeds and any post is delivered |
| DailySummary.PostedMessageShape | daily_radio_summary.py:390-396 | a posted message opens with the target language's intro and is trimmed |
| RunSummaries.MissingExactly | run_daily_summaries.py:166-167 | a field is reported missing iff it is required and absent |
| RunSummaries.MissingNoneIffComplete | run_daily_summaries.py:166-169 | nothing is missing iff the channel has all four required fields |
| RunSummaries.CommandShape | run_daily_summaries.py:90-98 | twelve entries: interpreter, script, then --date, --timezone, --target-language, --telegram-channel-id, --telegram-bot-token, each followed by its value |
| RunSummaries.RunChannel | run_daily_summaries.py:71-123 | launches `Command`; succeeds iff the child returned 0 (an exception is a failure) |
| RunSummaries.Results | run_daily_summaries.py:163-175 | one result per channel |
| RunSummaries.RunChannels | run_daily_summaries.py:163-175 | the loop computes `Results` and launches exactly `Launched` |
| RunSummaries.ResultsPerChannel | run_daily_summaries.py:164-175 | each result is true iff the channel is complete and its child returned 0; incomplete channels launch nothing |
| RunSummaries.CountTrue | run_daily_summaries.py:179 | the number of successes is at most the number of channels |
| RunSummaries.CountTrueAll | run_daily_summaries.py:178-180 | failed = total − successful is 0 iff every result is a success |
| RunSummaries.ExitCodeAllSucceeded | run_daily_summaries.py:187-192 | exit 0 iff every result succeeded, exit 1 iff some failed |
| RunSummaries.RunDailySummaries | run_daily_summaries.py:126-192 | `main` computes `RunAll` |
| RunSummaries.EarlyExits | run_daily_summaries.py:133-160 | a bad explicit date exits 1; a missing file, bad JSON or no `channels` key exits 1; an empty channel list exits 0; a missing script exits 1 |
| RunSummaries.ExitZeroIffAllSucceed | run_daily_summaries.py:163-192 | past the early checks, the run exits 0 iff every channel is complete and its child returned 0 |
| Timestamps.Strptime | run_daily_summaries.py:137 | a text strptime accepts denotes a valid date and time |
| Timestamps.CompactStampRoundTrip | app/services/watcher.py:75 | every `%Y%m%d%H%M%S` stamp is read back by strptime as the time it was written from |
| Timestamps.DateTextRoundTrip | run_daily_summaries.py:137 | every date written as `%Y-%m-%d` is read back by strptime as midnight of that date |
| RunSummaries.WrittenDateAccepted | run_daily_summaries.py:134-140 | an explicit `--date` that is a real date written as `%Y-%m-%d` passes the date check and is the date used |
| Timestamps.ShortStampAccepted | app/services/watcher.py:75 | strptime also accepts short stamps: "202311111" reads as 2023-01-01 01:01:01 |
| Timestamps.EpochSecondsDay | app/services/speech_blocks.py:21-24 | a valid timestamp falls on the day number of its own date |

## Left out

- Schema migrations and database wiring: the tables are sequences and maps in memory.
- The asyncio tasks and the lock: `monitor_loop`, `monitor_output`, `create_task`, the
  10-second and 60-second sleeps, and the `wait_for` timeout. One reconcile pass and one
  scan are sequential methods. Whether a process outlives the grace period is an input.
- Subprocesses, the filesystem, the network and the clock are inputs: the ffmpeg spawn,
  ffprobe, `os.walk`, `os.stat`, `os.makedirs`, the current time, the child processes of the
  daily job, the OpenAI call and the Telegram post.
- `shlex.split` of the extra flags is a tokeniser passed in as a function.
- `json.dumps` of the transcripts is an opaque serialiser passed in as a function.
- `float()` of the probe output is a parameter from text to whole seconds.
- Password hashing and the authentication dependencies are left out. The caller's id
  is a plain parameter.
- The `read_users` listing is left out; it returns the table as it is.
- Floating point is left out: durations are whole seconds and sizes whole bytes. The
  rounded display fields `hours` and `size_mb` of the activity timeline are omitted. A
  point carries the integer duration and size instead.
- `compute_utc_range`, time zones and the database queries of the daily summary are left
  out. The station list and a station's transcripts for the day are inputs.
- Calendar formatting is left out. Today's and tomorrow's dates for `ensure_directories`,
  and yesterday's date for the daily job, are inputs.
- Stats dates are integer day numbers rather than `YYYY-MM-DD` texts. The week and month
  windows compare midnight of the day with `now` in whole seconds. A fractional second in
  `now` is not modelled.
- The logging formatter, the rotation mechanics of `TimedRotatingFileHandler` and the
  log messages themselves are left out. Only the handler kinds added, and their file,
  interval and backup count, are modelled.
- `isalnum()` and `lower()` are modelled for ASCII letters and digits only.
- Parameter values of the stream configuration are held as the text `str()` gives for
  them.
- The configuration file's channel values are modelled as strings, and the channel list
  as a sequence. A `channels` value that is not a list is not modelled.
- `stop()` records its terminate signals as a set: the order in which Python iterates
  the process dictionary is not modelled. Exceptions raised by `terminate` or `wait` are
  not modelled.
- `ensure_directories` as called inside `start_stream` is not repeated in the launch model. Its
  own exceptions are caught per stream, so they cannot fail the launch.
- The ids the database assigns to new rows are modelled as a counter, `nextId`.
  `created_at` timestamps are left out.
- Deleting a day's speech blocks is committed separately from inserting the new ones.
  The model proves the final table idempotent; it does not model a crash between the two
  commits.
- Speech blocks are not claimed to be non-overlapping. Recordings that overlap across a
  non-speech recording can give overlapping blocks.
- `JoinPath` concatenates with '/' and does not normalise paths as `os.path.join` would.
- A stream name containing '%' would be expanded by strftime. The template lemmas
  assume names and formats without '%'.
- `SortBy` promises order by key and the same rows, not the relative order of rows with
  equal keys. The source's `ORDER BY` leaves the order of equal start times open too.
- `CollectSummaries` and `RunDaily` (with `DailyRun` and `Asker`) send the corrected 44-part
  prompt, `Prompt`. The code as written sends the 42-part prompt `PromptAsWritten`; see
  Findings. The language model is an opaque parameter, so no property of the run depends on
  which of the two it receives.
- `call_openai`'s three exits (no `OPENAI_API_KEY`, a failed request, an answer without
  `choices[0].message.content`) are one outcome: the language model parameter answers None.
  Which of the three happened, and the logged response text, are not modelled.
- `post_to_telegram` is a parameter that says whether the post was delivered; the closing
  of the bot session is left out.
- `UpdateIdempotent` holds only for a deterministic hash. `get_password_hash` is not part
  of this model. If it is salted, as password hashes usually are, every repeated update
  with a password stores a new hash; `UpdateRepeatedRehashes` states what a repeat does
  for any hash.
- Python's `\d` in strptime's patterns also matches non-ASCII decimal digits; the model
  reads ASCII digits only.

## Findings

| source | as written | input that shows it | evidently intended | confidence | as-written member | corrected member |
|---|---|---|---|---|---|---|
| daily_radio_summary.py:233-235 | two commas are missing, so implicit string concatenation fuses the "invent facts" note, the "adjacent parts" note and the following blank line into one list element; the prompt has 42 parts, and "===== TRANSCRIPTION DATA =====" follows the notes with no blank line | any call of `build_llm_prompt_for_stream`, for example station "X", language "he", target "en" | three separate elements (44 parts): each note on its own line and a blank line before the data header | not executed | DailySummary.PreambleAsWrittenFuses | DailySummary.PreambleSeparatesNotes |

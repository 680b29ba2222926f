/** The stream manager: keeps one ffmpeg capture process per enabled stream.

    A reconcile pass goes over the stream table in order. An enabled stream without a
    tracked process is started, an enabled stream whose process has exited is retired
    (and started again only by a later pass), and a disabled stream that still has a
    process is stopped. Stopping the manager terminates every live process and forgets
    them all.

    Process launch, makedirs, the grace period of a terminated process, the tokeniser for
    extra flags and the clock are inputs (an `Env`). A process handle carries the return
    code it has when the pass looks at it. */
module StreamManager {
  import opened Common
  import opened Timestamps
  import opened Models
  import FfmpegBuilder

  /** A tracked capture process: its pid and, once it has exited, its return code. */
  datatype Handle = Handle(pid: int, returncode: Option<int>)

  /** What the manager sends to a process. */
  datatype Signal = Terminate(pid: int) | Kill(pid: int)

  /** The world outside the manager: makedirs (Some(message) where it raises), the process
      launch (the new handle, or the message of the exception), whether a terminated
      process exits within the five-second grace period, the tokeniser for extra flags,
      and the clock. */
  datatype Env = Env(
    makeDir: string -> Option<string>,
    spawn: seq<string> -> Result<Handle, string>,
    exitsInGrace: int -> bool,
    tokenise: string -> seq<string>,
    now: int)

  /** The process table, the stream and event tables, and every signal sent so far. */
  datatype World = World(procs: map<int, Handle>, streams: seq<Stream>, events: seq<Event>, signals: seq<Signal>)

  const StartedMessage: string := "Stream started"
  const DiedMessage: string := "Stream process died"
  const DiedError: string := "Process exited unexpectedly"

  function Get(m: map<int, Handle>, id: int): Option<Handle>
  {
    if id in m then Some(m[id]) else None
  }

  predicate UniqueIds(ss: seq<Stream>)
  {
    forall a, b | 0 <= a < b < |ss| :: ss[a].id != ss[b].id
  }

  /** Two rows that differ at most in their status fields. */
  predicate SameConfig(s: Stream, s': Stream)
  {
    && s.id == s'.id && s.name == s'.name && s.url == s'.url && s.enabled == s'.enabled
    && s.mandatory == s'.mandatory && s.optional == s'.optional
  }

  predicate SameConfigs(ss: seq<Stream>, ss': seq<Stream>)
  {
    |ss| == |ss'| && forall k | 0 <= k < |ss| :: SameConfig(ss[k], ss'[k])
  }

  /** stream.dict() as the builder reads it. */
  function ConfigOf(s: Stream): FfmpegBuilder.BuilderConfig
  {
    FfmpegBuilder.BuilderConfig(s.url, Some(s.name), s.mandatory, s.optional)
  }

  // ---------------------------------------------------------------------------
  // The four operations on the process table, as a specification.

  /** How start_stream's attempt ends: making the stream's directory, building the command
      and launching it, the first exception giving the message. */
  function Launch(s: Stream, env: Env): Result<Handle, string>
  {
    match env.makeDir(FfmpegBuilder.RecordingsRoot + s.name)
    case Some(msg) => Err(msg)
    case None =>
      match FfmpegBuilder.CommandFor(ConfigOf(s), env.tokenise)
      case Err(msg) => Err(msg)
      case Ok(cmd) => env.spawn(cmd)
  }

  /** A stream with an empty url or name is never launched, and reports the builder's
      message unless making its directory failed first; otherwise the launched command is
      the builder's vector. */
  lemma LaunchOutcome(s: Stream, env: Env)
    ensures env.makeDir(FfmpegBuilder.RecordingsRoot + s.name).Some? ==>
      Launch(s, env) == Err(env.makeDir(FfmpegBuilder.RecordingsRoot + s.name).value)
    ensures env.makeDir(FfmpegBuilder.RecordingsRoot + s.name).None? && (!FfmpegBuilder.Truthy(s.url) || s.name == "") ==>
      Launch(s, env) == Err(FfmpegBuilder.MissingUrlOrName)
    ensures env.makeDir(FfmpegBuilder.RecordingsRoot + s.name).None? && FfmpegBuilder.Truthy(s.url) && s.name != "" ==>
      Launch(s, env) == env.spawn(FfmpegBuilder.Command(s.url.value, s.name, s.mandatory, s.optional, env.tokenise))
  {
  }

  function AfterStart(w: World, i: int, env: Env): World
    requires 0 <= i < |w.streams|
  {
    var s := w.streams[i];
    match Launch(s, env)
    case Ok(h) =>
      w.(procs := w.procs[s.id := h],
         streams := w.streams[i := s.(status := "running", lastUp := Some(env.now), lastError := None)],
         events := w.events + [Event(s.id, "info", StartedMessage)])
    case Err(msg) =>
      w.(streams := w.streams[i := s.(status := "error", lastError := Some(msg))])
  }

  function AfterFailure(w: World, i: int): World
    requires 0 <= i < |w.streams|
  {
    var s := w.streams[i];
    w.(procs := w.procs - {s.id},
       streams := w.streams[i := s.(status := "error", lastError := Some(DiedError))],
       events := w.events + [Event(s.id, "error", DiedMessage)])
  }

  /** The row with the given id, marked stopped. */
  function MarkStopped(ss: seq<Stream>, id: int): (ss': seq<Stream>)
    ensures |ss'| == |ss|
  {
    seq(|ss|, k requires 0 <= k < |ss| => if ss[k].id == id then ss[k].(status := "stopped") else ss[k])
  }

  /** Marking a stream stopped changes only status fields, and only that stream's. */
  lemma MarkStoppedConfigs(ss: seq<Stream>, id: int)
    ensures SameConfigs(ss, MarkStopped(ss, id))
    ensures forall k | 0 <= k < |ss| :: MarkStopped(ss, id)[k] == if ss[k].id == id then ss[k].(status := "stopped") else ss[k]
  {
  }

  /** What stop_stream sends to a process: nothing if it has exited; a terminate, and a kill
      as well if it outlives the grace period, if it is live. */
  function StopSignals(h: Handle, env: Env): seq<Signal>
  {
    if h.returncode.Some? then []
    else if env.exitsInGrace(h.pid) then [Terminate(h.pid)]
    else [Terminate(h.pid), Kill(h.pid)]
  }

  function AfterStop(w: World, id: int, env: Env): World
  {
    if id !in w.procs then w
    else
      w.(procs := w.procs - {id},
         streams := MarkStopped(w.streams, id),
         signals := w.signals + StopSignals(w.procs[id], env))
  }

  /** What reconcile_streams does for one row. */
  function ReconcileRow(w: World, i: int, env: Env): (w': World)
    requires 0 <= i < |w.streams|
    ensures |w'.streams| == |w.streams|
  {
    var s := w.streams[i];
    if s.enabled then
      if s.id !in w.procs then AfterStart(w, i, env)
      else if w.procs[s.id].returncode.Some? then AfterFailure(w, i)
      else w
    else if s.id in w.procs then AfterStop(w, s.id, env)
    else w
  }

  /** The pass over the first n rows. */
  function ReconcileUpTo(w: World, n: int, env: Env): (v: World)
    requires 0 <= n <= |w.streams|
    ensures |v.streams| == |w.streams|
    decreases n
  {
    if n == 0 then w
    else ReconcileRow(ReconcileUpTo(w, n - 1, env), n - 1, env)
  }

  function Reconcile(w: World, env: Env): World
  {
    ReconcileUpTo(w, |w.streams|, env)
  }

  // ---------------------------------------------------------------------------
  // One row at a time.

  /** What a row's step leaves in its own row. */
  function RowStream(w: World, i: int, env: Env): Stream
    requires 0 <= i < |w.streams|
  {
    var s := w.streams[i];
    if s.enabled then
      if s.id !in w.procs then
        match Launch(s, env)
        case Ok(_) => s.(status := "running", lastUp := Some(env.now), lastError := None)
        case Err(msg) => s.(status := "error", lastError := Some(msg))
      else if w.procs[s.id].returncode.Some? then s.(status := "error", lastError := Some(DiedError))
      else s
    else if s.id in w.procs then s.(status := "stopped")
    else s
  }

  /** What a row's step leaves as its own stream's process (None: untracked). */
  function RowProc(w: World, i: int, env: Env): Option<Handle>
    requires 0 <= i < |w.streams|
  {
    var s := w.streams[i];
    if s.enabled then
      if s.id !in w.procs then
        match Launch(s, env)
        case Ok(h) => Some(h)
        case Err(_) => None
      else if w.procs[s.id].returncode.Some? then None
      else Some(w.procs[s.id])
    else None
  }

  /** A row's step sets its own stream's process to RowProc and leaves every other
      process alone. */
  lemma RowProcAt(w: World, i: int, env: Env, id: int)
    requires 0 <= i < |w.streams|
    ensures Get(ReconcileRow(w, i, env).procs, id) ==
      if id == w.streams[i].id then RowProc(w, i, env) else Get(w.procs, id)
  {
    var s := w.streams[i];
    var w' := ReconcileRow(w, i, env);
    if s.enabled {
      if s.id !in w.procs {
        assert w' == AfterStart(w, i, env);
      } else if w.procs[s.id].returncode.Some? {
        assert w'.procs == w.procs - {s.id};
      } else {
        assert w' == w;
      }
    } else if s.id in w.procs {
      assert w'.procs == w.procs - {s.id};
    } else {
      assert w' == w;
    }
  }

  lemma MarkStoppedOne(ss: seq<Stream>, i: int)
    requires UniqueIds(ss) && 0 <= i < |ss|
    ensures MarkStopped(ss, ss[i].id) == ss[i := ss[i].(status := "stopped")]
  {
    var ms := MarkStopped(ss, ss[i].id);
    MarkStoppedConfigs(ss, ss[i].id);
    forall k | 0 <= k < |ss| && k != i ensures ms[k] == ss[k] {
      if k < i {
        assert ss[k].id != ss[i].id;
      } else {
        assert ss[i].id != ss[k].id;
      }
    }
  }

  /** With distinct ids, a row's step writes RowStream into its own row and touches no
      other row. */
  lemma RowStreams(w: World, i: int, env: Env)
    requires UniqueIds(w.streams) && 0 <= i < |w.streams|
    ensures ReconcileRow(w, i, env).streams == w.streams[i := RowStream(w, i, env)]
  {
    var s := w.streams[i];
    if !s.enabled && s.id in w.procs {
      MarkStoppedOne(w.streams, i);
    }
  }

  lemma SetKeepsConfigs(ss: seq<Stream>, i: int, s: Stream)
    requires 0 <= i < |ss| && SameConfig(ss[i], s)
    ensures SameConfigs(ss, ss[i := s])
  {
  }

  /** A row step writes only status fields. */
  lemma RowKeepsConfigs(w: World, i: int, env: Env)
    requires 0 <= i < |w.streams|
    ensures SameConfigs(w.streams, ReconcileRow(w, i, env).streams)
  {
    var s := w.streams[i];
    if s.enabled || s.id !in w.procs {
      SetKeepsConfigs(w.streams, i, RowStream(w, i, env));
      assert ReconcileRow(w, i, env).streams == w.streams[i := RowStream(w, i, env)];
    } else {
      MarkStoppedConfigs(w.streams, s.id);
    }
  }

  /** A row's outcome depends only on the row and its own stream's process. */
  lemma RowLocal(w: World, v: World, i: int, env: Env)
    requires 0 <= i < |w.streams| && 0 <= i < |v.streams|
    requires w.streams[i] == v.streams[i] && Get(w.procs, w.streams[i].id) == Get(v.procs, v.streams[i].id)
    ensures RowStream(w, i, env) == RowStream(v, i, env) && RowProc(w, i, env) == RowProc(v, i, env)
  {
    var id := w.streams[i].id;
    assert (id in w.procs) == (id in v.procs);
    if id in w.procs {
      assert w.procs[id] == v.procs[id];
    }
  }

  /** A pass writes only status fields. */
  lemma {:induction false} PassKeepsConfigs(w: World, env: Env, n: int)
    requires 0 <= n <= |w.streams|
    ensures SameConfigs(w.streams, ReconcileUpTo(w, n, env).streams)
    decreases n
  {
    if n > 0 {
      var p := ReconcileUpTo(w, n - 1, env);
      PassKeepsConfigs(w, env, n - 1);
      UpToStep(w, env, n);
      RowKeepsConfigs(p, n - 1, env);
      SameConfigsTrans(w.streams, p.streams, ReconcileUpTo(w, n, env).streams);
    }
  }

  lemma SameConfigsTrans(a: seq<Stream>, b: seq<Stream>, c: seq<Stream>)
    requires SameConfigs(a, b) && SameConfigs(b, c)
    ensures SameConfigs(a, c)
  {
    forall k | 0 <= k < |a| ensures SameConfig(a[k], c[k]) {
      assert SameConfig(a[k], b[k]) && SameConfig(b[k], c[k]);
    }
  }

  lemma SameConfigsUnique(ss: seq<Stream>, ss': seq<Stream>)
    requires SameConfigs(ss, ss') && UniqueIds(ss)
    ensures UniqueIds(ss')
  {
    forall a, b | 0 <= a < b < |ss'| ensures ss'[a].id != ss'[b].id {
      assert SameConfig(ss[a], ss'[a]) && SameConfig(ss[b], ss'[b]);
    }
  }

  lemma UpToStep(w: World, env: Env, n: int)
    requires 0 < n <= |w.streams|
    ensures ReconcileUpTo(w, n, env) == ReconcileRow(ReconcileUpTo(w, n - 1, env), n - 1, env)
  {
  }

  /** With distinct ids, a row's step leaves its own row and process as its outcome says. */
  lemma StepOwn(p: World, i: int, env: Env)
    requires UniqueIds(p.streams) && 0 <= i < |p.streams|
    ensures ReconcileRow(p, i, env).streams[i] == RowStream(p, i, env)
    ensures Get(ReconcileRow(p, i, env).procs, p.streams[i].id) == RowProc(p, i, env)
  {
    RowStreams(p, i, env);
    RowProcAt(p, i, env, p.streams[i].id);
  }

  /** With distinct ids, a row's step leaves every other row and its process alone. */
  lemma StepFrame(p: World, k: int, env: Env, i: int)
    requires UniqueIds(p.streams) && 0 <= k < |p.streams| && 0 <= i < |p.streams| && k != i
    ensures ReconcileRow(p, k, env).streams[i] == p.streams[i]
    ensures Get(ReconcileRow(p, k, env).procs, p.streams[i].id) == Get(p.procs, p.streams[i].id)
  {
    RowStreams(p, k, env);
    RowProcAt(p, k, env, p.streams[i].id);
    if k < i {
      assert p.streams[k].id != p.streams[i].id;
    } else {
      assert p.streams[i].id != p.streams[k].id;
    }
  }

  /** Row i and its stream's process after the first n steps of a pass over w: as the pass
      found them before the row's own step, and the row's outcome from that step on. */
  predicate RowAfter(w: World, v: World, n: int, i: int, env: Env)
    requires 0 <= i < |w.streams| && |v.streams| == |w.streams|
  {
    var id := w.streams[i].id;
    if i < n then v.streams[i] == RowStream(w, i, env) && Get(v.procs, id) == RowProc(w, i, env)
    else v.streams[i] == w.streams[i] && Get(v.procs, id) == Get(w.procs, id)
  }

  /** The state after the first n steps of a pass over w, row by row. */
  predicate PassedUpTo(w: World, v: World, n: int, env: Env)
  {
    && SameConfigs(w.streams, v.streams)
    && forall i | 0 <= i < |w.streams| :: RowAfter(w, v, n, i, env)
  }

  /** One more step keeps the row-by-row description of a pass. */
  lemma PassedStep(w: World, p: World, n: int, env: Env)
    requires UniqueIds(w.streams) && 0 < n <= |w.streams| && PassedUpTo(w, p, n - 1, env)
    ensures PassedUpTo(w, ReconcileRow(p, n - 1, env), n, env)
  {
    var v := ReconcileRow(p, n - 1, env);
    SameConfigsUnique(w.streams, p.streams);
    RowKeepsConfigs(p, n - 1, env);
    SameConfigsTrans(w.streams, p.streams, v.streams);
    forall i | 0 <= i < |w.streams| ensures RowAfter(w, v, n, i, env) {
      assert RowAfter(w, p, n - 1, i, env);
      assert SameConfig(w.streams[i], p.streams[i]);
      if n - 1 == i {
        StepOwn(p, i, env);
        RowLocal(p, w, i, env);
      } else {
        StepFrame(p, n - 1, env, i);
      }
    }
  }

  /** A pass over the first n rows, described row by row. */
  lemma {:induction false} PassRow(w: World, env: Env, n: int)
    requires UniqueIds(w.streams) && 0 <= n <= |w.streams|
    ensures PassedUpTo(w, ReconcileUpTo(w, n, env), n, env)
    decreases n
  {
    if n == 0 {
      forall i | 0 <= i < |w.streams| ensures RowAfter(w, w, 0, i, env) {
      }
    } else {
      PassRow(w, env, n - 1);
      UpToStep(w, env, n);
      PassedStep(w, ReconcileUpTo(w, n - 1, env), n, env);
    }
  }

  /** With distinct ids, a pass leaves each row and its stream's process as that row's
      outcome on the table as the pass found it. */
  lemma PassRows(w: World, env: Env, i: int)
    requires UniqueIds(w.streams) && 0 <= i < |w.streams|
    ensures Reconcile(w, env).streams[i] == RowStream(w, i, env)
    ensures Get(Reconcile(w, env).procs, w.streams[i].id) == RowProc(w, i, env)
  {
    PassRow(w, env, |w.streams|);
    assert RowAfter(w, Reconcile(w, env), |w.streams|, i, env);
  }

  // ---------------------------------------------------------------------------
  // The events a pass records.

  /** The events of one stream, in the order they were recorded. */
  function EventsFor(es: seq<Event>, id: int): (r: seq<Event>)
    ensures forall k | 0 <= k < |r| :: r[k].streamId == id && r[k] in es
    decreases |es|
  {
    if |es| == 0 then []
    else
      var init := EventsFor(es[..|es| - 1], id);
      var e := es[|es| - 1];
      assert forall k | 0 <= k < |init| :: init[k] in es[..|es| - 1];
      if e.streamId == id then init + [e] else init
  }

  lemma {:induction false} EventsForConcat(a: seq<Event>, b: seq<Event>, id: int)
    ensures EventsFor(a + b, id) == EventsFor(a, id) + EventsFor(b, id)
    decreases |b|
  {
    if |b| == 0 {
      assert a + b == a;
    } else {
      assert (a + b)[..|a + b| - 1] == a + b[..|b| - 1];
      EventsForConcat(a, b[..|b| - 1], id);
    }
  }

  /** The events a row's step records, from the row and its stream's process as the step
      finds them: "Stream started" after a successful launch, "Stream process died" when
      retiring an exited process, and nothing otherwise. */
  function RowEvents(s: Stream, h: Option<Handle>, env: Env): seq<Event>
  {
    if !s.enabled then []
    else match h
      case None => if Launch(s, env).Ok? then [Event(s.id, "info", StartedMessage)] else []
      case Some(p) => if p.returncode.Some? then [Event(s.id, "error", DiedMessage)] else []
  }

  /** A row's step appends exactly the row's events to the table. */
  lemma StepEvents(p: World, k: int, env: Env)
    requires 0 <= k < |p.streams|
    ensures ReconcileRow(p, k, env).events == p.events + RowEvents(p.streams[k], Get(p.procs, p.streams[k].id), env)
  {
    var s := p.streams[k];
    if s.enabled && s.id !in p.procs {
      assert ReconcileRow(p, k, env) == AfterStart(p, k, env);
    } else if !s.enabled || p.procs[s.id].returncode.None? {
      assert ReconcileRow(p, k, env).events == p.events;
    }
  }

  /** Appending a row's events adds to a stream's events only when the row is that stream's. */
  lemma AppendRowEvents(es: seq<Event>, s: Stream, h: Option<Handle>, env: Env, id: int)
    ensures EventsFor(es + RowEvents(s, h, env), id) == EventsFor(es, id) + (if s.id == id then RowEvents(s, h, env) else [])
  {
    var row := RowEvents(s, h, env);
    EventsForConcat(es, row, id);
    if |row| == 1 {
      assert row[..0] == [];
    }
  }

  /** The events row i's step has recorded once the first n steps have run. */
  function Recorded(w: World, i: int, n: int, env: Env): seq<Event>
    requires 0 <= i < |w.streams|
  {
    if i < n then RowEvents(w.streams[i], Get(w.procs, w.streams[i].id), env) else []
  }

  /** The row a pass steps next is still as the pass found it. */
  lemma NextRowUntouched(w: World, p: World, n: int, env: Env)
    requires 0 < n <= |w.streams| && PassedUpTo(w, p, n - 1, env)
    ensures p.streams[n - 1] == w.streams[n - 1]
    ensures Get(p.procs, p.streams[n - 1].id) == Get(w.procs, w.streams[n - 1].id)
  {
    assert RowAfter(w, p, n - 1, n - 1, env);
  }

  /** One more step of a pass adds to a stream's events only what its own step records. */
  lemma EventsStep(w: World, p: World, n: int, i: int, env: Env)
    requires UniqueIds(w.streams) && 0 < n <= |w.streams| && 0 <= i < |w.streams|
    requires PassedUpTo(w, p, n - 1, env)
    requires EventsFor(p.events, w.streams[i].id) == EventsFor(w.events, w.streams[i].id) + Recorded(w, i, n - 1, env)
    ensures EventsFor(ReconcileRow(p, n - 1, env).events, w.streams[i].id) == EventsFor(w.events, w.streams[i].id) + Recorded(w, i, n, env)
  {
    var id := w.streams[i].id;
    var q := w.streams[n - 1];
    var h := Get(w.procs, q.id);
    NextRowUntouched(w, p, n, env);
    StepEvents(p, n - 1, env);
    AppendRowEvents(p.events, q, h, env, id);
    assert n - 1 != i ==> q.id != id;
  }

  /** After the first n steps of a pass, a stream's events are those it had, followed by its
      row's events once its own step has run. */
  lemma {:induction false} PassEvents(w: World, env: Env, n: int, i: int)
    requires UniqueIds(w.streams) && 0 <= n <= |w.streams| && 0 <= i < |w.streams|
    ensures EventsFor(ReconcileUpTo(w, n, env).events, w.streams[i].id) ==
      EventsFor(w.events, w.streams[i].id) + Recorded(w, i, n, env)
    decreases n
  {
    if n == 0 {
      assert EventsFor(w.events, w.streams[i].id) + [] == EventsFor(w.events, w.streams[i].id);
    } else {
      PassEvents(w, env, n - 1, i);
      PassRow(w, env, n - 1);
      UpToStep(w, env, n);
      EventsStep(w, ReconcileUpTo(w, n - 1, env), n, i, env);
    }
  }

  /** With distinct ids, a pass appends to each stream's events exactly its row's events. */
  lemma PassRowEvents(w: World, env: Env, i: int)
    requires UniqueIds(w.streams) && 0 <= i < |w.streams|
    ensures EventsFor(Reconcile(w, env).events, w.streams[i].id) ==
      EventsFor(w.events, w.streams[i].id) + RowEvents(w.streams[i], Get(w.procs, w.streams[i].id), env)
  {
    PassEvents(w, env, |w.streams|, i);
  }

  // ---------------------------------------------------------------------------
  // What a pass guarantees.

  /** After a pass no disabled stream has a process; one that had is marked stopped. */
  lemma DisabledStopped(w: World, env: Env, i: int)
    requires UniqueIds(w.streams) && 0 <= i < |w.streams| && !w.streams[i].enabled
    ensures var w' := Reconcile(w, env);
      var s := w.streams[i];
      && s.id !in w'.procs
      && (s.id in w.procs ==> w'.streams[i] == s.(status := "stopped"))
      && (s.id !in w.procs ==> w'.streams[i] == s)
  {
    PassRows(w, env, i);
  }

  /** An enabled stream without a process is started: it is tracked with the launched
      handle and marked running since now with no error; or, when the launch raises, it
      stays untracked and gets the exception's message as its error. */
  lemma UntrackedStarted(w: World, env: Env, i: int)
    requires UniqueIds(w.streams) && 0 <= i < |w.streams|
    requires w.streams[i].enabled && w.streams[i].id !in w.procs
    ensures var w' := Reconcile(w, env);
      var s := w.streams[i];
      match Launch(s, env)
      case Ok(h) =>
        && Get(w'.procs, s.id) == Some(h)
        && w'.streams[i] == s.(status := "running", lastUp := Some(env.now), lastError := None)
        && EventsFor(w'.events, s.id) == EventsFor(w.events, s.id) + [Event(s.id, "info", StartedMessage)]
      case Err(msg) =>
        && s.id !in w'.procs
        && w'.streams[i] == s.(status := "error", lastError := Some(msg))
        && EventsFor(w'.events, s.id) == EventsFor(w.events, s.id)
  {
    PassRows(w, env, i);
    PassRowEvents(w, env, i);
    assert EventsFor(w.events, w.streams[i].id) + [] == EventsFor(w.events, w.streams[i].id);
  }

  /** An enabled stream whose process has exited is retired with an error and is not
      started again within the same pass. */
  lemma DeadRetired(w: World, env: Env, i: int)
    requires UniqueIds(w.streams) && 0 <= i < |w.streams|
    requires w.streams[i].enabled && w.streams[i].id in w.procs && w.procs[w.streams[i].id].returncode.Some?
    ensures var w' := Reconcile(w, env);
      var s := w.streams[i];
      && s.id !in w'.procs
      && w'.streams[i] == s.(status := "error", lastError := Some(DiedError))
      && EventsFor(w'.events, s.id) == EventsFor(w.events, s.id) + [Event(s.id, "error", DiedMessage)]
  {
    PassRows(w, env, i);
    PassRowEvents(w, env, i);
  }

  /** An enabled stream whose process is live is left as it is. */
  lemma LiveKept(w: World, env: Env, i: int)
    requires UniqueIds(w.streams) && 0 <= i < |w.streams|
    requires w.streams[i].enabled && w.streams[i].id in w.procs && w.procs[w.streams[i].id].returncode.None?
    ensures var w' := Reconcile(w, env);
      Get(w'.procs, w.streams[i].id) == Get(w.procs, w.streams[i].id) && w'.streams[i] == w.streams[i]
  {
    PassRows(w, env, i);
  }

  /** A process whose stream row no longer exists is neither stopped nor replaced. */
  lemma {:induction false} OrphanUntouched(w: World, env: Env, n: int, id: int)
    requires 0 <= n <= |w.streams|
    requires forall k | 0 <= k < |w.streams| :: w.streams[k].id != id
    ensures Get(ReconcileUpTo(w, n, env).procs, id) == Get(w.procs, id)
    decreases n
  {
    if n > 0 {
      var p := ReconcileUpTo(w, n - 1, env);
      OrphanUntouched(w, env, n - 1, id);
      PassKeepsConfigs(w, env, n - 1);
      assert SameConfig(w.streams[n - 1], p.streams[n - 1]);
      UpToStep(w, env, n);
      RowProcAt(p, n - 1, env, id);
    }
  }

  /** The state a pass aims at: every enabled stream has a live process and no disabled
      stream has one. */
  predicate Converged(w: World)
  {
    forall i | 0 <= i < |w.streams| ::
      if w.streams[i].enabled then Get(w.procs, w.streams[i].id).Some? && w.procs[w.streams[i].id].returncode.None?
      else w.streams[i].id !in w.procs
  }

  /** A pass over a converged world changes nothing. */
  lemma {:induction false} ConvergedUnchanged(w: World, env: Env, n: int)
    requires Converged(w) && 0 <= n <= |w.streams|
    ensures ReconcileUpTo(w, n, env) == w
    decreases n
  {
    if n > 0 {
      ConvergedUnchanged(w, env, n - 1);
    }
  }

  /** A stream retired in one pass is started by the next: with a launch that succeeds, it
      is tracked and running after the second pass. */
  lemma DeadRestartedNextPass(w: World, env: Env, i: int, h: Handle)
    requires UniqueIds(w.streams) && 0 <= i < |w.streams|
    requires w.streams[i].enabled && w.streams[i].id in w.procs && w.procs[w.streams[i].id].returncode.Some?
    requires Launch(w.streams[i], env) == Ok(h)
    ensures var w'' := Reconcile(Reconcile(w, env), env);
      Get(w''.procs, w.streams[i].id) == Some(h) && w''.streams[i].status == "running"
  {
    var w' := Reconcile(w, env);
    DeadRetired(w, env, i);
    PassKeepsConfigs(w, env, |w.streams|);
    SameConfigsUnique(w.streams, w'.streams);
    assert SameConfig(w.streams[i], w'.streams[i]);
    LaunchSameConfig(w.streams[i], w'.streams[i], env);
    UntrackedStarted(w', env, i);
  }

  lemma LaunchSameConfig(s: Stream, s': Stream, env: Env)
    requires SameConfig(s, s')
    ensures Launch(s, env) == Launch(s', env)
  {
    assert ConfigOf(s) == ConfigOf(s');
  }

  // ---------------------------------------------------------------------------
  // Directories for today and tomorrow.

  /** The directory of a stream's segments of a day. */
  function DateDir(name: string, d: DateTime): string
    requires ValidDateTime(d)
  {
    FfmpegBuilder.DayDir(name, FfmpegBuilder.FieldsOf(d))
  }

  /** The directories ensure_directories makes for one stream: today's, then tomorrow's;
      a failure ends that stream's attempt. Disabled streams are not looked at. */
  function StreamDirs(s: Stream, today: DateTime, tomorrow: DateTime, makeDir: string -> Option<string>): seq<string>
    requires ValidDateTime(today) && ValidDateTime(tomorrow)
  {
    if !s.enabled then []
    else
      var d0 := DateDir(s.name, today);
      var d1 := DateDir(s.name, tomorrow);
      if makeDir(d0).Some? then []
      else if makeDir(d1).Some? then [d0]
      else [d0, d1]
  }

  function DirsMade(ss: seq<Stream>, today: DateTime, tomorrow: DateTime, makeDir: string -> Option<string>): seq<string>
    requires ValidDateTime(today) && ValidDateTime(tomorrow)
    decreases |ss|
  {
    if |ss| == 0 then []
    else DirsMade(ss[..|ss| - 1], today, tomorrow, makeDir) + StreamDirs(ss[|ss| - 1], today, tomorrow, makeDir)
  }

  lemma DirsMadeStep(ss: seq<Stream>, i: int, today: DateTime, tomorrow: DateTime, makeDir: string -> Option<string>)
    requires ValidDateTime(today) && ValidDateTime(tomorrow) && 0 <= i < |ss|
    ensures DirsMade(ss[..i + 1], today, tomorrow, makeDir) == DirsMade(ss[..i], today, tomorrow, makeDir) + StreamDirs(ss[i], today, tomorrow, makeDir)
  {
    assert ss[..i + 1][..i] == ss[..i];
  }

  /** Every enabled stream gets today's directory when making it succeeds, and tomorrow's
      when both succeed, whatever happens for the other streams. */
  lemma {:induction false} EachStreamHasDirs(ss: seq<Stream>, today: DateTime, tomorrow: DateTime, makeDir: string -> Option<string>, i: int)
    requires ValidDateTime(today) && ValidDateTime(tomorrow) && 0 <= i < |ss| && ss[i].enabled
    ensures var made := DirsMade(ss, today, tomorrow, makeDir);
      var d0 := DateDir(ss[i].name, today);
      var d1 := DateDir(ss[i].name, tomorrow);
      && (makeDir(d0).None? ==> d0 in made)
      && (makeDir(d0).None? && makeDir(d1).None? ==> d1 in made)
    decreases |ss|
  {
    var init := ss[..|ss| - 1];
    var made := DirsMade(ss, today, tomorrow, makeDir);
    if i < |ss| - 1 {
      assert init[i] == ss[i];
      EachStreamHasDirs(init, today, tomorrow, makeDir, i);
      assert made == DirsMade(init, today, tomorrow, makeDir) + StreamDirs(ss[|ss| - 1], today, tomorrow, makeDir);
    } else {
      var sd := StreamDirs(ss[i], today, tomorrow, makeDir);
      assert made == DirsMade(init, today, tomorrow, makeDir) + sd;
      if makeDir(DateDir(ss[i].name, today)).None? {
        assert sd[0] in made;
      }
    }
  }

  /** The directories of today and tomorrow for the enabled streams. */
  function EnabledDirs(ss: seq<Stream>, today: DateTime, tomorrow: DateTime): set<string>
    requires ValidDateTime(today) && ValidDateTime(tomorrow)
  {
    (set i | 0 <= i < |ss| && ss[i].enabled :: DateDir(ss[i].name, today))
    + (set i | 0 <= i < |ss| && ss[i].enabled :: DateDir(ss[i].name, tomorrow))
  }

  /** Only the day directories of enabled streams are made. */
  lemma {:induction false} OnlyEnabledDirs(ss: seq<Stream>, today: DateTime, tomorrow: DateTime, makeDir: string -> Option<string>)
    requires ValidDateTime(today) && ValidDateTime(tomorrow)
    ensures forall k | 0 <= k < |DirsMade(ss, today, tomorrow, makeDir)| ::
      DirsMade(ss, today, tomorrow, makeDir)[k] in EnabledDirs(ss, today, tomorrow)
    decreases |ss|
  {
    if |ss| > 0 {
      var init := ss[..|ss| - 1];
      var s := ss[|ss| - 1];
      var made := DirsMade(ss, today, tomorrow, makeDir);
      var a := DirsMade(init, today, tomorrow, makeDir);
      var sd := StreamDirs(s, today, tomorrow, makeDir);
      OnlyEnabledDirs(init, today, tomorrow, makeDir);
      EnabledDirsPrefix(ss, today, tomorrow);
      forall k | 0 <= k < |made| ensures made[k] in EnabledDirs(ss, today, tomorrow) {
        if k < |a| {
          assert made[k] == a[k];
        } else {
          assert made[k] == sd[k - |a|];
          assert s.enabled;
          assert ss[|ss| - 1] == s;
        }
      }
    }
  }

  lemma EnabledDirsPrefix(ss: seq<Stream>, today: DateTime, tomorrow: DateTime)
    requires ValidDateTime(today) && ValidDateTime(tomorrow) && |ss| > 0
    ensures EnabledDirs(ss[..|ss| - 1], today, tomorrow) <= EnabledDirs(ss, today, tomorrow)
  {
    var init := ss[..|ss| - 1];
    forall x | x in EnabledDirs(init, today, tomorrow) ensures x in EnabledDirs(ss, today, tomorrow) {
      var i :| 0 <= i < |init| && init[i].enabled && (x == DateDir(init[i].name, today) || x == DateDir(init[i].name, tomorrow));
      assert init[i] == ss[i];
    }
  }

  /** For a stream name without '%', the directory made for a day is the one the capture
      process writes that day's segment files to. */
  lemma DateDirHoldsSegments(name: string, fmt: string, d: DateTime)
    requires ValidDateTime(d) && '%' !in name && '%' !in fmt
    ensures DateDir(name, d) == FfmpegBuilder.RecordingsRoot + name + "/" + DatePath(d)
    ensures FfmpegBuilder.Strftime(FfmpegBuilder.OutputPattern(name, fmt), FfmpegBuilder.FieldsOf(d))
      == DateDir(name, d) + "/" + FfmpegBuilder.SegmentFileName(d, fmt)
  {
    FfmpegBuilder.DayDirHoldsSegments(name, fmt, d);
  }

  // ---------------------------------------------------------------------------
  // The manager and the stream table.

  /** The stream and event tables as the store holds them. */
  class StreamStore {
    var streams: seq<Stream>
    var events: seq<Event>

    constructor(streams: seq<Stream>, events: seq<Event>)
      ensures this.streams == streams && this.events == events
    {
      this.streams := streams;
      this.events := events;
    }
  }

  /** The set of Terminate signals for the live processes among the given ids. */
  function Terminations(m: map<int, Handle>, ids: set<int>): set<Signal>
  {
    set id | id in ids && id in m && m[id].returncode.None? :: Terminate(m[id].pid)
  }

  /** The signals in a sequence of them. */
  function Sent(signals: seq<Signal>): set<Signal>
  {
    set x | x in signals
  }

  class Manager {
    var processes: map<int, Handle>
    var running: bool
    var signals: seq<Signal>

    constructor()
      ensures processes == map[] && !running && signals == []
    {
      processes := map[];
      running := false;
      signals := [];
    }

    function WorldOf(db: StreamStore): World
      reads this, db
    {
      World(processes, db.streams, db.events, signals)
    }

    /** Marks the manager running; the periodic monitor loop is not modelled. */
    method Start()
      modifies this
      ensures running && processes == old(processes) && signals == old(signals)
    {
      running := true;
    }

    /** Terminates every live process, in no particular order, and forgets them all. */
    method Stop()
      modifies this
      ensures !running && processes == map[]
      ensures |old(signals)| <= |signals| && signals[..|old(signals)|] == old(signals)
      ensures Sent(signals[|old(signals)|..]) == Terminations(old(processes), old(processes).Keys)
    {
      running := false;
      var remaining := processes.Keys;
      ghost var done: set<int> := {};
      ghost var sent: seq<Signal> := [];
      while |remaining| > 0
        invariant remaining + done == old(processes).Keys && remaining !! done
        invariant processes == old(processes) && !running
        invariant signals == old(signals) + sent
        invariant Sent(sent) == Terminations(processes, done)
        decreases remaining
      {
        NonEmptyHasMember(remaining);
        var id :| id in remaining;
        var h := processes[id];
        StopStep(processes, done, id, sent);
        if h.returncode.None? {
          signals := signals + [Terminate(h.pid)];
          sent := sent + [Terminate(h.pid)];
        }
        remaining := remaining - {id};
        done := done + {id};
      }
      assert signals[|old(signals)|..] == sent;
      processes := map[];
    }

    method StartStream(db: StreamStore, i: int, env: Env)
      requires 0 <= i < |db.streams|
      modifies this, db
      ensures WorldOf(db) == AfterStart(old(WorldOf(db)), i, env)
      ensures running == old(running)
    {
      var s := db.streams[i];
      var dirError := env.makeDir(FfmpegBuilder.RecordingsRoot + s.name);
      if dirError.Some? {
        db.streams := db.streams[i := s.(status := "error", lastError := Some(dirError.value))];
        return;
      }
      var builder := new FfmpegBuilder.Builder(ConfigOf(s));
      var cmd := builder.BuildCommand(env.tokenise);
      assert cmd == FfmpegBuilder.CommandFor(ConfigOf(s), env.tokenise);
      if cmd.Err? {
        db.streams := db.streams[i := s.(status := "error", lastError := Some(cmd.error))];
        return;
      }
      var launched := env.spawn(cmd.value);
      if launched.Err? {
        db.streams := db.streams[i := s.(status := "error", lastError := Some(launched.error))];
        return;
      }
      processes := processes[s.id := launched.value];
      db.streams := db.streams[i := s.(status := "running", lastUp := Some(env.now), lastError := None)];
      db.events := db.events + [Event(s.id, "info", StartedMessage)];
    }

    method HandleFailure(db: StreamStore, i: int)
      requires 0 <= i < |db.streams|
      modifies this, db
      ensures WorldOf(db) == AfterFailure(old(WorldOf(db)), i)
      ensures running == old(running)
    {
      var s := db.streams[i];
      processes := processes - {s.id};
      db.streams := db.streams[i := s.(status := "error", lastError := Some(DiedError))];
      db.events := db.events + [Event(s.id, "error", DiedMessage)];
    }

    method StopStream(db: StreamStore, id: int, env: Env)
      modifies this, db
      ensures WorldOf(db) == AfterStop(old(WorldOf(db)), id, env)
      ensures running == old(running)
    {
      if id in processes {
        var h := processes[id];
        if h.returncode.None? {
          signals := signals + [Terminate(h.pid)];
          if !env.exitsInGrace(h.pid) {
            signals := signals + [Kill(h.pid)];
          }
        }
        processes := processes - {id};
        db.streams := MarkStopped(db.streams, id);
      }
    }

    /** The body of reconcile_streams' loop, for the row at index i. */
    method ReconcileStream(db: StreamStore, i: int, env: Env)
      requires 0 <= i < |db.streams|
      modifies this, db
      ensures WorldOf(db) == ReconcileRow(old(WorldOf(db)), i, env)
      ensures running == old(running)
    {
      ghost var p := WorldOf(db);
      ghost var q := ReconcileRow(p, i, env);
      var s := db.streams[i];
      if s.enabled {
        if s.id !in processes {
          assert q == AfterStart(p, i, env);
          StartStream(db, i, env);
        } else if processes[s.id].returncode.Some? {
          assert q == AfterFailure(p, i);
          HandleFailure(db, i);
        } else {
          assert q == p;
        }
      } else if s.id in processes {
        assert q == AfterStop(p, s.id, env);
        StopStream(db, s.id, env);
      } else {
        assert q == p;
      }
    }

    /** One reconcile pass over the stream table, in table order. */
    method ReconcileStreams(db: StreamStore, env: Env)
      modifies this, db
      ensures WorldOf(db) == Reconcile(old(WorldOf(db)), env)
      ensures running == old(running)
    {
      ghost var w := WorldOf(db);
      var n := |db.streams|;
      var i := 0;
      while i < n
        invariant 0 <= i <= n == |w.streams|
        invariant WorldOf(db) == ReconcileUpTo(w, i, env)
        invariant running == old(running)
      {
        ReconcileStream(db, i, env);
        UpToStep(w, env, i + 1);
        i := i + 1;
      }
    }

    /** The body of ensure_directories for one stream: today's directory, then tomorrow's,
        the first failure ending the attempt; the directories made, in order. */
    method EnsureStreamDirectories(s: Stream, today: DateTime, tomorrow: DateTime, makeDir: string -> Option<string>)
      returns (made: seq<string>)
      requires ValidDateTime(today) && ValidDateTime(tomorrow)
      ensures made == StreamDirs(s, today, tomorrow, makeDir)
    {
      made := [];
      if !s.enabled {
        return;
      }
      var dirs := [DateDir(s.name, today), DateDir(s.name, tomorrow)];
      var j := 0;
      var failed := false;
      while j < 2 && !failed
        invariant 0 <= j <= 2
        invariant made == dirs[..j]
        invariant forall k | 0 <= k < j :: makeDir(dirs[k]).None?
        invariant failed ==> j < 2 && makeDir(dirs[j]).Some?
        decreases 2 - j, if failed then 0 else 1
      {
        if makeDir(dirs[j]).Some? {
          failed := true;
        } else {
          made := made + [dirs[j]];
          j := j + 1;
        }
      }
      assert makeDir(dirs[0]) == makeDir(DateDir(s.name, today));
      assert makeDir(dirs[1]) == makeDir(DateDir(s.name, tomorrow));
      if j == 0 {
        assert made == [];
      } else if j == 1 {
        assert made == [dirs[0]];
      } else {
        assert made == dirs;
      }
    }

    /** ensure_directories: today's and tomorrow's directories for every enabled stream;
        the directories it made, in order. */
    method EnsureDirectories(streams: seq<Stream>, today: DateTime, tomorrow: DateTime, makeDir: string -> Option<string>)
      returns (made: seq<string>)
      requires ValidDateTime(today) && ValidDateTime(tomorrow)
      ensures made == DirsMade(streams, today, tomorrow, makeDir)
    {
      made := [];
      var i := 0;
      while i < |streams|
        invariant 0 <= i <= |streams|
        invariant made == DirsMade(streams[..i], today, tomorrow, makeDir)
      {
        DirsMadeStep(streams, i, today, tomorrow, makeDir);
        var dirs := EnsureStreamDirectories(streams[i], today, tomorrow, makeDir);
        made := made + dirs;
        i := i + 1;
      }
      assert streams[..i] == streams;
    }
  }

  lemma NonEmptyHasMember(s: set<int>)
    requires |s| > 0
    ensures exists x :: x in s
  {
    if forall x :: x !in s {
      assert false;
    }
  }

  lemma SentAppend(sent: seq<Signal>, x: Signal)
    ensures Sent(sent + [x]) == Sent(sent) + {x}
  {
    assert (sent + [x])[|sent|] == x;
    forall y | y in sent ensures y in sent + [x] {
      var k :| 0 <= k < |sent| && sent[k] == y;
      assert (sent + [x])[k] == y;
    }
  }

  /** One step of stop(): the signals sent so far still match the processes looked at. */
  lemma StopStep(m: map<int, Handle>, done: set<int>, id: int, sent: seq<Signal>)
    requires id in m && id !in done && Sent(sent) == Terminations(m, done)
    ensures m[id].returncode.None? ==> Sent(sent + [Terminate(m[id].pid)]) == Terminations(m, done + {id})
    ensures m[id].returncode.Some? ==> Sent(sent) == Terminations(m, done + {id})
  {
    TerminationsAdd(m, done, id);
    SentAppend(sent, Terminate(m[id].pid));
  }

  lemma TerminationsAdd(m: map<int, Handle>, done: set<int>, id: int)
    requires id in m && id !in done
    ensures Terminations(m, done + {id}) == Terminations(m, done) + (if m[id].returncode.None? then {Terminate(m[id].pid)} else {})
  {
  }
}

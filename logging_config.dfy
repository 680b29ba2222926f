/** Logging setup: one-time configuration of a named logger with a console handler and, when
    radio logs are enabled, a rotating file handler whose file name is sanitised; the stream
    loggers and the `radio_capture` logger family.

    The logger registry of the logging library is a map from names to loggers; asking for a
    name that is not there registers a fresh logger. The environment variables and whether
    creating the log directory or the file handler fails are inputs. */
module LoggingConfig {
  import opened Common

  /** The handlers setup adds: the console, and a file rotated every `intervalDays` days
      keeping `backupCount` old files. */
  datatype Handler = Console | RotatingFile(path: string, intervalDays: int, backupCount: int)

  datatype Logger = Logger(name: string, level: int, propagate: bool, handlers: seq<Handler>)

  /** The registry of the logging library and the set of names setup has configured. */
  datatype Registry = Registry(loggers: map<string, Logger>, configured: set<string>)

  /** ENABLE_RADIO_LOGS and LOG_DIR (None where unset), and whether making the log directory
      or opening the log file raises. */
  datatype LogEnv = LogEnv(enableRadioLogs: Option<string>, logDir: Option<string>, fileSetupFails: bool)

  const RootName: string := "radio_capture"
  const DefaultLogDir: string := "/data/logs"
  const NotSet: int := 0
  const Info: int := 20
  const StreamLoggerPrefix: string := "radio_capture.stream."
  const StreamFilePrefix: string := "stream_"
  const RotationDays: int := 3
  const BackupCount: int := 10

  // ---------------------------------------------------------------------------
  // File names.

  predicate IsAlnum(c: char)
  {
    'a' <= c <= 'z' || 'A' <= c <= 'Z' || '0' <= c <= '9'
  }

  /** The characters a log file name keeps. */
  predicate FileNameChar(c: char)
  {
    IsAlnum(c) || c == '-' || c == '_' || c == '.'
  }

  /** The file base with every character other than letters, digits, '-', '_' and '.'
      replaced by '_'. */
  function Sanitise(s: string): (r: string)
    ensures |r| == |s|
    ensures forall i | 0 <= i < |r| :: FileNameChar(r[i])
    ensures forall i | 0 <= i < |s| :: FileNameChar(s[i]) ==> r[i] == s[i]
    ensures forall i | 0 <= i < |s| :: !FileNameChar(s[i]) ==> r[i] == '_'
  {
    seq(|s|, i requires 0 <= i < |s| => if FileNameChar(s[i]) then s[i] else '_')
  }

  /** A name already made of kept characters is its own sanitised form, and only such a
      name is. */
  lemma SanitiseFixed(s: string)
    ensures Sanitise(s) == s <==> forall i | 0 <= i < |s| :: FileNameChar(s[i])
  {
    if Sanitise(s) == s {
      forall i | 0 <= i < |s| ensures FileNameChar(s[i]) {
        assert FileNameChar(Sanitise(s)[i]);
      }
    }
  }

  /** Sanitising twice is sanitising once. */
  lemma SanitiseIdempotent(s: string)
    ensures Sanitise(Sanitise(s)) == Sanitise(s)
  {
    SanitiseFixed(Sanitise(s));
  }

  /** Sanitising works character by character. */
  lemma SanitiseConcat(a: string, b: string)
    ensures Sanitise(a + b) == Sanitise(a) + Sanitise(b)
  {
    var l, r := Sanitise(a + b), Sanitise(a) + Sanitise(b);
    forall i | 0 <= i < |a + b| ensures l[i] == r[i] {
      if i < |a| {
        assert (a + b)[i] == a[i];
      } else {
        assert (a + b)[i] == b[i - |a|];
      }
    }
  }

  lemma SanitiseSpace()
    ensures Sanitise("Kan Bet") == "Kan_Bet"
    ensures Sanitise("stream_1_Kan Reka") == "stream_1_Kan_Reka"
  {
    assert !FileNameChar(' ');
  }

  /** log_dir / "<base>.log", the base sanitised. */
  function LogFilePath(dir: string, base: string): (p: string)
  {
    JoinPath(dir, Sanitise(base) + ".log")
  }

  /** The file base: the given file name when there is a non-empty one, the logger name
      otherwise. */
  function FileBase(name: string, fileName: Option<string>): string
  {
    if fileName.Some? && fileName.value != "" then fileName.value else name
  }

  // ---------------------------------------------------------------------------
  // Whether radio logs are enabled.

  function LowerChar(c: char): char
  {
    if 'A' <= c <= 'Z' then (c as int - 'A' as int + 'a' as int) as char else c
  }

  function Lower(s: string): (r: string)
    ensures |r| == |s|
  {
    seq(|s|, i requires 0 <= i < |s| => LowerChar(s[i]))
  }

  /** ENABLE_RADIO_LOGS, read as '' when unset, lowercased is one of true, 1 and yes. */
  predicate EnableLogs(v: Option<string>)
  {
    var s := if v.Some? then v.value else "";
    Lower(s) in {"true", "1", "yes"}
  }

  lemma EnableLogsValues()
    ensures !EnableLogs(None) && !EnableLogs(Some("")) && !EnableLogs(Some("on"))
    ensures EnableLogs(Some("true")) && EnableLogs(Some("True")) && EnableLogs(Some("TRUE"))
    ensures EnableLogs(Some("1")) && EnableLogs(Some("Yes"))
  {
    assert Lower("") == "";
    assert Lower("on") == "on";
    assert Lower("True") == "true";
    assert Lower("TRUE") == "true";
    assert Lower("true") == "true";
    assert Lower("1") == "1";
    assert Lower("Yes") == "yes";
  }

  // ---------------------------------------------------------------------------
  // setup_logging as a function of the registry.

  /** logging.getLogger(name): the registered logger, or a fresh one with no level, no
      handlers and propagation on. */
  function Lookup(loggers: map<string, Logger>, name: string): (l: Logger)
    ensures name !in loggers ==> l == Logger(name, NotSet, true, [])
  {
    if name in loggers then loggers[name] else Logger(name, NotSet, true, [])
  }

  /** The file handler a first setup adds, if any. */
  function FileHandler(name: string, fileName: Option<string>, env: LogEnv): Option<Handler>
  {
    if !EnableLogs(env.enableRadioLogs) || env.fileSetupFails then None
    else
      var dir := if env.logDir.Some? then env.logDir.value else DefaultLogDir;
      Some(RotatingFile(LogFilePath(dir, FileBase(name, fileName)), RotationDays, BackupCount))
  }

  function HandlersOf(h: Option<Handler>): seq<Handler>
  {
    if h.Some? then [h.value] else []
  }

  /** setup_logging(name, level, fileName): the new registry and the logger returned. */
  function Setup(r: Registry, name: string, level: int, fileName: Option<string>, env: LogEnv): (Registry, Logger)
  {
    var l := Lookup(r.loggers, name);
    if name in r.configured then (r.(loggers := r.loggers[name := l]), l)
    else
      var l' := l.(level := level, propagate := false,
                   handlers := l.handlers + [Console] + HandlersOf(FileHandler(name, fileName, env)));
      (Registry(r.loggers[name := l'], r.configured + {name}), l')
  }

  function CountConsole(hs: seq<Handler>): nat
    decreases |hs|
  {
    if |hs| == 0 then 0 else CountConsole(hs[..|hs| - 1]) + (if hs[|hs| - 1] == Console then 1 else 0)
  }

  lemma {:induction false} CountConsoleConcat(a: seq<Handler>, b: seq<Handler>)
    ensures CountConsole(a + b) == CountConsole(a) + CountConsole(b)
    decreases |b|
  {
    if |b| == 0 {
      assert a + b == a;
    } else {
      assert (a + b)[..|a + b| - 1] == a + b[..|b| - 1];
      CountConsoleConcat(a, b[..|b| - 1]);
    }
  }

  /** Adding the console handler and at most one file handler adds exactly one console
      handler and keeps the handlers there were. */
  lemma HandlersAdded(before: seq<Handler>, extra: seq<Handler>)
    requires |extra| <= 1 && (|extra| == 1 ==> extra[0].RotatingFile?)
    ensures (before + [Console] + extra)[..|before|] == before
    ensures CountConsole(before + [Console] + extra) == CountConsole(before) + 1
  {
    CountConsoleConcat(before + [Console], extra);
    CountConsoleConcat(before, [Console]);
    assert [Console][..0] == [];
    if |extra| == 1 {
      assert extra[..0] == [];
    }
  }

  /** The first setup of a name registers it as configured, sets the level, turns
      propagation off and adds exactly one console handler, then a rotating file handler
      exactly when radio logs are enabled and the file can be set up, writing to the
      sanitised file base under the log directory. */
  lemma FirstSetup(r: Registry, name: string, level: int, fileName: Option<string>, env: LogEnv)
    requires name !in r.configured
    ensures var r' := Setup(r, name, level, fileName, env).0;
      var l := Setup(r, name, level, fileName, env).1;
      var before := Lookup(r.loggers, name).handlers;
      && r'.configured == r.configured + {name}
      && name in r'.loggers && r'.loggers[name] == l
      && l.name == Lookup(r.loggers, name).name && l.level == level && !l.propagate
      && l.handlers[..|before|] == before
      && CountConsole(l.handlers) == CountConsole(before) + 1
      && |l.handlers| == |before| + (if EnableLogs(env.enableRadioLogs) && !env.fileSetupFails then 2 else 1)
      && (EnableLogs(env.enableRadioLogs) && !env.fileSetupFails ==>
            l.handlers[|before| + 1] == RotatingFile(
              LogFilePath(if env.logDir.Some? then env.logDir.value else DefaultLogDir, FileBase(name, fileName)),
              RotationDays, BackupCount))
  {
    HandlersAdded(Lookup(r.loggers, name).handlers, HandlersOf(FileHandler(name, fileName, env)));
  }

  /** Setting up a name a second time returns the logger of the first setup and changes
      nothing, whatever level, file name or environment it is given. */
  lemma SetupIdempotent(r: Registry, name: string, level: int, fileName: Option<string>, env: LogEnv,
                        level2: int, fileName2: Option<string>, env2: LogEnv)
    ensures var (r1, l1) := Setup(r, name, level, fileName, env);
      Setup(r1, name, level2, fileName2, env2) == (r1, l1)
  {
    var (r1, l1) := Setup(r, name, level, fileName, env);
    assert name in r1.configured && r1.loggers[name] == l1;
    assert r1.loggers[name := l1] == r1.loggers;
  }

  /** Setup touches only the logger of its own name. */
  lemma SetupLocal(r: Registry, name: string, level: int, fileName: Option<string>, env: LogEnv, other: string)
    requires other != name
    ensures var r' := Setup(r, name, level, fileName, env).0;
      && (other in r'.loggers <==> other in r.loggers)
      && (other in r.loggers ==> r'.loggers[other] == r.loggers[other])
      && (other in r'.configured <==> other in r.configured)
  {
  }

  /** A stream's logger name: radio_capture.stream.<id>.<name>. */
  function StreamLoggerName(streamId: int, streamName: string): string
  {
    StreamLoggerPrefix + (IntToString(streamId) + "." + streamName)
  }

  /** A stream's log file base: stream_<id>_<name>. */
  function StreamFileBase(streamId: int, streamName: string): string
  {
    StreamFilePrefix + (IntToString(streamId) + "_" + streamName)
  }

  /** A text made of a fixed prefix, an id and a separator that is not part of any id
      rendering, then the rest, tells the id and the rest apart. */
  lemma TaggedIdInjective(prefix: string, c: char, id1: int, rest1: string, id2: int, rest2: string)
    requires c != '-' && !IsDigit(c)
    requires prefix + (IntToString(id1) + [c] + rest1) == prefix + (IntToString(id2) + [c] + rest2)
    ensures id1 == id2 && rest1 == rest2
  {
    var t1, t2 := IntToString(id1) + [c] + rest1, IntToString(id2) + [c] + rest2;
    assert t1 == (prefix + t1)[|prefix|..];
    assert t2 == (prefix + t2)[|prefix|..];
    IdBeforeSeparator(id1, c, rest1);
    IdBeforeSeparator(id2, c, rest2);
    IntToStringInjective(id1, id2);
    assert rest1 == t1[|IntToString(id1)| + 1..];
    assert rest2 == t2[|IntToString(id2)| + 1..];
  }

  /** A stream logger's name tells its stream id and name apart: no two streams share a
      logger. */
  lemma StreamLoggerNameInjective(id1: int, name1: string, id2: int, name2: string)
    requires StreamLoggerName(id1, name1) == StreamLoggerName(id2, name2)
    ensures id1 == id2 && name1 == name2
  {
    TaggedIdInjective(StreamLoggerPrefix, '.', id1, name1, id2, name2);
  }

  /** The rendering of an id is what comes before the first separator that follows it. */
  lemma IdBeforeSeparator(id: int, c: char, rest: string)
    requires c != '-' && !IsDigit(c)
    ensures SplitOn(IntToString(id) + [c] + rest, c)[0] == IntToString(id)
  {
    var s := IntToString(id);
    assert c !in s by {
      if id < 0 {
        assert s == [s[0]] + s[1..];
        assert forall k | 0 <= k < |s[1..]| :: s[1..][k] != c;
      }
    }
    SplitOnFirst(s, c, rest);
  }

  /** The log files of streams with distinct ids are distinct, even after sanitising. */
  lemma StreamFilesDistinct(id1: int, name1: string, id2: int, name2: string)
    requires id1 != id2
    ensures Sanitise(StreamFileBase(id1, name1)) != Sanitise(StreamFileBase(id2, name2))
  {
    SanitisedStreamBase(id1, name1);
    SanitisedStreamBase(id2, name2);
    if Sanitise(StreamFileBase(id1, name1)) == Sanitise(StreamFileBase(id2, name2)) {
      TaggedIdInjective(StreamFilePrefix, '_', id1, Sanitise(name1), id2, Sanitise(name2));
    }
  }

  /** Sanitising a stream's file base leaves the prefix and the id as they are. */
  lemma SanitisedStreamBase(id: int, name: string)
    ensures Sanitise(StreamFileBase(id, name)) == StreamFilePrefix + (IntToString(id) + "_" + Sanitise(name))
  {
    var digits := IntToString(id);
    var head := StreamFilePrefix + (digits + "_");
    assert StreamFileBase(id, name) == head + name;
    forall k | 0 <= k < |head| ensures FileNameChar(head[k]) {
      if k >= |StreamFilePrefix| && k - |StreamFilePrefix| < |digits| {
        assert head[k] == digits[k - |StreamFilePrefix|];
        if id < 0 && k - |StreamFilePrefix| > 0 {
          assert digits[k - |StreamFilePrefix|] == digits[1..][k - |StreamFilePrefix| - 1];
        }
      }
    }
    SanitiseFixed(head);
    SanitiseConcat(head, name);
  }

  /** get_logger(name): radio_capture.<name> for a non-empty name, radio_capture otherwise. */
  function LoggerName(name: Option<string>): (full: string)
    ensures full == RootName <==> name.None? || name.value == ""
    ensures full != RootName ==> StartsWith(full, RootName + ".") && full[|RootName| + 1..] == name.value
  {
    if name.Some? && name.value != "" then RootName + "." + name.value else RootName
  }

  /** Every logger get_logger hands out lies in the application's namespace, and distinct
      non-empty names give distinct loggers. */
  lemma LoggerNameInjective(a: Option<string>, b: Option<string>)
    requires LoggerName(a) == LoggerName(b)
    ensures a.None? || a.value == "" <==> b.None? || b.value == ""
    ensures a.Some? && a.value != "" ==> b.Some? && a.value == b.value
  {
  }

  /** The registry and the configured set, as the logging library and this module hold
      them. */
  class LoggingState {
    var loggers: map<string, Logger>
    var configured: set<string>

    constructor()
      ensures loggers == map[] && configured == {}
    {
      loggers := map[];
      configured := {};
    }

    function State(): Registry
      reads this
    {
      Registry(loggers, configured)
    }

    method GetLogger(name: string) returns (l: Logger)
      modifies this
      ensures l == Lookup(old(loggers), name)
      ensures loggers == old(loggers)[name := l] && configured == old(configured)
    {
      if name in loggers {
        l := loggers[name];
      } else {
        l := Logger(name, NotSet, true, []);
        loggers := loggers[name := l];
      }
    }

    method SetupLogging(name: string, level: int, fileName: Option<string>, env: LogEnv) returns (l: Logger)
      modifies this
      ensures (State(), l) == Setup(old(State()), name, level, fileName, env)
    {
      l := GetLogger(name);
      if name in configured {
        return;
      }
      configured := configured + {name};
      var handlers := l.handlers + [Console];
      if EnableLogs(env.enableRadioLogs) {
        if !env.fileSetupFails {
          var dir := if env.logDir.Some? then env.logDir.value else DefaultLogDir;
          var base := FileBase(name, fileName);
          handlers := handlers + [RotatingFile(LogFilePath(dir, base), RotationDays, BackupCount)];
        }
      }
      assert handlers == l.handlers + [Console] + HandlersOf(FileHandler(name, fileName, env));
      l := l.(level := level, propagate := false, handlers := handlers);
      loggers := loggers[name := l];
      assert loggers == old(loggers)[name := l];
    }

    method GetStreamLogger(streamName: string, streamId: int, env: LogEnv) returns (l: Logger)
      modifies this
      ensures (State(), l) == Setup(old(State()), StreamLoggerName(streamId, streamName), Info,
                                    Some(StreamFileBase(streamId, streamName)), env)
    {
      l := SetupLogging(StreamLoggerName(streamId, streamName), Info, Some(StreamFileBase(streamId, streamName)), env);
    }

    method GetNamedLogger(name: Option<string>) returns (l: Logger)
      modifies this
      ensures l == Lookup(old(loggers), LoggerName(name))
      ensures loggers == old(loggers)[LoggerName(name) := l] && configured == old(configured)
    {
      var full := if name.Some? && name.value != "" then RootName + "." + name.value else RootName;
      l := GetLogger(full);
    }
  }
}

/** The daily-summary driver: reads the channel configuration and runs the summary script
    once per channel, then exits 0 when every channel succeeded and 1 otherwise.

    A channel is a JSON object, modelled as a map from keys to (string) values. Reading the
    configuration file and running the child process are parameters: the file arrives as a
    `ConfigFile`, and `launch` gives the child's return code for an argument vector, or
    None when starting or waiting for it raised an exception. */
module RunSummaries {
  import opened Common
  import opened Timestamps

  type Channel = map<string, string>

  /** The configuration file as read: missing or unreadable, not JSON, or parsed (with the
      value of its "channels" key, when there is one). */
  datatype ConfigFile = Unreadable | NotJson | Parsed(channels: Option<seq<Channel>>)

  const RequiredFields: seq<string> :=
    ["timezone", "target_language", "telegram_channel_id", "telegram_bot_token"]

  /** `load_channels_config`: the channel list, or exit code 1. */
  function LoadChannels(config: ConfigFile): (r: Result<seq<Channel>, int>)
  {
    match config
    case Unreadable => Err(1)
    case NotJson => Err(1)
    case Parsed(channels) => if channels.None? then Err(1) else Ok(channels.value)
  }

  /** The fields of `fields` the channel lacks, in their order. */
  function Missing(ch: Channel, fields: seq<string>): (m: seq<string>)
    decreases |fields|
  {
    if fields == [] then []
    else
      var rest := Missing(ch, fields[1..]);
      if fields[0] in ch then rest else [fields[0]] + rest
  }

  /** A field is reported missing exactly when it is required and absent, and nothing is
      missing exactly when every required field is present. */
  lemma {:induction false} MissingExactly(ch: Channel, fields: seq<string>)
    ensures forall f :: f in Missing(ch, fields) <==> f in fields && f !in ch
    ensures Missing(ch, fields) == [] <==> forall k | 0 <= k < |fields| :: fields[k] in ch
    decreases |fields|
  {
    if fields != [] {
      MissingExactly(ch, fields[1..]);
      assert forall f :: f in fields <==> f == fields[0] || f in fields[1..];
      if forall k | 0 <= k < |fields[1..]| :: fields[1..][k] in ch {
        forall k | 0 <= k < |fields| && k > 0
          ensures fields[k] in ch
        {
          assert fields[k] == fields[1..][k - 1];
        }
      }
    }
  }

  /** The channel has every required field. */
  predicate Complete(ch: Channel)
  {
    "timezone" in ch && "target_language" in ch && "telegram_channel_id" in ch
    && "telegram_bot_token" in ch
  }

  /** Nothing is missing exactly when the channel is complete. */
  lemma MissingNoneIffComplete(ch: Channel)
    ensures Missing(ch, RequiredFields) == [] <==> Complete(ch)
  {
    MissingExactly(ch, RequiredFields);
    var r := RequiredFields;
    assert r[0] == "timezone" && r[1] == "target_language";
    assert r[2] == "telegram_channel_id" && r[3] == "telegram_bot_token";
  }

  /** The options the child is given, in order. */
  const OptionFlags: seq<string> :=
    ["--date", "--timezone", "--target-language", "--telegram-channel-id", "--telegram-bot-token"]

  /** The child's argument vector: interpreter, script, then each option and its value. */
  function Command(python: string, script: string, date: string, ch: Channel): (cmd: seq<string>)
    requires Complete(ch)
  {
    [python, script,
     "--date", date,
     "--timezone", ch["timezone"],
     "--target-language", ch["target_language"],
     "--telegram-channel-id", ch["telegram_channel_id"],
     "--telegram-bot-token", ch["telegram_bot_token"]]
  }

  /** The vector has twelve entries: interpreter and script, then the five options in order,
      each followed by its value: the date, then the channel's required fields in order. */
  lemma CommandShape(python: string, script: string, date: string, ch: Channel)
    requires Complete(ch)
    ensures var cmd := Command(python, script, date, ch);
      && |cmd| == 12 && cmd[0] == python && cmd[1] == script
      && (forall k | 0 <= k < 5 :: cmd[2 * k + 2] == OptionFlags[k])
      && cmd[3] == date
      && (forall k | 0 <= k < 4 :: cmd[2 * k + 5] == ch[RequiredFields[k]])
  {
    var cmd := Command(python, script, date, ch);
    forall k | 0 <= k < 5
      ensures cmd[2 * k + 2] == OptionFlags[k]
    {
      if k == 0 { assert cmd[2] == OptionFlags[0]; }
      else if k == 1 { assert cmd[4] == OptionFlags[1]; }
      else if k == 2 { assert cmd[6] == OptionFlags[2]; }
      else if k == 3 { assert cmd[8] == OptionFlags[3]; }
      else { assert cmd[10] == OptionFlags[4]; }
    }
    forall k | 0 <= k < 4
      ensures cmd[2 * k + 5] == ch[RequiredFields[k]]
    {
      if k == 0 { assert RequiredFields[0] == "timezone"; }
      else if k == 1 { assert RequiredFields[1] == "target_language"; }
      else if k == 2 { assert RequiredFields[2] == "telegram_channel_id"; }
      else { assert RequiredFields[3] == "telegram_bot_token"; }
    }
  }

  /** Whether one channel succeeded: it has every required field and its child returned 0. */
  function ChannelSucceeds(python: string, script: string, date: string, ch: Channel,
                           launch: seq<string> -> Option<int>): bool
  {
    Complete(ch) && launch(Command(python, script, date, ch)) == Some(0)
  }

  /** The results of the channel loop, in channel order. */
  function Results(python: string, script: string, date: string, channels: seq<Channel>,
                   launch: seq<string> -> Option<int>): (rs: seq<bool>)
    ensures |rs| == |channels|
    decreases |channels|
  {
    if channels == [] then []
    else
      Results(python, script, date, channels[..|channels| - 1], launch)
        + [ChannelSucceeds(python, script, date, channels[|channels| - 1], launch)]
  }

  /** The vectors the loop launches: one per complete channel, in channel order. */
  function Launched(python: string, script: string, date: string, channels: seq<Channel>)
    : seq<seq<string>>
    decreases |channels|
  {
    if channels == [] then []
    else
      var init := Launched(python, script, date, channels[..|channels| - 1]);
      var ch := channels[|channels| - 1];
      if Complete(ch) then init + [Command(python, script, date, ch)] else init
  }

  /** `run_summary_for_channel`: launch and read the return code. */
  method RunChannel(python: string, script: string, date: string, ch: Channel,
                    launch: seq<string> -> Option<int>)
    returns (ok: bool, cmd: seq<string>)
    requires Complete(ch)
    ensures cmd == Command(python, script, date, ch)
    ensures ok <==> launch(cmd) == Some(0)
  {
    cmd := [python, script,
            "--date", date,
            "--timezone", ch["timezone"],
            "--target-language", ch["target_language"],
            "--telegram-channel-id", ch["telegram_channel_id"],
            "--telegram-bot-token", ch["telegram_bot_token"]];
    var rc := launch(cmd);
    ok := rc.Some? && rc.value == 0;
  }

  /** The channel loop: a channel missing a field fails without launching anything. */
  method RunChannels(python: string, script: string, date: string, channels: seq<Channel>,
                     launch: seq<string> -> Option<int>)
    returns (results: seq<bool>, launched: seq<seq<string>>)
    ensures results == Results(python, script, date, channels, launch)
    ensures launched == Launched(python, script, date, channels)
  {
    results := [];
    launched := [];
    var i := 0;
    while i < |channels|
      invariant 0 <= i <= |channels|
      invariant results == Results(python, script, date, channels[..i], launch)
      invariant launched == Launched(python, script, date, channels[..i])
    {
      var ch := channels[i];
      assert channels[..i + 1][..i] == channels[..i];
      var missing := Missing(ch, RequiredFields);
      MissingNoneIffComplete(ch);
      if missing != [] {
        results := results + [false];
      } else {
        var ok, cmd := RunChannel(python, script, date, ch, launch);
        launched := launched + [cmd];
        results := results + [ok];
      }
      i := i + 1;
    }
    assert channels[..i] == channels;
  }

  /** The number of true results. */
  function CountTrue(rs: seq<bool>): (n: nat)
    ensures n <= |rs|
    decreases |rs|
  {
    if rs == [] then 0 else CountTrue(rs[..|rs| - 1]) + (if rs[|rs| - 1] then 1 else 0)
  }

  /** The tally: exit 1 when any channel failed, else 0. */
  function ExitCode(rs: seq<bool>): int
  {
    var failed := |rs| - CountTrue(rs);
    if failed > 0 then 1 else 0
  }

  /** Nothing failed exactly when every result is a success. */
  lemma {:induction false} CountTrueAll(rs: seq<bool>)
    ensures CountTrue(rs) == |rs| <==> forall k | 0 <= k < |rs| :: rs[k]
    decreases |rs|
  {
    if rs != [] {
      var init := rs[..|rs| - 1];
      CountTrueAll(init);
      if forall k | 0 <= k < |rs| :: rs[k] {
        assert forall k | 0 <= k < |init| :: init[k] by {
          forall k | 0 <= k < |init| ensures init[k] { assert init[k] == rs[k]; }
        }
      }
    }
  }

  /** The run exits 0 exactly when every result is a success. */
  lemma ExitCodeAllSucceeded(rs: seq<bool>)
    ensures ExitCode(rs) == 0 <==> forall k | 0 <= k < |rs| :: rs[k]
    ensures ExitCode(rs) == 1 <==> exists k | 0 <= k < |rs| :: !rs[k]
  {
    CountTrueAll(rs);
  }

  /** Each result says whether that channel was complete and its child returned 0; the
      launched vectors are exactly those of the complete channels. */
  lemma {:induction false} ResultsPerChannel(python: string, script: string, date: string,
                                             channels: seq<Channel>, launch: seq<string> -> Option<int>)
    ensures var rs := Results(python, script, date, channels, launch);
      forall k | 0 <= k < |channels| ::
        rs[k] <==> Complete(channels[k]) && launch(Command(python, script, date, channels[k])) == Some(0)
    ensures |Launched(python, script, date, channels)| <= |channels|
    ensures forall cmd | cmd in Launched(python, script, date, channels) ::
      exists k | 0 <= k < |channels| :: Complete(channels[k]) && cmd == Command(python, script, date, channels[k])
    decreases |channels|
  {
    if channels != [] {
      var init := channels[..|channels| - 1];
      var ch := channels[|channels| - 1];
      ResultsPerChannel(python, script, date, init, launch);
      var rs := Results(python, script, date, channels, launch);
      forall k | 0 <= k < |channels|
        ensures rs[k] <==> Complete(channels[k]) && launch(Command(python, script, date, channels[k])) == Some(0)
      {
        if k < |init| {
          assert channels[k] == init[k];
          assert rs[k] == Results(python, script, date, init, launch)[k];
        }
      }
      forall cmd | cmd in Launched(python, script, date, channels)
        ensures exists k | 0 <= k < |channels| ::
          Complete(channels[k]) && cmd == Command(python, script, date, channels[k])
      {
        if cmd in Launched(python, script, date, init) {
          var k :| 0 <= k < |init| && Complete(init[k]) && cmd == Command(python, script, date, init[k]);
          assert channels[k] == init[k];
        } else {
          assert channels[|channels| - 1] == ch;
        }
      }
    }
  }

  /** The date processed: the explicit one when given and non-empty, else yesterday's. */
  function DateUsed(dateArg: Option<string>, yesterday: string): string
  {
    if dateArg.Some? && dateArg.value != "" then dateArg.value else yesterday
  }

  /** An explicit, non-empty date that does not read as `%Y-%m-%d`. */
  predicate BadDate(dateArg: Option<string>)
  {
    dateArg.Some? && dateArg.value != "" && Strptime(DateFormat, dateArg.value).None?
  }

  /** Every real date given as `%Y-%m-%d` passes the date check. */
  lemma WrittenDateAccepted(dt: DateTime)
    requires ValidDateTime(dt)
    ensures !BadDate(Some(DateText(dt)))
    ensures DateUsed(Some(DateText(dt)), "") == DateText(dt)
  {
    DateTextRoundTrip(dt);
  }

  /** How the driver ends. */
  function RunAll(dateArg: Option<string>, yesterday: string, config: ConfigFile, scriptExists: bool,
                  python: string, script: string, launch: seq<string> -> Option<int>): (code: int)
  {
    if BadDate(dateArg) then 1
    else match LoadChannels(config)
      case Err(c) => c
      case Ok(channels) =>
        if channels == [] then 0
        else if !scriptExists then 1
        else ExitCode(Results(python, script, DateUsed(dateArg, yesterday), channels, launch))
  }

  /** `main` after argument parsing; `yesterday` is yesterday's date as `YYYY-MM-DD`. */
  method RunDailySummaries(dateArg: Option<string>, yesterday: string, config: ConfigFile,
                           scriptExists: bool, python: string, script: string,
                           launch: seq<string> -> Option<int>)
    returns (code: int)
    ensures code == RunAll(dateArg, yesterday, config, scriptExists, python, script, launch)
  {
    var date := yesterday;
    if dateArg.Some? && dateArg.value != "" {
      date := dateArg.value;
      if Strptime(DateFormat, date).None? {
        return 1;
      }
    }
    var loaded := LoadChannels(config);
    if loaded.Err? {
      return loaded.error;
    }
    var channels := loaded.value;
    if channels == [] {
      return 0;
    }
    if !scriptExists {
      return 1;
    }
    var results, launched := RunChannels(python, script, date, channels, launch);
    var total := |results|;
    var successful := CountTrue(results);
    var failed := total - successful;
    code := if failed > 0 then 1 else 0;
  }

  /** The early exits: a bad explicit date, an unloadable configuration or one without a
      "channels" key end with 1; an empty channel list ends with 0 before anything runs;
      a missing script ends with 1. */
  lemma EarlyExits(dateArg: Option<string>, yesterday: string, config: ConfigFile, scriptExists: bool,
                   python: string, script: string, launch: seq<string> -> Option<int>)
    ensures BadDate(dateArg) ==>
      RunAll(dateArg, yesterday, config, scriptExists, python, script, launch) == 1
    ensures config == Parsed(None) || config == Unreadable || config == NotJson ==>
      RunAll(dateArg, yesterday, config, scriptExists, python, script, launch) == 1
    ensures !BadDate(dateArg) && config == Parsed(Some([])) ==>
      RunAll(dateArg, yesterday, config, scriptExists, python, script, launch) == 0
    ensures !BadDate(dateArg) && !scriptExists && config.Parsed? && config.channels.Some?
            && config.channels.value != [] ==>
      RunAll(dateArg, yesterday, config, scriptExists, python, script, launch) == 1
  {
  }

  /** Past the early checks, the run exits 0 exactly when every channel is complete and its
      child returned 0, and 1 otherwise. */
  lemma ExitZeroIffAllSucceed(dateArg: Option<string>, yesterday: string, channels: seq<Channel>,
                              python: string, script: string, launch: seq<string> -> Option<int>)
    requires !BadDate(dateArg) && channels != []
    ensures var code := RunAll(dateArg, yesterday, Parsed(Some(channels)), true, python, script, launch);
      && (code == 0 || code == 1)
      && (code == 0 <==> forall k | 0 <= k < |channels| ::
            Complete(channels[k])
            && launch(Command(python, script, DateUsed(dateArg, yesterday), channels[k])) == Some(0))
  {
    var d := DateUsed(dateArg, yesterday);
    var rs := Results(python, script, d, channels, launch);
    ResultsPerChannel(python, script, d, channels, launch);
    ExitCodeAllSucceeded(rs);
  }
}

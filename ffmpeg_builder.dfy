/** The ffmpeg argument vector for capturing one stream into hourly (by default) segment
    files under `/data/recordings/<name>/<year>/<month>/<day>/`.

    Parameter values are held as the text `str()` gives for them. The free-form `flags`
    option is split into arguments by a tokeniser passed in as a function. */
module FfmpegBuilder {
  import opened Common
  import opened Timestamps

  /** The part of a stream's configuration the builder reads; a missing parameter map is
      the empty map. */
  datatype BuilderConfig = BuilderConfig(
    url: Option<string>,
    name: Option<string>,
    mandatory: map<string, string>,
    optional: map<string, string>)

  /** A value Python treats as true: present and not the empty text. */
  predicate Truthy(o: Option<string>) { o.Some? && o.value != "" }

  function Get(m: map<string, string>, key: string, default: string): string
  {
    if key in m then m[key] else default
  }

  const MissingUrlOrName: string := "Stream URL and Name are required"
  const RecordingsRoot: string := "/data/recordings/"

  function Format(mandatory: map<string, string>): string { Get(mandatory, "format", "wav") }

  /** The codec: the configured one, else raw 16-bit PCM for WAV segments and stream copy
      for anything else. */
  function Codec(mandatory: map<string, string>, optional: map<string, string>): (c: string)
    ensures "codec" in optional ==> c == optional["codec"]
    ensures "codec" !in optional ==> (c == "pcm_s16le" <==> Format(mandatory) == "wav")
    ensures "codec" !in optional ==> (c == "copy" <==> Format(mandatory) != "wav")
  {
    Get(optional, "codec", if Format(mandatory) == "wav" then "pcm_s16le" else "copy")
  }

  predicate HasBitrate(optional: map<string, string>) { "bitrate" in optional && optional["bitrate"] != "" }

  predicate HasFlags(optional: map<string, string>) { "flags" in optional && optional["flags"] != "" }

  /** The output file template, expanded by ffmpeg's strftime at each segment start. */
  function OutputPattern(name: string, fmt: string): string
  {
    RecordingsRoot + name + "/%Y/%m/%d/chunk_%Y%m%d%H%M%S." + fmt
  }

  /** The opening arguments: no stdin, overwrite, log level, the input and its audio, and
      the container format of the segments. */
  function Opening(url: string, fmt: string): seq<string>
  {
    ["ffmpeg", "-nostdin", "-y", "-loglevel", "info", "-i", url, "-map", "0:a", "-segment_format", fmt]
  }

  function BitrateArgs(optional: map<string, string>): seq<string>
  {
    if HasBitrate(optional) then ["-b:a", optional["bitrate"]] else []
  }

  /** Channel count and sample rate, given only when the audio is re-encoded. */
  function ChannelArgs(mandatory: map<string, string>, codec: string): seq<string>
  {
    if codec != "copy" then ["-ac", Get(mandatory, "channels", "1"), "-ar", Get(mandatory, "sample_rate", "16000")] else []
  }

  function SegmentArgs(mandatory: map<string, string>): seq<string>
  {
    ["-f", "segment", "-segment_time", Get(mandatory, "segment_time", "3600"), "-strftime", "1", "-reset_timestamps", "1"]
  }

  function FlagArgs(optional: map<string, string>, tokenise: string -> seq<string>): seq<string>
  {
    if HasFlags(optional) then tokenise(optional["flags"]) else []
  }

  /** The argument vector for a stream whose url and name are both present and non-empty. */
  function Command(url: string, name: string, mandatory: map<string, string>, optional: map<string, string>,
                   tokenise: string -> seq<string>): seq<string>
  {
    InputArgs(url, mandatory, optional) + SegmentArgs(mandatory) + FlagArgs(optional, tokenise)
    + [OutputPattern(name, Format(mandatory))]
  }

  /** Everything about reading and encoding the input, up to the segmenting options. */
  function InputArgs(url: string, mandatory: map<string, string>, optional: map<string, string>): seq<string>
  {
    var codec := Codec(mandatory, optional);
    Opening(url, Format(mandatory)) + ["-c:a", codec] + BitrateArgs(optional) + ChannelArgs(mandatory, codec)
  }

  /** The segmenting options, the extra flags and the output template. */
  function OutputArgs(name: string, mandatory: map<string, string>, optional: map<string, string>,
                      tokenise: string -> seq<string>): seq<string>
  {
    SegmentArgs(mandatory) + FlagArgs(optional, tokenise) + [OutputPattern(name, Format(mandatory))]
  }

  /** What build_command gives for a configuration: the argument vector, or the message of
      the ValueError it raises. */
  function CommandFor(config: BuilderConfig, tokenise: string -> seq<string>): Result<seq<string>, string>
  {
    if !Truthy(config.url) || !Truthy(config.name) then Err(MissingUrlOrName)
    else Ok(Command(config.url.value, config.name.value, config.mandatory, config.optional, tokenise))
  }

  class Builder {
    var url: Option<string>
    var name: Option<string>
    var mandatory: map<string, string>
    var optional: map<string, string>

    constructor(config: BuilderConfig)
      ensures url == config.url && name == config.name
      ensures mandatory == config.mandatory && optional == config.optional
    {
      url := config.url;
      name := config.name;
      mandatory := config.mandatory;
      optional := config.optional;
    }

    /** Fails before producing anything when the url or the name is missing or empty;
        otherwise grows the vector piece by piece. */
    method BuildCommand(tokenise: string -> seq<string>) returns (r: Result<seq<string>, string>)
      ensures r.Err? <==> !Truthy(url) || !Truthy(name)
      ensures r.Err? ==> r.error == MissingUrlOrName
      ensures r.Ok? ==> r.value == Command(url.value, name.value, mandatory, optional, tokenise)
    {
      if !Truthy(url) || !Truthy(name) {
        return Err(MissingUrlOrName);
      }
      var cmd := ["ffmpeg", "-nostdin", "-y", "-loglevel", "info"];
      cmd := cmd + ["-i", url.value];
      cmd := cmd + ["-map", "0:a"];
      var fmt := Get(mandatory, "format", "wav");
      cmd := cmd + ["-segment_format", fmt];
      assert cmd == Opening(url.value, fmt);
      var defaultCodec := if fmt == "wav" then "pcm_s16le" else "copy";
      var codec := Get(optional, "codec", defaultCodec);
      cmd := cmd + ["-c:a", codec];
      ghost var codecPart := cmd;
      assert codecPart == Opening(url.value, fmt) + ["-c:a", Codec(mandatory, optional)];
      if "bitrate" in optional && optional["bitrate"] != "" {
        cmd := cmd + ["-b:a", optional["bitrate"]];
      }
      assert cmd == codecPart + BitrateArgs(optional);
      ghost var bitratePart := cmd;
      if codec != "copy" {
        var channels := Get(mandatory, "channels", "1");
        cmd := cmd + ["-ac", channels];
        var sampleRate := Get(mandatory, "sample_rate", "16000");
        cmd := cmd + ["-ar", sampleRate];
      }
      assert cmd == bitratePart + ChannelArgs(mandatory, codec);
      assert cmd == InputArgs(url.value, mandatory, optional);
      var segTime := Get(mandatory, "segment_time", "3600");
      cmd := cmd + ["-f", "segment", "-segment_time", segTime, "-strftime", "1", "-reset_timestamps", "1"];
      ghost var segmentPart := cmd;
      if "flags" in optional && optional["flags"] != "" {
        cmd := cmd + tokenise(optional["flags"]);
      }
      assert cmd == segmentPart + FlagArgs(optional, tokenise);
      cmd := cmd + [OutputPattern(name.value, fmt)];
      r := Ok(cmd);
    }
  }

  /** The vector is the input part followed by the output part: the segmenting options, the
      extra flags, and the output template last, so extra flags never follow the output. */
  lemma CommandSplit(url: string, name: string, mandatory: map<string, string>, optional: map<string, string>,
                     tokenise: string -> seq<string>)
    ensures var cmd := Command(url, name, mandatory, optional, tokenise);
      var k := |InputArgs(url, mandatory, optional)|;
      && k <= |cmd|
      && cmd[..k] == InputArgs(url, mandatory, optional)
      && cmd[k..] == OutputArgs(name, mandatory, optional, tokenise)
  {
    var ins := InputArgs(url, mandatory, optional);
    var seg := SegmentArgs(mandatory);
    var flags := FlagArgs(optional, tokenise);
    var out := [OutputPattern(name, Format(mandatory))];
    assert ins + seg + flags + out == ins + (seg + flags + out);
  }

  lemma InputLayout(url: string, mandatory: map<string, string>, optional: map<string, string>)
    ensures var ins := InputArgs(url, mandatory, optional);
      var codec := Codec(mandatory, optional);
      var b := |BitrateArgs(optional)|;
      && |ins| == 13 + b + |ChannelArgs(mandatory, codec)|
      && ins[..11] == Opening(url, Format(mandatory))
      && ins[11] == "-c:a" && ins[12] == codec
      && ins[13..13 + b] == BitrateArgs(optional)
      && ins[13 + b..] == ChannelArgs(mandatory, codec)
  {
    var codec := Codec(mandatory, optional);
    var head := Opening(url, Format(mandatory)) + ["-c:a", codec];
    var mid := head + BitrateArgs(optional);
    assert InputArgs(url, mandatory, optional) == mid + ChannelArgs(mandatory, codec);
    assert head[..11] == Opening(url, Format(mandatory));
    assert mid[13..] == BitrateArgs(optional);
  }

  lemma OutputLayout(name: string, mandatory: map<string, string>, optional: map<string, string>,
                     tokenise: string -> seq<string>)
    ensures var outs := OutputArgs(name, mandatory, optional, tokenise);
      && |outs| == 8 + |FlagArgs(optional, tokenise)| + 1
      && outs[..8] == SegmentArgs(mandatory)
      && outs[8..|outs| - 1] == FlagArgs(optional, tokenise)
      && outs[|outs| - 1] == OutputPattern(name, Format(mandatory))
  {
    var seg := SegmentArgs(mandatory) + FlagArgs(optional, tokenise);
    assert seg[..8] == SegmentArgs(mandatory);
    assert seg[8..] == FlagArgs(optional, tokenise);
  }


  // ---------------------------------------------------------------------------
  // Expanding the output template.

  /** The zero-padded fields of a timestamp that strftime substitutes. */
  datatype Fields = Fields(year: string, month: string, day: string, hour: string, minute: string, second: string)

  function FieldsOf(dt: DateTime): Fields
    requires ValidDateTime(dt)
  {
    Fields(Pad4(dt.year), Pad2(dt.month), Pad2(dt.day), Pad2(dt.hour), Pad2(dt.minute), Pad2(dt.second))
  }

  /** The strftime conversions the template uses. */
  predicate IsConversion(c: char)
  {
    c == 'Y' || c == 'm' || c == 'd' || c == 'H' || c == 'M' || c == 'S'
  }

  /** What one strftime conversion stands for. */
  function Conversion(c: char, f: Fields): string
    requires IsConversion(c)
  {
    if c == 'Y' then f.year
    else if c == 'm' then f.month
    else if c == 'd' then f.day
    else if c == 'H' then f.hour
    else if c == 'M' then f.minute
    else f.second
  }

  /** strftime over the conversions the template uses; any other character, including a
      '%' that does not start one of them, is copied. */
  function Strftime(pattern: string, f: Fields): string
    decreases |pattern|
  {
    if |pattern| == 0 then ""
    else if pattern[0] == '%' && |pattern| >= 2 && IsConversion(pattern[1]) then
      Conversion(pattern[1], f) + Strftime(pattern[2..], f)
    else [pattern[0]] + Strftime(pattern[1..], f)
  }

  /** Text without '%' is copied unchanged. */
  lemma {:induction false} StrftimePlain(s: string, f: Fields)
    requires '%' !in s
    ensures Strftime(s, f) == s
    decreases |s|
  {
    if |s| > 0 {
      StrftimePlain(s[1..], f);
      assert s == [s[0]] + s[1..];
    }
  }

  /** Text without '%' in front of a pattern is copied in front of its expansion. */
  lemma {:induction false} StrftimeConcat(a: string, b: string, f: Fields)
    requires '%' !in a
    ensures Strftime(a + b, f) == a + Strftime(b, f)
    decreases |a|
  {
    if |a| == 0 {
      assert a + b == b;
    } else {
      assert (a + b)[0] == a[0] && a[0] != '%';
      assert (a + b)[1..] == a[1..] + b;
      StrftimeConcat(a[1..], b, f);
    }
  }

  lemma ConversionNext(c: char, rest: string, f: Fields)
    requires IsConversion(c)
    ensures Strftime(['%', c] + rest, f) == Conversion(c, f) + Strftime(rest, f)
  {
    var p := ['%', c] + rest;
    assert p[0] == '%' && p[1] == c && |p| >= 2;
    assert p[2..] == rest;
  }

  /** The file a segment starting at dt is written to. */
  function SegmentFileName(dt: DateTime, fmt: string): string
    requires ValidDateTime(dt)
  {
    "chunk_" + CompactStamp(dt) + "." + fmt
  }

  lemma DatePiecesExpand(rest: string, f: Fields)
    ensures Strftime(['%', 'Y'] + (['%', 'm'] + (['%', 'd'] + rest)), f) == f.year + (f.month + (f.day + Strftime(rest, f)))
  {
    ConversionNext('d', rest, f);
    ConversionNext('m', ['%', 'd'] + rest, f);
    ConversionNext('Y', ['%', 'm'] + (['%', 'd'] + rest), f);
  }

  lemma TimePiecesExpand(rest: string, f: Fields)
    ensures Strftime(['%', 'H'] + (['%', 'M'] + (['%', 'S'] + rest)), f) == f.hour + (f.minute + (f.second + Strftime(rest, f)))
  {
    ConversionNext('S', rest, f);
    ConversionNext('M', ['%', 'S'] + rest, f);
    ConversionNext('H', ['%', 'M'] + (['%', 'S'] + rest), f);
  }

  lemma CompactPiecesSpelled(fmt: string)
    ensures "%Y%m%d%H%M%S." + fmt == ['%', 'Y'] + (['%', 'm'] + (['%', 'd'] + (['%', 'H'] + (['%', 'M'] + (['%', 'S'] + ("." + fmt))))))
  {
  }

  lemma CompactTemplateFields(fmt: string, f: Fields)
    requires '%' !in fmt
    ensures Strftime("%Y%m%d%H%M%S." + fmt, f) == f.year + f.month + f.day + f.hour + f.minute + f.second + ("." + fmt)
  {
    var t := "." + fmt;
    CompactPiecesSpelled(fmt);
    DatePiecesExpand(['%', 'H'] + (['%', 'M'] + (['%', 'S'] + t)), f);
    TimePiecesExpand(t, f);
    StrftimePlain(t, f);
    assert f.year + (f.month + (f.day + (f.hour + (f.minute + (f.second + t)))))
        == f.year + f.month + f.day + f.hour + f.minute + f.second + t;
  }

  /** The file-name part of the template gives the compact start stamp. */
  lemma CompactTemplate(fmt: string, dt: DateTime)
    requires ValidDateTime(dt) && '%' !in fmt
    ensures Strftime("%Y%m%d%H%M%S." + fmt, FieldsOf(dt)) == CompactStamp(dt) + "." + fmt
  {
    var f := FieldsOf(dt);
    CompactTemplateFields(fmt, f);
    assert CompactStamp(dt) == f.year + f.month + f.day + f.hour + f.minute + f.second;
  }

  lemma DatePiecesSpelled(rest: string)
    ensures "%Y/%m/%d/" + rest == ['%', 'Y'] + ("/" + (['%', 'm'] + ("/" + (['%', 'd'] + ("/" + rest)))))
  {
  }

  /** The directory part of the template gives the segment's date directory. */
  lemma DateTemplate(rest: string, f: Fields)
    ensures Strftime("%Y/%m/%d/" + rest, f) == f.year + "/" + f.month + "/" + f.day + "/" + Strftime(rest, f)
  {
    var r3 := ['%', 'd'] + ("/" + rest);
    var r2 := ['%', 'm'] + ("/" + r3);
    DatePiecesSpelled(rest);
    ConversionNext('Y', "/" + r2, f);
    StrftimeConcat("/", r2, f);
    ConversionNext('m', "/" + r3, f);
    StrftimeConcat("/", r3, f);
    ConversionNext('d', "/" + rest, f);
    StrftimeConcat("/", rest, f);
    assert f.year + ("/" + (f.month + ("/" + (f.day + ("/" + Strftime(rest, f))))))
        == f.year + "/" + f.month + "/" + f.day + "/" + Strftime(rest, f);
  }

  lemma OutputPatternSpelled(name: string, fmt: string)
    ensures OutputPattern(name, fmt) == (RecordingsRoot + name + "/") + ("%Y/%m/%d/" + ("chunk_" + ("%Y%m%d%H%M%S." + fmt)))
  {
  }

  lemma OutputPatternFields(name: string, fmt: string, f: Fields)
    requires '%' !in name && '%' !in fmt
    ensures Strftime(OutputPattern(name, fmt), f)
      == (RecordingsRoot + name + "/") + (f.year + "/" + f.month + "/" + f.day + "/" +
           ("chunk_" + (f.year + f.month + f.day + f.hour + f.minute + f.second + ("." + fmt))))
  {
    var tail := "%Y%m%d%H%M%S." + fmt;
    OutputPatternSpelled(name, fmt);
    StrftimeConcat(RecordingsRoot + name + "/", "%Y/%m/%d/" + ("chunk_" + tail), f);
    DateTemplate("chunk_" + tail, f);
    StrftimeConcat("chunk_", tail, f);
    CompactTemplateFields(fmt, f);
  }

  lemma OutputRegroup(dir: string, date: string, stamp: string, fmt: string)
    ensures dir + (date + "/" + ("chunk_" + (stamp + ("." + fmt))))
         == dir + date + "/" + ("chunk_" + stamp + "." + fmt)
  {
  }

  /** For a stream name and format without '%', the template expands to the stream's
      directory, the segment's date directory and a file named after its start. */
  lemma OutputPatternExpands(name: string, fmt: string, dt: DateTime)
    requires ValidDateTime(dt) && '%' !in name && '%' !in fmt
    ensures Strftime(OutputPattern(name, fmt), FieldsOf(dt))
      == RecordingsRoot + name + "/" + DatePath(dt) + "/" + SegmentFileName(dt, fmt)
  {
    var f := FieldsOf(dt);
    OutputPatternFields(name, fmt, f);
    assert f.year + "/" + f.month + "/" + f.day == DatePath(dt);
    assert f.year + f.month + f.day + f.hour + f.minute + f.second == CompactStamp(dt);
    OutputRegroup(RecordingsRoot + name + "/", DatePath(dt), CompactStamp(dt), fmt);
  }

  /** The day directory a stream's segments of a given day go to, as the stream manager
      spells it: the stream's directory followed by "/%Y/%m/%d", expanded. */
  function DayDir(name: string, f: Fields): string
  {
    Strftime(RecordingsRoot + name + "/%Y/%m/%d", f)
  }

  lemma DayDirSpelled(name: string)
    ensures RecordingsRoot + name + "/%Y/%m/%d"
      == (RecordingsRoot + name + "/") + (['%', 'Y'] + ("/" + (['%', 'm'] + ("/" + (['%', 'd'] + "")))))
  {
  }

  lemma DayDirFields(name: string, f: Fields)
    requires '%' !in name
    ensures DayDir(name, f) == (RecordingsRoot + name + "/") + (f.year + ("/" + (f.month + ("/" + f.day))))
  {
    DayDirSpelled(name);
    StrftimeConcat(RecordingsRoot + name + "/", ['%', 'Y'] + ("/" + (['%', 'm'] + ("/" + (['%', 'd'] + "")))), f);
    ConversionNext('Y', "/" + (['%', 'm'] + ("/" + (['%', 'd'] + ""))), f);
    StrftimeConcat("/", ['%', 'm'] + ("/" + (['%', 'd'] + "")), f);
    ConversionNext('m', "/" + (['%', 'd'] + ""), f);
    StrftimeConcat("/", ['%', 'd'] + "", f);
    ConversionNext('d', "", f);
    assert f.day + Strftime("", f) == f.day;
  }

  /** For a stream name without '%', the day directory is the directory the output
      template puts that day's segment files in. */
  lemma DayDirHoldsSegments(name: string, fmt: string, dt: DateTime)
    requires ValidDateTime(dt) && '%' !in name && '%' !in fmt
    ensures DayDir(name, FieldsOf(dt)) == RecordingsRoot + name + "/" + DatePath(dt)
    ensures Strftime(OutputPattern(name, fmt), FieldsOf(dt)) == DayDir(name, FieldsOf(dt)) + "/" + SegmentFileName(dt, fmt)
  {
    var f := FieldsOf(dt);
    DayDirFields(name, f);
    assert f.year + "/" + f.month + "/" + f.day == DatePath(dt);
    DayRegroup(RecordingsRoot + name + "/", f.year, f.month, f.day);
    OutputPatternExpands(name, fmt, dt);
  }

  lemma DayRegroup(dir: string, y: string, m: string, d: string)
    ensures dir + (y + ("/" + (m + ("/" + d)))) == dir + (y + "/" + m + "/" + d)
  {
  }
}

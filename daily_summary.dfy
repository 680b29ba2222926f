/** The daily radio summary: for each enabled station with speech transcripts on the day,
    a prompt is built and its summary kept; the summaries are assembled into one message
    that opens with an intro line in the target language.

    The language model, the JSON serialiser of the transcripts and the database queries are
    parameters: `llm` maps a prompt to its answer, `serialise` maps the transcripts to
    their JSON text, and `transcriptsOf` gives a station's speech transcripts on the day. */
module DailySummary {
  import opened Common

  // ---------------------------------------------------------------------------------------
  // The intro line.

  const EnglishIntro := "What people talked about on the radio today."

  /** The intro by language code. Spanish is keyed "sp". (The longer lines are written in
      two pieces, which keeps their characters cheap for the verifier to read.) */
  const Intros: map<string, string> := map[
    "en" := EnglishIntro,
    "he" := "על מה אנשים דיברו ברדיו היום.",
    "de" := "Worüber die Leute " + "heute im Radio gesprochen haben.",
    "it" := "Di cosa hanno parlato " + "le persone alla radio oggi.",
    "sp" := "De qué habló la gente en la radio hoy.",
    "fr" := "De quoi les gens " + "ont parlé à la radio aujourd'hui.",
    "ru" := "О чем люди говорили по радио сегодня."]

  /** The intro for a language, or the English one when the table has no (non-empty) entry. */
  function SummaryIntro(lang: string): string
  {
    if lang in Intros && Intros[lang] != "" then Intros[lang] else Intros["en"]
  }

  /** The seven supported codes get their own line; every other code gets English. */
  lemma IntroLookup(lang: string)
    ensures Intros.Keys == {"en", "he", "de", "it", "sp", "fr", "ru"}
    ensures lang in Intros ==> SummaryIntro(lang) == Intros[lang]
    ensures lang !in Intros ==> SummaryIntro(lang) == "What people talked about on the radio today."
  {
  }

  /** "es" is not a key, so Spanish asked for by its ISO code comes out in English. */
  lemma SpanishIsoCodeFallsBack()
    ensures SummaryIntro("es") == "What people talked about on the radio today."
    ensures SummaryIntro("sp") == "De qué habló la gente en la radio hoy."
  {
    assert "es" !in Intros;
  }

  /** Non-empty, with no whitespace at either end. */
  predicate Trimmed(s: string)
  {
    |s| > 0 && !IsSpace(s[0]) && !IsSpace(s[|s| - 1])
  }

  /** Every intro is non-empty and has no whitespace at either end. */
  lemma IntroTrimmed(lang: string)
    ensures Trimmed(SummaryIntro(lang))
  {
    var s := SummaryIntro(lang);
    if lang == "he" {
      assert s[0] == 'ע' && s[|s| - 1] == '.';
    } else if lang == "ru" {
      assert s[0] == 'О' && s[|s| - 1] == '.';
    } else if lang == "de" {
      assert s[0] == 'W' && s[|s| - 1] == '.';
    } else if lang == "it" || lang == "sp" || lang == "fr" {
      assert s[0] == 'D' && s[|s| - 1] == '.';
    } else {
      assert s == EnglishIntro;
      assert s[0] == 'W' && s[|s| - 1] == '.';
    }
  }

  // ---------------------------------------------------------------------------------------
  // The prompt.

  const InventFacts := "- Do NOT invent facts. If uncertain, keep it generic and lower confidence."
  const AdjacentParts :=
    "- If two adjacent parts are the same segment type and topic, keep them as ONE segment (do not over-split)"
  const DataHeader := "===== TRANSCRIPTION DATA ====="

  // The fixed preamble lines.
  const Analyst := "You are a radio content analyst. Analyze the following radio transcriptions and produce a summary."
  const TaskTitle := "Task:"
  const TaskTopics := "- Identify 3-5 main topics discussed during the day"
  const TaskPoints := "- For each topic, capture key points and insights"
  const TaskOneItem := "- Write ONE coherent item summarizing one topic"
  const TaskParagraphs := "- Write each topic as a separate paragraph"
  const TaskConcise := "- Use clear and concise language"
  const TopicsTitle := "Topics may include:"
  const TopicNews := "- News and current events"
  const TopicPolitics := "- Politics"
  const TopicEconomy := "- Economy"
  const TopicCulture := "- Culture"
  const TopicDiscussions := "- Public discussions"
  const TopicInterviews := "- Interviews and studio guests"
  const AvoidTitle := "Do NOT mention:"
  const AvoidTechnical := "- Technical details"
  const AvoidTimecodes := "- Timecodes"
  const AvoidSpeakers := "- Speaker labels"
  const AvoidRecognition := "- Recognition process"
  const FormatTitle := "Output format:"
  const FormatParagraph := "Return ONLY a single paragraph summary. No heading, no station name, just the summary paragraph."
  const FormatHeader := "===== TRANSCRIPTION DATA FORMAT ====="
  const SegmentMeaning := "Each segment represents a continuous fragment of spoken audio."
  const NotesTitle := "Important notes for interpretation:"
  const NoteSequential := "- Segments should be read sequentially to reconstruct the meaning of the broadcast."
  const NoteNoTimestamps := "- Do not rely on timestamps or speaker fields for output."
  const NoteSemantic := "- Focus on understanding the semantic content and topics discussed across all segments."
  const NoteRealSpeech := "- The transcription reflects real radio speech and may include informal language, overlaps, or unfinished thoughts."

  /** The preamble lines up to the interpretation notes. */
  function Head(name: string, lang: string, target: string): (parts: seq<string>)
    ensures |parts| == 39
  {
    [
      Analyst,
      "",
      "Station: " + name,
      "Original language: " + lang,
      "Output language: " + target,
      "",
      TaskTitle,
      TaskTopics,
      TaskPoints,
      TaskOneItem,
      TaskParagraphs,
      TaskConcise,
      "- Write the summary ONLY in " + target,
      "",
      TopicsTitle,
      TopicNews,
      TopicPolitics,
      TopicEconomy,
      TopicCulture,
      TopicDiscussions,
      TopicInterviews,
      "",
      AvoidTitle,
      AvoidTechnical,
      AvoidTimecodes,
      AvoidSpeakers,
      AvoidRecognition,
      "",
      FormatTitle,
      FormatParagraph,
      "",
      FormatHeader,
      "",
      SegmentMeaning,
      NotesTitle,
      NoteSequential,
      NoteNoTimestamps,
      NoteSemantic,
      NoteRealSpeech ]
  }

  /** The preamble as the list literal reads: two commas are missing after the "invent
      facts" note, so it, the next note and the blank line fuse into one string. */
  function PreambleAsWritten(name: string, lang: string, target: string): seq<string>
  {
    Head(name, lang, target) + [InventFacts + AdjacentParts + "", DataHeader, ""]
  }

  /** The preamble with each note and the blank line as parts of their own. */
  function Preamble(name: string, lang: string, target: string): seq<string>
  {
    Head(name, lang, target) + [InventFacts, AdjacentParts, "", DataHeader, ""]
  }

  /** The prompt: the preamble parts and the serialised transcripts, joined by newlines. */
  function Prompt(name: string, lang: string, transcripts: seq<string>, target: string,
                  serialise: seq<string> -> string): string
  {
    Join(Preamble(name, lang, target) + [serialise(transcripts)], "\n")
  }

  function PromptAsWritten(name: string, lang: string, transcripts: seq<string>, target: string,
                           serialise: seq<string> -> string): string
  {
    Join(PreambleAsWritten(name, lang, target) + [serialise(transcripts)], "\n")
  }

  /** Station, stream language and target language appear verbatim in the header lines, and
      the transcripts' JSON is the final line, after the preamble. */
  lemma PromptShape(name: string, lang: string, transcripts: seq<string>, target: string,
                    serialise: seq<string> -> string)
    ensures var pre := Preamble(name, lang, target);
      && pre[2] == "Station: " + name
      && pre[3] == "Original language: " + lang
      && pre[4] == "Output language: " + target
      && Prompt(name, lang, transcripts, target, serialise) ==
         Join(pre, "\n") + "\n" + serialise(transcripts)
  {
    JoinLast(Preamble(name, lang, target), serialise(transcripts), "\n");
  }

  /** As written, the preamble is two parts short: the "invent facts" note, the "adjacent
      parts" note and the blank line are one part, so the prompt carries the two notes on one
      line and the data header directly after them, with no blank line between. */
  lemma PreambleAsWrittenFuses(name: string, lang: string, target: string,
                               transcripts: seq<string>, serialise: seq<string> -> string)
    ensures var pre := PreambleAsWritten(name, lang, target);
      && |pre| == 42
      && pre[39] == InventFacts + AdjacentParts
      && pre[40] == DataHeader && pre[39] != ""
      && PromptAsWritten(name, lang, transcripts, target, serialise) ==
         Join(Head(name, lang, target), "\n") + "\n" + (InventFacts + AdjacentParts) + "\n" + DataHeader
           + "\n" + "\n" + serialise(transcripts)
  {
    var h := Head(name, lang, target);
    var fused := InventFacts + AdjacentParts + "";
    assert fused == InventFacts + AdjacentParts;
    assert |InventFacts| > 0;
    assert PreambleAsWritten(name, lang, target) + [serialise(transcripts)] ==
           h + [fused, DataHeader, "", serialise(transcripts)];
    JoinTail(h, fused, DataHeader, serialise(transcripts), "\n");
  }

  /** Joining a list that ends in two parts, a blank part and a last part. */
  lemma JoinTail(h: seq<string>, x: string, y: string, z: string, sep: string)
    requires |h| > 0
    ensures Join(h + [x, y, "", z], sep) == Join(h, sep) + sep + x + sep + y + sep + sep + z
  {
    var t := [x, y, "", z];
    JoinConcat(h, t, sep);
    assert t[1..] == [y, "", z];
    assert t[1..][1..] == ["", z];
    assert t[1..][1..][1..] == [z];
    assert Join([z], sep) == z;
    assert Join(["", z], sep) == "" + sep + z;
    assert Join([y, "", z], sep) == y + sep + ("" + sep + z);
    assert Join(t, sep) == x + sep + (y + sep + ("" + sep + z));
  }

  /** Corrected, each note is its own part, and both section headers follow a blank part. */
  lemma PreambleSeparatesNotes(name: string, lang: string, target: string)
    ensures var pre := Preamble(name, lang, target);
      && |pre| == 44
      && pre[39] == InventFacts && pre[40] == AdjacentParts
      && pre[30] == "" && pre[31] == FormatHeader
      && pre[41] == "" && pre[42] == DataHeader
  {
  }

  // ---------------------------------------------------------------------------------------
  // The run.

  /** An enabled station, as the run reads it (stations come ordered by name). */
  datatype Station = Station(id: int, name: string, language: string)

  /** A station's summary. */
  datatype Item = Item(name: string, summary: string)

  /** How a run ends: without posting (no enabled station, or none with transcripts); at the
      first station whose language model call fails (no API key, a failed request, or an
      answer without a message), where call_openai exits; or with the message handed to
      Telegram, delivered or not. */
  datatype Run = NoStations | NoSummaries | AskFailed(station: string) | Post(message: string, delivered: bool)

  /** The process exit code of each ending: sys.exit(0) for the two early endings,
      sys.exit(1) for a failed call or a failed post, and 0 when main returns. */
  function ExitCode(r: Run): int
  {
    match r
    case NoStations => 0
    case NoSummaries => 0
    case AskFailed(_) => 1
    case Post(_, delivered) => if delivered then 0 else 1
  }

  /** What the language model answers for a station's prompt; None where call_openai exits. */
  function Asker(target: string, serialise: seq<string> -> string, llm: string -> Option<string>)
    : (Station, seq<string>) -> Option<string>
  {
    (s: Station, ts: seq<string>) => llm(Prompt(s.name, s.language, ts, target, serialise))
  }

  /** The stripped answers for the stations that have transcripts, in station order; or the
      name of the first such station whose call fails. */
  function SummariesOf(stations: seq<Station>, transcriptsOf: int -> seq<string>,
                       ask: (Station, seq<string>) -> Option<string>): Result<seq<Item>, string>
    decreases |stations|
  {
    if stations == [] then Ok([])
    else
      var s := stations[|stations| - 1];
      var ts := transcriptsOf(s.id);
      match SummariesOf(stations[..|stations| - 1], transcriptsOf, ask)
      case Err(name) => Err(name)
      case Ok(init) =>
        if ts == [] then Ok(init)
        else match ask(s, ts)
          case None => Err(s.name)
          case Some(answer) => Ok(init + [Item(s.name, Strip(answer))])
  }

  /** Once a prefix of the stations has failed, the whole loop has failed the same way. */
  lemma {:induction false} FailureEndsLoop(stations: seq<Station>, n: int, transcriptsOf: int -> seq<string>,
                                           ask: (Station, seq<string>) -> Option<string>)
    requires 0 <= n <= |stations| && SummariesOf(stations[..n], transcriptsOf, ask).Err?
    ensures SummariesOf(stations, transcriptsOf, ask) == SummariesOf(stations[..n], transcriptsOf, ask)
    decreases |stations|
  {
    if n == |stations| {
      assert stations[..n] == stations;
    } else {
      var init := stations[..|stations| - 1];
      assert init[..n] == stations[..n];
      FailureEndsLoop(init, n, transcriptsOf, ask);
    }
  }

  /** The station loop; a failed call ends it, as call_openai's sys.exit does. */
  method CollectSummaries(stations: seq<Station>, transcriptsOf: int -> seq<string>, target: string,
                          serialise: seq<string> -> string, llm: string -> Option<string>)
    returns (r: Result<seq<Item>, string>)
    ensures r == SummariesOf(stations, transcriptsOf, Asker(target, serialise, llm))
  {
    ghost var ask := Asker(target, serialise, llm);
    var items := [];
    var i := 0;
    while i < |stations|
      invariant 0 <= i <= |stations|
      invariant SummariesOf(stations[..i], transcriptsOf, ask) == Ok(items)
    {
      var s := stations[i];
      assert stations[..i + 1][..i] == stations[..i];
      var ts := transcriptsOf(s.id);
      if ts != [] {
        var prompt := Prompt(s.name, s.language, ts, target, serialise);
        var answer := llm(prompt);
        assert ask(s, ts) == answer;
        if answer.None? {
          FailureEndsLoop(stations, i + 1, transcriptsOf, ask);
          return Err(s.name);
        }
        items := items + [Item(s.name, Strip(answer.value))];
      }
      i := i + 1;
    }
    assert stations[..i] == stations;
    r := Ok(items);
  }

  predicate HasTranscripts(stations: seq<Station>, transcriptsOf: int -> seq<string>)
  {
    exists k | 0 <= k < |stations| :: transcriptsOf(stations[k].id) != []
  }

  /** Every station with transcripts gets an answer. */
  predicate AllAnswered(stations: seq<Station>, transcriptsOf: int -> seq<string>,
                        ask: (Station, seq<string>) -> Option<string>)
  {
    forall k | 0 <= k < |stations| && transcriptsOf(stations[k].id) != [] ::
      ask(stations[k], transcriptsOf(stations[k].id)).Some?
  }

  /** The stations that have transcripts, in order. */
  function WithTranscripts(stations: seq<Station>, transcriptsOf: int -> seq<string>): (ws: seq<Station>)
    ensures forall i | 0 <= i < |ws| :: ws[i] in stations && transcriptsOf(ws[i].id) != []
    ensures |ws| <= |stations|
    decreases |stations|
  {
    if stations == [] then []
    else
      var init := WithTranscripts(stations[..|stations| - 1], transcriptsOf);
      var s := stations[|stations| - 1];
      assert forall i | 0 <= i < |init| :: init[i] in stations[..|stations| - 1];
      if transcriptsOf(s.id) == [] then init else init + [s]
  }

  lemma {:induction false} WithTranscriptsEmpty(stations: seq<Station>, transcriptsOf: int -> seq<string>)
    ensures WithTranscripts(stations, transcriptsOf) == [] <==> !HasTranscripts(stations, transcriptsOf)
    decreases |stations|
  {
    if stations != [] {
      var init := stations[..|stations| - 1];
      var s := stations[|stations| - 1];
      WithTranscriptsEmpty(init, transcriptsOf);
      if HasTranscripts(init, transcriptsOf) {
        var k :| 0 <= k < |init| && transcriptsOf(init[k].id) != [];
        assert stations[k] == init[k];
      }
      if HasTranscripts(stations, transcriptsOf) && transcriptsOf(s.id) == [] {
        var k :| 0 <= k < |stations| && transcriptsOf(stations[k].id) != [];
        assert init[k] == stations[k];
      }
    }
  }

  /** The loop succeeds exactly when every station with transcripts is answered, and a
      failure names such a station whose call failed. */
  lemma {:induction false} SummariesOkIff(stations: seq<Station>, transcriptsOf: int -> seq<string>,
                                          ask: (Station, seq<string>) -> Option<string>)
    ensures var r := SummariesOf(stations, transcriptsOf, ask);
      && (r.Ok? <==> AllAnswered(stations, transcriptsOf, ask))
      && (r.Err? ==> exists k | 0 <= k < |stations| ::
            (stations[k].name == r.error && transcriptsOf(stations[k].id) != []
             && ask(stations[k], transcriptsOf(stations[k].id)).None?))
    decreases |stations|
  {
    if stations != [] {
      var init := stations[..|stations| - 1];
      var s := stations[|stations| - 1];
      SummariesOkIff(init, transcriptsOf, ask);
      var r := SummariesOf(stations, transcriptsOf, ask);
      assert forall k | 0 <= k < |init| :: init[k] == stations[k];
      if SummariesOf(init, transcriptsOf, ask).Err? {
        var k :| 0 <= k < |init| && init[k].name == SummariesOf(init, transcriptsOf, ask).error
          && transcriptsOf(init[k].id) != [] && ask(init[k], transcriptsOf(init[k].id)).None?;
        assert stations[k] == init[k];
      } else if transcriptsOf(s.id) != [] && ask(s, transcriptsOf(s.id)).None? {
        assert stations[|stations| - 1] == s;
      } else {
        forall k | 0 <= k < |stations| && transcriptsOf(stations[k].id) != []
          ensures ask(stations[k], transcriptsOf(stations[k].id)).Some?
        {
          if k < |init| {
            assert init[k] == stations[k];
          }
        }
      }
    }
  }

  /** When the loop succeeds, it holds one item per station with transcripts, in station
      order: the station's name and its stripped answer. */
  lemma {:induction false} SummariesItems(stations: seq<Station>, transcriptsOf: int -> seq<string>,
                                          ask: (Station, seq<string>) -> Option<string>)
    requires SummariesOf(stations, transcriptsOf, ask).Ok?
    ensures var items := SummariesOf(stations, transcriptsOf, ask).value;
      var ws := WithTranscripts(stations, transcriptsOf);
      && |items| == |ws|
      && forall i | 0 <= i < |ws| :: ask(ws[i], transcriptsOf(ws[i].id)).Some?
           && items[i] == Item(ws[i].name, Strip(ask(ws[i], transcriptsOf(ws[i].id)).value))
    decreases |stations|
  {
    if stations != [] {
      var init := stations[..|stations| - 1];
      SummariesItems(init, transcriptsOf, ask);
    }
  }

  /** Each summary is the stripped answer for one station with transcripts, one per such
      station in station order; the loop fails iff some such station's call fails; and
      there are no summaries exactly when no station has transcripts. */
  lemma SummariesFromStations(stations: seq<Station>, transcriptsOf: int -> seq<string>,
                              ask: (Station, seq<string>) -> Option<string>)
    ensures var r := SummariesOf(stations, transcriptsOf, ask);
      var ws := WithTranscripts(stations, transcriptsOf);
      && (r.Ok? <==> AllAnswered(stations, transcriptsOf, ask))
      && (r.Ok? ==> |r.value| == |ws| && forall i | 0 <= i < |ws| ::
            ask(ws[i], transcriptsOf(ws[i].id)).Some?
            && r.value[i] == Item(ws[i].name, Strip(ask(ws[i], transcriptsOf(ws[i].id)).value)))
      && (r.Ok? ==> (r.value == [] <==> !HasTranscripts(stations, transcriptsOf)))
      && (r.Err? ==> exists k | 0 <= k < |stations| ::
            (stations[k].name == r.error && transcriptsOf(stations[k].id) != []
             && ask(stations[k], transcriptsOf(stations[k].id)).None?))
  {
    SummariesOkIff(stations, transcriptsOf, ask);
    WithTranscriptsEmpty(stations, transcriptsOf);
    if SummariesOf(stations, transcriptsOf, ask).Ok? {
      SummariesItems(stations, transcriptsOf, ask);
    }
  }

  /** The line for one summary. */
  function SummaryLine(item: Item): string
  {
    "*" + item.name + "* — " + item.summary
  }

  /** The intro, a blank part, then for each summary its line and a blank part. */
  function MessageParts(intro: string, items: seq<Item>): seq<string>
    decreases |items|
  {
    if items == [] then [intro, ""]
    else MessageParts(intro, items[..|items| - 1]) + [SummaryLine(items[|items| - 1]), ""]
  }

  /** The message: the parts joined by newlines and stripped. */
  function Message(intro: string, items: seq<Item>): string
  {
    Strip(Join(MessageParts(intro, items), "\n"))
  }

  /** The message loop. */
  method BuildMessage(intro: string, items: seq<Item>) returns (message: string)
    ensures message == Message(intro, items)
  {
    var parts := [intro, ""];
    var i := 0;
    while i < |items|
      invariant 0 <= i <= |items|
      invariant parts == MessageParts(intro, items[..i])
    {
      assert items[..i + 1][..i] == items[..i];
      parts := parts + ["*" + items[i].name + "* — " + items[i].summary];
      parts := parts + [""];
      i := i + 1;
    }
    assert items[..i] == items;
    message := Strip(Join(parts, "\n"));
  }

  /** The parts are the intro, then each summary's line, each followed by a blank part. */
  lemma {:induction false} MessagePartsShape(intro: string, items: seq<Item>)
    ensures var parts := MessageParts(intro, items);
      && |parts| == 2 * |items| + 2
      && parts[0] == intro
      && (forall k | 0 <= k < |items| :: parts[2 * k + 2] == SummaryLine(items[k]))
      && (forall k | 0 <= k <= |items| :: parts[2 * k + 1] == "")
    decreases |items|
  {
    if items != [] {
      var init := items[..|items| - 1];
      MessagePartsShape(intro, init);
      var parts := MessageParts(intro, items);
      var before := MessageParts(intro, init);
      forall k | 0 <= k < |items|
        ensures parts[2 * k + 2] == SummaryLine(items[k])
      {
        if k < |init| {
          assert parts[2 * k + 2] == before[2 * k + 2];
          assert init[k] == items[k];
        }
      }
      forall k | 0 <= k <= |items|
        ensures parts[2 * k + 1] == ""
      {
        if k < |items| {
          assert parts[2 * k + 1] == before[2 * k + 1];
        }
      }
    }
  }

  /** The message has no whitespace at either end and begins with the intro. */
  lemma MessageTrimmed(intro: string, items: seq<Item>)
    requires Trimmed(intro)
    ensures var m := Message(intro, items);
      && StartsWith(m, intro)
      && Trimmed(m)
  {
    var parts := MessageParts(intro, items);
    MessagePartsShape(intro, items);
    var text := Join(parts, "\n");
    assert parts == [intro] + parts[1..];
    JoinConcat([intro], parts[1..], "\n");
    assert text[..|intro|] == intro;
    StripShape(text);
    assert SpacesFrom(text, 0) == 0;
    SpacesBeforeStopsAt(text, 0, |text|, |intro| - 1);
    var j := SpacesBefore(text, 0, |text|);
    assert Strip(text) == text[0..j];
    assert Strip(text)[..|intro|] == text[..|intro|];
  }

  /** Scanning back over whitespace stops after a non-space character. */
  lemma {:induction false} SpacesBeforeStopsAt(s: string, lo: nat, j: nat, p: nat)
    requires lo <= p < j <= |s| && !IsSpace(s[p])
    ensures SpacesBefore(s, lo, j) > p
    decreases j
  {
    if j - 1 > p {
      SpacesBeforeStopsAt(s, lo, j - 1, p);
    }
  }

  /** The whole run; `post` says whether Telegram accepts the message. */
  function DailyRun(stations: seq<Station>, transcriptsOf: int -> seq<string>, target: string,
                    serialise: seq<string> -> string, llm: string -> Option<string>, post: string -> bool): Run
  {
    if stations == [] then NoStations
    else
      match SummariesOf(stations, transcriptsOf, Asker(target, serialise, llm))
      case Err(name) => AskFailed(name)
      case Ok(items) =>
        if items == [] then NoSummaries
        else
          var message := Message(SummaryIntro(target), items);
          Post(message, post(message))
  }

  /** `main` after its arguments and the day's time range. */
  method RunDaily(stations: seq<Station>, transcriptsOf: int -> seq<string>, target: string,
                  serialise: seq<string> -> string, llm: string -> Option<string>, post: string -> bool)
    returns (r: Run)
    ensures r == DailyRun(stations, transcriptsOf, target, serialise, llm, post)
  {
    if stations == [] {
      return NoStations;
    }
    var collected := CollectSummaries(stations, transcriptsOf, target, serialise, llm);
    if collected.Err? {
      return AskFailed(collected.error);
    }
    var items := collected.value;
    if items == [] {
      return NoSummaries;
    }
    var message := BuildMessage(SummaryIntro(target), items);
    var delivered := post(message);
    r := Post(message, delivered);
  }

  /** A message is handed to Telegram exactly when some station has transcripts and every
      such station's call succeeds; the run fails before posting exactly when some call
      fails; and it exits 0 exactly when every call succeeds and any post is delivered. */
  lemma PostsIffTranscripts(stations: seq<Station>, transcriptsOf: int -> seq<string>, target: string,
                            serialise: seq<string> -> string, llm: string -> Option<string>, post: string -> bool)
    ensures var r := DailyRun(stations, transcriptsOf, target, serialise, llm, post);
      var answered := AllAnswered(stations, transcriptsOf, Asker(target, serialise, llm));
      && (r.Post? <==> HasTranscripts(stations, transcriptsOf) && answered)
      && (r.AskFailed? <==> !answered)
      && (r.Post? ==> r.delivered == post(r.message))
      && (ExitCode(r) == 0 <==> answered && (r.Post? ==> post(r.message)))
  {
    SummariesFromStations(stations, transcriptsOf, Asker(target, serialise, llm));
  }

  /** A posted message opens with the target language's intro and has no whitespace at
      either end. */
  lemma PostedMessageShape(stations: seq<Station>, transcriptsOf: int -> seq<string>, target: string,
                           serialise: seq<string> -> string, llm: string -> Option<string>, post: string -> bool)
    ensures var r := DailyRun(stations, transcriptsOf, target, serialise, llm, post);
      r.Post? ==> StartsWith(r.message, SummaryIntro(target)) && Trimmed(r.message)
  {
    var r := SummariesOf(stations, transcriptsOf, Asker(target, serialise, llm));
    if r.Ok? {
      IntroTrimmed(target);
      MessageTrimmed(SummaryIntro(target), r.value);
    }
  }
}

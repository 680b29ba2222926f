/** The stored entities the components share: a configured stream, an event logged about
    it, a captured segment file (a recording) and a stretch of merged speech (a speech
    block). Times are whole seconds since the epoch. */
module Models {
  import opened Common

  /** One row of the stream table: the station's configuration, then the three status
      fields the stream manager writes. Capture parameters are held as the text `str()`
      gives for them. */
  datatype Stream = Stream(
    id: int,
    name: string,
    url: Option<string>,
    enabled: bool,
    mandatory: map<string, string>,
    optional: map<string, string>,
    status: string,
    lastUp: Option<int>,
    lastError: Option<string>)

  /** One row of the event log. */
  datatype Event = Event(streamId: int, level: string, message: string)

  /** One row of the recording table. `duration` is in whole seconds; `classification` and
      `transcript` are filled in by later processing and are absent for a fresh row. */
  datatype Recording = Recording(
    id: int,
    streamId: int,
    path: string,
    start: int,
    end: Option<int>,
    sizeBytes: int,
    duration: int,
    status: string,
    classification: Option<string>,
    transcript: Option<string>)

  /** One row of the speech-block table. */
  datatype SpeechBlock = SpeechBlock(
    streamId: int,
    start: int,
    end: int,
    duration: int,
    chunkIds: seq<int>,
    text: string)

  function Ids(rs: seq<Recording>): (ids: seq<int>)
    ensures |ids| == |rs| && forall k | 0 <= k < |rs| :: ids[k] == rs[k].id
  {
    seq(|rs|, k requires 0 <= k < |rs| => rs[k].id)
  }
}

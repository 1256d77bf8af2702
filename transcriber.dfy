/** The transcription engine (`WhisperTranscriber` in transcriber.py): a file
    at most 25 MiB large goes to the speech service in one request; a larger
    one is decoded and walked by a millisecond cursor, one slice per request,
    shrinking the slice length by 10% whenever an exported slice is itself
    over the limit, stopping at the first failed request and joining the texts
    collected so far with single spaces.

    The service, the audio decoder, the slice exporter and the file-size query
    are oracles passed in as values. */
module Transcriber {
  import opened Wrappers
  import opened Text

  /** The service's upload limit, 25 MiB, in bytes. */
  const SizeLimit: nat := 25 * 1024 * 1024

  /** Longest slice at the start of chunked mode: five minutes, in milliseconds. */
  const DefaultChunkMs: nat := 5 * 60 * 1000

  const ModelName: string := "whisper-1"

  /** Every failure that reaches the caller is this prefix followed by `str(e)`. */
  const ErrorPrefix: string := "Ошибка транскрибации: "

  /** What a request uploads: the whole recording, or the exported slice
      `[start, end)` (milliseconds) saved as `chunk_<index>.wav`. */
  datatype Upload = WholeFile | Chunk(index: nat, start: nat, end: nat)

  /** One call of the speech service: model, file and the optional language. */
  datatype Request = Request(model: string, upload: Upload, language: Option<string>)

  /** The service either returns a text or raises an exception with a message. */
  datatype Reply = Transcript(text: string) | Failed(message: string)

  /** The speech service, as seen by this module. */
  type Service = Request -> Reply

  /** Size in bytes of the WAV file the exporter writes for the slice
      `[start, end)`, or the message of the exception the export raised. */
  type Exporter = (nat, nat) -> Result<nat>

  /** The `language` request parameter: present only for a non-empty code
      (`if language:` is false for both `None` and `""`). */
  function LanguageParam(language: Option<string>): (p: Option<string>)
    ensures p.Some? <==> language.Some? && language.value != ""
    ensures p.Some? ==> p.value == language.value
  {
    if language.Some? && language.value != "" then language else None
  }

  /** `int(max_duration * 0.9)`, written in integers: it is strictly shorter
      for every positive duration and stays positive from two upwards. */
  function Shrink(duration: nat): (d: nat)
    ensures duration >= 1 ==> d < duration
    ensures duration >= 2 ==> d >= 1
  {
    9 * duration / 10
  }

  /** `math.ceil(a / d)` for a positive divisor. */
  function CeilDiv(a: nat, d: nat): nat
    requires d >= 1
  {
    (a + d - 1) / d
  }

  predicate Oversized(exportSize: Exporter, start: nat, end: nat)
  {
    exportSize(start, end).Success? && exportSize(start, end).value > SizeLimit
  }

  /** Hypothesis under which the chunked loop terminates: a slice of one
      millisecond is never over the limit, so the slice length never shrinks
      to zero (with zero the cursor would stop moving). */
  predicate OneMsFits(exportSize: Exporter, len: nat)
  {
    forall a: nat | a < len :: OneMsFitsAt(exportSize, a)
  }

  predicate OneMsFitsAt(exportSize: Exporter, a: nat)
  {
    !Oversized(exportSize, a, a + 1)
  }

  /** What one chunked run did: the requests sent in order, the texts
      collected, and the message of an exception that ended the run. */
  datatype Run = Run(sent: seq<Request>, texts: seq<string>, crash: Option<string>)

  /** The string the chunked mode hands back for a run. */
  function Outcome(run: Run): string
  {
    if run.crash.Some? then ErrorPrefix + run.crash.value else Join(run.texts)
  }

  /** Reference definition of the chunked loop from cursor `cursor`, chunk
      number `index` and current slice length `dur`, over `len` ms of audio. */
  function Chunks(len: nat, language: Option<string>, exportSize: Exporter, service: Service,
                  cursor: nat, index: nat, dur: nat): (run: Run)
    requires cursor <= len && dur >= 1 && OneMsFits(exportSize, len)
    ensures |run.texts| <= |run.sent| <= |run.texts| + 1
    decreases len - cursor, dur
  {
    if cursor == len then Run([], [], None)
    else
      var end := Min(cursor + dur, len);
      match exportSize(cursor, end)
      case Failure(m) => Run([], [], Some(m))
      case Success(size) =>
        if size > SizeLimit then
          assert OneMsFitsAt(exportSize, cursor);
          Chunks(len, language, exportSize, service, cursor, index, Shrink(dur))
        else
          var req := Request(ModelName, Chunk(index, cursor, end), LanguageParam(language));
          match service(req)
          case Failed(_) => Run([req], [], None)
          case Transcript(t) =>
            var rest := Chunks(len, language, exportSize, service, end, index + 1, dur);
            Run([req] + rest.sent, [t] + rest.texts, rest.crash)
  }

  /** Result and requests of `transcribe_audio_chunked` given the decoded
      length of the audio (or the decoder's exception). */
  function ChunkedOutcome(decoded: Result<nat>, language: Option<string>, exportSize: Exporter,
                          service: Service, maxDuration: nat): (r: (string, seq<Request>))
    requires decoded.Success? ==> OneMsFits(exportSize, decoded.value)
    ensures decoded.Failure? ==> r == (ErrorPrefix + decoded.error, [])
    ensures decoded.Success? && maxDuration == 0 ==> r == (ErrorPrefix + "division by zero", [])
    ensures decoded == Success(0) && maxDuration > 0 ==> r == ("", [])
  {
    match decoded
    case Failure(m) => (ErrorPrefix + m, [])
    case Success(len) =>
      if maxDuration == 0 then (ErrorPrefix + "division by zero", [])
      else
        var run := Chunks(len, language, exportSize, service, 0, 1, maxDuration);
        (Outcome(run), run.sent)
  }

  /** Requests and texts of a run that has already sent `sent`, collected
      `texts`, and continues as `rest`. */
  function Then(sent: seq<Request>, texts: seq<string>, rest: Run): Run
  {
    Run(sent + rest.sent, texts + rest.texts, rest.crash)
  }

  /** Moving one answered request from the rest of a run to its done part. */
  lemma ThenStep(sent: seq<Request>, texts: seq<string>, req: Request, text: string, rest: Run)
    ensures Then(sent, texts, Run([req] + rest.sent, [text] + rest.texts, rest.crash))
         == Then(sent + [req], texts + [text], rest)
  {
    assert sent + ([req] + rest.sent) == (sent + [req]) + rest.sent;
    assert texts + ([text] + rest.texts) == (texts + [text]) + rest.texts;
  }

  /** `transcribe_audio_chunked`: the cursor loop over `len` ms of audio,
      from cursor 0, chunk 1 and slice length `maxDuration`. `run.sent` lists
      the requests made to the service, in order; `run.crash` is the
      exception that left the loop, if any. */
  method ChunkLoop(len: nat, language: Option<string>, exportSize: Exporter,
                   service: Service, maxDuration: nat)
    returns (run: Run)
    requires maxDuration >= 1 && OneMsFits(exportSize, len)
    ensures run == Chunks(len, language, exportSize, service, 0, 1, maxDuration)
  {
    ghost var whole := Chunks(len, language, exportSize, service, 0, 1, maxDuration);
    var cursor, index, dur := 0, 1, maxDuration;
    var sent: seq<Request>, texts: seq<string> := [], [];
    while cursor < len
      invariant cursor <= len && dur >= 1
      invariant whole == Then(sent, texts, Chunks(len, language, exportSize, service, cursor, index, dur))
      decreases len - cursor, dur
    {
      ghost var here := Chunks(len, language, exportSize, service, cursor, index, dur);
      var end := Min(cursor + dur, len);
      var size := exportSize(cursor, end);
      if size.Failure? {
        // the exception leaves the loop through the outer handler
        assert here == Run([], [], Some(size.error));
        assert sent + [] == sent && texts + [] == texts;
        return Run(sent, texts, Some(size.error));
      }
      if size.value > SizeLimit {
        assert OneMsFitsAt(exportSize, cursor);
        dur := Shrink(dur);
        continue;
      }
      var req := Request(ModelName, Chunk(index, cursor, end), LanguageParam(language));
      var reply := service(req);
      if reply.Failed? {
        assert here == Run([req], [], None);
        assert texts + [] == texts;
        sent := sent + [req];
        break;
      }
      ThenStep(sent, texts, req, reply.text, Chunks(len, language, exportSize, service, end, index + 1, dur));
      sent, texts := sent + [req], texts + [reply.text];
      cursor, index := end, index + 1;
    }
    assert sent + [] == sent && texts + [] == texts;
    run := Run(sent, texts, None);
  }

  /** `transcribe_audio_chunked`: decoding, the slice count, the loop and
      the joined transcript. */
  method TranscribeChunked(decoded: Result<nat>, language: Option<string>, exportSize: Exporter,
                           service: Service, maxDuration: nat)
    returns (r: string, sent: seq<Request>)
    requires decoded.Success? ==> OneMsFits(exportSize, decoded.value)
    ensures (r, sent) == ChunkedOutcome(decoded, language, exportSize, service, maxDuration)
  {
    if decoded.Failure? {
      return ErrorPrefix + decoded.error, [];
    }
    if maxDuration == 0 {
      // math.ceil(len(audio) / max_duration) raises ZeroDivisionError
      return ErrorPrefix + "division by zero", [];
    }
    var run := ChunkLoop(decoded.value, language, exportSize, service, maxDuration);
    sent := run.sent;
    if run.crash.Some? {
      return ErrorPrefix + run.crash.value, sent;
    }
    r := Join(run.texts);
  }

  /** `transcribe_audio`: the size branch. `fileSize` is `os.path.getsize`
      (or its exception); `decoded` is what chunked mode would decode. */
  method TranscribeAudio(fileSize: Result<nat>, decoded: Result<nat>, language: Option<string>,
                         exportSize: Exporter, service: Service)
    returns (r: string, sent: seq<Request>)
    requires decoded.Success? ==> OneMsFits(exportSize, decoded.value)
    ensures fileSize.Failure? ==> r == ErrorPrefix + fileSize.error && sent == []
    ensures fileSize.Success? && fileSize.value <= SizeLimit ==>
              && sent == [Request(ModelName, WholeFile, LanguageParam(language))]
              && r == match service(sent[0])
                      case Transcript(t) => t
                      case Failed(m) => ErrorPrefix + m
    ensures fileSize.Success? && fileSize.value > SizeLimit ==>
              (r, sent) == ChunkedOutcome(decoded, language, exportSize, service, DefaultChunkMs)
  {
    if fileSize.Failure? {
      return ErrorPrefix + fileSize.error, [];
    }
    if fileSize.value > SizeLimit {
      r, sent := TranscribeChunked(decoded, language, exportSize, service, DefaultChunkMs);
      return;
    }
    var req := Request(ModelName, WholeFile, LanguageParam(language));
    sent := [req];
    var reply := service(req);
    match reply
    case Transcript(t) => r := t;
    case Failed(m) => r := ErrorPrefix + m;
  }

  // ---------------------------------------------------------------------------
  // Properties of the chunked loop
  // ---------------------------------------------------------------------------

  /** Every request uploads chunk file number `index + i` with model
      `whisper-1` and the language parameter of the job. */
  predicate NumberedChunks(sent: seq<Request>, index: nat, language: Option<string>)
  {
    forall i | 0 <= i < |sent| ::
      && sent[i].model == ModelName
      && sent[i].language == LanguageParam(language)
      && sent[i].upload.Chunk?
      && sent[i].upload.index == index + i
  }

  /** The uploaded slices are non-empty, lie inside `[from, len)`, the first
      starts at `from`, and each starts where the previous one ended. */
  predicate Contiguous(sent: seq<Request>, from: nat, len: nat)
  {
    && (forall i | 0 <= i < |sent| ::
          sent[i].upload.Chunk? && from <= sent[i].upload.start < sent[i].upload.end <= len)
    && (|sent| > 0 ==> sent[0].upload.start == from)
    && (forall i | 0 <= i < |sent| - 1 :: sent[i + 1].upload.start == sent[i].upload.end)
  }

  /** The slice `[start, end)` was exported without error and within the limit. */
  predicate Fits(exportSize: Exporter, start: nat, end: nat)
  {
    exportSize(start, end).Success? && exportSize(start, end).value <= SizeLimit
  }

  /** Every uploaded slice fits the limit and is at most `dur` long. */
  predicate WithinLimit(sent: seq<Request>, exportSize: Exporter, dur: nat)
  {
    forall i | 0 <= i < |sent| ::
      && sent[i].upload.Chunk?
      && Fits(exportSize, sent[i].upload.start, sent[i].upload.end)
      && sent[i].upload.end - sent[i].upload.start <= dur
  }

  /** Where the uploaded slices end (`from` when nothing was uploaded). */
  function Reached(sent: seq<Request>, from: nat): nat
  {
    if |sent| == 0 || !sent[|sent| - 1].upload.Chunk? then from else sent[|sent| - 1].upload.end
  }

  /** Shape of the requests: numbered chunk files from `index`, contiguous
      slices from the cursor, each within the size limit and no longer than
      the slice length the run started with (lengths only shrink). */
  lemma {:induction false} ChunksSlices(len: nat, language: Option<string>, exportSize: Exporter,
                                        service: Service, cursor: nat, index: nat, dur: nat)
    requires cursor <= len && dur >= 1 && OneMsFits(exportSize, len)
    ensures var run := Chunks(len, language, exportSize, service, cursor, index, dur);
            && NumberedChunks(run.sent, index, language)
            && Contiguous(run.sent, cursor, len)
            && WithinLimit(run.sent, exportSize, dur)
    decreases len - cursor, dur
  {
    var run := Chunks(len, language, exportSize, service, cursor, index, dur);
    if cursor < len {
      var end := Min(cursor + dur, len);
      var size := exportSize(cursor, end);
      if size.Success? {
        if size.value > SizeLimit {
          assert OneMsFitsAt(exportSize, cursor);
          ChunksSlices(len, language, exportSize, service, cursor, index, Shrink(dur));
        } else {
          var req := Request(ModelName, Chunk(index, cursor, end), LanguageParam(language));
          if service(req).Transcript? {
            var rest := Chunks(len, language, exportSize, service, end, index + 1, dur);
            ChunksSlices(len, language, exportSize, service, end, index + 1, dur);
            assert run.sent == [req] + rest.sent;
            ShapesCons(req, rest.sent, index, language, exportSize, cursor, end, len, dur);
          }
        }
      }
    }
  }

  /** One accepted slice in front of well-shaped requests keeps their shape. */
  lemma ShapesCons(req: Request, rest: seq<Request>, index: nat, language: Option<string>,
                   exportSize: Exporter, cursor: nat, end: nat, len: nat, dur: nat)
    requires req == Request(ModelName, Chunk(index, cursor, end), LanguageParam(language))
    requires cursor < end <= len && end - cursor <= dur && Fits(exportSize, cursor, end)
    requires NumberedChunks(rest, index + 1, language) && Contiguous(rest, end, len)
    requires WithinLimit(rest, exportSize, dur)
    ensures var sent := [req] + rest;
            && NumberedChunks(sent, index, language)
            && Contiguous(sent, cursor, len)
            && WithinLimit(sent, exportSize, dur)
  {
    var sent := [req] + rest;
    forall i | 1 <= i < |sent| ensures sent[i] == rest[i - 1] { }
  }

  /** The loop stops at the first failed request: every request but the last
      was answered with the text collected at the same position, and a failed
      request is always the last one and ends the run without an exception. */
  lemma {:induction false} ChunksStopAtFailure(len: nat, language: Option<string>, exportSize: Exporter,
                                               service: Service, cursor: nat, index: nat, dur: nat)
    requires cursor <= len && dur >= 1 && OneMsFits(exportSize, len)
    ensures var run := Chunks(len, language, exportSize, service, cursor, index, dur);
            && (|run.texts| == |run.sent| ||
                (|run.texts| == |run.sent| - 1 && service(run.sent[|run.texts|]).Failed? && run.crash.None?))
            && (forall i | 0 <= i < |run.texts| :: service(run.sent[i]) == Transcript(run.texts[i]))
    decreases len - cursor, dur
  {
    if cursor < len {
      var end := Min(cursor + dur, len);
      var size := exportSize(cursor, end);
      if size.Success? {
        if size.value > SizeLimit {
          assert OneMsFitsAt(exportSize, cursor);
          ChunksStopAtFailure(len, language, exportSize, service, cursor, index, Shrink(dur));
        } else {
          var req := Request(ModelName, Chunk(index, cursor, end), LanguageParam(language));
          if service(req).Transcript? {
            var run := Chunks(len, language, exportSize, service, cursor, index, dur);
            var rest := Chunks(len, language, exportSize, service, end, index + 1, dur);
            ChunksStopAtFailure(len, language, exportSize, service, end, index + 1, dur);
            assert run.sent == [req] + rest.sent && run.texts == [service(req).text] + rest.texts;
            forall i | 1 <= i < |run.texts|
              ensures service(run.sent[i]) == Transcript(run.texts[i])
            {
              assert run.sent[i] == rest.sent[i - 1] && run.texts[i] == rest.texts[i - 1];
            }
          }
        }
      }
    }
  }

  /** A run that neither failed nor raised has uploaded all of `[cursor, len)`. */
  lemma {:induction false} ChunksCover(len: nat, language: Option<string>, exportSize: Exporter,
                                       service: Service, cursor: nat, index: nat, dur: nat)
    requires cursor <= len && dur >= 1 && OneMsFits(exportSize, len)
    ensures var run := Chunks(len, language, exportSize, service, cursor, index, dur);
            run.crash.None? && |run.texts| == |run.sent| ==> Reached(run.sent, cursor) == len
    decreases len - cursor, dur
  {
    if cursor < len {
      var end := Min(cursor + dur, len);
      var size := exportSize(cursor, end);
      if size.Success? {
        if size.value > SizeLimit {
          assert OneMsFitsAt(exportSize, cursor);
          ChunksCover(len, language, exportSize, service, cursor, index, Shrink(dur));
        } else {
          var req := Request(ModelName, Chunk(index, cursor, end), LanguageParam(language));
          if service(req).Transcript? {
            var run := Chunks(len, language, exportSize, service, cursor, index, dur);
            var rest := Chunks(len, language, exportSize, service, end, index + 1, dur);
            ChunksCover(len, language, exportSize, service, end, index + 1, dur);
            assert run.sent == [req] + rest.sent;
            if |rest.sent| > 0 {
              assert run.sent[|run.sent| - 1] == rest.sent[|rest.sent| - 1];
            }
          }
        }
      }
    }
  }

  /** No slice of the current length, from any cursor position, is oversized
      or fails to export. */
  predicate NoShrinkNeeded(exportSize: Exporter, cursor: nat, len: nat, dur: nat)
  {
    forall a: nat | cursor <= a < len :: FitsFrom(exportSize, a, len, dur)
  }

  predicate FitsFrom(exportSize: Exporter, a: nat, len: nat, dur: nat)
  {
    Fits(exportSize, a, Min(a + dur, len))
  }

  lemma DivSmall(x: nat, d: nat)
    requires x < d
    ensures x / d == 0
  {
  }

  lemma DivUnique(n: nat, d: nat, q: int, r: int)
    requires d >= 1 && 0 <= r < d && n == q * d + r
    ensures n / d == q
  {
    var q', r' := n / d, n % d;
    MulMonotone(q' - q, d);
    assert (q' - q) * d == q' * d - q * d;
  }

  lemma MulMonotone(k: int, d: nat)
    ensures k >= 1 ==> k * d >= d
    ensures k <= -1 ==> k * d + d <= 0
  {
  }

  lemma DivStep(x: nat, d: nat)
    requires d >= 1
    ensures (x + d) / d == x / d + 1
  {
    var q, r := x / d, x % d;
    assert x + d == (q + 1) * d + r;
    DivUnique(x + d, d, q + 1, r);
  }

  /** With no shrink and no failure the loop makes exactly
      `ceil((len - cursor) / dur)` requests, the estimate the code logs. */
  lemma {:induction false} ChunksCount(len: nat, language: Option<string>, exportSize: Exporter,
                                       service: Service, cursor: nat, index: nat, dur: nat)
    requires cursor <= len && dur >= 1 && OneMsFits(exportSize, len)
    requires NoShrinkNeeded(exportSize, cursor, len, dur)
    requires forall q: Request | q.upload.Chunk? :: service(q).Transcript?
    ensures var run := Chunks(len, language, exportSize, service, cursor, index, dur);
            && run.crash.None?
            && |run.sent| == |run.texts| == CeilDiv(len - cursor, dur)
    decreases len - cursor
  {
    if cursor == len {
      DivSmall(dur - 1, dur);
    } else {
      var end := Min(cursor + dur, len);
      assert FitsFrom(exportSize, cursor, len, dur);
      assert NoShrinkNeeded(exportSize, end, len, dur);
      ChunksCount(len, language, exportSize, service, end, index + 1, dur);
      if end == len {
        DivSmall(len - cursor - 1, dur);
        DivStep(len - cursor - 1, dur);
      } else {
        DivStep(len - end + dur - 1, dur);
      }
    }
  }

  // ---------------------------------------------------------------------------
  // Scenarios
  // ---------------------------------------------------------------------------

  /** The text a test service returns for chunk file number `n`. */
  function Label(n: nat): string
  {
    "segment " + NatToString(n)
  }

  /** A service that answers every chunk upload with the label of its number. */
  ghost predicate Labelled(service: Service)
  {
    forall q: Request | q.upload.Chunk? :: service(q) == Transcript(Label(q.upload.index))
  }

  /** With a labelled service the texts are the labels of the chunk numbers,
      in upload order, and every request was answered. */
  lemma ChunksLabelled(len: nat, language: Option<string>, exportSize: Exporter,
                       service: Service, cursor: nat, index: nat, dur: nat)
    requires cursor <= len && dur >= 1 && OneMsFits(exportSize, len)
    requires Labelled(service)
    ensures var run := Chunks(len, language, exportSize, service, cursor, index, dur);
            && |run.texts| == |run.sent|
            && forall i | 0 <= i < |run.texts| :: run.texts[i] == Label(index + i)
  {
    var run := Chunks(len, language, exportSize, service, cursor, index, dur);
    ChunksSlices(len, language, exportSize, service, cursor, index, dur);
    ChunksStopAtFailure(len, language, exportSize, service, cursor, index, dur);
    forall i | 0 <= i < |run.texts| ensures run.texts[i] == Label(index + i) {
      assert run.sent[i].upload.Chunk? && run.sent[i].upload.index == index + i;
      assert service(run.sent[i]) == Transcript(run.texts[i]);
    }
  }

  /** Forty minutes of audio, five-minute slices that never need to shrink,
      and a service answering `"segment N"` for chunk N: eight requests, and
      the transcript is `"segment 1 segment 2 ... segment 8"`. */
  lemma FortyMinuteScenario(len: nat, language: Option<string>, exportSize: Exporter, service: Service)
    requires len == 40 * 60 * 1000
    requires OneMsFits(exportSize, len)
    requires NoShrinkNeeded(exportSize, 0, len, DefaultChunkMs)
    requires Labelled(service)
    ensures var run := Chunks(len, language, exportSize, service, 0, 1, DefaultChunkMs);
            && run.crash.None? && |run.sent| == |run.texts| == 8
            && (forall i | 0 <= i < 8 :: run.texts[i] == Label(i + 1))
            && ChunkedOutcome(Success(len), language, exportSize, service, DefaultChunkMs).0
               == Join(run.texts)
  {
    ChunksCount(len, language, exportSize, service, 0, 1, DefaultChunkMs);
    ChunksLabelled(len, language, exportSize, service, 0, 1, DefaultChunkMs);
    DivUnique(len + DefaultChunkMs - 1, DefaultChunkMs, 8, DefaultChunkMs - 1);
  }

  /** Size of the WAV file for the slice `[start, end)` of a recording in the
      recorder's own format (mono, 16-bit, 44100 Hz): a 44-byte header and
      88.2 bytes per millisecond. */
  function WavSize(start: nat, end: nat): Result<nat>
  {
    if end <= start then Success(44) else Success(44 + 2 * ((end - start) * 441 / 10))
  }

  lemma WavSizeOneMs(len: nat)
    ensures OneMsFits(WavSize, len)
  {
    forall a: nat | a < len ensures OneMsFitsAt(WavSize, a) {
      assert WavSize(a, a + 1) == Success(132);
    }
  }

  /** Every slice of at most 4.5 minutes fits the limit. */
  lemma WavSizeFits(len: nat)
    ensures NoShrinkNeeded(WavSize, 0, len, 270000)
  {
    forall a: nat | 0 <= a < len ensures FitsFrom(WavSize, a, len, 270000) {
      var b := Min(a + 270000, len);
      MulDivMonotone(b - a, 270000);
    }
  }

  lemma MulDivMonotone(x: nat, y: nat)
    requires x <= y
    ensures x * 441 / 10 <= y * 441 / 10
  {
  }

  /** In the recorder's own format a five-minute slice is 26,460,044 bytes, over
      the limit, so a forty-minute recording is cut into 4.5-minute slices and
      the service is called nine times, not eight. */
  lemma RecorderFormatShrinksOnce(len: nat, language: Option<string>, service: Service)
    requires len == 40 * 60 * 1000
    requires forall q: Request | q.upload.Chunk? :: service(q).Transcript?
    ensures OneMsFits(WavSize, len)
    ensures var run := Chunks(len, language, WavSize, service, 0, 1, DefaultChunkMs);
            && run.crash.None? && |run.sent| == 9
            && run.sent[0].upload == Chunk(1, 0, 270000)
  {
    WavSizeOneMs(len);
    assert WavSize(0, 300000) == Success(26460044);
    assert Shrink(DefaultChunkMs) == 270000;
    assert Chunks(len, language, WavSize, service, 0, 1, DefaultChunkMs)
        == Chunks(len, language, WavSize, service, 0, 1, 270000);
    WavSizeFits(len);
    ChunksCount(len, language, WavSize, service, 0, 1, 270000);
    ChunksSlices(len, language, WavSize, service, 0, 1, 270000);
    DivUnique(len + 270000 - 1, 270000, 9, 239999);
  }
}

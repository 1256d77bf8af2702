# Conversation recorder and transcriber — a Dafny model

The system records a sales conversation from a microphone. It shows the input
level while idle, writes the recording to a mono 16-bit 44100 Hz WAV file, sends it to
the Whisper speech service, and appends the manager's name, the date, the
conversation ID and the transcript to a CSV ledger. This project models its core:

- `transcriber.dfy` (module `Transcriber`) models the transcription engine.
  A file of at most 25 MiB goes to the service in one request. A larger one is
  walked by a millisecond cursor, one exported slice per request. The slice
  length shrinks by 10% whenever an exported slice is over the limit. The run
  stops at the first failed request, and the texts collected are joined with
  single spaces. `ChunkLoop` is the cursor loop, proved equal to the
  recursive reference function `Chunks`; `TranscribeChunked` wraps it. The lemmas state what a run sends and
  collects.
- `volume.dfy` (module `Volume`) models blocks of signed 16-bit samples, the
  level meter, and the payload of a finished recording.
- `devices.dfy` (module `Devices`) models the device catalog: name sanitising,
  the input-device filter, and the synthetic default entry.
- `recorder.dfy` (module `Recorder`) models the recorder. Each operation is a
  function from one `RecorderState` to the next. Class `AudioRecorder` updates
  its fields in place and is proved to follow those functions.
- `csv_handler.dfy` (module `Ledger`) models the CSV ledger: rows appended
  under a header that is written only for a new file.
- `app.dfy` (module `App`) models the window's decision logic. This covers
  device selection, file selection, the record toggle, the progress line and
  the form check before saving.
- `text.dfy` and `wrappers.dfy` hold shared helpers: Python's `" ".join`,
  `split(" ")`, `strip()`, decimal rendering, `Option` and `Result`.

Everything outside the process is a parameter:

- the speech service is a function from request to reply;
- the slice exporter gives the size of the WAV it writes, or its exception;
- the audio system gives the device count and the per-device reports;
- stream opening, block reads and file writes are success flags or results;
- the clock is a `DateTime` value.

Where descriptions of the system differ from the code, the model follows the
code:

- The device fallback name is `Устройство #<i>`.
- The monitor stream is opened by the monitor thread. When opening fails, the
  thread ends and monitoring stays switched on without a stream.
- The model requires that a 1 ms slice is never over the limit. If one were,
  the slice length would shrink to 0. The source would then upload empty
  slices without moving the cursor, until a request or an export fails.
- The forty-minute scenario ("eight requests when slices never shrink") holds
  (`Transcriber.FortyMinuteScenario`). In the recorder's own format, however, a
  five-minute slice is 26,460,044 bytes, which is over 25 MiB. Such a recording
  is cut into 4.5-minute slices and sent in nine requests
  (`Transcriber.RecorderFormatShrinksOnce`).

## Model

| member | source | states |
|---|---|---|
| Transcriber.LanguageParam | transcriber.py:166-168 | the language parameter is sent exactly when the code is present and non-empty, and then it is the code unchanged |
| Transcriber.Shrink | transcriber.py:149 | the shrunk slice length is strictly shorter than any positive length, and stays at least 1 from length 2 up |
| Transcriber.Chunks | transcriber.py:116-192 | a run collects one text per answered request: it has at least as many requests as texts and at most one more (the failed last one) |
| Transcriber.ChunkedOutcome | transcriber.py:95-217 | a decoder failure gives the error marker with its message and no request; a zero slice length (`max_duration` 0) gives the division-by-zero error marker and no request; zero-length audio gives "" with no request |
| Transcriber.ChunkLoop | transcriber.py:116-192 | the cursor loop from cursor 0, chunk 1 yields exactly the requests, texts and exception of the reference run `Chunks` |
| Transcriber.TranscribeChunked | transcriber.py:95-217 | returns exactly the text and requests of `ChunkedOutcome`: a decoder failure or a zero slice length (`max_duration` 0) gives the error marker and no request; zero-length audio gives "" with no request; otherwise the loop's run, with an exported-slice exception as the error marker and the texts space-joined |
| Transcriber.TranscribeAudio | transcriber.py:43-81 | a size-query failure gives the error marker and no request; a file of at most 25 MiB is one whole-file request whose reply text, or error marker, is returned; a larger file is the chunked outcome with five-minute slices |
| Transcriber.ChunksSlices | transcriber.py:124-192 | requests upload chunk files numbered consecutively from the start index, with model `whisper-1` and the job's language; the slices are non-empty, contiguous from the cursor, inside the audio, each within 25 MiB and no longer than the slice length |
| Transcriber.ChunksStopAtFailure | transcriber.py:155-192 | every answered request's text is collected in order; only the last request can have failed, and a failed request ends the run without an exception |
| Transcriber.ChunksCover | transcriber.py:124-192 | a run that neither failed nor raised has uploaded the audio up to its end |
| Transcriber.ChunksCount | transcriber.py:120-129 | with no shrink and no failure the run makes exactly `ceil((len - cursor) / dur)` requests, the logged estimate |
| Transcriber.ChunksLabelled | transcriber.py:171-179 | with a service answering each chunk by its label, the texts are the labels of the chunk numbers in upload order |
| Transcriber.FortyMinuteScenario | transcriber.py:116-205 | forty minutes with five-minute slices that never shrink: eight requests, texts `segment 1` .. `segment 8`, and the result is their space-joined string |
| Transcriber.RecorderFormatShrinksOnce | transcriber.py:147-152 | for forty minutes of 44100 Hz 16-bit mono audio, the first five-minute slice is over the limit, the slice length becomes 270000 ms and nine requests are made |
| Text.Join | transcriber.py:205 | no texts join to ""; the joined string starts with the first text, followed by a space when there is a second |
| Text.SplitJoin | transcriber.py:205 | joining space-free texts with single spaces loses nothing: splitting on spaces gives them back in order |
| Text.Strip | main.py:502-505 | the result is the input without leading and trailing whitespace: what is cut on either side is whitespace, and the result neither starts nor ends with whitespace |
| Text.StripEmptyIffBlank | main.py:508-518 | a stripped field is empty exactly when the field was all whitespace |
| Text.StripIdempotent | main.py:502-505 | stripping twice is stripping once |
| Text.Pad | main.py:484 | the zero-padded decimal of a number below 10^w has exactly w digits and reads back as the number |
| Text.NatToStringValue | main.py:482-486 | the decimal rendering of a number reads back as the number |
| Volume.Sample | recorder.py:275 | two bytes, low byte first, read as a signed 16-bit sample lie in [-32768, 32767] |
| Volume.SampleRoundTrip | recorder.py:275 | encoding a sample and reading it back gives the sample |
| Volume.EncodeRoundTrip | recorder.py:275 | reading two bytes as a sample and encoding it gives the two bytes back |
| Volume.Samples | recorder.py:275 | a block of 2n bytes has n samples, sample i taken from bytes 2i and 2i+1 |
| Volume.SamplesAppend | recorder.py:275 | splitting a byte string at an even position splits its samples there |
| Volume.SquaredLevel | recorder.py:263-284 | the (squared) level is in [0, 1], and is 0 for an empty block or an odd number of bytes |
| Volume.MeterZero | recorder.py:277-281 | the meter reads 0 exactly when the sum of squares is 0 |
| Volume.MeterFull | recorder.py:277-281 | a mean square of at least 10000^2, that is an RMS of at least 10000, fills the meter |
| Volume.SilentIffZero | recorder.py:273-282 | a well-formed block reads 0 exactly when every sample is 0 |
| Volume.LoudIsFull | recorder.py:277-281 | a block whose every sample is at least 10000 in magnitude reads 1 |
| Volume.Concat | recorder.py:327 | the payload starts with the first block's bytes, and blocks of whole samples give a payload of whole samples |
| Volume.ConcatAppend | recorder.py:253 | appending a block appends its bytes to the payload after the earlier ones |
| Volume.ConcatSamples | recorder.py:327 | the payload of whole-sample blocks has the blocks' samples in arrival order |
| Devices.Filter | recorder.py:61 | the filtered name is no longer than the raw one and holds only printable ASCII and Cyrillic characters |
| Devices.FilterKeepsAllowed | recorder.py:61 | the filter leaves a name of allowed characters unchanged |
| Devices.FallbackName | recorder.py:66 | the fallback is `Устройство #` followed by the decimal digits of the index |
| Devices.CleanName | recorder.py:55-68 | a sanitised name is non-empty, holds only allowed characters, and does not start or end with a space |
| Devices.CleanNameCases | recorder.py:57-66 | the fallback is used exactly when the filtered name is blank; otherwise the name is the filtered name with whitespace cut from both ends only |
| Devices.CleanNameIdempotent | recorder.py:55-68 | sanitising a sanitised name changes nothing, whatever the index |
| Devices.Entry | recorder.py:50-76 | a report gives an entry exactly when it has a positive input-channel count; the entry carries its index and that count, and its name is sanitised (non-empty, allowed characters, no surrounding space) |
| Devices.Listing | recorder.py:46-79 | a failed query gives no entry; an entry carries the index it was queried at and a sanitised name |
| Devices.DeviceList | recorder.py:43-99 | the list starts with the default entry; a failed count gives only that entry; otherwise it has at most one entry per device index plus the default |
| Devices.GetAvailableDevices | recorder.py:36-99 | the loop returns the reference list: the default entry first, then the entries in index order; a failed count gives only the default entry |
| Devices.ListingIndexed | recorder.py:72 | every entry the audio system yields carries its own index |
| Devices.ListedAscending | recorder.py:45-76 | listed devices have indices below the count, strictly increasing along the list |
| Devices.ListedSound | recorder.py:45-79 | every listed device is the entry of its own index |
| Devices.ListedComplete | recorder.py:45-79 | every entry below the count is in the list |
| Devices.DeviceListShape | recorder.py:43-89 | the list is the default entry, then exactly the input devices whose query succeeded, in ascending index order, each with a sanitised name (non-empty, allowed characters, no surrounding space) |
| Recorder.Stamp | recorder.py:218 | the time stamp is 15 characters with `_` at position 8 |
| Recorder.RecordingPathShape | recorder.py:218-219 | the recording path starts with the output directory and ends with `recording_<stamp>.wav` |
| Recorder.StampFields | recorder.py:218 | the time stamp is 15 characters, `_` at position 8, digits elsewhere, and year, month, day, hour, minute and second read back from their positions |
| Recorder.PathJoin | recorder.py:219 | the joined path starts with the directory and ends with the file name |
| Recorder.Initial | recorder.py:11-24 | a fresh recorder is idle and consistent |
| Recorder.DeviceSet | recorder.py:101-114 | the index is replaced; monitoring and its callback are kept; an active monitor loses its stream until the thread reopens it; consistency is kept |
| Recorder.MonitoringStarted | recorder.py:116-134 | afterwards the recorder is monitoring; already monitoring changes nothing; otherwise the callback is the given one and the monitor stream is as before; recording and device are untouched; consistency is kept |
| Recorder.MonitoringStopped | recorder.py:136-156 | afterwards the recorder is not monitoring and, when consistent, has no monitor stream; callback, recording, stream, device, frames and written files are untouched; consistency is kept |
| Recorder.MonitorOpened | recorder.py:158-175 | a monitor stream exists afterwards exactly when one existed or the monitor is on and opening succeeded, and then it is on the selected device; the on/off flags are untouched; consistency is kept |
| Recorder.MonitorRead | recorder.py:177-193 | only the level can change, and only when monitoring with a stream, a block read without error and a callback; consistency is kept |
| Recorder.RecordingStarted | recorder.py:200-246 | an active recording is left alone and nothing is returned; otherwise the recorder records with no frames, monitoring off and the clock-named file, succeeds exactly when opening did, and then has a stream on the selected device; consistency is kept |
| Recorder.BlockRecorded | recorder.py:248-261 | while recording with a stream, a block read without error is appended to the frames; anything else changes nothing; only the frames and the level can change; consistency is kept |
| Recorder.RecordingStopped | recorder.py:295-348 | afterwards nothing is recorded and a stopped recording has no stream; stopping when idle changes nothing; a file is returned exactly when there were frames, the write succeeded and a file was named, and then it is the recording's file and is among the written ones; otherwise the written files are unchanged; consistency is kept |
| Recorder.MonitoringConsistent | recorder.py:101-198 | starting, stopping, opening and reading the monitor, and changing device, keep the state consistent: no stream for an activity that is off, and a level in [0, 1] |
| Recorder.RecordingConsistent | recorder.py:200-348 | starting, feeding and stopping a recording keep the state consistent, and a recording always has its file name |
| Recorder.MonitoringIdempotent | recorder.py:116-156 | starting the monitor twice is starting it once, and so for stopping; after a stop the monitor is off with its stream closed |
| Recorder.DeviceChange | recorder.py:101-114 | the index is always replaced; monitoring stays on or off as it was; an active monitor keeps its callback and must reopen its stream; an idle recorder changes in nothing else |
| Recorder.StartRecordingShape | recorder.py:200-246 | a new recording starts with no frames and monitoring off, is named after the clock, and has a stream on the selected device exactly when opening succeeded; an active recording is left alone and nothing is returned |
| Recorder.StopRecordingCases | recorder.py:295-348 | the four outcomes of stopping: not recording; frames written to the file as mono, 16-bit (sample width 2), 44100 Hz and its name returned, monitor restarted; no frames; write failed; stopping again returns nothing and changes nothing |
| Recorder.RecordingCollects | recorder.py:248-261 | while recording, the frames grow by exactly the blocks read without error, in order, and only the frames and level change |
| Recorder.RecordingRoundTrip | recorder.py:200-348 | start, blocks, stop: the file returned by start holds exactly the blocks read without error, in arrival order, as mono, 16-bit (sample width 2), 44100 Hz |
| Recorder.AudioRecorder.constructor | recorder.py:11-24 | the fields form the initial state |
| Recorder.AudioRecorder.StartMonitoring | recorder.py:116-134 | updates the fields as `MonitoringStarted` and keeps them consistent |
| Recorder.AudioRecorder.StopMonitoring | recorder.py:136-156 | updates the fields as `MonitoringStopped` and keeps them consistent |
| Recorder.AudioRecorder.OpenMonitor | recorder.py:158-175 | updates the fields as `MonitorOpened` and keeps them consistent |
| Recorder.AudioRecorder.MonitorStep | recorder.py:177-193 | updates the fields as `MonitorRead`; the callback gets a level exactly when monitoring with a stream, a block and a callback, and it is the new current level |
| Recorder.AudioRecorder.SetDevice | recorder.py:101-114 | updates the fields as `DeviceSet` and keeps them consistent |
| Recorder.AudioRecorder.StartRecording | recorder.py:200-246 | updates the fields and returns as `RecordingStarted` and keeps them consistent |
| Recorder.AudioRecorder.RecordStep | recorder.py:248-261 | updates the fields as `BlockRecorded`; the callback gets a level exactly when recording with a stream, a block and a callback |
| Recorder.AudioRecorder.GetCurrentVolume | recorder.py:286-293 | returns the current level, which is in [0, 1] |
| Recorder.AudioRecorder.StopRecording | recorder.py:295-348 | updates the fields and returns as `RecordingStopped` and keeps them consistent |
| Ledger.Appended | csv_handler.py:46-59 | a missing file gets the header then the row; an existing one keeps every row and gets the row last |
| Ledger.AppendAll | csv_handler.py:33-67 | appending entries one by one gives a ledger whose entries are the earlier ones followed by the new ones in order |
| Ledger.CSVHandler.constructor | csv_handler.py:7-10 | the file path is as given and nothing is unsaved |
| Ledger.CSVHandler.SetFilePath | csv_handler.py:12-15 | the file is selected and the unsaved flag cleared |
| Ledger.CSVHandler.CreateNewFile | csv_handler.py:17-31 | the file holds just the header and is selected; a failed open returns its error and changes nothing |
| Ledger.CSVHandler.AddEntry | csv_handler.py:33-67 | succeeds exactly when a file is selected and opens; then the row is appended (after the header for a new file); otherwise nothing is written; the unsaved flag is the negated result |
| Ledger.CSVHandler.ReadEntries | csv_handler.py:69-86 | no file or a missing one gives no entries; for a ledger the header followed by the entries is the file |
| Ledger.CSVHandler.HasUnsavedChanges | csv_handler.py:88-90 | returns the unsaved flag |
| App.FormatElapsed | main.py:481-486 | under a minute the text is digits followed by ` сек`; from a minute up it is digits, `:` and two digits |
| App.ElapsedRoundTrip | main.py:481-486 | the elapsed-time text reads back as the seconds |
| App.ProgressStart | main.py:472-488 | the first status line shows `/` and `0 сек` |
| App.SpinnerPeriod | main.py:473-479 | the status lines of passes k and k+4 show the same spinner frame, and four consecutive passes show four different frames |
| App.ProgressLines | main.py:469-498 | pass k of the progress loop shows the spinner frame of k+1 and the elapsed text of k seconds |
| App.CheckEntry | main.py:500-518 | the first empty stripped field, in the order manager, ID, transcript, is reported; otherwise the stripped fields are saved |
| App.CheckEntrySaves | main.py:502-505 | saved fields are non-empty, already stripped, and are the form's values without surrounding whitespace |
| App.LanguageName | main.py:408-412 | `ru`, `en` and `kk` are named by their Russian adjectives; any other code is shown as itself |
| App.LanguageNameFixed | main.py:408-412 | a code is shown unchanged exactly when it is not one of the three |
| App.FindDevice | main.py:267-272 | finds the first device with that name, or reports that none has it |
| App.Controller.constructor | main.py:36-51 | the window opens with no CSV file, language `ru`, the device list read, and the monitor running with the level callback |
| App.Controller.OnDeviceChange | main.py:260-278 | the first device with the name is set on the recorder; an unknown name changes nothing |
| App.Controller.BrowseFile | main.py:280-292 | a chosen file is selected for the ledger; cancelling changes nothing |
| App.Controller.NewFile | main.py:294-307 | a chosen file is created with the header and selected; a failed create leaves the selection; cancelling changes nothing |
| App.Controller.ToggleRecording | main.py:309-350 | without a CSV file nothing happens; an idle window starts recording with the level callback; a recording one stops |
| App.Controller.StopRecording | main.py:360-395 | nothing when not recording; otherwise the recorder stops and only the file it returned goes to transcription |
| App.Controller.SaveToCsv | main.py:500-527 | the form is checked first; only a complete form is appended to the ledger, with its stripped values |

## Left out

- Threads, sleeps, join time-outs and races are left out. The monitor and recording loops are single steps (`MonitorStep`, `RecordStep`) that the environment calls; a block that arrives after a stop is not modelled.
- PyAudio, the WAV header, pydub decoding and export, and the OpenAI client are left out. Their outcomes are oracle parameters.
- `WhisperTranscriber.__init__` (reading the API key) and all logging and timing output are left out.
- Temporary-directory creation and removal and `os.remove` of chunk files are left out: they are assumed to succeed. If `os.makedirs` or `os.remove` failed, the source would return the error marker (transcriber.py:106, 151, 187, 213-217); the model does not capture that.
- Volume.SquaredLevel: gives the square of the meter reading, `min(1, meanSquare / 10000^2)`, because Dafny has no square root. The square root is monotone and fixes 0 and 1, so the 0 and 1 properties carry over. Other values differ: two samples of 5000 read 0.25 here and 0.5 in the source.
- Recorder.AudioRecorder.MonitorStep: the level passed to the callback is the squared reading of `Volume.SquaredLevel`, not the source's reading.
- Recorder.AudioRecorder.RecordStep: the level passed to the callback is the squared reading of `Volume.SquaredLevel`, not the source's reading.
- Recorder.AudioRecorder.GetCurrentVolume: the `currentVolume` field, and so the level returned, is the squared reading of `Volume.SquaredLevel`, not the source's reading.
- Volume.Sample: reads samples low byte first. The source uses the machine's native byte order, which is little-endian on the usual platforms.
- Transcriber.Shrink: computes `9 * d / 10` in integers instead of `int(d * 0.9)` in floating point. The two agree for every length up to the 300000 ms default.
- Transcriber.Chunks: requires that a 1 ms slice is never over 25 MiB. Without that, the slice length would shrink to 0. The source would then upload empty slices without moving the cursor, until a request or an export fails; the model does not follow that run.
- Transcriber.ChunkLoop: requires the same 1 ms bound as `Chunks`, for the same reason.
- Transcriber.TranscribeChunked: requires the same 1 ms bound as `Chunks`, for the same reason.
- Recorder.Stamp: the clock year is taken as four digits (1000 to 9999). A year below 1000 is not modelled.
- Recorder.PathJoin: joins POSIX style for a relative file name. Windows separators are not modelled.
- Devices.CleanName: the UTF-8 encode/decode round trip only drops lone surrogates, which the filter removes anyway. A non-string name, whose encoding would raise and give the fallback, is not modelled.
- Ledger: CSV quoting, the UTF-8 BOM and directory creation are left out; files are lists of rows. `read_entries` returns pandas records keyed by header, modelled as the rows under the header. A file pandas cannot parse is not modelled.
- App: widgets, the recording-status dots, the volume indicator, `_transcribe_thread` and the result and error displays are left out. So are `clear_fields`, `on_close`, window sizing and dependency checks. The transcription call itself is `Transcriber.TranscribeAudio`.

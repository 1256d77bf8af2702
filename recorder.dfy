/** The recorder (`AudioRecorder` in recorder.py): a monitor that shows the
    input level while idle, and a recording that collects blocks of samples
    and writes them to a WAV file when it stops.

    Each operation is a function from one recorder state to the next
    (`MonitoringStarted`, `RecordingStopped`, ...), and the class
    `AudioRecorder` updates its fields in place as the source does, proved to
    follow those functions. The audio system is an oracle: whether a stream
    opens, the block a read returns (or its exception), whether the WAV file
    can be written, and the clock reading. */
module Recorder {
  import opened Wrappers
  import opened Text
  import opened Volume

  /** The recording format: mono, 44100 samples per second, 16-bit samples. */
  const Channels: nat := 1
  const Rate: nat := 44100
  const SampleWidth: nat := 2

  /** An open input stream reading from `device` (`None`: the system default). */
  datatype Stream = Stream(device: Option<nat>)

  /** The function the UI passes to receive level readings. */
  datatype Callback = Callback(name: string)

  /** A WAV file as written: its format and its sample payload. */
  datatype Wav = Wav(channels: nat, sampleWidth: nat, rate: nat, payload: seq<byte>)

  /** A reading of the local clock. */
  datatype DateTime = DateTime(year: nat, month: nat, day: nat, hour: nat, minute: nat, second: nat)

  predicate ValidDateTime(t: DateTime)
  {
    && 1000 <= t.year <= 9999 && 1 <= t.month <= 12 && 1 <= t.day <= 31
    && t.hour < 24 && t.minute < 60 && t.second < 60
  }

  // ---------------------------------------------------------------------------
  // The recording's file name
  // ---------------------------------------------------------------------------

  /** `strftime("%Y%m%d_%H%M%S")`. */
  function Stamp(t: DateTime): (s: string)
    requires ValidDateTime(t)
    ensures |s| == 15 && s[8] == '_'
  {
    DatePart(t) + "_" + TimePart(t)
  }

  function DatePart(t: DateTime): string
    requires ValidDateTime(t)
  {
    Pad(t.year, 4) + Pad(t.month, 2) + Pad(t.day, 2)
  }

  function TimePart(t: DateTime): string
    requires ValidDateTime(t)
  {
    Pad(t.hour, 2) + Pad(t.minute, 2) + Pad(t.second, 2)
  }

  /** The three pieces of a concatenation are found again by slicing. */
  lemma Pieces(a: string, b: string, c: string)
    ensures var s := a + b + c;
            s[..|a|] == a && s[|a|..|a| + |b|] == b && s[|a| + |b|..] == c
  {
  }

  /** A date stamp and a time stamp joined by `_`: the parts are found again. */
  lemma StampJoin(date: string, time: string)
    ensures var s := date + "_" + time;
            s[..|date|] == date && s[|date|] == '_' && s[|date| + 1..] == time
  {
    Pieces(date, "_", time);
  }

  /** The stamp is fifteen characters, and each field reads back from its
      fixed position. */
  lemma StampFields(t: DateTime)
    requires ValidDateTime(t)
    ensures var s := Stamp(t);
            && |s| == 15 && s[8] == '_'
            && AllDigits(s[..8]) && AllDigits(s[9..])
            && DigitsValue(s[..8][..4]) == t.year && DigitsValue(s[..8][4..6]) == t.month
            && DigitsValue(s[..8][6..]) == t.day && DigitsValue(s[9..][..2]) == t.hour
            && DigitsValue(s[9..][2..4]) == t.minute && DigitsValue(s[9..][4..]) == t.second
  {
    var date, time := DatePart(t), TimePart(t);
    StampJoin(date, time);
    Pieces(Pad(t.year, 4), Pad(t.month, 2), Pad(t.day, 2));
    Pieces(Pad(t.hour, 2), Pad(t.minute, 2), Pad(t.second, 2));
  }

  /** `os.path.join(directory, name)` on POSIX for a relative `name`. */
  function PathJoin(directory: string, name: string): (path: string)
    ensures |path| >= |name| && path[|path| - |name|..] == name
    ensures |path| >= |directory| && path[..|directory|] == directory
    ensures directory == "" ==> path == name
  {
    if directory == "" then name
    else if directory[|directory| - 1] == '/' then directory + name
    else directory + "/" + name
  }

  /** `<directory>/recording_<YYYYMMDD_HHMMSS>.wav`. */
  function RecordingPath(directory: string, now: DateTime): string
    requires ValidDateTime(now)
  {
    PathJoin(directory, "recording_" + Stamp(now) + ".wav")
  }

  /** The recording's path is the directory, then `recording_`, the stamp and
      `.wav` as its last 29 characters. */
  lemma RecordingPathShape(directory: string, now: DateTime)
    requires ValidDateTime(now)
    ensures var path := RecordingPath(directory, now);
            && |path| >= |directory| + 29
            && path[..|directory|] == directory
            && path[|path| - 29..] == "recording_" + Stamp(now) + ".wav"
  {
  }

  // ---------------------------------------------------------------------------
  // The state and its transitions
  // ---------------------------------------------------------------------------

  /** Everything the recorder keeps; `written` holds the WAV files it wrote. */
  datatype RecorderState = RecorderState(
    outputDirectory: string,
    isRecording: bool,
    isMonitoring: bool,
    frames: seq<seq<byte>>,
    stream: Option<Stream>,
    monitorStream: Option<Stream>,
    currentFile: Option<string>,
    callback: Option<Callback>,
    currentVolume: real,
    deviceIndex: Option<nat>,
    written: map<string, Wav>)

  /** No stream is open for an activity that is off, a recording has its
      file name, and the level is in [0, 1]. */
  predicate Consistent(s: RecorderState)
  {
    && (!s.isMonitoring ==> s.monitorStream.None?)
    && (!s.isRecording ==> s.stream.None?)
    && (s.isRecording ==> s.currentFile.Some?)
    && 0.0 <= s.currentVolume <= 1.0
  }

  /** A fresh recorder: idle, default device, nothing written. */
  function Initial(outputDirectory: string): (s: RecorderState)
    ensures Consistent(s)
  {
    RecorderState(outputDirectory, false, false, [], None, None, None, None, 0.0, None, map[])
  }

  /** `start_monitoring(cb)`: nothing when already monitoring; otherwise the
      monitor is switched on with `cb` as the callback (its stream is opened
      by the monitor thread, `MonitorOpened`). */
  function MonitoringStarted(s: RecorderState, cb: Option<Callback>): (r: RecorderState)
    ensures r.isMonitoring && (s.isMonitoring ==> r == s)
    ensures !s.isMonitoring ==> r.callback == cb && r.monitorStream == s.monitorStream
    ensures r.isRecording == s.isRecording && r.stream == s.stream && r.deviceIndex == s.deviceIndex
    ensures Consistent(s) ==> Consistent(r)
  {
    if s.isMonitoring then s else s.(isMonitoring := true, callback := cb)
  }

  /** `stop_monitoring()`: nothing when not monitoring; otherwise the monitor
      is switched off and its stream closed. */
  function MonitoringStopped(s: RecorderState): (r: RecorderState)
    ensures !r.isMonitoring && (Consistent(s) ==> r.monitorStream.None?)
    ensures r.callback == s.callback && r.isRecording == s.isRecording && r.stream == s.stream
    ensures r.deviceIndex == s.deviceIndex && r.frames == s.frames && r.written == s.written
    ensures Consistent(s) ==> Consistent(r)
  {
    if !s.isMonitoring then s else s.(isMonitoring := false, monitorStream := None)
  }

  /** The monitor thread opening its stream on the selected device; when
      opening fails the thread ends and the monitor stays switched on without
      a stream. */
  function MonitorOpened(s: RecorderState, isOpen: bool): (r: RecorderState)
    ensures r.monitorStream.Some? <==> s.monitorStream.Some? || (s.isMonitoring && isOpen)
    ensures s.isMonitoring && isOpen ==> r.monitorStream == Some(Stream(s.deviceIndex))
    ensures r.isMonitoring == s.isMonitoring && r.isRecording == s.isRecording
    ensures Consistent(s) ==> Consistent(r)
  {
    if s.isMonitoring && isOpen then s.(monitorStream := Some(Stream(s.deviceIndex))) else s
  }

  /** One pass of the monitor loop: a block read from the monitor stream
      updates the level when a callback is set; a failed read changes nothing. */
  function MonitorRead(s: RecorderState, block: Result<seq<byte>>): (r: RecorderState)
    ensures r.currentVolume != s.currentVolume ==>
              s.isMonitoring && s.monitorStream.Some? && block.Success? && s.callback.Some?
    ensures r == s.(currentVolume := r.currentVolume)
    ensures Consistent(s) ==> Consistent(r)
  {
    if s.isMonitoring && s.monitorStream.Some? && block.Success? && s.callback.Some?
    then s.(currentVolume := SquaredLevel(block.value))
    else s
  }

  /** `set_device(index)`: the device is always replaced; an active monitor is
      stopped and started again with the same callback. */
  function DeviceSet(s: RecorderState, index: Option<nat>): (r: RecorderState)
    ensures r.deviceIndex == index && r.isMonitoring == s.isMonitoring && r.callback == s.callback
    ensures s.isMonitoring ==> r.monitorStream.None?
    ensures Consistent(s) ==> Consistent(r)
  {
    var t := s.(deviceIndex := index);
    if t.isMonitoring then MonitoringStarted(MonitoringStopped(t), t.callback) else t
  }

  /** `start_recording(cb)`: with the state after it, and what it returns —
      `None` when already recording, the new file name, or the exception
      opening the input stream raised. */
  function RecordingStarted(s: RecorderState, cb: Option<Callback>, now: DateTime,
                            openError: Option<string>): (r: (RecorderState, Result<Option<string>>))
    requires ValidDateTime(now)
    ensures s.isRecording ==> r == (s, Success(None))
    ensures !s.isRecording ==>
              && r.0.isRecording && !r.0.isMonitoring && r.0.frames == []
              && r.0.currentFile == Some(RecordingPath(s.outputDirectory, now))
              && (r.1.Success? <==> openError.None?)
              && (openError.None? ==> r.0.stream == Some(Stream(s.deviceIndex)))
    ensures Consistent(s) ==> Consistent(r.0)
  {
    if s.isRecording then (s, Success(None))
    else
      var file := RecordingPath(s.outputDirectory, now);
      var t := s.(isRecording := true, frames := [],
                  callback := if cb.Some? then cb else s.callback,
                  currentFile := Some(file));
      var u := MonitoringStopped(t);
      match openError
      case Some(m) => (u, Failure(m))
      case None => (u.(stream := Some(Stream(u.deviceIndex))), Success(Some(file)))
  }

  /** One pass of the recording loop: a block read from the stream is
      appended to the frames and, when a callback is set, sets the level. A
      failed read, or a recording without a stream, changes nothing. */
  function BlockRecorded(s: RecorderState, block: Result<seq<byte>>): (r: RecorderState)
    ensures s.isRecording && s.stream.Some? && block.Success? ==> r.frames == s.frames + [block.value]
    ensures !(s.isRecording && s.stream.Some? && block.Success?) ==> r == s
    ensures r == s.(frames := r.frames, currentVolume := r.currentVolume)
    ensures Consistent(s) ==> Consistent(r)
  {
    if s.isRecording && s.stream.Some? && block.Success? then
      s.(frames := s.frames + [block.value],
         currentVolume := if s.callback.Some? then SquaredLevel(block.value) else s.currentVolume)
    else s
  }

  /** `stop_recording()`: with the state after it and the file it returns. */
  function RecordingStopped(s: RecorderState, writeOk: bool): (r: (RecorderState, Option<string>))
    ensures !r.0.isRecording && (s.isRecording ==> r.0.stream.None?)
    ensures !s.isRecording ==> r == (s, None)
    ensures r.1.Some? <==> s.isRecording && |s.frames| > 0 && writeOk && s.currentFile.Some?
    ensures r.1.Some? ==> r.1 == s.currentFile && r.1.value in r.0.written
    ensures r.1.None? ==> r.0.written == s.written
    ensures Consistent(s) ==> Consistent(r.0)
  {
    if !s.isRecording then (s, None)
    else
      var t := s.(isRecording := false, stream := None);
      if |t.frames| > 0 then
        if writeOk && t.currentFile.Some? then
          var file := t.currentFile.value;
          var u := t.(written := t.written[file := Wav(Channels, SampleWidth, Rate, Concat(t.frames))]);
          (if u.callback.Some? then MonitoringStarted(u, u.callback) else u, Some(file))
        else (t, None)
      else (if t.callback.Some? then MonitoringStarted(t, t.callback) else t, None)
  }

  // ---------------------------------------------------------------------------
  // Properties of the transitions
  // ---------------------------------------------------------------------------

  /** Every monitoring transition keeps the state consistent. */
  lemma MonitoringConsistent(s: RecorderState, cb: Option<Callback>, index: Option<nat>, isOpen: bool,
                             block: Result<seq<byte>>)
    requires Consistent(s)
    ensures Consistent(MonitoringStarted(s, cb)) && Consistent(MonitoringStopped(s))
    ensures Consistent(MonitorOpened(s, isOpen)) && Consistent(MonitorRead(s, block))
    ensures Consistent(DeviceSet(s, index))
  {
  }

  /** Every recording transition keeps the state consistent. */
  lemma RecordingConsistent(s: RecorderState, cb: Option<Callback>, writeOk: bool,
                            block: Result<seq<byte>>, now: DateTime, openError: Option<string>)
    requires Consistent(s)
    ensures Consistent(BlockRecorded(s, block)) && Consistent(RecordingStopped(s, writeOk).0)
    ensures ValidDateTime(now) ==> Consistent(RecordingStarted(s, cb, now, openError).0)
  {
  }

  /** Starting the monitor twice is starting it once, and so for stopping;
      after a stop the monitor is off and its stream closed. */
  lemma MonitoringIdempotent(s: RecorderState, cb: Option<Callback>, cb': Option<Callback>)
    requires Consistent(s)
    ensures MonitoringStarted(MonitoringStarted(s, cb), cb') == MonitoringStarted(s, cb)
    ensures MonitoringStopped(MonitoringStopped(s)) == MonitoringStopped(s)
    ensures !MonitoringStopped(s).isMonitoring && MonitoringStopped(s).monitorStream.None?
    ensures s.isMonitoring ==> MonitoringStarted(s, cb) == s
  {
  }

  /** Changing the device: the index is always replaced, monitoring stays on
      or off as it was, and an active monitor keeps its callback but must
      reopen its stream; an idle recorder changes in nothing else. */
  lemma DeviceChange(s: RecorderState, index: Option<nat>)
    ensures var t := DeviceSet(s, index);
            && t.deviceIndex == index && t.isMonitoring == s.isMonitoring
            && t.callback == s.callback
            && (s.isMonitoring ==> t.monitorStream.None?)
            && (!s.isMonitoring ==> t == s.(deviceIndex := index))
  {
  }

  /** A new recording starts from no frames with monitoring off, opens its
      stream on the selected device only after the monitor is closed, and
      names its file after the clock. An active recording is left alone. */
  lemma StartRecordingShape(s: RecorderState, cb: Option<Callback>, now: DateTime, openError: Option<string>)
    requires Consistent(s) && ValidDateTime(now)
    ensures var (t, r) := RecordingStarted(s, cb, now, openError);
            && (s.isRecording ==> t == s && r == Success(None))
            && (!s.isRecording ==>
                  && t.isRecording && t.frames == [] && !t.isMonitoring && t.monitorStream.None?
                  && t.currentFile == Some(RecordingPath(s.outputDirectory, now))
                  && t.deviceIndex == s.deviceIndex && t.written == s.written
                  && (openError.None? <==> t.stream.Some?)
                  && (openError.None? ==> t.stream == Some(Stream(s.deviceIndex)) && r == Success(t.currentFile))
                  && (openError.Some? ==> r == Failure(openError.value)))
  {
  }

  /** The four outcomes of stopping: not recording; frames written; no
      frames; write failed. Stopping a second time returns `None` and changes
      nothing. */
  lemma StopRecordingCases(s: RecorderState, writeOk: bool, writeOk': bool)
    requires Consistent(s)
    ensures var (t, file) := RecordingStopped(s, writeOk);
            && (!s.isRecording ==> t == s && file.None?)
            && (s.isRecording ==> !t.isRecording && t.stream.None? && t.frames == s.frames)
            && (s.isRecording && |s.frames| > 0 && writeOk ==>
                  && file == s.currentFile
                  && t.written == s.written[s.currentFile.value := Wav(Channels, SampleWidth, Rate, Concat(s.frames))]
                  && (s.callback.Some? && !s.isMonitoring ==> t.isMonitoring && t.callback == s.callback))
            && (s.isRecording && |s.frames| == 0 ==>
                  file.None? && t.written == s.written
                  && (s.callback.Some? && !s.isMonitoring ==> t.isMonitoring && t.callback == s.callback))
            && (s.isRecording && |s.frames| > 0 && !writeOk ==>
                  file.None? && t == s.(isRecording := false, stream := None))
            && RecordingStopped(t, writeOk') == (t, None)
  {
  }

  /** The blocks the recording loop reads, one pass each. */
  function BlocksRecorded(s: RecorderState, blocks: seq<Result<seq<byte>>>): RecorderState
    decreases |blocks|
  {
    if |blocks| == 0 then s else BlocksRecorded(BlockRecorded(s, blocks[0]), blocks[1..])
  }

  /** The blocks that were read without error, in reading order. */
  function Received(blocks: seq<Result<seq<byte>>>): seq<seq<byte>>
  {
    if |blocks| == 0 then []
    else (if blocks[0].Success? then [blocks[0].value] else []) + Received(blocks[1..])
  }

  /** While recording with an open stream, the frames grow by exactly the
      blocks read without error, in order, and nothing but the frames and the
      level changes. */
  lemma {:induction false} RecordingCollects(s: RecorderState, blocks: seq<Result<seq<byte>>>)
    requires s.isRecording && s.stream.Some?
    ensures var t := BlocksRecorded(s, blocks);
            && t.frames == s.frames + Received(blocks)
            && t == s.(frames := t.frames, currentVolume := t.currentVolume)
    decreases |blocks|
  {
    if |blocks| > 0 {
      var s' := BlockRecorded(s, blocks[0]);
      RecordingCollects(s', blocks[1..]);
      assert s.frames + Received(blocks) == s'.frames + Received(blocks[1..]);
    }
  }

  /** A recording started, fed blocks and stopped writes exactly the blocks
      read without error, concatenated in arrival order, as a mono 16-bit 44100 Hz
      file under the name `start_recording` returned. */
  lemma RecordingRoundTrip(s: RecorderState, cb: Option<Callback>, now: DateTime,
                           blocks: seq<Result<seq<byte>>>)
    requires ValidDateTime(now) && !s.isRecording && |Received(blocks)| > 0
    ensures var (started, r) := RecordingStarted(s, cb, now, None);
            var (stopped, file) := RecordingStopped(BlocksRecorded(started, blocks), true);
            && r == Success(file)
            && file.Some?
            && stopped.written == s.written[file.value := Wav(Channels, SampleWidth, Rate, Concat(Received(blocks)))]
  {
    var (started, r) := RecordingStarted(s, cb, now, None);
    var file := RecordingPath(s.outputDirectory, now);
    assert started.isRecording && started.stream.Some? && started.frames == [];
    assert started.currentFile == Some(file) && started.written == s.written && r == Success(Some(file));
    RecordingCollects(started, blocks);
    var fed := BlocksRecorded(started, blocks);
    assert fed.frames == Received(blocks);
    assert fed.currentFile == Some(file) && fed.written == s.written && fed.isRecording;
  }

  // ---------------------------------------------------------------------------
  // The recorder object
  // ---------------------------------------------------------------------------

  class AudioRecorder {
    var outputDirectory: string
    var isRecording: bool
    var isMonitoring: bool
    var frames: seq<seq<byte>>
    var stream: Option<Stream>
    var monitorStream: Option<Stream>
    var currentFile: Option<string>
    var callback: Option<Callback>
    var currentVolume: real
    var deviceIndex: Option<nat>
    var written: map<string, Wav>

    /** The fields, as one value. */
    function Current(): RecorderState
      reads this
    {
      RecorderState(outputDirectory, isRecording, isMonitoring, frames, stream, monitorStream,
                    currentFile, callback, currentVolume, deviceIndex, written)
    }

    ghost predicate Valid()
      reads this
    {
      Consistent(Current())
    }

    constructor (outputDirectory: string)
      ensures Valid() && Current() == Initial(outputDirectory)
    {
      this.outputDirectory := outputDirectory;
      isRecording, isMonitoring := false, false;
      frames := [];
      stream, monitorStream := None, None;
      currentFile, callback := None, None;
      currentVolume := 0.0;
      deviceIndex := None;
      written := map[];
    }

    method StartMonitoring(cb: Option<Callback>)
      requires Valid()
      modifies this
      ensures Valid() && Current() == MonitoringStarted(old(Current()), cb)
    {
      if isMonitoring {
        return;
      }
      isMonitoring := true;
      callback := cb;
    }

    method StopMonitoring()
      requires Valid()
      modifies this
      ensures Valid() && Current() == MonitoringStopped(old(Current()))
    {
      if !isMonitoring {
        return;
      }
      isMonitoring := false;
      if monitorStream.Some? {
        monitorStream := None;
      }
    }

    /** The monitor thread's start: opening the stream. */
    method OpenMonitor(isOpen: bool)
      requires Valid()
      modifies this
      ensures Valid() && Current() == MonitorOpened(old(Current()), isOpen)
    {
      if isMonitoring && isOpen {
        monitorStream := Some(Stream(deviceIndex));
      }
    }

    /** One pass of the monitor loop; `shown` is the value passed to the callback. */
    method MonitorStep(block: Result<seq<byte>>) returns (shown: Option<real>)
      requires Valid()
      modifies this
      ensures Valid() && Current() == MonitorRead(old(Current()), block)
      ensures shown.Some? <==> old(isMonitoring) && old(monitorStream).Some? && block.Success? && old(callback).Some?
      ensures shown.Some? ==> shown.value == currentVolume
    {
      shown := None;
      if isMonitoring && monitorStream.Some? && block.Success? && callback.Some? {
        var volume := SquaredLevel(block.value);
        currentVolume := volume;
        shown := Some(volume);
      }
    }

    method SetDevice(index: Option<nat>)
      requires Valid()
      modifies this
      ensures Valid() && Current() == DeviceSet(old(Current()), index)
    {
      deviceIndex := index;
      if isMonitoring {
        StopMonitoring();
        StartMonitoring(callback);
      }
    }

    method StartRecording(cb: Option<Callback>, now: DateTime, openError: Option<string>)
      returns (r: Result<Option<string>>)
      requires Valid() && ValidDateTime(now)
      modifies this
      ensures Valid() && (Current(), r) == RecordingStarted(old(Current()), cb, now, openError)
    {
      if isRecording {
        return Success(None);
      }
      ghost var s := Current();
      var file := RecordingPath(outputDirectory, now);
      Arm(cb, file);
      ghost var t := s.(isRecording := true, frames := [],
                        callback := if cb.Some? then cb else s.callback, currentFile := Some(file));
      if isMonitoring {
        StopMonitoring();
      }
      ghost var u := MonitoringStopped(t);
      assert Current() == u;
      if openError.Some? {
        assert RecordingStarted(s, cb, now, openError) == (u, Failure(openError.value));
        return Failure(openError.value);
      }
      stream := Some(Stream(deviceIndex));
      r := Success(Some(file));
      assert RecordingStarted(s, cb, now, openError) == (u.(stream := Some(Stream(u.deviceIndex))), r);
    }

    /** The first half of `start_recording`: the recorder is marked as
        recording into `file` with no frames yet. */
    method Arm(cb: Option<Callback>, file: string)
      modifies this
      ensures Current() == old(Current()).(isRecording := true, frames := [],
                                            callback := if cb.Some? then cb else old(callback),
                                            currentFile := Some(file))
    {
      isRecording, frames, currentFile := true, [], Some(file);
      if cb.Some? {
        callback := cb;
      }
    }

    /** One pass of the recording loop; `shown` is the value passed to the callback. */
    method RecordStep(block: Result<seq<byte>>) returns (shown: Option<real>)
      requires Valid()
      modifies this
      ensures Valid() && Current() == BlockRecorded(old(Current()), block)
      ensures shown.Some? <==> old(isRecording) && old(stream).Some? && block.Success? && old(callback).Some?
      ensures shown.Some? ==> shown.value == currentVolume
    {
      shown := None;
      if isRecording && stream.Some? && block.Success? {
        frames := frames + [block.value];
        if callback.Some? {
          var volume := SquaredLevel(block.value);
          currentVolume := volume;
          shown := Some(volume);
        }
      }
    }

    method GetCurrentVolume() returns (v: real)
      requires Valid()
      ensures 0.0 <= v <= 1.0 && v == currentVolume
    {
      v := currentVolume;
    }

    method StopRecording(writeOk: bool) returns (file: Option<string>)
      requires Valid()
      modifies this
      ensures Valid() && (Current(), file) == RecordingStopped(old(Current()), writeOk)
    {
      if !isRecording {
        return None;
      }
      isRecording := false;
      if stream.Some? {
        stream := None;
      }
      if |frames| > 0 {
        if !writeOk || currentFile.None? {
          return None;
        }
        written := written[currentFile.value := Wav(Channels, SampleWidth, Rate, Concat(frames))];
        if callback.Some? {
          StartMonitoring(callback);
        }
        return currentFile;
      } else {
        if callback.Some? {
          StartMonitoring(callback);
        }
        return None;
      }
    }
  }
}

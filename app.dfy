/** The decision rules of the desktop window (main.py), lifted out of the
    widget code: the progress line shown while transcribing, the checks
    before an entry is saved, the device lookup, the language names, and the
    guards around starting and stopping a recording. */
module App {
  import opened Wrappers
  import opened Text
  import opened Devices
  import opened Recorder
  import opened Ledger

  // ---------------------------------------------------------------------------
  // Progress line
  // ---------------------------------------------------------------------------

  const SecondsSuffix: string := " сек"

  /** The elapsed-time text: `"<s> сек"` under a minute, `"<m>:<ss>"` from a
      minute on. */
  function FormatElapsed(seconds: nat): (s: string)
    ensures seconds < 60 ==>
              |s| > |SecondsSuffix| && s[|s| - |SecondsSuffix|..] == SecondsSuffix
              && AllDigits(s[..|s| - |SecondsSuffix|])
    ensures seconds >= 60 ==>
              |s| >= 4 && s[|s| - 3] == ':' && AllDigits(s[..|s| - 3]) && AllDigits(s[|s| - 2..])
  {
    if seconds >= 60 then NatToString(seconds / 60) + ":" + Pad(seconds % 60, 2)
    else NatToString(seconds) + SecondsSuffix
  }

  /** Reads an elapsed-time text back. */
  function ParseElapsed(s: string): Option<nat>
  {
    if |s| > |SecondsSuffix| && s[|s| - |SecondsSuffix|..] == SecondsSuffix && AllDigits(s[..|s| - |SecondsSuffix|]) then
      Some(DigitsValue(s[..|s| - |SecondsSuffix|]))
    else if |s| >= 4 && s[|s| - 3] == ':' && AllDigits(s[..|s| - 3]) && AllDigits(s[|s| - 2..]) then
      Some(DigitsValue(s[..|s| - 3]) * 60 + DigitsValue(s[|s| - 2..]))
    else None
  }

  /** The elapsed-time text loses nothing: it reads back as the seconds. */
  lemma ElapsedRoundTrip(seconds: nat)
    ensures ParseElapsed(FormatElapsed(seconds)) == Some(seconds)
  {
    var s := FormatElapsed(seconds);
    if seconds >= 60 {
      var m, ss := NatToString(seconds / 60), Pad(seconds % 60, 2);
      NatToStringValue(seconds / 60);
      assert s[..|s| - 3] == m && s[|s| - 2..] == ss && s[|s| - 3] == ':';
      assert s[|s| - 1] == ss[1];
      assert s[|s| - |SecondsSuffix|..][3] == s[|s| - 1];
    } else {
      var d := NatToString(seconds);
      NatToStringValue(seconds);
      assert s[..|s| - |SecondsSuffix|] == d;
      assert s[|s| - |SecondsSuffix|..] == SecondsSuffix;
    }
  }

  const Spinner: seq<string> := ["|", "/", "-", "\\"]

  /** A status line from a spinner frame and an elapsed-time text. */
  function StatusLine(frame: string, elapsed: string): string
  {
    "Транскрибация " + frame + " " + elapsed
  }

  /** The spinner frame of pass `k`: the spinner has already advanced once. */
  function Frame(k: nat): string
  {
    Spinner[(k + 1) % 4]
  }

  /** The status line of pass `k` of the progress loop (`k` seconds after it
      started). */
  function ProgressStatus(k: nat): string
  {
    StatusLine(Frame(k), FormatElapsed(k))
  }

  /** The first line shows `/` and zero seconds. */
  lemma ProgressStart()
    ensures ProgressStatus(0) == "Транскрибация / 0 сек"
  {
    assert NatToString(0) == "0";
    assert FormatElapsed(0) == "0 сек";
  }

  /** The status lines of passes `k` and `k + 4` show the same spinner
      frame, and four consecutive passes show four different frames. */
  lemma SpinnerPeriod(k: nat)
    ensures Frame(k + 4) == Frame(k)
    ensures forall i, j | k <= i < j < k + 4 :: Frame(i) != Frame(j)
  {
    assert (k + 5) % 4 == (k + 1) % 4;
  }

  /** Advancing the spinner position of pass `n` gives that of pass `n + 1`. */
  lemma NextFrame(n: nat)
    ensures (n % 4 + 1) % 4 == (n + 1) % 4
  {
    var q := n / 4;
    assert n == 4 * q + n % 4;
  }

  /** The line a pass builds from its spinner position and time text. */
  lemma PassLine(seconds: nat, spinnerIdx: nat, timeText: string)
    requires spinnerIdx == (seconds + 1) % 4 && timeText == FormatElapsed(seconds)
    ensures StatusLine(Spinner[spinnerIdx], timeText) == ProgressStatus(seconds)
    ensures Frame(seconds) == Spinner[spinnerIdx]
  {
  }

  /** `lines` are the status lines of the first passes, in order. */
  predicate Shown(lines: seq<string>)
  {
    forall k | 0 <= k < |lines| :: lines[k] == ProgressStatus(k)
  }

  /** The line of the next pass extends the lines shown so far. */
  lemma ShownStep(lines: seq<string>, line: string)
    requires Shown(lines) && line == ProgressStatus(|lines|)
    ensures Shown(lines + [line])
  {
    var more := lines + [line];
    forall k | 0 <= k < |more| ensures more[k] == ProgressStatus(k) {
      if k < |lines| {
        assert more[k] == lines[k];
      } else {
        assert k == |lines| && more[k] == line;
      }
    }
  }

  /** The progress loop running for `passes` passes; the lines it shows. */
  method ProgressLines(passes: nat) returns (lines: seq<string>)
    ensures |lines| == passes
    ensures forall k | 0 <= k < passes :: lines[k] == ProgressStatus(k)
  {
    var spinnerIdx, seconds := 0, 0;
    lines := [];
    while seconds < passes
      invariant seconds <= passes && |lines| == seconds
      invariant spinnerIdx == seconds % 4
      invariant Shown(lines)
    {
      NextFrame(seconds);
      spinnerIdx := (spinnerIdx + 1) % |Spinner|;
      var timeText := FormatElapsed(seconds);
      var line := StatusLine(Spinner[spinnerIdx], timeText);
      PassLine(seconds, spinnerIdx, timeText);
      ShownStep(lines, line);
      lines := lines + [line];
      seconds := seconds + 1;
    }
  }

  // ---------------------------------------------------------------------------
  // Saving an entry
  // ---------------------------------------------------------------------------

  /** What `save_to_csv` does with the form: complain about the first empty
      field, or save the stripped values. */
  datatype SaveCheck =
    | MissingManager
    | MissingId
    | MissingSummary
    | Save(managerName: string, conversationId: string, summary: string)

  function CheckEntry(managerName: string, conversationId: string, summary: string): (c: SaveCheck)
    ensures c == MissingManager <==> Strip(managerName) == []
    ensures c == MissingId <==> Strip(managerName) != [] && Strip(conversationId) == []
    ensures c == MissingSummary <==>
              Strip(managerName) != [] && Strip(conversationId) != [] && Strip(summary) == []
    ensures c.Save? ==> c == Save(Strip(managerName), Strip(conversationId), Strip(summary))
  {
    var m, i, s := Strip(managerName), Strip(conversationId), Strip(summary);
    if m == [] then MissingManager
    else if i == [] then MissingId
    else if s == [] then MissingSummary
    else Save(m, i, s)
  }

  /** A saved entry's fields are non-empty, already stripped, and contain
      what the form held apart from surrounding whitespace. */
  lemma CheckEntrySaves(managerName: string, conversationId: string, summary: string)
    ensures var c := CheckEntry(managerName, conversationId, summary);
            c.Save? ==>
              && c.managerName != [] && c.conversationId != [] && c.summary != []
              && Strip(c.managerName) == c.managerName
              && Strip(c.conversationId) == c.conversationId
              && Strip(c.summary) == c.summary
              && TrimmedAt(managerName, c.managerName, |managerName| - |StripLeft(managerName)|)
  {
    StripIdempotent(managerName);
    StripIdempotent(conversationId);
    StripIdempotent(summary);
  }

  // ---------------------------------------------------------------------------
  // Language names
  // ---------------------------------------------------------------------------

  /** How the status line names a language code: the three known codes by
      their Russian adjective, any other code as itself. */
  function LanguageName(code: string): (name: string)
    ensures code == "ru" ==> name == "русском"
    ensures code == "en" ==> name == "английском"
    ensures code == "kk" ==> name == "казахском"
    ensures code !in {"ru", "en", "kk"} ==> name == code
  {
    var names := map["ru" := "русском", "en" := "английском", "kk" := "казахском"];
    if code in names then names[code] else code
  }

  /** A code is shown unchanged exactly when it is not one of the three. */
  lemma LanguageNameFixed(code: string)
    ensures LanguageName(code) == code <==> code !in {"ru", "en", "kk"}
  {
  }

  // ---------------------------------------------------------------------------
  // Device lookup
  // ---------------------------------------------------------------------------

  /** The position of the first device called `name`, if any. */
  method FindDevice(devices: seq<Device>, name: string) returns (found: Option<nat>)
    ensures found.None? <==> forall k | 0 <= k < |devices| :: devices[k].name != name
    ensures found.Some? ==>
              && found.value < |devices| && devices[found.value].name == name
              && forall k | 0 <= k < found.value :: devices[k].name != name
  {
    found := None;
    for k := 0 to |devices|
      invariant forall j | 0 <= j < k :: devices[j].name != name
    {
      if devices[k].name == name {
        found := Some(k);
        break;
      }
    }
  }

  // ---------------------------------------------------------------------------
  // The window's state
  // ---------------------------------------------------------------------------

  /** The level callback the window hands to the recorder. */
  const VolumeIndicator: Callback := Callback("update_volume_indicator")

  class Controller {
    const recorder: AudioRecorder
    const csv: CSVHandler
    const disk: Disk
    var devices: seq<Device>
    var isRecording: bool
    var currentCsvFile: Option<string>
    var selectedLanguage: string

    ghost predicate Valid()
      reads this, recorder
    {
      recorder.Valid()
    }

    /** The window as it opens: no CSV file, language `ru`, the device list
      read and its first entry selected, and the level monitor running. */
    constructor (count: Result<nat>, query: DeviceQuery, disk: Disk)
      ensures Valid() && fresh(recorder) && fresh(csv) && this.disk == disk
      ensures devices == DeviceList(count, query)
      ensures !isRecording && currentCsvFile.None? && selectedLanguage == "ru"
      ensures recorder.Current() == MonitoringStarted(Initial("recordings"), Some(VolumeIndicator))
      ensures csv.filePath.None? && !csv.unsavedChanges
    {
      var r := new AudioRecorder("recordings");
      var c := new CSVHandler(None);
      var list := GetAvailableDevices(count, query);
      recorder, csv, this.disk := r, c, disk;
      devices := list;
      isRecording, currentCsvFile, selectedLanguage := false, None, "ru";
      new;
      OnDeviceChange(devices[0].name);
      recorder.StartMonitoring(Some(VolumeIndicator));
    }

    /** `on_device_change`: the first device with that name is selected on
      the recorder; an unknown name changes nothing. */
    method OnDeviceChange(name: string)
      requires Valid()
      modifies recorder
      ensures Valid()
      ensures (forall k | 0 <= k < |devices| :: devices[k].name != name) ==> unchanged(recorder)
      ensures forall k | 0 <= k < |devices| && devices[k].name == name
                && (forall j | 0 <= j < k :: devices[j].name != name) ::
                recorder.Current() == DeviceSet(old(recorder.Current()), devices[k].index)
    {
      var found := FindDevice(devices, name);
      if found.Some? {
        recorder.SetDevice(devices[found.value].index);
      }
    }

    /** `browse_file`: a chosen file is selected for the ledger. */
    method BrowseFile(path: string)
      modifies this, csv
      ensures path == "" ==> unchanged(this) && unchanged(csv)
      ensures path != "" ==> currentCsvFile == Some(path) && csv.filePath == Some(path) && !csv.unsavedChanges
      ensures isRecording == old(isRecording) && devices == old(devices) && selectedLanguage == old(selectedLanguage)
    {
      if path != "" {
        csv.SetFilePath(path);
        currentCsvFile := Some(path);
      }
    }

    /** `create_new_file`: a chosen file is created with the header and
      selected; when creating it raises, the window's selection stays. */
    method NewFile(path: string, openError: Option<string>)
      modifies this, csv, disk
      ensures path == "" ==> unchanged(this) && unchanged(csv) && unchanged(disk)
      ensures path != "" && openError.Some? ==>
                unchanged(this) && unchanged(csv) && disk.files == old(disk.files)
      ensures path != "" && openError.None? ==>
                && currentCsvFile == Some(path) && csv.filePath == Some(path) && !csv.unsavedChanges
                && disk.files == old(disk.files)[path := [Header]]
      ensures isRecording == old(isRecording) && devices == old(devices) && selectedLanguage == old(selectedLanguage)
    {
      if path != "" {
        var r := csv.CreateNewFile(path, disk, openError);
        if r.Failure? {
          return;
        }
        currentCsvFile := Some(path);
      }
    }

    /** `toggle_recording`: without a CSV file nothing happens; otherwise an
      idle window starts recording and a recording one stops. Returns the
      file handed to transcription, if any. */
    method ToggleRecording(now: DateTime, openError: Option<string>, writeOk: bool)
      returns (toTranscribe: Option<string>)
      requires Valid() && ValidDateTime(now)
      modifies this, recorder
      ensures Valid()
      ensures currentCsvFile.None? ==>
                unchanged(this) && unchanged(recorder) && toTranscribe.None?
      ensures currentCsvFile.Some? && !old(isRecording) ==>
                && isRecording && toTranscribe.None?
                && recorder.Current() == RecordingStarted(old(recorder.Current()), Some(VolumeIndicator), now, openError).0
      ensures currentCsvFile.Some? && old(isRecording) ==>
                && !isRecording
                && (recorder.Current(), toTranscribe) == RecordingStopped(old(recorder.Current()), writeOk)
      ensures currentCsvFile == old(currentCsvFile) && devices == old(devices)
      ensures selectedLanguage == old(selectedLanguage)
    {
      toTranscribe := None;
      if currentCsvFile.None? {
        return;
      }
      if !isRecording {
        isRecording := true;
        var _ := recorder.StartRecording(Some(VolumeIndicator), now, openError);
      } else {
        toTranscribe := StopRecording(writeOk);
      }
    }

    /** `stop_recording`: nothing when the window is not recording; otherwise
      the recorder stops, and transcription starts only when it returned a
      file. */
    method StopRecording(writeOk: bool) returns (toTranscribe: Option<string>)
      requires Valid()
      modifies this, recorder
      ensures Valid()
      ensures !old(isRecording) ==> unchanged(this) && unchanged(recorder) && toTranscribe.None?
      ensures old(isRecording) ==>
                && !isRecording
                && (recorder.Current(), toTranscribe) == RecordingStopped(old(recorder.Current()), writeOk)
      ensures currentCsvFile == old(currentCsvFile) && devices == old(devices)
      ensures selectedLanguage == old(selectedLanguage)
    {
      if !isRecording {
        return None;
      }
      isRecording := false;
      var file := recorder.StopRecording(writeOk);
      if file.None? {
        return None;
      }
      toTranscribe := file;
    }

    /** `save_to_csv`: the form is checked in order, and only a complete one
      is appended to the ledger, with its stripped values. */
    method SaveToCsv(managerName: string, date: string, conversationId: string, summary: string,
                     openError: Option<string>) returns (check: SaveCheck, saved: bool)
      modifies csv, disk
      ensures check == CheckEntry(managerName, conversationId, summary)
      ensures !check.Save? ==> !saved && unchanged(csv) && unchanged(disk)
      ensures check.Save? ==>
                && (saved <==> csv.filePath.Some? && openError.None?)
                && csv.filePath == old(csv.filePath) && csv.unsavedChanges == !saved
                && (!saved ==> disk.files == old(disk.files))
                && (saved ==>
                      var path := csv.filePath.value;
                      var existing := if path in old(disk.files) then Some(old(disk.files)[path]) else None;
                      disk.files == old(disk.files)[path := Appended(existing, [check.managerName, date, check.conversationId, check.summary])])
    {
      check := CheckEntry(managerName, conversationId, summary);
      if !check.Save? {
        return check, false;
      }
      saved := csv.AddEntry(check.managerName, date, check.conversationId, check.summary, disk, openError);
    }
  }
}

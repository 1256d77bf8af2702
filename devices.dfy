/** The recorder's device catalog (`get_available_devices`): the input
    devices the audio system reports, each with a cleaned-up name, behind a
    synthetic entry for the system default device.

    The audio system is an oracle: the device count (or the exception
    querying it raised) and, per index, the reported information (or the
    exception that query raised). */
module Devices {
  import opened Wrappers
  import opened Text

  /** What the audio system reports for one device; `None` stands for a key
      missing from the report. */
  datatype DeviceInfo = DeviceInfo(name: Option<string>, maxInputChannels: Option<int>,
                                   defaultSampleRate: Option<real>)

  /** An entry of the device list; index `None` selects the system default. */
  datatype Device = Device(index: Option<nat>, name: string, channels: int, defaultRate: real)

  /** `get_device_info_by_index(i)`, or the message of the exception it raised. */
  type DeviceQuery = nat -> Result<DeviceInfo>

  const DefaultName: string := "Системное устройство по умолчанию"
  const UnknownName: string := "Неизвестное устройство"
  const FallbackPrefix: string := "Устройство #"

  /** The entry every list starts with. */
  const Default: Device := Device(None, DefaultName, 1, 44100.0)

  // ---------------------------------------------------------------------------
  // Name sanitising
  // ---------------------------------------------------------------------------

  /** Characters the name filter keeps: printable ASCII and the Cyrillic block. */
  predicate Allowed(c: char)
  {
    (' ' <= c <= '~') || ('\U{400}' <= c <= '\U{4FF}')
  }

  predicate AllAllowed(s: string)
  {
    forall k | 0 <= k < |s| :: Allowed(s[k])
  }

  /** The regular-expression substitution that deletes every character
      outside the allowed ranges. */
  function Filter(s: string): (r: string)
    ensures |r| <= |s| && AllAllowed(r)
  {
    if |s| == 0 then []
    else if Allowed(s[0]) then [s[0]] + Filter(s[1..])
    else Filter(s[1..])
  }

  /** The filter keeps a string of allowed characters as it is. */
  lemma {:induction false} FilterKeepsAllowed(s: string)
    requires AllAllowed(s)
    ensures Filter(s) == s
  {
    if |s| > 0 {
      FilterKeepsAllowed(s[1..]);
      assert [s[0]] + s[1..] == s;
    }
  }

  /** The name shown when nothing printable is left of the reported one. */
  function FallbackName(i: nat): (name: string)
    ensures |name| > |FallbackPrefix| && name[..|FallbackPrefix|] == FallbackPrefix
    ensures AllDigits(name[|FallbackPrefix|..])
  {
    var digits := NatToString(i);
    assert (FallbackPrefix + digits)[|FallbackPrefix|..] == digits;
    FallbackPrefix + digits
  }

  /** What the sanitiser promises of a name: non-empty, only allowed
      characters, and no space at either end. */
  predicate Tidy(name: string)
  {
    |name| > 0 && AllAllowed(name) && name[0] != ' ' && name[|name| - 1] != ' '
  }

  /** The sanitised name of device `i`: the reported name with disallowed
      characters deleted and surrounding whitespace stripped, or the fallback
      when that leaves nothing. */
  function CleanName(raw: string, i: nat): (name: string)
    ensures Tidy(name)
  {
    var stripped := Strip(Filter(raw));
    if stripped == [] then FallbackAllowed(i); FallbackName(i) else stripped
  }

  lemma FallbackAllowed(i: nat)
    ensures AllAllowed(FallbackName(i))
    ensures FallbackName(i)[|FallbackName(i)| - 1] != ' '
  {
    var name := FallbackName(i);
    var n := |FallbackPrefix|;
    forall k | 0 <= k < |name| ensures Allowed(name[k]) {
      if k >= n {
        assert name[k] == name[n..][k - n];
      } else {
        assert name[k] == FallbackPrefix[k];
      }
    }
    assert name[|name| - 1] == name[n..][|name| - 1 - n];
  }

  /** What the sanitiser promises about a name it does not replace: it is the
      filtered name with whitespace cut from both ends only. The fallback is
      used exactly when the filtered name is blank. */
  lemma CleanNameCases(raw: string, i: nat)
    ensures AllSpace(Filter(raw)) ==> CleanName(raw, i) == FallbackName(i)
    ensures !AllSpace(Filter(raw)) ==>
              var f := Filter(raw);
              TrimmedAt(f, CleanName(raw, i), |f| - |StripLeft(f)|)
  {
    var f := Filter(raw);
    StripEmptyIffBlank(f);
    if !AllSpace(f) {
      assert CleanName(raw, i) == Strip(f);
    }
  }

  /** A string that is non-empty and does not start or end with whitespace
      is left alone by `strip()`. */
  lemma StripKeeps(s: string)
    requires |s| > 0 && !IsSpace(s[0]) && !IsSpace(s[|s| - 1])
    ensures Strip(s) == s
  {
    assert StripLeft(s) == s;
    assert StripRight(s) == s;
  }

  /** The only whitespace character the filter keeps is the space. */
  lemma AllowedSpace(c: char)
    requires Allowed(c)
    ensures IsSpace(c) <==> c == ' '
  {
  }

  /** Sanitising a sanitised name changes nothing, whatever the index. */
  lemma CleanNameIdempotent(raw: string, i: nat, j: nat)
    ensures CleanName(CleanName(raw, i), j) == CleanName(raw, i)
  {
    var name := CleanName(raw, i);
    FilterKeepsAllowed(name);
    AllowedSpace(name[0]);
    AllowedSpace(name[|name| - 1]);
    StripKeeps(name);
  }

  // ---------------------------------------------------------------------------
  // The list
  // ---------------------------------------------------------------------------

  /** The entry for device `i`, if it is an input device. A report without
      `maxInputChannels` makes the comparison raise, and the device is skipped
      like one whose query failed. */
  function Entry(i: nat, info: DeviceInfo): (d: Option<Device>)
    ensures d.Some? <==> info.maxInputChannels.Some? && info.maxInputChannels.value > 0
    ensures d.Some? ==> d.value.index == Some(i) && d.value.channels == info.maxInputChannels.value
    ensures d.Some? ==> Tidy(d.value.name)
  {
    match info.maxInputChannels
    case None => None
    case Some(channels) =>
      if channels <= 0 then None
      else
        var raw := if info.name.Some? then info.name.value else UnknownName;
        var rate := if info.defaultSampleRate.Some? then info.defaultSampleRate.value else 44100.0;
        Some(Device(Some(i), CleanName(raw, i), channels, rate))
  }

  /** The entry device `i` contributes through the oracle, if any. */
  function Listing(query: DeviceQuery, i: nat): (d: Option<Device>)
    ensures d.Some? ==> d.value.index == Some(i) && Tidy(d.value.name)
  {
    match query(i)
    case Failure(_) => None
    case Success(info) => Entry(i, info)
  }

  /** What each index contributes to the list: nothing, or its entry. */
  type Catalog = nat -> Option<Device>

  /** Every entry a catalog offers carries its own index. */
  ghost predicate Indexed(entries: Catalog)
  {
    forall i: nat | entries(i).Some? :: entries(i).value.index == Some(i)
  }

  /** The entries for the first `n` indices, in index order. */
  function Listed(entries: Catalog, n: nat): (l: seq<Device>)
    ensures |l| <= n
  {
    if n == 0 then []
    else
      var d := entries(n - 1);
      Listed(entries, n - 1) + (if d.Some? then [d.value] else [])
  }

  /** The list `get_available_devices` returns for a device count (or the
      exception asking for it raised). */
  function DeviceList(count: Result<nat>, query: DeviceQuery): (l: seq<Device>)
    ensures |l| >= 1 && l[0] == Default
    ensures count.Failure? ==> l == [Default]
    ensures count.Success? ==> |l| <= count.value + 1
  {
    match count
    case Failure(_) => [Default]
    case Success(n) => [Default] + Listed((i: nat) => Listing(query, i), n)
  }

  /** `get_available_devices`: the loop over the device indices. */
  method GetAvailableDevices(count: Result<nat>, query: DeviceQuery) returns (devices: seq<Device>)
    ensures devices == DeviceList(count, query)
    ensures |devices| >= 1 && devices[0] == Default
    ensures count.Failure? ==> devices == [Default]
  {
    if count.Failure? {
      return [Default];
    }
    ghost var entries: Catalog := (i: nat) => Listing(query, i);
    devices := [];
    for i := 0 to count.value
      invariant devices == Listed(entries, i)
    {
      var info := query(i);
      if info.Failure? {
        continue;
      }
      var d := Entry(i, info.value);
      if d.Some? {
        devices := devices + [d.value];
      }
    }
    devices := [Default] + devices;
  }

  /** The catalog the audio system's answers make is indexed. */
  lemma ListingIndexed(query: DeviceQuery)
    ensures Indexed((i: nat) => Listing(query, i))
  {
  }

  /** The list below `n` is the list below `n - 1` and possibly entry `n - 1`. */
  lemma ListedStep(entries: Catalog, n: nat)
    requires n > 0
    ensures var l, p := Listed(entries, n), Listed(entries, n - 1);
            && |p| <= |l| <= |p| + 1
            && l[..|p|] == p
            && (|l| == |p| <==> entries(n - 1).None?)
            && (|l| > |p| ==> l[|p|] == entries(n - 1).value)
  {
    var l, p := Listed(entries, n), Listed(entries, n - 1);
    assert l[..|p|] == p;
  }

  /** Every listed device has an index below `n`, and the indices strictly
      increase along the list. */
  lemma {:induction false} ListedAscending(entries: Catalog, n: nat)
    requires Indexed(entries)
    ensures var l := Listed(entries, n);
            && (forall k | 0 <= k < |l| :: l[k].index.Some? && l[k].index.value < n)
            && (forall j, k | 0 <= j < k < |l| :: l[j].index.value < l[k].index.value)
  {
    if n > 0 {
      ListedAscending(entries, n - 1);
      ListedStep(entries, n);
      var l, p := Listed(entries, n), Listed(entries, n - 1);
      forall k | 0 <= k < |p| ensures l[k] == p[k] {
        assert l[k] == l[..|p|][k];
      }
    }
  }

  /** Soundness: every listed device is the entry of its own index. */
  lemma {:induction false} ListedSound(entries: Catalog, n: nat)
    requires Indexed(entries)
    ensures var l := Listed(entries, n);
            forall k | 0 <= k < |l| :: l[k].index.Some? && entries(l[k].index.value) == Some(l[k])
  {
    if n > 0 {
      ListedSound(entries, n - 1);
      ListedStep(entries, n);
      var l, p := Listed(entries, n), Listed(entries, n - 1);
      forall k | 0 <= k < |p| ensures l[k] == p[k] {
        assert l[k] == l[..|p|][k];
      }
    }
  }

  /** Completeness: every entry below `n` is in the list. */
  lemma {:induction false} ListedComplete(entries: Catalog, n: nat, i: nat)
    requires i < n && entries(i).Some?
    ensures entries(i).value in Listed(entries, n)
  {
    ListedStep(entries, n);
    var l, p := Listed(entries, n), Listed(entries, n - 1);
    if i < n - 1 {
      ListedComplete(entries, n - 1, i);
      var k :| 0 <= k < |p| && p[k] == entries(i).value;
      assert l[k] == l[..|p|][k];
    } else {
      assert l[|p|] == entries(i).value;
    }
  }

  /** The device list is exactly: the default entry, then the input devices
      whose query succeeded, in ascending index order. */
  lemma DeviceListShape(n: nat, query: DeviceQuery)
    ensures var l := DeviceList(Success(n), query);
            && l[0] == Default
            && (forall j, k | 1 <= j < k < |l| :: l[j].index.Some? && l[k].index.Some? && l[j].index.value < l[k].index.value)
            && (forall k | 1 <= k < |l| :: l[k].index.Some? && l[k].index.value < n
                                            && Listing(query, l[k].index.value) == Some(l[k]))
            && (forall i | 0 <= i < n && Listing(query, i).Some? :: Listing(query, i).value in l[1..])
            && (forall k | 1 <= k < |l| :: Tidy(l[k].name))
  {
    var entries: Catalog := (i: nat) => Listing(query, i);
    ListingIndexed(query);
    ListedAscending(entries, n);
    ListedSound(entries, n);
    var l := DeviceList(Success(n), query);
    assert l[1..] == Listed(entries, n);
    forall i | 0 <= i < n && Listing(query, i).Some? ensures Listing(query, i).value in l[1..] {
      ListedComplete(entries, n, i);
    }
  }
}

/** The Airspy receiver backend: its lifecycle (open, start, stop, close), its
    stored configuration, and the sample stream it delivers either to a
    registered handler or into the bounded receive queue. Every result of a
    libairspy call is a parameter of the method that makes the call. */
module Airspy {

  import opened Wrappers
  import opened StreamQueue

  /** `AIRSPY_SUCCESS`. */
  const AirspySuccess: int := 0

  /** The gain modes of `AirspyDevice`. */
  const Auto: int := 0
  const Linearity: int := 1
  const Sensitivity: int := 2

  // ---------------------------------------------------------------------
  // Device names
  // ---------------------------------------------------------------------

  predicate OccursAt(s: string, pattern: string, i: int)
  {
    0 <= i <= |s| && pattern <= s[i..]
  }

  /** `s.find(pattern) != npos`. */
  function Contains(s: string, pattern: string): (found: bool)
    ensures found <==> exists i :: OccursAt(s, pattern, i)
    decreases |s|
  {
    if pattern <= s then
      assert OccursAt(s, pattern, 0) by { assert s[0..] == s; }
      true
    else if s == [] then
      assert s[0..] == s;
      false
    else
      var found := Contains(s[1..], pattern);
      assert found ==> exists i :: OccursAt(s, pattern, i) by {
        if found {
          var j :| OccursAt(s[1..], pattern, j);
          assert s[1..][j..] == s[j + 1..];
          assert OccursAt(s, pattern, j + 1);
        }
      }
      assert (exists i :: OccursAt(s, pattern, i)) ==> found by {
        if exists i :: OccursAt(s, pattern, i) {
          var i :| OccursAt(s, pattern, i);
          assert s[0..] == s;
          assert i != 0;
          assert s[1..][i - 1..] == s[i..];
          assert OccursAt(s[1..], pattern, i - 1);
        }
      }
      found
  }

  /** `open` refuses a name that names another backend's scheme: one holding
      "://" but not "airspy://". */
  predicate ForeignScheme(name: string): (foreign: bool)
    ensures foreign <==> (exists i :: OccursAt(name, "://", i)) && !(exists i :: OccursAt(name, "airspy://", i))
  {
    Contains(name, "://") && !Contains(name, "airspy://")
  }

  /** Names of this backend, and plain names, pass the check; other schemes fail it. */
  lemma SchemeExamples()
    ensures !ForeignScheme("airspy://35ac63dc2d8c6a4f")
    ensures !ForeignScheme("")
    ensures ForeignScheme("rtlsdr://0")
  {
    assert OccursAt("airspy://35ac63dc2d8c6a4f", "airspy://", 0);
    assert OccursAt("rtlsdr://0", "://", 6) by { assert "rtlsdr://0"[6..] == "://0"; }
    var other := "rtlsdr://0";
    assert forall i :: OccursAt(other, "airspy://", i) ==> i <= 1;
    assert !OccursAt(other, "airspy://", 0) by { assert other[0..][0] == 'r'; }
    assert !OccursAt(other, "airspy://", 1) by { assert other[1..][0] == 't'; }
  }

  // ---------------------------------------------------------------------
  // Decimal rendering, for the gain value names
  // ---------------------------------------------------------------------

  function DecimalDigit(d: nat): char
    requires d < 10
  {
    ('0' as int + d) as char
  }

  /** `snprintf("%d", n)` for a non-negative n. */
  function Decimal(n: nat): (s: string)
    ensures |s| >= 1
    ensures forall k :: 0 <= k < |s| ==> '0' <= s[k] <= '9'
    ensures n > 0 ==> s[0] != '0'
    ensures s[0] == '0' ==> |s| == 1
    decreases n
  {
    if n < 10 then [DecimalDigit(n)] else Decimal(n / 10) + [DecimalDigit(n % 10)]
  }

  /** The number a string of decimal digits spells. */
  function DecimalValue(s: string): int
    decreases |s|
  {
    if s == [] then 0 else DecimalValue(s[..|s| - 1]) * 10 + (s[|s| - 1] as int - '0' as int)
  }

  lemma {:induction false} DecimalRoundTrip(n: nat)
    ensures DecimalValue(Decimal(n)) == n
    decreases n
  {
    if n >= 10 {
      var s := Decimal(n);
      assert s[..|s| - 1] == Decimal(n / 10);
      DecimalRoundTrip(n / 10);
    }
  }

  // ---------------------------------------------------------------------
  // The device
  // ---------------------------------------------------------------------

  class AirspyDevice {

    var deviceName: string
    var deviceVersion: string
    var fileDesc: int
    var centerFreq: int
    var sampleRate: int
    var gainMode: int
    var gainValue: int
    var tunerAgc: int
    var mixerAgc: int
    var decimation: int
    var streamTime: int

    /** The result of the last libairspy call. */
    var deviceResult: int

    /** Whether a libairspy handle is held (`deviceHandle != nullptr`). */
    var deviceHandle: bool

    /** Whether a stream handler is registered (`streamCallback` non-empty). */
    var streamCallback: bool

    var streamQueue: seq<SignalBuffer>
    var samplesReceived: int
    var samplesDropped: int

    /** The receive queue never exceeds its capacity, and a handler is only ever
        registered while a handle is held. */
    ghost predicate Valid()
      reads this
    {
      |streamQueue| <= MaxQueueSize && (streamCallback ==> deviceHandle)
    }

    /** A closed device for a named receiver. */
    constructor (name: string)
      ensures Valid()
      ensures deviceName == name && deviceVersion == "" && fileDesc == 0
      ensures !deviceHandle && !streamCallback && streamQueue == []
      ensures centerFreq == 0 && sampleRate == 0 && gainMode == 0 && gainValue == 0
      ensures tunerAgc == 0 && mixerAgc == 0 && decimation == 0 && streamTime == 0
      ensures deviceResult == 0 && samplesReceived == 0 && samplesDropped == 0
    {
      deviceName, deviceVersion, fileDesc := name, "", 0;
      centerFreq, sampleRate, gainMode, gainValue := 0, 0, 0, 0;
      tunerAgc, mixerAgc, decimation, streamTime := 0, 0, 0, 0;
      deviceResult, deviceHandle, streamCallback := 0, false, false;
      streamQueue, samplesReceived, samplesDropped := [], 0, 0;
    }

    /** A closed device for an already opened file descriptor. */
    constructor FromFileDesc(fd: int)
      ensures Valid()
      ensures deviceName == "" && deviceVersion == "" && fileDesc == fd
      ensures !deviceHandle && !streamCallback && streamQueue == []
      ensures centerFreq == 0 && sampleRate == 0 && gainMode == 0 && gainValue == 0
      ensures tunerAgc == 0 && mixerAgc == 0 && decimation == 0 && streamTime == 0
      ensures deviceResult == 0 && samplesReceived == 0 && samplesDropped == 0
    {
      deviceName, deviceVersion, fileDesc := "", "", fd;
      centerFreq, sampleRate, gainMode, gainValue := 0, 0, 0, 0;
      tunerAgc, mixerAgc, decimation, streamTime := 0, 0, 0, 0;
      deviceResult, deviceHandle, streamCallback := 0, false, false;
      streamQueue, samplesReceived, samplesDropped := [], 0, 0;
    }

    /** `open`: a name of another scheme is refused with nothing changed, not even
        the current handle. Otherwise the current handle is closed first; then
        `openResult` (from `airspy_open_sn`) decides whether a handle is held.
        On success the firmware `version` is stored, the stored configuration is
        pushed again unchanged, and `configResult` is the result of the last of
        those pushes. */
    method Open(stopResult: int, closeResult: int, openResult: int, version: string, configResult: int)
      returns (ok: bool)
      requires Valid()
      modifies this`deviceHandle, this`streamCallback, this`deviceName, this`deviceVersion,
               this`deviceResult, this`streamQueue, this`streamTime
      ensures Valid()
      ensures ForeignScheme(old(deviceName)) ==> !ok && unchanged(this)
      ensures !ForeignScheme(old(deviceName)) ==>
                && ok == (openResult == AirspySuccess)
                && deviceHandle == ok
                && !streamCallback
                && deviceName == (if old(deviceHandle) then "" else old(deviceName))
                && deviceVersion == (if ok then version else if old(deviceHandle) then "" else old(deviceVersion))
                && deviceResult == (if ok then configResult else openResult)
                && (old(streamCallback) ==> streamQueue == [] && streamTime == 0)
                && (!old(streamCallback) ==> streamQueue == old(streamQueue) && streamTime == old(streamTime))
    {
      if ForeignScheme(deviceName) {
        return false;
      }
      Close(stopResult, closeResult);
      deviceResult := openResult;
      if openResult == AirspySuccess {
        deviceHandle := true;
        deviceVersion := version;
        deviceResult := configResult;
        return true;
      }
      return false;
    }

    /** `close`: nothing happens without a handle. With one, streaming is stopped
        first (which has an effect only while a handler is registered), then the
        handle is released with `closeResult` from `airspy_close`, and the name and
        version are cleared. */
    method Close(stopResult: int, closeResult: int)
      requires Valid()
      modifies this`deviceHandle, this`streamCallback, this`deviceName, this`deviceVersion,
               this`deviceResult, this`streamQueue, this`streamTime
      ensures Valid()
      ensures !old(deviceHandle) ==> unchanged(this)
      ensures old(deviceHandle) ==>
                && !deviceHandle && !streamCallback
                && deviceName == "" && deviceVersion == ""
                && deviceResult == closeResult
                && (old(streamCallback) ==> streamQueue == [] && streamTime == 0)
                && (!old(streamCallback) ==> streamQueue == old(streamQueue) && streamTime == old(streamTime))
    {
      if deviceHandle {
        var _ := Stop(stopResult);
        deviceResult := closeResult;
        deviceName := "";
        deviceVersion := "";
        deviceHandle := false;
      }
    }

    /** `start`: -1 and no change without a handle. With one, both counters and the
        queue are reset, the handler (`handler` says whether it is non-empty) is
        registered, and the session time is set to `now`; `startResult` from
        `airspy_start_rx` is returned, and when it is not a success the handler is
        cleared again, so no handler stays registered on a failed start. */
    method Start(handler: bool, startResult: int, now: int) returns (r: int)
      requires Valid()
      modifies this`samplesDropped, this`samplesReceived, this`streamCallback,
               this`streamQueue, this`deviceResult, this`streamTime
      ensures Valid()
      ensures !old(deviceHandle) ==> r == -1 && unchanged(this)
      ensures old(deviceHandle) ==>
                && r == startResult && deviceResult == startResult
                && samplesReceived == 0 && samplesDropped == 0 && streamQueue == []
                && streamCallback == (handler && startResult == AirspySuccess)
                && streamTime == now
    {
      if deviceHandle {
        samplesDropped := 0;
        samplesReceived := 0;
        streamCallback := handler;
        streamQueue := [];
        deviceResult := startResult;
        if deviceResult != AirspySuccess {
          streamCallback := false;
        }
        streamTime := now;
        return deviceResult;
      }
      return -1;
    }

    /** `stop`: -1 and no change unless a handle is held and a handler registered.
        Otherwise reception is stopped with `stopResult` from `airspy_stop_rx`, the
        handler and the queue are cleared and the session time reset to 0. */
    method Stop(stopResult: int) returns (r: int)
      requires Valid()
      modifies this`deviceResult, this`streamCallback, this`streamQueue, this`streamTime
      ensures Valid()
      ensures !(old(deviceHandle) && old(streamCallback)) ==> r == -1 && unchanged(this)
      ensures old(deviceHandle) && old(streamCallback) ==>
                && r == stopResult && deviceResult == stopResult
                && !streamCallback && streamQueue == [] && streamTime == 0
    {
      if deviceHandle && streamCallback {
        deviceResult := stopResult;
        streamCallback := false;
        streamQueue := [];
        streamTime := 0;
        return deviceResult;
      }
      return -1;
    }

    /** `setCenterFreq`: the value is stored whatever happens; with a handle the
        result of `airspy_set_freq` is returned, without one 0. */
    method SetCenterFreq(value: int, hwResult: int) returns (r: int)
      modifies this`centerFreq, this`deviceResult
      ensures centerFreq == value
      ensures deviceHandle ==> r == hwResult && deviceResult == hwResult
      ensures !deviceHandle ==> r == 0 && deviceResult == old(deviceResult)
    {
      centerFreq := value;
      if deviceHandle {
        deviceResult := hwResult;
        return deviceResult;
      }
      return 0;
    }

    /** `setSampleRate`: as `setCenterFreq`, with `airspy_set_samplerate`. */
    method SetSampleRate(value: int, hwResult: int) returns (r: int)
      modifies this`sampleRate, this`deviceResult
      ensures sampleRate == value
      ensures deviceHandle ==> r == hwResult && deviceResult == hwResult
      ensures !deviceHandle ==> r == 0 && deviceResult == old(deviceResult)
    {
      sampleRate := value;
      if deviceHandle {
        deviceResult := hwResult;
        return deviceResult;
      }
      return 0;
    }

    /** `setGainValue`: the value is stored; with a handle the gain is pushed only
        in the linearity or sensitivity mode, with `hwResult` as its result, and
        the last libairspy result is returned in every mode; without a handle 0. */
    method SetGainValue(value: int, hwResult: int) returns (r: int)
      modifies this`gainValue, this`deviceResult
      ensures gainValue == value
      ensures deviceHandle && (gainMode == Linearity || gainMode == Sensitivity) ==>
                r == hwResult && deviceResult == hwResult
      ensures deviceHandle && gainMode != Linearity && gainMode != Sensitivity ==>
                r == old(deviceResult) && deviceResult == old(deviceResult)
      ensures !deviceHandle ==> r == 0 && deviceResult == old(deviceResult)
    {
      gainValue := value;
      if deviceHandle {
        if gainMode == Linearity || gainMode == Sensitivity {
          deviceResult := hwResult;
        }
        return deviceResult;
      }
      return 0;
    }

    /** `setGainMode`: the mode is stored; with a handle, the automatic mode pushes
        both AGC settings and any other mode pushes the stored gain value again,
        `hwResult` being the result of the last push; without a handle 0. */
    method SetGainMode(mode: int, hwResult: int) returns (r: int)
      modifies this`gainMode, this`gainValue, this`deviceResult
      ensures gainMode == mode && gainValue == old(gainValue)
      ensures deviceHandle && (mode == Auto || mode == Linearity || mode == Sensitivity) ==>
                r == hwResult && deviceResult == hwResult
      ensures deviceHandle && mode != Auto && mode != Linearity && mode != Sensitivity ==>
                r == old(deviceResult) && deviceResult == old(deviceResult)
      ensures !deviceHandle ==> r == 0 && deviceResult == old(deviceResult)
    {
      gainMode := mode;
      if deviceHandle {
        if gainMode == Auto {
          deviceResult := hwResult;
          return deviceResult;
        } else {
          r := SetGainValue(gainValue, hwResult);
          return r;
        }
      }
      return 0;
    }

    /** `setTunerAgc`: the value is stored, and a non-zero value also selects the
        automatic gain mode; with a handle the result of `airspy_set_lna_agc` is
        returned, without one 0. */
    method SetTunerAgc(value: int, hwResult: int) returns (r: int)
      modifies this`tunerAgc, this`gainMode, this`deviceResult
      ensures tunerAgc == value
      ensures gainMode == (if value != 0 then Auto else old(gainMode))
      ensures deviceHandle ==> r == hwResult && deviceResult == hwResult
      ensures !deviceHandle ==> r == 0 && deviceResult == old(deviceResult)
    {
      tunerAgc := value;
      if tunerAgc != 0 {
        gainMode := Auto;
      }
      if deviceHandle {
        deviceResult := hwResult;
        return deviceResult;
      }
      return 0;
    }

    /** `setMixerAgc`: as `setTunerAgc`, with `airspy_set_mixer_agc`. */
    method SetMixerAgc(value: int, hwResult: int) returns (r: int)
      modifies this`mixerAgc, this`gainMode, this`deviceResult
      ensures mixerAgc == value
      ensures gainMode == (if value != 0 then Auto else old(gainMode))
      ensures deviceHandle ==> r == hwResult && deviceResult == hwResult
      ensures !deviceHandle ==> r == 0 && deviceResult == old(deviceResult)
    {
      mixerAgc := value;
      if mixerAgc != 0 {
        gainMode := Auto;
      }
      if deviceHandle {
        deviceResult := hwResult;
        return deviceResult;
      }
      return 0;
    }

    /** `setDecimation`: stored only, always 0. */
    method SetDecimation(value: int) returns (r: int)
      modifies this`decimation
      ensures decimation == value && r == 0
    {
      decimation := value;
      return 0;
    }

    /** `setTestMode`: not supported by this receiver; always -1, nothing changes. */
    method SetTestMode(value: int) returns (r: int)
      ensures r == -1
    {
      return -1;
    }

    /** `write`: the receiver cannot transmit; always -1, nothing changes. */
    method Write(buffer: SignalBuffer) returns (r: int)
      ensures r == -1
    {
      return -1;
    }

    /** `supportedGainModes`: a name for each gain mode `setGainMode` tells apart. */
    function SupportedGainModes(): (modes: map<int, string>)
      ensures modes.Keys == {Auto, Linearity, Sensitivity}
      ensures modes[Auto] == "Auto" && modes[Linearity] == "Linearity" && modes[Sensitivity] == "Sensitivity"
    {
      map[Auto := "Auto", Linearity := "Linearity", Sensitivity := "Sensitivity"]
    }

    /** `supportedGainValues`: the gain steps 0 to 21, each named by its decimal
        value followed by " db". */
    method SupportedGainValues() returns (values: map<int, string>)
      ensures forall i :: i in values <==> 0 <= i < 22
      ensures forall i :: 0 <= i < 22 ==> values[i] == Decimal(i) + " db"
    {
      values := map[];
      for i := 0 to 22
        invariant forall j :: j in values <==> 0 <= j < i
        invariant forall j :: 0 <= j < i ==> values[j] == Decimal(j) + " db"
      {
        values := values[i := Decimal(i) + " db"];
      }
    }

    /** `read`: on a non-empty queue, remove and return its oldest buffer and
        answer that buffer's `limit()`; on an empty queue answer -1 and leave
        the queue as it is. */
    method Read() returns (r: int, buffer: Option<SignalBuffer>)
      requires Valid()
      modifies this`streamQueue
      ensures Valid()
      ensures old(streamQueue) != [] ==>
                buffer == Some(old(streamQueue)[0]) && r == old(streamQueue)[0].limit
                && streamQueue == old(streamQueue)[1..]
      ensures old(streamQueue) == [] ==> r == -1 && buffer.None? && streamQueue == []
    {
      if streamQueue != [] {
        var front := streamQueue[0];
        streamQueue := streamQueue[1..];
        return front.limit, Some(front);
      }
      return -1, None;
    }

    /** `process_transfer`, for a transfer of `sampleCount` samples of which the
        hardware reports `droppedSamples` lost, already built into `buffer`. Both
        counts are added to the counters on either path. With a handler
        registered the buffer is handed to it (`forwarded`) and the queue is
        untouched; otherwise it goes into the queue through `Offer`, whose
        evicted samples are counted as dropped too. The transfer always asks
        the driver to keep streaming (0). */
    method ProcessTransfer(buffer: SignalBuffer, sampleCount: int, droppedSamples: int)
      returns (status: int, forwarded: Option<SignalBuffer>)
      requires Valid()
      modifies this`samplesReceived, this`samplesDropped, this`streamQueue
      ensures Valid()
      ensures status == 0
      ensures samplesReceived == old(samplesReceived) + sampleCount
      ensures streamCallback ==>
                && forwarded == Some(buffer)
                && streamQueue == old(streamQueue)
                && samplesDropped == old(samplesDropped) + droppedSamples
      ensures !streamCallback ==>
                && forwarded == None
                && streamQueue == Offer(old(streamQueue), buffer).queue
                && samplesDropped == old(samplesDropped) + droppedSamples + Offer(old(streamQueue), buffer).dropped
    {
      samplesReceived := samplesReceived + sampleCount;
      samplesDropped := samplesDropped + droppedSamples;
      if streamCallback {
        return 0, Some(buffer);
      }
      if |streamQueue| >= MaxQueueSize {
        samplesDropped := samplesDropped + streamQueue[0].elements;
        streamQueue := streamQueue[1..];
      }
      streamQueue := streamQueue + [buffer];
      return 0, None;
    }
  }
}

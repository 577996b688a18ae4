/**
 * The recording-options dialog: sample-rate choice, microphone selection,
 * the device catalogue and its audio test, and the peak level meter fed by
 * the test capture.
 */
module RecordingOptions {
  import opened Wrappers
  import opened Pcm
  import Devices

  // ---------------------------------------------------------------------
  // Sample rate <-> combo index
  // ---------------------------------------------------------------------

  predicate SupportedRate(rate: int)
  {
    rate == 44100 || rate == 48000 || rate == 96000
  }

  /** The combo index shown for a rate; a rate the dialog does not offer shows index 0. */
  function RateToIndex(rate: int): (i: nat)
    ensures i < 3
    ensures !SupportedRate(rate) ==> i == 0
  {
    match rate
    case 44100 => 0
    case 48000 => 1
    case 96000 => 2
    case _ => 0
  }

  /** The rate a combo index selects; any other index selects nothing (the rate is kept). */
  function IndexToRate(index: int): (r: Option<int>)
    ensures r.Some? <==> 0 <= index < 3
    ensures r.Some? ==> SupportedRate(r.value)
  {
    match index
    case 0 => Some(44100)
    case 1 => Some(48000)
    case 2 => Some(96000)
    case _ => None
  }

  /** rate -> index -> rate is the identity on the three offered rates, and 44100 otherwise. */
  lemma RateRoundTrip(rate: int)
    ensures IndexToRate(RateToIndex(rate)) == Some(if SupportedRate(rate) then rate else 44100)
  {
  }

  /** index -> rate -> index is the identity on the three combo positions. */
  lemma IndexRoundTrip(index: int)
    requires 0 <= index < 3
    ensures RateToIndex(IndexToRate(index).value) == index
  {
  }

  // ---------------------------------------------------------------------
  // Microphone selection fix-up
  // ---------------------------------------------------------------------

  /**
   * The microphone index kept after the list of `count` microphones is loaded:
   * a stored index inside the list is kept, otherwise the first microphone is
   * chosen; with no microphones the stored index is left as it was.
   */
  function FixMicrophone(stored: int, count: nat): (r: int)
  {
    if 0 <= stored < count then stored
    else if count > 0 then 0
    else stored
  }

  /** After the fix-up a non-empty list always has a valid selection, and a valid one is never moved. */
  lemma FixMicrophoneValid(stored: int, count: nat)
    ensures count > 0 ==> 0 <= FixMicrophone(stored, count) < count
    ensures 0 <= stored < count ==> FixMicrophone(stored, count) == stored
    ensures count == 0 ==> FixMicrophone(stored, count) == stored
  {
  }

  /** Loading the same list twice selects what loading it once does. */
  lemma FixMicrophoneIdempotent(stored: int, count: nat)
    ensures FixMicrophone(FixMicrophone(stored, count), count) == FixMicrophone(stored, count)
  {
  }

  // ---------------------------------------------------------------------
  // Peak level
  // ---------------------------------------------------------------------

  /** One of the first k samples is -32768, whose magnitude a 16-bit `Math.Abs` cannot return. */
  predicate HasMinValue(buffer: seq<byte>, k: nat)
    requires 2 * k <= |buffer|
  {
    exists j | 0 <= j < k :: SampleAt(buffer, j) == -32768
  }

  /** Reading one more sample finds -32768 exactly when it is that sample or was found before. */
  lemma HasMinValueExtend(buffer: seq<byte>, k: nat)
    requires 2 * k + 2 <= |buffer|
    ensures HasMinValue(buffer, k + 1) <==> HasMinValue(buffer, k) || SampleAt(buffer, k) == -32768
  {
    if HasMinValue(buffer, k + 1) && SampleAt(buffer, k) != -32768 {
      var j :| 0 <= j < k + 1 && SampleAt(buffer, j) == -32768;
      assert j < k;
    }
  }

  /** A -32768 among the first k samples is also among the first m >= k. */
  lemma HasMinValueGrows(buffer: seq<byte>, k: nat, m: nat)
    requires k <= m && 2 * m <= |buffer|
    requires HasMinValue(buffer, k)
    ensures HasMinValue(buffer, m)
  {
    var j :| 0 <= j < k && SampleAt(buffer, j) == -32768;
    assert 0 <= j < m;
  }

  /** The largest magnitude among the first k samples (0 when there are none). */
  function MaxAbs(buffer: seq<byte>, k: nat): (m: nat)
    requires 2 * k <= |buffer|
    ensures m <= 32768
  {
    if k == 0 then 0
    else
      var m := MaxAbs(buffer, k - 1);
      var a := Abs(SampleAt(buffer, k - 1));
      if a > m then a else m
  }

  /** MaxAbs bounds every sample's magnitude and is the magnitude of one of them (or 0). */
  lemma {:induction false} MaxAbsIsPeak(buffer: seq<byte>, k: nat)
    requires 2 * k <= |buffer|
    ensures forall j :: 0 <= j < k ==> Abs(SampleAt(buffer, j)) <= MaxAbs(buffer, k)
    ensures MaxAbs(buffer, k) == 0 || exists j :: 0 <= j < k && Abs(SampleAt(buffer, j)) == MaxAbs(buffer, k)
  {
    if k > 0 {
      MaxAbsIsPeak(buffer, k - 1);
      if MaxAbs(buffer, k) != MaxAbs(buffer, k - 1) {
        assert Abs(SampleAt(buffer, k - 1)) == MaxAbs(buffer, k);
      }
    }
  }

  /** The largest magnitude is 32768 exactly when some sample is -32768. */
  lemma MaxAbsFullScale(buffer: seq<byte>, k: nat)
    requires 2 * k <= |buffer|
    ensures MaxAbs(buffer, k) == 32768 <==> HasMinValue(buffer, k)
  {
    MaxAbsIsPeak(buffer, k);
    if MaxAbs(buffer, k) == 32768 {
      var j :| 0 <= j < k && Abs(SampleAt(buffer, j)) == 32768;
      assert SampleAt(buffer, j) == -32768;
    }
    if HasMinValue(buffer, k) {
      var j :| 0 <= j < k && SampleAt(buffer, j) == -32768;
      assert Abs(SampleAt(buffer, j)) == 32768;
    }
  }

  /**
   * The level the handler stores, as written: `Math.Abs(short)` throws on
   * -32768 and `BitConverter.ToInt16` throws on a read past the buffer; either
   * exception is caught and no level is produced (`None`).
   */
  function LevelAsWritten(buffer: seq<byte>, n: nat): (r: Option<nat>)
    ensures r.Some? <==> Fits(buffer, n) && !HasMinValue(buffer, SampleCount(n))
    ensures r.Some? ==> r.value <= 99
  {
    if !Fits(buffer, n) || HasMinValue(buffer, SampleCount(n)) then None
    else
      MaxAbsFullScale(buffer, SampleCount(n));
      Some(MaxAbs(buffer, SampleCount(n)) * 100 / 32768)
  }

  /** The peak level with the magnitude taken in `int`: max |sample| * 100 / 32768. */
  function Level(buffer: seq<byte>, n: nat): (r: nat)
    requires Fits(buffer, n)
  {
    MaxAbs(buffer, SampleCount(n)) * 100 / 32768
  }

  /** The peak level lies in [0, 100] and is exactly 100 when some sample is -32768. */
  lemma LevelBounds(buffer: seq<byte>, n: nat)
    requires Fits(buffer, n)
    ensures Level(buffer, n) <= 100
    ensures Level(buffer, n) == 100 <==> HasMinValue(buffer, SampleCount(n))
    ensures forall j :: 0 <= j < SampleCount(n) ==> Abs(SampleAt(buffer, j)) * 100 / 32768 <= Level(buffer, n)
  {
    MaxAbsFullScale(buffer, SampleCount(n));
    MaxAbsIsPeak(buffer, SampleCount(n));
  }

  /** Without a -32768 sample the handler stores the peak level. */
  lemma AsWrittenAgrees(buffer: seq<byte>, n: nat)
    requires Fits(buffer, n) && !HasMinValue(buffer, SampleCount(n))
    ensures LevelAsWritten(buffer, n) == Some(Level(buffer, n))
  {
  }

  /**
   * A full-scale negative sample makes the handler keep the previous level
   * where the peak level is 100: the buffer 00 80 holds the one sample -32768.
   */
  lemma MinValueSampleIsDropped()
    ensures LevelAsWritten([0, 128], 2) == None
    ensures Level([0, 128], 2) == 100
  {
    var b: seq<byte> := [0, 128];
    assert SampleAt(b, 0) == -32768;
    assert HasMinValue(b, SampleCount(2));
    LevelBounds(b, 2);
  }

  /**
   * The handlers' scan: the running maximum of |sample| over the even
   * offsets below `bytesRecorded`, scaled to 0..100; `None` when
   * `BitConverter.ToInt16` or `Math.Abs(short)` throws.
   */
  method ScanPeak(buffer: seq<byte>, bytesRecorded: nat) returns (level: Option<nat>)
    ensures level == LevelAsWritten(buffer, bytesRecorded)
  {
    var max := 0;
    var i := 0;
    ghost var j := 0;
    while i < bytesRecorded
      invariant i == 2 * j && j <= SampleCount(bytesRecorded)
      invariant 2 * j <= |buffer|
      invariant !HasMinValue(buffer, j)
      invariant max == MaxAbs(buffer, j)
    {
      if i + 2 > |buffer| {
        // BitConverter.ToInt16 throws ArgumentException
        assert !Fits(buffer, bytesRecorded);
        return None;
      }
      var s := Int16At(buffer, i);
      assert s == SampleAt(buffer, j);
      HasMinValueExtend(buffer, j);
      if s == -32768 {
        // Math.Abs(short) throws OverflowException
        if Fits(buffer, bytesRecorded) {
          HasMinValueGrows(buffer, j + 1, SampleCount(bytesRecorded));
        }
        return None;
      }
      var sample := Abs(s);
      if sample > max {
        max := sample;
      }
      i := i + 2;
      j := j + 1;
    }
    assert j == SampleCount(bytesRecorded);
    level := Some(max * 100 / 32768);
  }

  /**
   * The level shared by the capture callbacks and the UI timer: the value
   * the callbacks store and the value the progress bar shows.
   */
  class LevelMeter {
    var currentLevel: int
    var displayed: int

    ghost predicate Valid()
      reads this
    {
      0 <= currentLevel <= 100 && 0 <= displayed <= 100
    }

    constructor ()
      ensures Valid()
      ensures currentLevel == 0 && displayed == 0
    {
      currentLevel := 0;
      displayed := 0;
    }

    /**
     * `WaveIn_DataAvailable` and `LoopbackCapture_DataAvailable` (identical):
     * store the peak level of the recorded bytes; nothing is stored for an
     * empty buffer or when the scan throws.
     */
    method DataAvailable(buffer: seq<byte>, bytesRecorded: nat)
      requires Valid()
      modifies this
      ensures Valid()
      ensures displayed == old(displayed)
      ensures currentLevel ==
        if bytesRecorded > 0 && LevelAsWritten(buffer, bytesRecorded).Some?
        then LevelAsWritten(buffer, bytesRecorded).value
        else old(currentLevel)
    {
      if bytesRecorded > 0 {
        var level := ScanPeak(buffer, bytesRecorded);
        if level.Some? {
          currentLevel := level.value;
        }
      }
    }

    /** `LevelUpdateTimer_Tick`: the progress bar shows the stored level, capped at 100. */
    method Tick()
      requires Valid()
      modifies this
      ensures Valid()
      ensures currentLevel == old(currentLevel)
      ensures displayed == if currentLevel < 100 then currentLevel else 100
      ensures displayed == currentLevel
    {
      displayed := if currentLevel < 100 then currentLevel else 100;
    }

    /** The progress bar is reset when the audio test stops; the stored level is kept. */
    method Reset()
      requires Valid()
      modifies this
      ensures Valid()
      ensures currentLevel == old(currentLevel) && displayed == 0
    {
      displayed := 0;
    }
  }

  // ---------------------------------------------------------------------
  // The dialog
  // ---------------------------------------------------------------------

  /** The capture the audio test opens. */
  datatype TestCapture = LoopbackTest | WaveInTest(config: Devices.WaveInConfig)

  /** The capture the test opens for a catalogue index: loopback for 0, device index - 1 otherwise. */
  function TestCaptureFor(deviceIndex: int): (t: TestCapture)
    ensures t == LoopbackTest <==> Devices.EntryAt(deviceIndex) == Devices.SystemAudio
    ensures t.WaveInTest? ==> Devices.EntryAt(deviceIndex) == Devices.InputDevice(t.config.device)
    ensures t.WaveInTest? ==> t.config.sampleRate == 44100 && t.config.channels == 1
  {
    if deviceIndex == 0 then LoopbackTest else WaveInTest(Devices.WaveInConfig(deviceIndex - 1, 44100, 1))
  }

  /** The options handed back to the recorder when the dialog is confirmed. */
  datatype Chosen = Chosen(useAlternativeMethod: bool, mixAudioSources: bool, microphoneIndex: int,
                           sampleRate: int, deviceIndex: int)

  class RecordingOptionsForm {
    var useAlternativeMethod: bool
    var mixAudioSources: bool
    var selectedMicrophoneIndex: int
    var sampleRate: int
    var selectedDeviceIndex: int
    var isTestingAudio: bool

    /** Items of the microphone combo, and its selected index (-1: none). */
    var microphones: seq<string>
    var microphoneComboIndex: int
    /** Items of the device combo (its selected index is always `selectedDeviceIndex`). */
    var devices: seq<string>
    /** Selected index of the sample-rate combo. */
    var sampleRateIndex: int
    var microphoneGroupVisible: bool
    /** The capture the audio test holds open, if any. */
    var test: Option<TestCapture>
    const meter: LevelMeter

    ghost predicate Valid()
      reads this, meter
    {
      meter.Valid() &&
      microphoneGroupVisible == mixAudioSources &&
      SupportedRate(sampleRate) && sampleRateIndex == RateToIndex(sampleRate) &&
      (isTestingAudio <==> test.Some?)
    }

    /**
     * The dialog opened with the recorder's current options, over the input
     * devices named `names`. Each programmatic combo selection raises the
     * combo's change handler, so the properties follow the combos: a rate
     * the dialog does not offer becomes 44100 and the microphone index is
     * fixed up against the list.
     */
    constructor (alternativeMethod: bool, mixAudio: bool, microphoneIndex: int, rate: int, names: seq<string>)
      ensures Valid() && fresh(meter)
      ensures useAlternativeMethod == alternativeMethod && mixAudioSources == mixAudio
      ensures devices == Devices.Catalogue(names) && selectedDeviceIndex == 0
      ensures microphones == names
      ensures selectedMicrophoneIndex == FixMicrophone(microphoneIndex, |names|)
      ensures microphoneComboIndex == if |names| > 0 then selectedMicrophoneIndex else -1
      ensures sampleRate == (if SupportedRate(rate) then rate else 44100)
      ensures !isTestingAudio && meter.currentLevel == 0
    {
      useAlternativeMethod := alternativeMethod;
      mixAudioSources := mixAudio;
      selectedMicrophoneIndex := microphoneIndex;
      devices := Devices.Catalogue(names);
      selectedDeviceIndex := 0;
      microphones := names;
      var fixedIndex := FixMicrophone(microphoneIndex, |names|);
      microphoneComboIndex := if |names| > 0 then fixedIndex else -1;
      selectedMicrophoneIndex := fixedIndex;
      var rateIndex := RateToIndex(rate);
      RateRoundTrip(rate);
      sampleRateIndex := rateIndex;
      sampleRate := IndexToRate(rateIndex).value;
      microphoneGroupVisible := mixAudio;
      isTestingAudio := false;
      test := None;
      meter := new LevelMeter();
    }

    /**
     * `LoadMicrophones`: list the input devices and fix up the selected index;
     * a selection change is echoed into the property by the combo handler.
     */
    method LoadMicrophones(names: seq<string>)
      requires Valid()
      modifies this
      ensures Valid()
      ensures microphones == names
      ensures selectedMicrophoneIndex == FixMicrophone(old(selectedMicrophoneIndex), |names|)
      ensures microphoneComboIndex == if |names| > 0 then selectedMicrophoneIndex else -1
      ensures |names| > 0 ==> 0 <= selectedMicrophoneIndex < |microphones|
      ensures useAlternativeMethod == old(useAlternativeMethod) && mixAudioSources == old(mixAudioSources)
      ensures sampleRate == old(sampleRate) && selectedDeviceIndex == old(selectedDeviceIndex)
      ensures devices == old(devices) && test == old(test) && isTestingAudio == old(isTestingAudio)
    {
      microphones := names;
      FixMicrophoneValid(selectedMicrophoneIndex, |names|);
      if 0 <= selectedMicrophoneIndex < |names| {
        microphoneComboIndex := selectedMicrophoneIndex;
      } else if |names| > 0 {
        microphoneComboIndex := 0;
        selectedMicrophoneIndex := 0;
      } else {
        microphoneComboIndex := -1;
      }
    }

    /** `cboSampleRate_SelectedIndexChanged`: indices 0, 1, 2 select 44100, 48000, 96000. */
    method SelectSampleRate(index: int)
      requires Valid()
      requires 0 <= index < 3
      modifies this
      ensures Valid()
      ensures sampleRateIndex == index
      ensures sampleRate == IndexToRate(index).value
      ensures useAlternativeMethod == old(useAlternativeMethod) && mixAudioSources == old(mixAudioSources)
      ensures selectedMicrophoneIndex == old(selectedMicrophoneIndex) && selectedDeviceIndex == old(selectedDeviceIndex)
      ensures test == old(test) && isTestingAudio == old(isTestingAudio)
    {
      IndexRoundTrip(index);
      sampleRateIndex := index;
      sampleRate := IndexToRate(index).value;
    }

    /** `cboDevice_SelectedIndexChanged`: the property follows the device combo. */
    method SelectDevice(index: int)
      requires Valid()
      modifies this
      ensures Valid()
      ensures selectedDeviceIndex == index
      ensures useAlternativeMethod == old(useAlternativeMethod) && mixAudioSources == old(mixAudioSources)
      ensures selectedMicrophoneIndex == old(selectedMicrophoneIndex) && sampleRate == old(sampleRate)
      ensures test == old(test) && isTestingAudio == old(isTestingAudio)
    {
      selectedDeviceIndex := index;
    }

    /**
     * `chkMixAudio_CheckedChanged`: store the flag, reload the microphones when
     * mixing is switched on, and show the microphone group exactly when mixing.
     */
    method SetMixAudio(checked: bool, names: seq<string>)
      requires Valid()
      modifies this
      ensures Valid()
      ensures mixAudioSources == checked && microphoneGroupVisible == checked
      ensures checked ==> microphones == names &&
                          selectedMicrophoneIndex == FixMicrophone(old(selectedMicrophoneIndex), |names|)
      ensures !checked ==> microphones == old(microphones) && selectedMicrophoneIndex == old(selectedMicrophoneIndex)
      ensures useAlternativeMethod == old(useAlternativeMethod) && sampleRate == old(sampleRate)
      ensures selectedDeviceIndex == old(selectedDeviceIndex) && test == old(test)
    {
      mixAudioSources := checked;
      microphoneGroupVisible := checked;
      if checked {
        LoadMicrophones(names);
      }
    }

    /**
     * `btnRestoreDefaults_Click`: no alternative method, microphone 0, 44100 Hz,
     * the system audio device; combos with items are moved to their first entry.
     */
    method RestoreDefaults()
      requires Valid()
      modifies this
      ensures Valid()
      ensures !useAlternativeMethod && selectedMicrophoneIndex == 0 && sampleRate == 44100 && selectedDeviceIndex == 0
      ensures sampleRateIndex == 0
      ensures microphoneComboIndex == if |microphones| > 0 then 0 else old(microphoneComboIndex)
      ensures mixAudioSources == old(mixAudioSources) && microphoneGroupVisible == mixAudioSources
      ensures microphones == old(microphones) && devices == old(devices) && test == old(test)
    {
      useAlternativeMethod := false;
      selectedMicrophoneIndex := 0;
      sampleRate := 44100;
      selectedDeviceIndex := 0;
      sampleRateIndex := 0;
      if |microphones| > 0 {
        microphoneComboIndex := 0;
      }
      microphoneGroupVisible := mixAudioSources;
    }

    /**
     * `StartAudioTest`: open the capture for the selected catalogue entry and
     * start the level timer; if opening it throws nothing is started.
     */
    method StartAudioTest(opens: bool)
      requires Valid()
      modifies this
      ensures Valid()
      ensures opens ==> test == Some(TestCaptureFor(selectedDeviceIndex)) && isTestingAudio
      ensures !opens ==> test == old(test) && isTestingAudio == old(isTestingAudio)
      ensures selectedDeviceIndex == old(selectedDeviceIndex) && sampleRate == old(sampleRate)
      ensures selectedMicrophoneIndex == old(selectedMicrophoneIndex) && mixAudioSources == old(mixAudioSources)
    {
      if opens {
        test := Some(TestCaptureFor(selectedDeviceIndex));
        isTestingAudio := true;
      }
    }

    /** `StopAudioTest`: close the test capture and zero the progress bar. */
    method StopAudioTest()
      requires Valid()
      modifies this, meter
      ensures Valid()
      ensures test == None && !isTestingAudio && meter.displayed == 0
      ensures meter.currentLevel == old(meter.currentLevel)
      ensures selectedDeviceIndex == old(selectedDeviceIndex) && sampleRate == old(sampleRate)
      ensures selectedMicrophoneIndex == old(selectedMicrophoneIndex) && mixAudioSources == old(mixAudioSources)
      ensures useAlternativeMethod == old(useAlternativeMethod)
    {
      test := None;
      isTestingAudio := false;
      meter.Reset();
    }

    /** `btnTestAudio_Click`: stop a running test, otherwise start one. */
    method ToggleAudioTest(opens: bool)
      requires Valid()
      modifies this, meter
      ensures Valid()
      ensures old(isTestingAudio) ==> !isTestingAudio && test == None
      ensures !old(isTestingAudio) && opens ==> isTestingAudio && test == Some(TestCaptureFor(selectedDeviceIndex))
      ensures !old(isTestingAudio) && !opens ==> !isTestingAudio
      ensures selectedDeviceIndex == old(selectedDeviceIndex)
    {
      if isTestingAudio {
        StopAudioTest();
      } else {
        StartAudioTest(opens);
      }
    }

    /** `btnOK_Click`: stop any test and hand the five options to the recorder. */
    method Confirm() returns (chosen: Chosen)
      requires Valid()
      modifies this, meter
      ensures Valid() && !isTestingAudio
      ensures chosen == Chosen(useAlternativeMethod, mixAudioSources, selectedMicrophoneIndex, sampleRate, selectedDeviceIndex)
      ensures useAlternativeMethod == old(useAlternativeMethod) && mixAudioSources == old(mixAudioSources)
      ensures selectedMicrophoneIndex == old(selectedMicrophoneIndex) && sampleRate == old(sampleRate)
      ensures selectedDeviceIndex == old(selectedDeviceIndex)
      ensures SupportedRate(chosen.sampleRate)
    {
      if isTestingAudio {
        StopAudioTest();
      }
      chosen := Chosen(useAlternativeMethod, mixAudioSources, selectedMicrophoneIndex, sampleRate, selectedDeviceIndex);
    }
  }
}

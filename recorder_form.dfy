/**
 * The recorder window: which capture a recording opens, the per-session
 * tracker that finalizes a mixed recording once both sources have stopped,
 * and the resource fields `CleanupRecording` releases.
 */
module RecorderForm {
  import opened Wrappers
  import Devices
  import Paths
  import RecordingOptions

  // ---------------------------------------------------------------------
  // Recording-mode dispatch
  // ---------------------------------------------------------------------

  datatype Mode =
    | MixedMode(microphone: Devices.WaveInConfig)    // system audio and a microphone, two temp files
    | Loopback                                       // system audio, standard WASAPI loopback
    | AlternativeLoopback                            // system audio, loopback kept alive by played silence
    | MicrophoneMode(config: Devices.WaveInConfig)   // one wave-in device

  /**
   * `StartRecording`'s choice: the mix flag wins; otherwise catalogue index 0
   * records the system audio and index k > 0 opens input device k - 1 at
   * 44100 Hz mono. Mixed mode opens the microphone combo's index unshifted,
   * at the chosen sample rate, mono.
   */
  function Dispatch(mix: bool, alternative: bool, deviceIndex: int, microphoneIndex: int, sampleRate: int): (m: Mode)
    ensures m.MixedMode? <==> mix
    ensures m.MixedMode? ==> m.microphone == Devices.WaveInConfig(microphoneIndex, sampleRate, 1)
    ensures m == Loopback <==> !mix && deviceIndex == 0 && !alternative
    ensures m == AlternativeLoopback <==> !mix && deviceIndex == 0 && alternative
    ensures m.MicrophoneMode? ==>
      Devices.EntryAt(deviceIndex) == Devices.InputDevice(m.config.device) &&
      m.config.sampleRate == 44100 && m.config.channels == 1
  {
    if mix then MixedMode(Devices.WaveInConfig(microphoneIndex, sampleRate, 1))
    else if deviceIndex == 0 then (if alternative then AlternativeLoopback else Loopback)
    else MicrophoneMode(Devices.WaveInConfig(deviceIndex - 1, 44100, 1))
  }

  /**
   * Recording from a catalogue entry other than the system audio opens the
   * device the entry is labelled with, as the audio test of the options
   * dialog does.
   */
  lemma DispatchMatchesCatalogue(names: seq<string>, alternative: bool, deviceIndex: int, microphoneIndex: int, sampleRate: int)
    requires 0 < deviceIndex < |Devices.Catalogue(names)|
    ensures var m := Dispatch(false, alternative, deviceIndex, microphoneIndex, sampleRate);
      m.MicrophoneMode? && 0 <= m.config.device < |names| &&
      Devices.Catalogue(names)[deviceIndex] == Devices.MicrophonePrefix + names[m.config.device] &&
      RecordingOptions.TestCaptureFor(deviceIndex) == RecordingOptions.WaveInTest(m.config)
  {
    Devices.CatalogueLabels(names, deviceIndex);
  }

  /** The temporary file a mixed session records one source into: `<dir>\<name>` + suffix. */
  function TempPath(outputFilePath: string, suffix: string): string
  {
    Paths.Combine(Paths.DirectoryName(outputFilePath), Paths.FileNameWithoutExtension(outputFilePath) + suffix)
  }

  const MicSuffix: string := "_mic_temp.wav"
  const SystemSuffix: string := "_system_temp.wav"

  /** What `Paths.Combine(a, b)` puts in front of `b`. */
  function CombinePrefix(a: string, b: string): string
  {
    if a == "" || Paths.IsRooted(b) then ""
    else if b == "" || Paths.IsSeparator(a[|a| - 1]) then a
    else a + "\\"
  }

  /** A joined path is a prefix followed by the joined name. */
  lemma CombineEndsWith(a: string, b: string)
    ensures Paths.Combine(a, b) == CombinePrefix(a, b) + b
  {
  }

  /** Two names that differ k characters from their ends stay apart once joined to one directory. */
  lemma CombinedApart(dir: string, a: string, b: string, k: nat)
    requires 0 < k <= |a| && k <= |b| && a[|a| - k] != b[|b| - k]
    ensures Paths.Combine(dir, a) != Paths.Combine(dir, b)
  {
    var pa := CombinePrefix(dir, a);
    var pb := CombinePrefix(dir, b);
    CombineEndsWith(dir, a);
    CombineEndsWith(dir, b);
    assert (pa + a)[|pa| + |a| - k] == a[|a| - k];
    assert (pb + b)[|pb| + |b| - k] == b[|b| - k];
  }

  /** The two sources of a mixed session never share a temporary file. */
  lemma TempFilesDistinct(outputFilePath: string)
    ensures TempPath(outputFilePath, MicSuffix) != TempPath(outputFilePath, SystemSuffix)
  {
    var stem := Paths.FileNameWithoutExtension(outputFilePath);
    var mic := stem + MicSuffix;
    var sys := stem + SystemSuffix;
    assert mic[|mic| - 13] == MicSuffix[0] == '_';
    assert sys[|sys| - 13] == SystemSuffix[3] == 's';
    CombinedApart(Paths.DirectoryName(outputFilePath), mic, sys, 13);
  }

  // ---------------------------------------------------------------------
  // Stop tracking for a mixed session
  // ---------------------------------------------------------------------

  datatype StopEvent = MicrophoneStop | SystemAudioStop

  /** The two flags and the number of finalizations so far. */
  datatype StopState = StopState(microphoneStopped: bool, systemAudioStopped: bool, finalizations: nat)

  /**
   * One stop handler: set its own flag, and finalize when the other flag is
   * already set and the window still exists.
   */
  function Step(s: StopState, e: StopEvent, formAlive: bool): (r: StopState)
    ensures e == MicrophoneStop ==> r.microphoneStopped && r.systemAudioStopped == s.systemAudioStopped
    ensures e == SystemAudioStop ==> r.systemAudioStopped && r.microphoneStopped == s.microphoneStopped
    ensures r.finalizations == s.finalizations + 1 <==>
      formAlive && (if e == MicrophoneStop then s.systemAudioStopped else s.microphoneStopped)
    ensures r.finalizations == s.finalizations || r.finalizations == s.finalizations + 1
  {
    match e
    case MicrophoneStop =>
      StopState(true, s.systemAudioStopped, s.finalizations + if s.systemAudioStopped && formAlive then 1 else 0)
    case SystemAudioStop =>
      StopState(s.microphoneStopped, true, s.finalizations + if s.microphoneStopped && formAlive then 1 else 0)
  }

  /** The state after stops delivered one at a time, in order, to a live window. */
  function Replay(events: seq<StopEvent>): StopState
  {
    if |events| == 0 then StopState(false, false, 0)
    else Step(Replay(events[..|events| - 1]), events[|events| - 1], true)
  }

  /** How often `e` occurs in `events`. */
  function Occurrences(events: seq<StopEvent>, e: StopEvent): nat
  {
    if |events| == 0 then 0
    else Occurrences(events[..|events| - 1], e) + if events[|events| - 1] == e then 1 else 0
  }

  /**
   * With at most one stop per source, a flag is set exactly when its source
   * has stopped, and the session has been finalized once if both have
   * stopped and never otherwise.
   */
  lemma {:induction false} ReplayFinalizesOnce(events: seq<StopEvent>)
    requires Occurrences(events, MicrophoneStop) <= 1 && Occurrences(events, SystemAudioStop) <= 1
    ensures Replay(events).microphoneStopped <==> Occurrences(events, MicrophoneStop) == 1
    ensures Replay(events).systemAudioStopped <==> Occurrences(events, SystemAudioStop) == 1
    ensures Replay(events).finalizations ==
      if Occurrences(events, MicrophoneStop) == 1 && Occurrences(events, SystemAudioStop) == 1 then 1 else 0
  {
    if |events| > 0 {
      var init := events[..|events| - 1];
      ReplayFinalizesOnce(init);
    }
  }

  /** Either order of the two stops finalizes exactly once, at the second stop. */
  lemma BothOrdersFinalizeOnce()
    ensures Replay([MicrophoneStop]).finalizations == 0 && Replay([SystemAudioStop]).finalizations == 0
    ensures Replay([MicrophoneStop, SystemAudioStop]).finalizations == 1
    ensures Replay([SystemAudioStop, MicrophoneStop]).finalizations == 1
  {
    assert [MicrophoneStop, SystemAudioStop][..1] == [MicrophoneStop];
    assert [SystemAudioStop, MicrophoneStop][..1] == [SystemAudioStop];
  }

  /** The flags are never reset: a repeated stop after both finalizes the session again. */
  lemma RepeatedStopFinalizesAgain()
    ensures Replay([MicrophoneStop, SystemAudioStop, MicrophoneStop]).finalizations == 2
  {
    var es := [MicrophoneStop, SystemAudioStop, MicrophoneStop];
    assert es[..2] == [MicrophoneStop, SystemAudioStop];
    assert es[..2][..1] == [MicrophoneStop];
    assert Replay([MicrophoneStop]) == StopState(true, false, 0);
    assert Replay(es[..2]) == StopState(true, true, 1);
  }

  /**
   * The state captured by the two `RecordingStopped` handlers of one mixed
   * session: the two temp-file writers, the two flags, and the
   * finalizations performed.
   */
  class StopTracker {
    var micWriterOpen: bool
    var systemWriterOpen: bool
    var microphoneStopped: bool
    var systemAudioStopped: bool
    var finalizations: nat

    function State(): StopState
      reads this
    {
      StopState(microphoneStopped, systemAudioStopped, finalizations)
    }

    constructor ()
      ensures State() == Replay([])
      ensures micWriterOpen && systemWriterOpen
    {
      micWriterOpen := true;
      systemWriterOpen := true;
      microphoneStopped := false;
      systemAudioStopped := false;
      finalizations := 0;
    }

    /** The microphone's `RecordingStopped` handler. */
    method MicrophoneStopped(formAlive: bool)
      modifies this
      ensures State() == Step(old(State()), MicrophoneStop, formAlive)
      ensures !micWriterOpen && systemWriterOpen == old(systemWriterOpen)
    {
      micWriterOpen := false;
      microphoneStopped := true;
      if systemAudioStopped {
        if formAlive {
          finalizations := finalizations + 1;
        }
      }
    }

    /** The system audio's `RecordingStopped` handler. */
    method SystemAudioStopped(formAlive: bool)
      modifies this
      ensures State() == Step(old(State()), SystemAudioStop, formAlive)
      ensures !systemWriterOpen && micWriterOpen == old(micWriterOpen)
    {
      systemWriterOpen := false;
      systemAudioStopped := true;
      if microphoneStopped {
        if formAlive {
          finalizations := finalizations + 1;
        }
      }
    }
  }

  // ---------------------------------------------------------------------
  // The recorder window's fields
  // ---------------------------------------------------------------------

  /** Which of the window's capture, writer and buffer fields are non-null. */
  datatype Resources = Resources(
    writer: bool, mixedWriter: bool, waveIn: Option<Devices.WaveInConfig>, loopbackCapture: bool,
    wasapiOut: bool, microphoneWaveIn: Option<Devices.WaveInConfig>, systemAudioCapture: bool,
    silenceProvider: bool, microphoneBuffer: bool, systemAudioBuffer: bool)

  const Released: Resources := Resources(false, false, None, false, false, None, false, false, false, false)

  /** Some capture device is held open. */
  predicate Capturing(r: Resources)
  {
    r.waveIn.Some? || r.loopbackCapture || r.microphoneWaveIn.Some? || r.systemAudioCapture
  }

  /** The fields after a start in the given mode; `ok` says the capture and writer opened without throwing. */
  function ResourcesAfterStart(r: Resources, m: Mode, ok: bool): Resources
  {
    match m
    case MixedMode(cfg) =>
      if ok then r.(microphoneWaveIn := Some(cfg), systemAudioCapture := true)
      else r.(microphoneWaveIn := None, systemAudioCapture := false)
    case Loopback =>
      if ok then r.(loopbackCapture := true, writer := true) else Released
    case AlternativeLoopback =>
      if ok then r.(wasapiOut := true, silenceProvider := true, loopbackCapture := true, writer := true)
      else Released
    case MicrophoneMode(cfg) =>
      if ok then r.(waveIn := Some(cfg), writer := true) else Released
  }

  /** From released fields, a start leaves a capture open exactly when it succeeded. */
  lemma CapturingIffStarted(m: Mode, ok: bool)
    ensures Capturing(ResourcesAfterStart(Released, m, ok)) <==> ok
  {
  }

  /**
   * `isRecording` after a start, as written: the mixed and the alternative
   * start catch their own errors and return normally, so the caller sets
   * the flag even when they failed.
   */
  function RecordingAfterStartAsWritten(m: Mode, ok: bool): (recording: bool)
    ensures ok ==> recording
  {
    ok || m.MixedMode? || m == AlternativeLoopback
  }

  /** A failed mixed start leaves the window recording with no capture open. */
  lemma FailedMixedStartStillRecording(cfg: Devices.WaveInConfig)
    ensures RecordingAfterStartAsWritten(MixedMode(cfg), false)
    ensures !Capturing(ResourcesAfterStart(Released, MixedMode(cfg), false))
  {
  }

  /** `isRecording` after a start, with every failed start reported as not recording. */
  function RecordingAfterStart(m: Mode, ok: bool): bool
  {
    ok
  }

  /** With the corrected flag, the window records exactly when a capture is open. */
  lemma RecordingIffCapturing(m: Mode, ok: bool)
    ensures RecordingAfterStart(m, ok) <==> Capturing(ResourcesAfterStart(Released, m, ok))
  {
    CapturingIffStarted(m, ok);
  }

  class Recorder {
    var useAlternativeMethod: bool
    var mixAudioSources: bool
    var selectedMicrophoneIndex: int
    var selectedDeviceIndex: int
    var sampleRate: int
    var audioDevices: seq<string>
    var outputFilePath: string
    var isRecording: bool
    var isLoopbackMode: bool

    /**
     * The ten nullable capture, writer and buffer fields (`writer`,
     * `mixedWriter`, `waveIn`, ...), held together: `fields.writer` stands
     * for the source's `writer != null`.
     */
    var fields: Resources

    /** The mode the current options select. */
    function CurrentMode(): Mode
      reads this
    {
      Dispatch(mixAudioSources, useAlternativeMethod, selectedDeviceIndex, selectedMicrophoneIndex, sampleRate)
    }

    /** The window over the input devices named `names`; `LoadAudioDevices` selects the system audio. */
    constructor (names: seq<string>)
      ensures audioDevices == Devices.Catalogue(names) && selectedDeviceIndex == 0
      ensures mixAudioSources && !useAlternativeMethod && selectedMicrophoneIndex == -1 && sampleRate == 44100
      ensures fields == Released && !isRecording && !isLoopbackMode && outputFilePath == ""
      ensures CurrentMode() == MixedMode(Devices.WaveInConfig(-1, 44100, 1))
    {
      useAlternativeMethod := false;
      mixAudioSources := true;
      selectedMicrophoneIndex := -1;
      selectedDeviceIndex := 0;
      sampleRate := 44100;
      audioDevices := Devices.Catalogue(names);
      outputFilePath := "";
      isRecording := false;
      isLoopbackMode := false;
      fields := Released;
    }

    /** `UpdateOptions`: take the five options the options dialog confirmed. */
    method UpdateOptions(chosen: RecordingOptions.Chosen)
      modifies this
      ensures useAlternativeMethod == chosen.useAlternativeMethod && mixAudioSources == chosen.mixAudioSources
      ensures selectedMicrophoneIndex == chosen.microphoneIndex && sampleRate == chosen.sampleRate
      ensures selectedDeviceIndex == chosen.deviceIndex
      ensures fields == old(fields) && isRecording == old(isRecording) && audioDevices == old(audioDevices)
      ensures outputFilePath == old(outputFilePath) && isLoopbackMode == old(isLoopbackMode)
    {
      useAlternativeMethod := chosen.useAlternativeMethod;
      mixAudioSources := chosen.mixAudioSources;
      selectedMicrophoneIndex := chosen.microphoneIndex;
      sampleRate := chosen.sampleRate;
      selectedDeviceIndex := chosen.deviceIndex;
    }

    /** `CleanupRecording`: every capture, writer and buffer field becomes null and recording stops. */
    method CleanupRecording()
      modifies this
      ensures fields == Released && !isRecording
      ensures useAlternativeMethod == old(useAlternativeMethod) && mixAudioSources == old(mixAudioSources)
      ensures selectedMicrophoneIndex == old(selectedMicrophoneIndex) && selectedDeviceIndex == old(selectedDeviceIndex)
      ensures sampleRate == old(sampleRate) && audioDevices == old(audioDevices)
      ensures outputFilePath == old(outputFilePath) && isLoopbackMode == old(isLoopbackMode)
    {
      // each field is disposed if set and then nulled; nulling a null field changes nothing
      fields := Released;
      isRecording := false;
    }

    /**
     * `StartRecording` for the path typed into the output box. An empty path
     * changes nothing. Otherwise the mode the options select is started;
     * `ok` says whether its capture and writer opened without throwing.
     */
    method StartRecording(path: string, ok: bool)
      modifies this
      ensures path == "" ==> fields == old(fields) && isRecording == old(isRecording) &&
                             outputFilePath == old(outputFilePath) && isLoopbackMode == old(isLoopbackMode)
      ensures path != "" ==> outputFilePath == path
      ensures path != "" ==> fields == ResourcesAfterStart(old(fields), old(CurrentMode()), ok)
      ensures path != "" ==> isRecording == RecordingAfterStartAsWritten(old(CurrentMode()), ok)
      ensures path != "" && !mixAudioSources ==> isLoopbackMode == (selectedDeviceIndex == 0)
      ensures path != "" && mixAudioSources ==> isLoopbackMode == old(isLoopbackMode)
      ensures useAlternativeMethod == old(useAlternativeMethod) && mixAudioSources == old(mixAudioSources)
      ensures selectedMicrophoneIndex == old(selectedMicrophoneIndex) && selectedDeviceIndex == old(selectedDeviceIndex)
      ensures sampleRate == old(sampleRate) && audioDevices == old(audioDevices)
    {
      if path == "" {
        return;
      }
      outputFilePath := path;
      var mode := CurrentMode();
      if mixAudioSources {
        // StartMixedRecording reports its own failures and returns normally
        if ok {
          fields := fields.(systemAudioCapture := true, microphoneWaveIn := Some(mode.microphone));
        } else {
          fields := fields.(systemAudioCapture := false, microphoneWaveIn := None);
        }
      } else {
        isLoopbackMode := selectedDeviceIndex == 0;
        if isLoopbackMode {
          if useAlternativeMethod {
            // StartAlternativeLoopbackRecording cleans up after a failure and returns normally
            if ok {
              fields := fields.(wasapiOut := true, silenceProvider := true, loopbackCapture := true, writer := true);
            } else {
              CleanupRecording();
            }
          } else {
            if ok {
              fields := fields.(loopbackCapture := true, writer := true);
            } else {
              CleanupRecording();
              return;
            }
          }
        } else {
          if ok {
            fields := fields.(waveIn := Some(mode.config), writer := true);
          } else {
            CleanupRecording();
            return;
          }
        }
      }
      isRecording := true;
    }
  }
}

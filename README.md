# TranscriberApp, modelled in Dafny

TranscriberApp is a Windows desktop tool. It records audio in one of three ways: from a microphone, from
the system output (WASAPI loopback), or from both at once, mixed into one WAV file. It then
transcribes the recording with OpenAI Whisper, either through a Python helper script or through a
bundled `whisper.exe`, and can open the result in Obsidian. The GUI, the audio library (NAudio) and the
child processes are not modelled. This project models the deterministic logic around them:

- the biquad high-pass and low-pass sample filters (`filters.dfy`), as a class that updates its
  history arrays and the caller's buffer in place, proved against a per-channel difference equation;
- the recorder window (`recorder_form.dfy`): the recording-mode dispatch, the two-flag stop tracker of
  mixed recording, the resources `CleanupRecording` releases, and the mix/copy/fallback decision of
  `MixWavFiles` (`mixing.dfy`) together with the conversion plan for each source;
- the device catalogue shared by both windows (`devices.dfy`) and 16-bit PCM decoding (`pcm.dfy`);
- the recording-options dialog (`recording_options.dfy`): the sample-rate and microphone index
  maps, the peak level meter, the audio test, restore defaults and confirm;
- the stand-alone `AudioRecorder` (`audio_recorder.dfy`): its start/stop/clean-up state machine,
  the mean-absolute level and the device list;
- the options dialog and the saved settings (`options_form.dfy`, `settings.dfy`);
- the two transcriber back ends (`whisper_transcriber.dfy`, `transcriber.dfy`): output paths,
  argument strings and how `CommandLineToArgvW`-style splitting reads them back (`commandline.dfy`),
  the fold over the script's JSON messages, and the error order;
- the Python transcription script in its development copy (`script.dfy`) and its published copy
  (`script_publish.dfy`): timestamp and remaining-time formatting, the completion-time estimate,
  the progress messages, the transcribe options and the Markdown header;
- the system requirements check (`requirements.dfy`): the `Python X.Y.Z` version match, the marker
  checks, the order of the checks and the summary text;
- the Obsidian launcher (`obsidian.dfy`): the first-match executable search and the bounded wait.

`wrappers.dfy`, `text.dfy` and `paths.dfy` hold the `Option`/`Result` types, the string operations
the code relies on (`Split`, `Trim`, `AppendLine` with the Windows line break `"\r\n"`, `ToLower`,
decimal rendering) and the `System.IO.Path` operations (`Combine`, `GetFileName`,
`GetDirectoryName`, `GetFileNameWithoutExtension`) with the properties the model needs.

The file system, processes, clocks, the environment and JSON parsing become parameters. Examples: the
set of existing files, a process's exit code and output lines, a function from poll number to "is
Obsidian running", and JSON messages as a datatype with optional fields.

## Model

| member | source | states |
|---|---|---|
| Filters.HighPassCoefficients | TranscriberApp/RecorderForm.cs:42-63 | With a0 = 1 + alpha non-zero the numerator is (c, -2c, c), so it sums to 0 (no gain at DC), and c4 = -2 cos(w0) / a0; with a0 = 0 there are no coefficients |
| Filters.LowPassCoefficients | TranscriberApp/RecorderForm.cs:128-149 | The low-pass numerator is (c, 2c, c), whose alternating sum is 0 (no gain at Nyquist); same a0 and c4 as the high-pass |
| Filters.Biquad.constructor | TranscriberApp/RecorderForm.cs:29-40 | A new filter has 3·channels-slot histories, all zero, and keeps its coefficients |
| Filters.Biquad.Filter | TranscriberApp/RecorderForm.cs:77-93 | One sample touches only the three history slots of its own channel: they shift and the new output is the difference equation with the y[n-2] coefficient fixed at 1 |
| Filters.Biquad.Read | TranscriberApp/RecorderForm.cs:69-100 | Returns the upstream count, writes exactly the filtered samples into buffer[offset..offset+count) and leaves every other cell unchanged; the histories end in the state of the reference run `Run` |
| Filters.Biquad.FilterAt | TranscriberApp/RecorderForm.cs:75-97 | One loop step of `Read`: the reference run advances by one sample and the buffer gains that output in place of the input |
| Filters.Upstream | TranscriberApp/RecorderForm.cs:72 | The upstream source writes its samples at the offset and nothing else |
| Filters.Run | TranscriberApp/RecorderForm.cs:75-97 | The reference run keeps one history per channel and yields one output per input |
| Filters.RunStep | TranscriberApp/RecorderForm.cs:77-96 | Sample n updates only channel n mod C and appends that channel's new output |
| Filters.RunOutput | TranscriberApp/RecorderForm.cs:96 | Output k is fixed once sample k is processed; later samples do not change it |
| Filters.ChannelsIndependent | TranscriberApp/RecorderForm.cs:77-78 | A channel's history depends only on that channel's inputs: two runs that agree on one channel's samples agree on its state |
| Filters.ChannelOutputsIndependent | TranscriberApp/RecorderForm.cs:77-78 | Likewise, the outputs of a channel depend only on that channel's inputs |
| Filters.Untouched | TranscriberApp/RecorderForm.cs:77-78 | Samples of other channels leave a channel's history alone |
| Filters.OneFrame | TranscriberApp/RecorderForm.cs:77-78 | Within one frame of C samples a channel's history changes only at its own sample |
| Filters.InterleavedRecurrence | TranscriberApp/RecorderForm.cs:81-96 | On interleaved input, out[k] = c0·in[k] + c1·in[k-C] + c2·in[k-2C] - c4·out[k-C] - out[k-2C] |
| Filters.SilenceStaysSilent | TranscriberApp/RecorderForm.cs:65-66 | From zeroed histories, silence in gives silence out and leaves the histories zero |
| Filters.Layout | TranscriberApp/RecorderForm.cs:65-66 | The flat xv/yv arrays read as one history per channel at slots 3·ch .. 3·ch+2 |
| Filters.LayoutUpdate | TranscriberApp/RecorderForm.cs:81-93 | Writing the three slots of channel ch changes that channel's history and no other |
| Mixing.MixWavFiles | TranscriberApp/RecorderForm.cs:831-970 | Mixed iff both temp files exist, not both under 100 bytes, and the pipeline does not throw; neither file, both tiny, a failed copy and a failed mix-and-fallback are the distinct errors |
| Mixing.Fallback | TranscriberApp/RecorderForm.cs:944-958 | After a failed mix the microphone file is chosen iff it is larger and over 1000 bytes, else the system file iff it is over 1000 bytes, else none |
| Mixing.OnlyFileCopied | TranscriberApp/RecorderForm.cs:839-856 | When exactly one temp file exists and the copy succeeds, that file is copied, whatever the sizes and whether or not the pipeline would throw |
| Mixing.MixedDespiteTinyFile | TranscriberApp/RecorderForm.cs:869-872 | A tiny file does not stop mixing when the other is at least 100 bytes |
| Mixing.FallbackPrefersLarger | TranscriberApp/RecorderForm.cs:944-958 | A fallback copy is always of a file over 1000 bytes that is at least as large as the other |
| Mixing.MicPlan | TranscriberApp/RecorderForm.cs:892-910 | The microphone gets volume 0.8, is made stereo iff mono, and is never resampled |
| Mixing.SystemPlan | TranscriberApp/RecorderForm.cs:892-920 | System audio gets volume 0.8, is never channel-converted, and is resampled to the chosen rate iff its rate differs |
| Mixing.PlanReachesCommonFormat | TranscriberApp/RecorderForm.cs:885-920 | A mono microphone at the chosen rate and stereo system audio both reach the common stereo format |
| Devices.Catalogue | TranscriberApp/RecorderForm.cs:234-251 | The catalogue has one entry more than there are input devices |
| Devices.EntryAt | TranscriberApp/RecordingOptionsForm.cs:159-173 | Index 0, and no other index, denotes the system audio; with the round trips below, index k ≠ 0 denotes input device k - 1 |
| Devices.IndexRoundTrip | TranscriberApp/RecordingOptionsForm.cs:159-173 | index → entry → index is the identity |
| Devices.EntryRoundTrip | TranscriberApp/RecordingOptionsForm.cs:159-173 | entry → index → entry is the identity |
| Devices.CatalogueLabels | TranscriberApp/RecordingOptionsForm.cs:107-119 | Each catalogue label is that entry's label, and labels carry the "Mikrofon: " prefix exactly from index 1 on |
| RecorderForm.Dispatch | TranscriberApp/RecorderForm.cs:336-398 | The mix flag wins; otherwise index 0 is loopback (the alternative method iff chosen) and index k > 0 opens device k - 1 at 44100 Hz mono; mixed mode opens the selected microphone unshifted at the chosen rate |
| RecorderForm.DispatchMatchesCatalogue | TranscriberApp/RecorderForm.cs:396-398 | The device the recorder opens is the one the catalogue label names and the one the audio test opens |
| RecorderForm.TempFilesDistinct | TranscriberApp/RecorderForm.cs:480-483 | The microphone and system temp files never share a path |
| RecorderForm.Step | TranscriberApp/RecorderForm.cs:612-678 | A stop sets its own flag and finalizes iff the other flag is already set and the form is alive |
| RecorderForm.ReplayFinalizesOnce | TranscriberApp/RecorderForm.cs:609-678 | With at most one stop per source, each flag is set iff its source stopped, and finalization happens once iff both stopped, otherwise never |
| RecorderForm.BothOrdersFinalizeOnce | TranscriberApp/RecorderForm.cs:609-678 | Either arrival order finalizes once, after the second stop |
| RecorderForm.RepeatedStopFinalizesAgain | TranscriberApp/RecorderForm.cs:612-678 | The flags are never cleared, so a repeated stop finalizes a second time |
| RecorderForm.StopTracker.constructor | TranscriberApp/RecorderForm.cs:609-610 | Both flags start false, no finalization, both writers open |
| RecorderForm.StopTracker.MicrophoneStopped | TranscriberApp/RecorderForm.cs:612-644 | The microphone handler disposes its writer and takes one tracker step |
| RecorderForm.StopTracker.SystemAudioStopped | TranscriberApp/RecorderForm.cs:646-678 | The system handler disposes its writer and takes one tracker step |
| RecorderForm.CapturingIffStarted | TranscriberApp/RecorderForm.cs:324-435 | After a start from released resources, a capture is held iff the start succeeded |
| RecorderForm.RecordingAfterStartAsWritten | TranscriberApp/RecorderForm.cs:336-421 | As written, a successful start always leaves the window recording |
| RecorderForm.FailedMixedStartStillRecording | TranscriberApp/RecorderForm.cs:336-338 | As written, a failed mixed start leaves the window recording with no capture held |
| RecorderForm.RecordingIffCapturing | TranscriberApp/RecorderForm.cs:421 | With the corrected flag, the window is recording iff it holds a capture |
| RecorderForm.Recorder.constructor | TranscriberApp/RecorderForm.cs:196-251 | A new window lists the catalogue, selects the system audio, mixes by default at 44100 Hz and holds nothing |
| RecorderForm.Recorder.UpdateOptions | TranscriberApp/RecorderForm.cs:283-293 | The five options are stored and nothing else changes |
| RecorderForm.Recorder.CleanupRecording | TranscriberApp/RecorderForm.cs:1212-1285 | Every capture, writer and buffer field is released and recording stops; the options are kept |
| RecorderForm.Recorder.StartRecording | TranscriberApp/RecorderForm.cs:324-435 | An empty path changes nothing; otherwise the resources are those of the dispatched mode and the recording flag follows the code as written |
| RecordingOptions.RateToIndex | TranscriberApp/RecordingOptionsForm.cs:47-53 | Every rate maps to one of the three combo positions, and a rate not offered maps to 0 |
| RecordingOptions.IndexToRate | TranscriberApp/RecordingOptionsForm.cs:326-331 | Positions 0..2 select an offered rate; any other position selects nothing |
| RecordingOptions.RateRoundTrip | TranscriberApp/RecordingOptionsForm.cs:47-53 | rate → index → rate is the identity on the offered rates and gives 44100 otherwise |
| RecordingOptions.IndexRoundTrip | TranscriberApp/RecordingOptionsForm.cs:326-331 | index → rate → index is the identity on the three positions |
| RecordingOptions.FixMicrophoneValid | TranscriberApp/RecordingOptionsForm.cs:80-88 | A valid stored microphone is kept, an invalid one becomes 0 when there are microphones, and nothing changes without microphones |
| RecordingOptions.FixMicrophoneIdempotent | TranscriberApp/RecordingOptionsForm.cs:80-88 | Loading the list twice selects what loading it once does |
| RecordingOptions.HasMinValueExtend | TranscriberApp/RecordingOptionsForm.cs:226-229 | One more sample finds -32768 iff it is that sample or one was found before |
| RecordingOptions.HasMinValueGrows | TranscriberApp/RecordingOptionsForm.cs:226-229 | A -32768 found early stays found |
| RecordingOptions.MaxAbs | TranscriberApp/RecordingOptionsForm.cs:225-230 | The running peak never exceeds 32768 |
| RecordingOptions.MaxAbsIsPeak | TranscriberApp/RecordingOptionsForm.cs:225-230 | The peak bounds every sample's magnitude and is attained by one of them (or is 0) |
| RecordingOptions.MaxAbsFullScale | TranscriberApp/RecordingOptionsForm.cs:225-233 | The peak is 32768 iff some sample is -32768 |
| RecordingOptions.LevelAsWritten | TranscriberApp/RecordingOptionsForm.cs:222-243 | As written, a level is stored iff the samples fit and none is -32768; it is then at most 99 |
| RecordingOptions.LevelBounds | TranscriberApp/RecordingOptionsForm.cs:225-233 | The corrected level lies in [0, 100], bounds every sample's scaled magnitude, and is 100 iff a sample is -32768 |
| RecordingOptions.AsWrittenAgrees | TranscriberApp/RecordingOptionsForm.cs:222-237 | Without a -32768 sample the code as written stores the corrected level |
| RecordingOptions.MinValueSampleIsDropped | TranscriberApp/RecordingOptionsForm.cs:228 | A single -32768 sample makes the handler store nothing, where the level should be 100 |
| RecordingOptions.ScanPeak | TranscriberApp/RecordingOptionsForm.cs:222-237 | The scan loop with its running maximum computes the as-written level |
| RecordingOptions.LevelMeter.constructor | TranscriberApp/RecordingOptionsForm.cs:275 | The stored level and the bar start at 0 |
| RecordingOptions.LevelMeter.DataAvailable | TranscriberApp/RecordingOptionsForm.cs:218-272 | A non-empty chunk without -32768 stores its level; an empty chunk or a -32768 sample keeps the old one |
| RecordingOptions.LevelMeter.Tick | TranscriberApp/RecordingOptionsForm.cs:278-288 | The bar shows min(level, 100), which equals the level since it never exceeds 100 |
| RecordingOptions.LevelMeter.Reset | TranscriberApp/RecordingOptionsForm.cs:209 | Stopping the test zeroes the bar and keeps the stored level |
| RecordingOptions.TestCaptureFor | TranscriberApp/RecordingOptionsForm.cs:159-176 | The audio test uses loopback for index 0 and input device k - 1 at 44100 Hz mono for index k > 0 |
| RecordingOptions.RecordingOptionsForm.constructor | TranscriberApp/RecordingOptionsForm.cs:24-62 | The dialog takes the recorder's options, fixes the microphone selection, and shows an unknown rate as 44100, which the combo handler then stores |
| RecordingOptions.RecordingOptionsForm.LoadMicrophones | TranscriberApp/RecordingOptionsForm.cs:65-88 | The list is reloaded and the selection fixed up; nothing else changes |
| RecordingOptions.RecordingOptionsForm.SelectSampleRate | TranscriberApp/RecordingOptionsForm.cs:324-332 | A combo position selects its rate and nothing else changes |
| RecordingOptions.RecordingOptionsForm.SelectDevice | TranscriberApp/RecordingOptionsForm.cs:133-136 | The device property follows the combo and nothing else changes |
| RecordingOptions.RecordingOptionsForm.SetMixAudio | TranscriberApp/RecordingOptionsForm.cs:290-312 | Mixing follows the check box, the microphone group is visible iff it is checked, and checking it reloads the microphones |
| RecordingOptions.RecordingOptionsForm.RestoreDefaults | TranscriberApp/RecordingOptionsForm.cs:334-358 | Alternative off, microphone 0, 44100 Hz, device 0, and the combos at 0 when non-empty |
| RecordingOptions.RecordingOptionsForm.StartAudioTest | TranscriberApp/RecordingOptionsForm.cs:154-185 | A test that opens holds the capture for the selected device; one that fails changes nothing |
| RecordingOptions.RecordingOptionsForm.StopAudioTest | TranscriberApp/RecordingOptionsForm.cs:188-215 | The test capture is released, the test flag cleared and the bar zeroed |
| RecordingOptions.RecordingOptionsForm.ToggleAudioTest | TranscriberApp/RecordingOptionsForm.cs:139-151 | The button stops a running test and otherwise starts one |
| RecordingOptions.RecordingOptionsForm.Confirm | TranscriberApp/RecordingOptionsForm.cs:363-382 | OK stops any test and hands back the five options unchanged, with an offered sample rate |
| Pcm.Int16At | TranscriberApp/AudioRecorder.cs:202 | A little-endian 16-bit sample lies in [-32768, 32767], is negative iff the high byte's top bit is set, and keeps the low byte |
| Pcm.DecodeEncode | TranscriberApp/AudioRecorder.cs:202 | Encoding a sample and decoding it gives it back |
| Pcm.EncodeDecode | TranscriberApp/AudioRecorder.cs:202 | Decoding two bytes and encoding them gives them back |
| AudioRecorder.Quotient | TranscriberApp/AudioRecorder.cs:208 | The float division sum / count: finite iff count > 0, NaN for 0/0 |
| AudioRecorder.Magnitude | TranscriberApp/AudioRecorder.cs:202-204 | |sample| / 32768 lies in [0, 1] and is 1 iff the sample is -32768 |
| AudioRecorder.SumAbs | TranscriberApp/AudioRecorder.cs:198-205 | The running sum over k samples lies in [0, k] |
| AudioRecorder.MeanLevel | TranscriberApp/AudioRecorder.cs:194-209 | The level is finite iff at least two bytes were recorded; it is NaN for 0 bytes, or for 1 byte whose sample (read with the byte after it) is 0 |
| AudioRecorder.LevelInUnitInterval | TranscriberApp/AudioRecorder.cs:196-208 | For an even byte count of at least 2 the level is the mean magnitude and lies in [0, 1] |
| AudioRecorder.OddCountOvershoots | TranscriberApp/AudioRecorder.cs:197-208 | With an odd byte count the loop reads one more sample than it divides by, so the level can reach 2 |
| AudioRecorder.CalculateLevel | TranscriberApp/AudioRecorder.cs:194-209 | The accumulating loop computes the mean level |
| AudioRecorder.GetRecordingDevices | TranscriberApp/AudioRecorder.cs:128-140 | The array has one entry per device, entry i being device i's product name |
| AudioRecorder.Cleaned | TranscriberApp/AudioRecorder.cs:174-189 | Clean-up leaves the recorder consistent and not recording |
| AudioRecorder.Start | TranscriberApp/AudioRecorder.cs:54-100 | Starting while recording changes nothing and returns false; otherwise success records into a fresh file from the given device, and failure cleans up |
| AudioRecorder.Stop | TranscriberApp/AudioRecorder.cs:106-122 | Stopping returns false when idle and otherwise requests the device stop without clearing the recording flag |
| AudioRecorder.DataAvailable | TranscriberApp/AudioRecorder.cs:145-156 | A chunk is written and its level raised only while the writer is open |
| AudioRecorder.DeliverAppends | TranscriberApp/AudioRecorder.cs:145-156 | A run of chunks writes their concatenation and raises one level each |
| AudioRecorder.Session | TranscriberApp/AudioRecorder.cs:54-189 | Start, chunks, stop and the stop event leave the file holding exactly the recorded bytes and the recorder idle |
| AudioRecorder.CleanupIdempotent | TranscriberApp/AudioRecorder.cs:174-189 | Cleaning up twice is cleaning up once |
| AudioRecorder.Recorder.constructor | TranscriberApp/AudioRecorder.cs:43-46 | A new recorder is idle with nothing open |
| AudioRecorder.Recorder.CleanupRecording | TranscriberApp/AudioRecorder.cs:161-189 | The fields take the cleaned-up state (also the whole effect of the stop event) |
| AudioRecorder.Recorder.StartRecording | TranscriberApp/AudioRecorder.cs:54-100 | The fields and result follow `Start` |
| AudioRecorder.Recorder.StopRecording | TranscriberApp/AudioRecorder.cs:106-122 | The fields and result follow `Stop` |
| AudioRecorder.Recorder.OnDataAvailable | TranscriberApp/AudioRecorder.cs:145-156 | The fields follow `DataAvailable` |
| AudioRecorder.Recorder.Dispose | TranscriberApp/AudioRecorder.cs:229-233 | Dispose stops and then disposes the cancellation source |
| OptionsForm.LanguageIndex | TranscriberApp/OptionsForm.cs:54-75 | A known code in any case maps to its position; an unknown code maps to 0 |
| OptionsForm.LanguageCode | TranscriberApp/OptionsForm.cs:97-112 | Positions 0..8 give pl, en, de, fr, es, it, ru, uk, cs and any other position gives "pl" |
| OptionsForm.ModelSizeIndex | TranscriberApp/OptionsForm.cs:77-94 | A known size in any case maps to its position; an unknown size maps to 3 |
| OptionsForm.ModelSize | TranscriberApp/OptionsForm.cs:114-125 | Positions 0..4 give tiny, base, small, medium, large and any other position gives "medium" |
| OptionsForm.TablesAreLowerCase | TranscriberApp/OptionsForm.cs:57-86 | The switch labels are lower case, so lower-casing the input matches them |
| OptionsForm.LanguageRoundTrip | TranscriberApp/OptionsForm.cs:54-112 | code → index → code lower-cases known codes and gives "pl" otherwise; index → code → index is the identity |
| OptionsForm.ModelSizeRoundTrip | TranscriberApp/OptionsForm.cs:77-125 | size → index → size lower-cases known sizes and gives "medium" otherwise; index → size → index is the identity |
| OptionsForm.CaseIsIgnored | TranscriberApp/OptionsForm.cs:57 | Every spelling of a code or size ("EN", "Large") selects what its lower-case form selects |
| OptionsForm.Select | TranscriberApp/OptionsForm.cs:71-74 | A computed index is applied only when it is below the item count |
| OptionsForm.Open | TranscriberApp/OptionsForm.cs:13-28 | The dialog shows the positions of the given language and model size |
| OptionsForm.RestoreDefaults | TranscriberApp/OptionsForm.cs:161-180 | Declining the confirmation changes nothing |
| OptionsForm.OpenConfirm | TranscriberApp/OptionsForm.cs:13-28 | Opening and confirming hands back the normalised language and size and the two flags |
| OptionsForm.RestoreThenConfirm | TranscriberApp/OptionsForm.cs:161-180 | Restoring selects positions 0 and 3, high quality off and punctuation on, and confirming then yields the settings defaults |
| Settings.Deserialize | TranscriberApp/AppSettings.cs:19-28 | A property missing from the JSON takes its default: "pl", "medium", false, true |
| Settings.Serialize | TranscriberApp/AppSettings.cs:80 | Saving writes all four properties |
| Settings.Loaded | TranscriberApp/AppSettings.cs:34-63 | A missing or unreadable file, or JSON `null`, gives the defaults; otherwise the stored values |
| Settings.Saved | TranscriberApp/AppSettings.cs:68-88 | A failed write leaves the file as it was; otherwise it holds the serialized settings |
| Settings.SaveLoadRoundTrip | TranscriberApp/AppSettings.cs:34-88 | Loading what was saved gives the saved values |
| Settings.EmptyObjectIsDefaults | TranscriberApp/AppSettings.cs:25-28 | An empty JSON object and the saved defaults both load as the defaults |
| Settings.AppSettings.constructor | TranscriberApp/AppSettings.cs:25-28 | A new instance holds the defaults |
| Settings.AppSettings.RestoreDefaults | TranscriberApp/AppSettings.cs:93-99 | Afterwards the instance equals a new one |
| Settings.AppSettings.Save | TranscriberApp/AppSettings.cs:68-88 | The file afterwards is the saved one, and a successful save loads back as the current values |
| Settings.Load | TranscriberApp/AppSettings.cs:34-63 | Load returns a new instance holding the loaded values |
| CommandLine.ArgvRender | TranscriberApp/WhisperTranscriber.cs:88 | Under the C runtime's quote and backslash rules, splitting a rendered argument string gives back each argument's value, when no argument holds a quote, bare ones hold no space and quoted ones do not end in a backslash (doubled ones may) |
| CommandLine.ArgvAppend | TranscriberApp/Transcriber.cs:107-122 | Arguments that pass come back first, whatever arguments follow them |
| CommandLine.TrailingBackslashMerges | TranscriberApp/Transcriber.cs:107 | A quoted argument ending in a backslash escapes its closing quote and runs on through the space into the next quoted argument, which is not received on its own |
| CommandLine.BareSpaceSplits | TranscriberApp/Transcriber.cs:38 | An unquoted argument with a space comes back as two arguments |
| CommandLine.RenderAppend | TranscriberApp/Transcriber.cs:107-122 | Rendering a concatenation is rendering the parts joined by one space |
| CommandLine.AppendPasses | TranscriberApp/Transcriber.cs:107-122 | Well-formed argument lists stay well formed when joined, and their values concatenate |
| WhisperTranscriber.Create | TranscriberApp/WhisperTranscriber.cs:28-40 | A script path the caller gives is used as is |
| WhisperTranscriber.DefaultScriptPath | TranscriberApp/WhisperTranscriber.cs:35 | Without one, the script is `whisper_transcribe.py` directly in `<base directory>\PythonScripts` |
| WhisperTranscriber.OutputPathNamesAudio | TranscriberApp/WhisperTranscriber.cs:61-62 | The output is `<audio name>.md`; for an output directory written as `GetDirectoryName` writes one, it lies directly in it (a bare drive `X:` giving `X:\`) |
| WhisperTranscriber.AsyncArgv | TranscriberApp/WhisperTranscriber.cs:88 | The async arguments split into script, audio, `--output`, output path, `--model`, size |
| WhisperTranscriber.FoldAppend | TranscriberApp/WhisperTranscriber.cs:100-135 | Progress values are forwarded in arrival order, and a later `output_path` replaces an earlier one |
| WhisperTranscriber.NonJsonIgnored | TranscriberApp/WhisperTranscriber.cs:130-134 | A line that is not JSON changes neither the progress nor the path |
| WhisperTranscriber.FoldStdout | TranscriberApp/WhisperTranscriber.cs:100-135 | The handler's loop computes the forwarded progress values and the last reported path |
| WhisperTranscriber.TranscribeAsync | TranscriberApp/WhisperTranscriber.cs:47-170 | Missing audio, then a missing script, then a non-zero exit (with the stderr text), then a missing result file are the errors, in that order; success returns the reported path, or the default one when none was reported |
| WhisperTranscriber.ReportedPathWins | TranscriberApp/WhisperTranscriber.cs:118-122 | The last `output_path` the script reports is the result when that file exists |
| WhisperTranscriber.FlagOption | TranscriberApp/WhisperTranscriber.cs:189-190 | A missing flag is false, a boolean flag is its value, and any other value is a failed cast |
| WhisperTranscriber.ToText | TranscriberApp/WhisperTranscriber.cs:188 | `ToString()` of an option value: a string is itself and a boolean is "True" or "False" |
| WhisperTranscriber.ExtractOptions | TranscriberApp/WhisperTranscriber.cs:188-190 | The language defaults to "pl", a `null` language fails, and the flags are read as above |
| WhisperTranscriber.BuildAudioFileArguments | TranscriberApp/WhisperTranscriber.cs:193-205 | The `+=` steps produce the rendered argument list |
| WhisperTranscriber.AudioFileArgv | TranscriberApp/WhisperTranscriber.cs:193-205 | The arguments split into script, audio, `--model` M, `--language` L, then `--best_of 5 --beam_size 5` iff high quality, then `--punctuation` iff punctuation |
| WhisperTranscriber.TranscribeAudioFile | TranscriberApp/WhisperTranscriber.cs:174-216 | Success iff audio and script exist, the options are well typed and the exit code is 0; the text is the trimmed output; a non-zero exit reports the stderr text |
| WhisperTranscriber.TranscriptIsTrimmed | TranscriberApp/WhisperTranscriber.cs:276 | The returned transcript has no surrounding white space |
| Transcriber.InstallLayout | TranscriberApp/Transcriber.cs:15-23 | whisper.exe and medium.pt sit in the install layout, the model in the models directory |
| Transcriber.Installed | TranscriberApp/Transcriber.cs:173-181 | Each installation check is existence of its file |
| Transcriber.Flag | TranscriberApp/Transcriber.cs:98-99 | A flag holds iff the key is present with the boolean value true; any other value reads as false |
| Transcriber.ExtractOptions | TranscriberApp/Transcriber.cs:97-99 | The language is the given string, "pl" when missing or null; the flags as above |
| Transcriber.ExtractionsAgree | TranscriberApp/Transcriber.cs:97-99 | Wherever the script back end accepts the options, both back ends read them alike |
| Transcriber.OutputPathBesideAudio | TranscriberApp/Transcriber.cs:102-104 | For every audio path, the transcript is `<audio name>_transkrypcja.txt` in the audio's directory: a drive root such as `C:\` is kept, and a bare drive `C:` becomes its root `C:\` |
| Transcriber.BuildArguments | TranscriberApp/Transcriber.cs:107-122 | The `+=` steps produce the rendered argument list, in the code's order |
| Transcriber.ArgumentListShape | TranscriberApp/Transcriber.cs:107-122 | The list is `--model` path, `--language` L, `--output_dir` "dir", the quality flags iff high quality, `--punctuation` iff punctuation, and the quoted audio path last |
| Transcriber.PlainIsNoOptions | TranscriberApp/Transcriber.cs:33-38 | The plain call builds the argument list of an empty option map, whose language is "pl" |
| Transcriber.OptionsPass | TranscriberApp/Transcriber.cs:107-122 | Everything after the model path splits back into the intended arguments: always with final backslashes doubled, and as written when the output directory and audio path do not end in a backslash |
| Transcriber.QuotedArgv | TranscriberApp/Transcriber.cs:107 | With every path quoted and its final backslashes doubled, the whole string splits into the intended arguments for any audio path, a drive root included |
| Transcriber.DriveRootSwallowsAudio | TranscriberApp/Transcriber.cs:107-122 | As written, audio at a drive root makes `--output_dir` receive `X:" X:\name` and no audio argument follow; the corrected list delivers `X:\` and the audio path |
| Transcriber.SpaceRendersAsTwo | TranscriberApp/Transcriber.cs:107 | An unquoted path with a space renders like two arguments |
| Transcriber.UnquotedModelPathSplits | TranscriberApp/Transcriber.cs:38 | As written, a model path with a space splits into two arguments, one more than intended |
| Transcriber.ProgressReports | TranscriberApp/Transcriber.cs:135-145 | One progress report per non-empty line: all lines iff none is empty, none iff all are |
| Transcriber.ReportsAppend | TranscriberApp/Transcriber.cs:135-145 | Reports over concatenated output add up |
| Transcriber.Transcribe | TranscriberApp/Transcriber.cs:25-87 | Missing audio, a missing program, a non-zero exit and a missing transcript are the errors in that order; success returns the transcript path |
| Transcriber.TranscriptBesideAudio | TranscriberApp/Transcriber.cs:33-35 | A returned transcript lies in the audio's directory (its root, for a file at a drive root) and is named after it |
| Script.Mod60 | TranscriberApp/PythonScripts/whisper_transcribe.py:150 | Python's `s % 60` on floats lies in [0, 60) |
| Script.TimestampParts | TranscriberApp/PythonScripts/whisper_transcribe.py:147-150 | Minutes and seconds recombine to the whole seconds, with seconds below 60 |
| Script.FormatTimestamp | TranscriberApp/PythonScripts/whisper_transcribe.py:147-151 | Under 100 minutes the stamp is five characters MM:SS |
| Script.TimestampReadsBack | TranscriberApp/PythonScripts/whisper_transcribe.py:147-151 | The two digit pairs read back as the whole seconds |
| Script.TranscribeOptions | TranscriberApp/PythonScripts/whisper_transcribe.py:86-89 | The options hold language and task; the language is None iff "auto" and otherwise passes through; the task is "transcribe" |
| Script.CheckDependencies | TranscriberApp/PythonScripts/whisper_transcribe.py:32-46 | A library is listed iff it fails to import, whisper first |
| Script.MissingDepsError | TranscriberApp/PythonScripts/whisper_transcribe.py:63-67 | The error record lists the missing libraries and ends with the install command |
| Script.InstallCommandNamesMissing | TranscriberApp/PythonScripts/whisper_transcribe.py:65 | The words after "pip install " are exactly the missing libraries |
| Script.TranscribeAudio | TranscriberApp/PythonScripts/whisper_transcribe.py:48-145 | A path is returned iff nothing is missing and no stage fails; missing libraries give a single error record; a failure at a stage gives that stage's messages and an error |
| Script.ProgressValuesAppend | TranscriberApp/PythonScripts/whisper_transcribe.py:72-136 | Progress values of consecutive messages concatenate |
| Script.PhaseValues | TranscriberApp/PythonScripts/whisper_transcribe.py:72-136 | The phases report 0; 10, 20; 90; 100 |
| Script.BeforeValues | TranscriberApp/PythonScripts/whisper_transcribe.py:72-99 | A run that fails at a stage has reported the values before it |
| Script.RunValues | TranscriberApp/PythonScripts/whisper_transcribe.py:48-145 | Every run reports a prefix of 0, 10, 20, 90, 100 |
| Script.ProgressSequence | TranscriberApp/PythonScripts/whisper_transcribe.py:72-136 | The reported values strictly increase, and reach 100 iff the run returns a path |
| Script.LastMessage | TranscriberApp/PythonScripts/whisper_transcribe.py:136-145 | The last message is "completed" with the path on success and an error otherwise |
| Script.RunScript | TranscriberApp/PythonScripts/whisper_transcribe.py:153-175 | The exit status is 0 iff whisper and torch import, and then the output is the transcription's |
| Script.ScriptNeverReportsMissingDeps | TranscriberApp/PythonScripts/whisper_transcribe.py:153-170 | Once main passes its import check, no missing-library record appears |
| Script.DefaultOutputNamesAudio | TranscriberApp/PythonScripts/whisper_transcribe.py:103-107 | The default output is `<audio stem>.md` in the transcriptions directory two levels above the script |
| Script.Header | TranscriberApp/PythonScripts/whisper_transcribe.py:112-116 | The header has title, file, model, language and date lines, with no punctuation or quality line |
| Script.SegmentLines | TranscriberApp/PythonScripts/whisper_transcribe.py:128-133 | One line per segment, with both stamps and the trimmed text |
| Script.Body | TranscriberApp/PythonScripts/whisper_transcribe.py:118-133 | The detected-language line comes first iff a language was detected; the trimmed text always appears; the segment section appears iff there are segments and ends with their lines |
| PublishScript.Trunc | TranscriberApp/publish/PythonScripts/whisper_transcribe.py:119 | Python's `int()` truncates toward zero |
| PublishScript.SpeedFactor | TranscriberApp/publish/PythonScripts/whisper_transcribe.py:89-108 | Factors are positive, and an unknown model gives 1.0 |
| PublishScript.EstimateCompletionTime | TranscriberApp/publish/PythonScripts/whisper_transcribe.py:82-114 | The estimate is max(5, duration · factor) |
| PublishScript.LargerModelsSlower | TranscriberApp/publish/PythonScripts/whisper_transcribe.py:89-104 | On each device a larger model has a strictly larger factor |
| PublishScript.CudaNoSlower | TranscriberApp/publish/PythonScripts/whisper_transcribe.py:89-114 | The cuda estimate never exceeds the estimate for another device |
| PublishScript.EstimateMonotone | TranscriberApp/publish/PythonScripts/whisper_transcribe.py:111-114 | A longer recording never gets a shorter estimate |
| PublishScript.Mod3600 | TranscriberApp/publish/PythonScripts/whisper_transcribe.py:126 | Python's `s % 3600` on floats lies in [0, 3600) |
| PublishScript.FormatTimeRemaining | TranscriberApp/publish/PythonScripts/whisper_transcribe.py:116-127 | Three branches at 60 and 3600; seconds below 60, minutes 1..59 in the middle branch, minutes below 60 in the hours branch, and each recombines to the whole seconds (hours to whole minutes) |
| PublishScript.ProgressDuring | TranscriberApp/publish/PythonScripts/whisper_transcribe.py:231-232 | The clamped progress is at most 90, at least 20 for elapsed ≥ 0, and exactly 90 once the estimate has passed |
| PublishScript.ProgressNeverDecreases | TranscriberApp/publish/PythonScripts/whisper_transcribe.py:161-293 | With the estimate as divisor the reported values 0, 10, 20, p, 90, 100 never decrease |
| PublishScript.SpeedRatio | TranscriberApp/publish/PythonScripts/whisper_transcribe.py:298 | The ratio times the total time is the duration when the total is positive, and 0 otherwise |
| PublishScript.TranscribeOptions | TranscriberApp/publish/PythonScripts/whisper_transcribe.py:200-209 | The base options, plus best_of iff it exceeds 1 and beam_size iff it exceeds 1, and no other key |
| PublishScript.Header | TranscriberApp/publish/PythonScripts/whisper_transcribe.py:260-269 | The punctuation line appears iff punctuation is on, the quality line iff best_of or beam_size exceeds 1, and the processing time comes last |
| PublishScript.HeaderExtendsDevelopment | TranscriberApp/publish/PythonScripts/whisper_transcribe.py:260-269 | Without the optional lines the header is the development header plus the processing-time line |
| Requirements.MatchVersion | TranscriberApp/SystemRequirements.cs:47-50 | The leftmost `Python X.Y.Z` match yields a three-number version, the one captured where the first match starts; no match iff none starts anywhere |
| Requirements.LeftmostMatch | TranscriberApp/SystemRequirements.cs:47-50 | Whatever precedes it in the output (a warning line, say), the version captured at the leftmost match is the one reported |
| Requirements.FirstMatch | TranscriberApp/SystemRequirements.cs:47 | The match position is the first one at which the pattern matches |
| Requirements.VersionAt | TranscriberApp/SystemRequirements.cs:47 | What the pattern captures at a position is always three dot-separated digit runs |
| Requirements.DigitsEnd | TranscriberApp/SystemRequirements.cs:47 | `\d+` is greedy: the run ends at the first non-digit |
| Requirements.CheckPython | TranscriberApp/SystemRequirements.cs:20-61 | A version iff the probe ran and exited 0: exactly the version the match captured, or the whole trimmed output when nothing matches |
| Requirements.ReportedVersion | TranscriberApp/SystemRequirements.cs:32-50 | The output line `Python x.y.z` reports "x.y.z" |
| Requirements.CheckWhisper | TranscriberApp/SystemRequirements.cs:68-97 | Whisper counts as installed only after a run that exited 0 |
| Requirements.CheckCuda | TranscriberApp/SystemRequirements.cs:104-139 | CUDA counts as available only after a run that exited 0 |
| Requirements.MarkersDetected | TranscriberApp/SystemRequirements.cs:91-130 | A line containing the marker makes a successful probe report it |
| Requirements.SummaryContents | TranscriberApp/SystemRequirements.cs:206-233 | The summary has 4 to 7 lines: heading, Python, the version line iff installed with a version, Whisper, CUDA, the Python hint iff not installed, the Whisper hint and pip line iff Python is installed without Whisper |
| Requirements.Appended | TranscriberApp/SystemRequirements.cs:210-229 | Each AppendLine adds the line's text and "\r\n" |
| Requirements.LineShown | TranscriberApp/SystemRequirements.cs:206-233 | Every summary line's text appears in the summary string |
| Requirements.RequirementsCheckResult.constructor | TranscriberApp/SystemRequirements.cs:181-201 | A new result has every flag false and no version |
| Requirements.RequirementsCheckResult.GetSummary | TranscriberApp/SystemRequirements.cs:206-233 | The builder's conditional appends produce the rendered summary lines |
| Requirements.CheckAllRequirements | TranscriberApp/SystemRequirements.cs:146-164 | Python is installed iff its probe succeeded; Whisper and CUDA are probed only then and stay false otherwise |
| Requirements.HintIffUnmet | TranscriberApp/SystemRequirements.cs:171-175 | The summary shows an install hint iff the minimum requirements (Python and Whisper) are not met |
| Requirements.CheckedVersionShown | TranscriberApp/SystemRequirements.cs:151-152 | The summary of a check shows the version line iff the version probe succeeded |
| Obsidian.PossiblePaths | TranscriberApp/ObsidianController.cs:17-29 | There are eight candidate locations |
| Obsidian.InstallFolderNamesExecutable | TranscriberApp/ObsidianController.cs:19-26 | A location under an install folder names Obsidian.exe |
| Obsidian.ProfileFolderNamesExecutable | TranscriberApp/ObsidianController.cs:21-22 | A location under the user profile names Obsidian.exe |
| Obsidian.PathCandidates | TranscriberApp/ObsidianController.cs:134-139 | An empty PATH gives no candidates; otherwise one per `;`-separated entry |
| Obsidian.Located | TranscriberApp/ObsidianController.cs:118-150 | "" iff no candidate in the search order exists; otherwise an existing file |
| Obsidian.LocatedAt | TranscriberApp/ObsidianController.cs:118-150 | The result is the first existing candidate of the search order |
| Obsidian.KnownLocationFirst | TranscriberApp/ObsidianController.cs:123-131 | An existing known location wins over PATH |
| Obsidian.PathAfterLocations | TranscriberApp/ObsidianController.cs:134-146 | PATH is searched only when no known location exists, in entry order |
| Obsidian.NothingLocated | TranscriberApp/ObsidianController.cs:149 | With no candidate existing the result is "" |
| Obsidian.FindObsidianExecutable | TranscriberApp/ObsidianController.cs:118-150 | The two loops with early return compute the first-match search |
| Obsidian.PollEnd | TranscriberApp/ObsidianController.cs:88-95 | The wait ends at the first look that sees the process or after 20 delays, and no earlier look saw it |
| Obsidian.StartApp | TranscriberApp/ObsidianController.cs:62-112 | Running already: true at once; no executable: false without launching; otherwise it launches, waits at most 20 × 100 ms plus 500 ms, and succeeds iff the final look sees the process |
| Obsidian.ComesUpInTime | TranscriberApp/ObsidianController.cs:88-103 | A process that comes up within the 20 polls and stays up makes the start succeed |
| Obsidian.NeverUpFails | TranscriberApp/ObsidianController.cs:88-105 | A process never seen running makes the start fail |
| Text.TrimIdempotent | TranscriberApp/SystemRequirements.cs:45 | Trimming twice is trimming once |
| Text.Trim | TranscriberApp/SystemRequirements.cs:45 | The result starts and ends with characters `char.IsWhiteSpace` rejects (Unicode's space, line and paragraph separators and the controls U+0009-U+000D and U+0085), and is the input with only such white characters removed at both ends |
| Text.Strip | TranscriberApp/PythonScripts/whisper_transcribe.py:124 | Python's `strip()`: the same with U+001C-U+001F also white |
| Text.StripIdempotent | TranscriberApp/PythonScripts/whisper_transcribe.py:133 | Stripping twice is stripping once |
| Text.Split | TranscriberApp/ObsidianController.cs:137 | Split yields at least one part, and no part contains the separator |
| Text.ToLower | TranscriberApp/OptionsForm.cs:57 | Lower-casing works character by character and keeps the length |
| Text.ToLowerFixes | TranscriberApp/OptionsForm.cs:57 | Lower-casing is idempotent and leaves text without capitals unchanged |
| Text.AppendLinesContains | TranscriberApp/WhisperTranscriber.cs:142 | Every line given to AppendLine appears, with its line break, in the built text |
| Text.SplitJoin | TranscriberApp/ObsidianController.cs:137 | Splitting a join of separator-free parts gives the parts back |
| Text.JoinSplit | TranscriberApp/ObsidianController.cs:137 | Joining the parts of a split gives the string back |
| Paths.CombineSplits | TranscriberApp/WhisperTranscriber.cs:62 | The file name of dir + name is the name for every dir; for a dir in `GetDirectoryName` form its directory is dir, a bare drive `X:` giving `X:\` |
| Paths.StemOfCombined | TranscriberApp/Transcriber.cs:102-104 | dir + stem.ext has file name stem.ext and stem `stem`, and lies in dir as `CombineSplits` says |
| Paths.DirectoryName | TranscriberApp/RecorderForm.cs:480 | A prefix of the path, shorter than it unless both are empty, that keeps its root; "" (the code's `?? ""` for null) when the path is only a root |
| Paths.DirectoryNameForm | TranscriberApp/Transcriber.cs:34 | A directory name is "", a bare root, or a path that does not end in a separator |
| Paths.DriveRootKept | TranscriberApp/Transcriber.cs:33-35 | The directory of `X:\name` is the drive root `X:\`, and its file name is `name` |
| Paths.FileName | TranscriberApp/Transcriber.cs:35 | A separator-free tail of the path that lies after its root |

## Left out

- NAudio is library code and is not part of this model. This covers capture devices, WAV writers,
  readers, sample providers, resampling, mixing and `CreateWaveFile16`. Only the decisions and the
  conversion plan handed to it are modelled, not the samples it produces.
- Filter coefficients: sin, cos and single-precision rounding are not modelled. The design
  functions take cos(w0) and alpha as reals, and the filter takes its five coefficients as
  parameters. Filter arithmetic is over `real`, so float rounding is not modelled. No boundedness or
  stability is claimed, and the code does not promise either.
- Concurrency is not modelled: stop events arrive one at a time, in either order, and the stop-flag
  race between capture threads is left out. Also left out: `Invoke` marshalling, the `volatile`
  level field, `Task.Run`, `Application.DoEvents` and the recording-time timer
  `TrackRecordingTime`.
- I/O is abstracted as inputs: file existence and sizes, file copy/delete, process start and exit
  codes, the contents of standard output and error, JSON parsing, the Whisper model call, clocks
  (`time.time`, `datetime.now`), `get_audio_duration`, directory creation and argparse. The
  elapsed and processing times are parameters.
- UI-only code is not part of this model: Form1.cs and the `*.Designer.cs` files, message boxes,
  labels and button enabling. Form1's language map duplicates OptionsForm's and is modelled once.
- RecordingOptionsForm.cs:301-303 and :340 use `AppSettings` members the class does not have. The
  settings write in the mix check-box handler is left out, and restore defaults keeps the
  current mix flag.
- RecordingOptions.RecordingOptionsForm: combo boxes are indices and item counts. Setting an index
  fires the handler of that combo only where the code relies on it (the sample rate in the
  constructor).
- The error key of the script's JSON messages (WhisperTranscriber.cs:125-128) raises inside a
  stdout callback on another thread, and this code does not define its effect. Messages are
  modelled with progress and output-path fields only.
- WhisperTranscriber.ExtractOptions: `ToString()` of a boolean language value is "True"/"False".
  Other value types (numbers and so on) are not modelled.
- Transcriber.ExtractOptions: a non-string, non-null language value is not modelled.
- Devices.Catalogue and AudioRecorder.GetRecordingDevices take the product names as a parameter.
  `WaveInEvent.DeviceCount` is its length.
- AudioRecorder.Quotient: float division is modelled exactly over reals, with NaN for 0/0. Float
  rounding is not modelled.
- The command-line splitting in `commandline.dfy` follows the Microsoft C runtime for spaces,
  double quotes and backslashes before a quote. Tabs as separators and the `""` pair inside
  quotes are not modelled; no rendered list of arguments without double quotes contains that
  pair. Argument properties are stated for arguments without embedded double quotes.
- Transcriber.OptionsPass and Transcriber.UnquotedModelPathSplits: for the as-written list they need
  the output directory and the audio path not to end in a backslash. The output directory of
  audio at a drive root is `X:\`, and Transcriber.DriveRootSwallowsAudio states what the program
  then receives (see "## Findings").
- WhisperTranscriber.AsyncArgv and WhisperTranscriber.AudioFileArgv: need the quoted paths not to
  end in a backslash. The code first checks that the audio file and the script exist
  (WhisperTranscriber.cs:49-57, 177-185), and a path ending in a separator names no file. The
  output path ends in `.md`.
- Text.ToLower: folds the ASCII capitals A-Z only. Non-ASCII capitals are not folded, although
  .NET folds them (accented and Polish capitals; U+212A KELVIN SIGN lowers to `k`, so "U\u212A"
  selects `uk` in .NET but not in the model). Culture-specific case mapping is not modelled.
- `Path` operations follow .NET's Windows rules for `\`, `/` and the roots `X:\`, `X:` and `\`.
  UNC and device paths (`\\server\share`, `\\?\`) are not modelled. Neither is the separator
  normalisation `GetDirectoryName` applies to its result (`/` to `\`, runs collapsed), nor
  `Path.GetFullPath`.
- Paths.DirectoryName: gives "" where .NET gives null, for a path that is only a root or empty.
  Transcriber.cs:34 and RecorderForm.cs:480 turn that null into "" themselves. Python's
  `os.path.dirname` returns such a root unchanged; the script applies it only to its own absolute
  file path.
- Paths.Combine: .NET's `Path.Combine`. Python's `os.path.join` differs after a bare drive
  (`join("C:", "x")` is `C:x`) and for a second part that starts with a separator (it keeps the
  first part's drive). The script joins only relative names onto the directory of its own absolute
  path, where the two agree.
- Transcriber.OutputPathBesideAudio: like TranscriptBesideAudio, WhisperTranscriber.OutputPathNamesAudio
  and Script.DefaultOutputNamesAudio, it does not cover a file name whose second character is ':'
  (an NTFS stream name such as `a:b.wav`). The joined name is then rooted, and `Path.Combine`
  returns it alone, which the model's `Combine` does too.
- The .NET regex `\d` also matches non-ASCII digits. The model accepts ASCII digits only.
- StringBuilder contents are modelled as the sequence of lines appended. The summary's line kinds
  carry the Polish texts of SystemRequirements.cs.
- Python `json.dumps` output is a datatype of messages, not text. The file writes of the Markdown
  transcript are modelled as header and body line kinds, not bytes.
- PublishScript: the published script's time estimate, remaining-time text, progress values
  (`ProgressDuring`, `ProgressNeverDecreases`), transcribe options and header are modelled. Its
  message sequence is not: the information records, the progress record printed while
  transcribing, and the second error record on a failed model load. Nor is its `main`, which also
  passes the punctuation, best-of and beam-size options on. `check_dependencies`,
  `format_timestamp`, the missing-library message, the default output path and the transcript
  after its header are the same in both copies and are modelled once in `script.dfy`.
- Obsidian: "is running" is a function from poll number to bool. The synchronous `StartApp`
  wrapper only waits for the asynchronous one. An exception from `Process.Start` is an input
  flag. The `Task.Delay` waits are summed as milliseconds, not timed.
- Obsidian.PossiblePaths: that each of the eight candidates names Obsidian.exe is proved per
  folder kind (install folder, user profile), not as one statement over the list.
- Requirements.CheckWhisper and Requirements.CheckCuda: the converse of "success needs exit 0" is
  stated through `MarkersDetected`, for a marker on one output line. A marker spanning two lines
  of the joined output is not covered.

## Findings

| source | as written | input that shows it | evidently intended | confidence | as-written member | corrected member |
|---|---|---|---|---|---|---|
| TranscriberApp/RecordingOptionsForm.cs:228, 257 | `Math.Abs` on a `short` throws for -32768; the handler catches it and stores no level | a chunk holding the bytes 0x00 0x80 (one sample of -32768) | the level is max \|sample\| · 100 / 32768, so 100 for a full-scale sample | not executed | RecordingOptions.MinValueSampleIsDropped | RecordingOptions.LevelBounds |
| TranscriberApp/RecorderForm.cs:336-338, 421 | `StartMixedRecording` reports its own failures and returns, after which `isRecording` is set to true | a mixed start whose capture fails to open | the window records iff a capture was opened | not executed | RecorderForm.FailedMixedStartStillRecording | RecorderForm.RecordingIffCapturing |
| TranscriberApp/Transcriber.cs:38, 107 | the model path is inserted into the argument string without quotes | an install directory containing a space, such as `C:\Program Files\App` | `--model` receives the whole path as one argument | not executed | Transcriber.UnquotedModelPathSplits | Transcriber.QuotedArgv |
| TranscriberApp/Transcriber.cs:38, 107 | the output directory is written as `"{dir}"`; for audio at a drive root `dir` is `C:\`, whose backslash escapes the closing quote | the audio file `C:\a.wav` | `--output_dir` receives `C:\` and the audio path follows as its own argument | not executed | Transcriber.DriveRootSwallowsAudio | Transcriber.QuotedArgv |

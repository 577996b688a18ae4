/**
 * `whisper_transcribe.py` (the development copy): the pure pieces of the
 * transcription script. Seconds are exact reals; the importability of the
 * two libraries, the point where an exception interrupts the run and the
 * script's own absolute path are inputs.
 */
module Script {
  import opened Wrappers
  import opened Text
  import opened Paths

  // ---------------------------------------------------------------------
  // Timestamps
  // ---------------------------------------------------------------------

  /** Python's `x // 60` on a float, as an integer. */
  function Div60(x: real): int
  {
    (x / 60.0).Floor
  }

  /** Python's `x % 60` on a float: the remainder has the divisor's sign. */
  function Mod60(x: real): (r: real)
    ensures 0.0 <= r < 60.0
    ensures r == x - 60.0 * Div60(x) as real
  {
    x - 60.0 * Div60(x) as real
  }

  /** The minutes and seconds `format_timestamp` prints. */
  function TimestampParts(seconds: real): (p: (int, int))
    ensures 0 <= p.1 < 60
    ensures 60 * p.0 + p.1 == seconds.Floor
  {
    var m := Div60(seconds);
    var r := Mod60(seconds);
    assert r.Floor == seconds.Floor - 60 * m;
    (m, r.Floor)
  }

  /** `format_timestamp`: zero-padded "MM:SS"; under 100 minutes it is five characters. */
  function FormatTimestamp(seconds: real): (r: string)
    ensures 0.0 <= seconds < 6000.0 ==> |r| == 5 && r[2] == ':'
  {
    var p := TimestampParts(seconds);
    Pad2(p.0) + ":" + Pad2(p.1)
  }

  predicate AllDigits(s: string)
  {
    forall k :: 0 <= k < |s| ==> IsDigit(s[k])
  }

  /** Under 100 minutes the two numbers of the timestamp give back the whole seconds. */
  lemma TimestampReadsBack(seconds: real)
    requires 0.0 <= seconds < 6000.0
    ensures var r := FormatTimestamp(seconds);
      AllDigits(r[..2]) && AllDigits(r[3..]) && 60 * DecimalValue(r[..2]) + DecimalValue(r[3..]) == seconds.Floor
  {
    var p := TimestampParts(seconds);
    var r := FormatTimestamp(seconds);
    assert 0 <= p.0 < 100;
    assert r[..2] == Pad2(p.0) && r[3..] == Pad2(p.1);
  }

  // ---------------------------------------------------------------------
  // Options and dependencies
  // ---------------------------------------------------------------------

  /** A Python value as far as the options dictionary is concerned. */
  datatype PyValue = PyNone | PyStr(s: string) | PyInt(i: int)

  /** The options passed to `model.transcribe`: "auto" lets Whisper detect the language. */
  function TranscribeOptions(language: string): (m: map<string, PyValue>)
    ensures m.Keys == {"language", "task"}
    ensures m["task"] == PyStr("transcribe")
    ensures m["language"] == PyNone <==> language == "auto"
    ensures language != "auto" ==> m["language"] == PyStr(language)
  {
    map["language" := if language != "auto" then PyStr(language) else PyNone, "task" := PyStr("transcribe")]
  }

  /** `check_dependencies`: the libraries that fail to import, whisper before torch. */
  function CheckDependencies(whisperImports: bool, torchImports: bool): (missing: seq<string>)
    ensures ("whisper" in missing <==> !whisperImports) && ("torch" in missing <==> !torchImports)
    ensures |missing| <= 2 && (missing == [] <==> whisperImports && torchImports)
    ensures !whisperImports ==> missing[0] == "whisper"
  {
    (if whisperImports then [] else ["whisper"]) + (if torchImports then [] else ["torch"])
  }

  /** A JSON error record printed on standard output. */
  datatype ErrorRecord = ErrorRecord(error: string, status: string, missingDeps: seq<string>)

  /** The install command for the missing libraries. */
  function InstallCommand(missing: seq<string>): string
  {
    "pip install " + Join(missing, " ")
  }

  /** The error record for missing libraries: the names, then the command that installs them. */
  function MissingDepsError(missing: seq<string>): (e: ErrorRecord)
    ensures e.missingDeps == missing && e.status == "error"
    ensures |InstallCommand(missing)| <= |e.error|
    ensures e.error[|e.error| - |InstallCommand(missing)|..] == InstallCommand(missing)
  {
    var message := "Brakujące biblioteki Python: " + Join(missing, ", ");
    ErrorRecord(message + "\nZainstaluj je używając polecenia:\n" + InstallCommand(missing), "error", missing)
  }

  /** The install command names exactly the missing libraries, in order, one per word. */
  lemma InstallCommandNamesMissing(whisperImports: bool, torchImports: bool)
    requires !(whisperImports && torchImports)
    ensures var missing := CheckDependencies(whisperImports, torchImports);
      var words := InstallCommand(missing)[|"pip install "|..];
      Split(words, ' ') == missing
  {
    var missing := CheckDependencies(whisperImports, torchImports);
    forall k | 0 <= k < |missing| ensures ' ' !in missing[k] {
      assert missing[k] == "whisper" || missing[k] == "torch";
    }
    SplitJoin(missing, ' ');
    assert InstallCommand(missing)[|"pip install "|..] == Join(missing, " ");
  }

  // ---------------------------------------------------------------------
  // A run of transcribe_audio
  // ---------------------------------------------------------------------

  /** A line the script prints: a progress record, the device information, or an error record. */
  datatype Message = Progress(value: int, status: string, outputPath: Option<string>) | DeviceInfo(device: string)
    | Error(record: ErrorRecord)

  /** Where an exception interrupts the run: loading the model, transcribing, or writing the transcript. */
  datatype Stage = LoadModel | Transcribe | Write

  /** The messages of each phase of a run. */
  function Loading(device: string): seq<Message>
  {
    [Progress(0, "loading_model", None), DeviceInfo(device)]
  }

  const Transcribing: seq<Message> := [Progress(10, "model_loaded", None), Progress(20, "transcribing", None)]

  const Formatting: seq<Message> := [Progress(90, "formatting", None)]

  function Completed(outputPath: string): seq<Message>
  {
    [Progress(100, "completed", Some(outputPath))]
  }

  /** The messages printed before the given stage starts. */
  function Before(device: string, stage: Stage): seq<Message>
  {
    match stage
    case LoadModel => Loading(device)
    case Transcribe => Loading(device) + Transcribing
    case Write => Loading(device) + Transcribing + Formatting
  }

  /**
   * `transcribe_audio`: the messages printed and the returned path. An
   * exception at a stage prints an error record and returns `None`.
   */
  function TranscribeAudio(missing: seq<string>, device: string, failure: Option<Stage>, errorText: string,
                           outputPath: string): (r: (seq<Message>, Option<string>))
    ensures r.1.Some? <==> missing == [] && failure.None?
    ensures r.1.Some? ==> r.1.value == outputPath
    ensures missing != [] ==> r.0 == [Error(MissingDepsError(missing))]
    ensures missing == [] && failure.Some? ==> r.0 == Before(device, failure.value) + [Error(ErrorRecord(errorText, "error", []))]
  {
    if missing != [] then ([Error(MissingDepsError(missing))], None)
    else match failure
      case Some(stage) => (Before(device, stage) + [Error(ErrorRecord(errorText, "error", []))], None)
      case None => (Before(device, Write) + Completed(outputPath), Some(outputPath))
  }

  /** The progress values among the messages, in order. */
  function ProgressValues(messages: seq<Message>): seq<int>
  {
    if messages == [] then []
    else
      var last := messages[|messages| - 1];
      ProgressValues(messages[..|messages| - 1]) + (if last.Progress? then [last.value] else [])
  }

  lemma {:induction false} ProgressValuesAppend(a: seq<Message>, b: seq<Message>)
    ensures ProgressValues(a + b) == ProgressValues(a) + ProgressValues(b)
    decreases |b|
  {
    if b == [] {
      assert a + b == a;
    } else {
      assert (a + b)[..|a + b| - 1] == a + b[..|b| - 1];
      assert (a + b)[|a + b| - 1] == b[|b| - 1];
      ProgressValuesAppend(a, b[..|b| - 1]);
    }
  }

  predicate StrictlyIncreasing(s: seq<int>)
  {
    forall i, j :: 0 <= i < j < |s| ==> s[i] < s[j]
  }

  /** The progress values a successful run reports. */
  const AllProgress: seq<int> := [0, 10, 20, 90, 100]

  lemma PhaseValues(device: string, outputPath: string)
    ensures ProgressValues(Loading(device)) == [0]
    ensures ProgressValues(Transcribing) == [10, 20]
    ensures ProgressValues(Formatting) == [90]
    ensures ProgressValues(Completed(outputPath)) == [100]
  {
    var first := [Progress(0, "loading_model", None)];
    assert Loading(device)[..1] == first && first[..0] == [];
    var loaded := [Progress(10, "model_loaded", None)];
    assert Transcribing[..1] == loaded && loaded[..0] == [];
    assert Formatting[..0] == [] && Completed(outputPath)[..0] == [];
  }

  /** The values reported before each stage: a proper prefix of the full sequence. */
  lemma BeforeValues(device: string, stage: Stage)
    ensures ProgressValues(Before(device, stage)) ==
      match stage case LoadModel => AllProgress[..1] case Transcribe => AllProgress[..3] case Write => AllProgress[..4]
  {
    PhaseValues(device, "");
    ProgressValuesAppend(Loading(device), Transcribing);
    ProgressValuesAppend(Loading(device) + Transcribing, Formatting);
  }

  /** How many progress values a run reports before it ends. */
  function Reported(missing: seq<string>, failure: Option<Stage>): nat
  {
    if missing != [] then 0
    else match failure
      case Some(LoadModel) => 1
      case Some(Transcribe) => 3
      case Some(Write) => 4
      case None => 5
  }

  /** The progress values of a run: none without the libraries, a prefix up to the failed stage, or all five. */
  lemma RunValues(missing: seq<string>, device: string, failure: Option<Stage>, errorText: string, outputPath: string)
    ensures ProgressValues(TranscribeAudio(missing, device, failure, errorText, outputPath).0) ==
      AllProgress[..Reported(missing, failure)]
  {
    if missing != [] {
      var e := [Error(MissingDepsError(missing))];
      assert e[..0] == [];
    } else {
      match failure
      case Some(stage) => FailedRunValues(device, stage, errorText);
      case None => CompletedRunValues(device, outputPath);
    }
  }

  lemma FailedRunValues(device: string, stage: Stage, errorText: string)
    ensures ProgressValues(Before(device, stage) + [Error(ErrorRecord(errorText, "error", []))]) ==
      AllProgress[..Reported([], Some(stage))]
  {
    var failed := [Error(ErrorRecord(errorText, "error", []))];
    assert failed[..0] == [];
    BeforeValues(device, stage);
    ProgressValuesAppend(Before(device, stage), failed);
  }

  lemma CompletedRunValues(device: string, outputPath: string)
    ensures ProgressValues(Before(device, Write) + Completed(outputPath)) == AllProgress
  {
    BeforeValues(device, Write);
    PhaseValues(device, outputPath);
    ProgressValuesAppend(Before(device, Write), Completed(outputPath));
    assert AllProgress[..4] + [100] == AllProgress;
  }

  /**
   * Any run reports a prefix of 0, 10, 20, 90, 100, so progress never goes
   * back; exactly the successful runs report all five.
   */
  lemma ProgressSequence(missing: seq<string>, device: string, failure: Option<Stage>, errorText: string, outputPath: string)
    ensures var r := TranscribeAudio(missing, device, failure, errorText, outputPath);
      var values := ProgressValues(r.0);
      values <= AllProgress && StrictlyIncreasing(values) && (r.1.Some? <==> values == AllProgress)
  {
    RunValues(missing, device, failure, errorText, outputPath);
    PrefixIncreasing(Reported(missing, failure));
  }

  lemma PrefixIncreasing(n: nat)
    requires n <= |AllProgress|
    ensures AllProgress[..n] <= AllProgress && StrictlyIncreasing(AllProgress[..n])
    ensures AllProgress[..n] == AllProgress <==> n == |AllProgress|
  {
    assert StrictlyIncreasing(AllProgress);
  }

  /** A successful run ends with the completion record naming the output path; a failed one with an error record. */
  lemma LastMessage(missing: seq<string>, device: string, failure: Option<Stage>, errorText: string, outputPath: string)
    ensures var r := TranscribeAudio(missing, device, failure, errorText, outputPath);
      |r.0| > 0 &&
      (r.1.Some? ==> r.0[|r.0| - 1] == Progress(100, "completed", Some(outputPath))) &&
      (r.1.None? ==> r.0[|r.0| - 1].Error?)
  {
  }

  /** The message `main` prints when the libraries cannot be imported. */
  const UnavailableMessage: string :=
    "Brakujące biblioteki Python: whisper, torch\nZainstaluj je używając polecenia:\npip install openai-whisper torch\n\nUwaga: Instalacja Whisper może zająć kilka minut."

  /**
   * `main`: when either library fails to import, the fixed error record and
   * exit code 1; otherwise `transcribe_audio` runs (its own dependency
   * check then finds nothing) and the exit code is 0.
   */
  function RunScript(whisperImports: bool, torchImports: bool, device: string, failure: Option<Stage>, errorText: string,
                outputPath: string): (r: (seq<Message>, int))
    ensures r.1 == 0 <==> whisperImports && torchImports
    ensures r.1 == 0 ==> r.0 == TranscribeAudio(CheckDependencies(whisperImports, torchImports), device, failure, errorText, outputPath).0
  {
    if !(whisperImports && torchImports) then ([Error(ErrorRecord(UnavailableMessage, "error", ["whisper", "torch"]))], 1)
    else
      (TranscribeAudio(CheckDependencies(whisperImports, torchImports), device, failure, errorText, outputPath).0, 0)
  }

  /** Reached from `main`, the dependency check inside `transcribe_audio` never reports anything. */
  lemma ScriptNeverReportsMissingDeps(whisperImports: bool, torchImports: bool, device: string, failure: Option<Stage>,
                                    errorText: string, outputPath: string)
    requires RunScript(whisperImports, torchImports, device, failure, errorText, outputPath).1 == 0
    ensures forall m :: m in RunScript(whisperImports, torchImports, device, failure, errorText, outputPath).0 ==>
      !(m.Error? && m.record.missingDeps != [])
  {
  }

  // ---------------------------------------------------------------------
  // The default output path
  // ---------------------------------------------------------------------

  /** `<script directory>\..\..\transcriptions`. */
  function TranscriptionsDirectory(scriptPath: string): string
  {
    Combine(Combine(Combine(DirectoryName(scriptPath), ".."), ".."), "transcriptions")
  }

  /** Without `--output`: `<transcriptions directory>\<audio base name without extension>.md`. */
  function DefaultOutputPath(scriptPath: string, audioPath: string): string
  {
    Combine(TranscriptionsDirectory(scriptPath), SplitExtStem(FileName(audioPath)) + ".md")
  }

  lemma TranscriptionsNamePasses()
    ensures "transcriptions" != "" && !IsRooted("transcriptions") && !HasSeparator("transcriptions")
    ensures "transcriptions"[|"transcriptions"| - 1] == 's'
  {
  }

  /** The transcriptions directory ends with a name, so names joined to it lie directly in it. */
  lemma TranscriptionsDirectoryForm(scriptPath: string)
    ensures var d := TranscriptionsDirectory(scriptPath); DirectoryForm(d) && !IsDriveOnly(d)
  {
    TranscriptionsNamePasses();
    CombineEnds(Combine(Combine(DirectoryName(scriptPath), ".."), ".."), "transcriptions");
  }

  /** `stem.md` splits back into `stem` when `stem` holds a character other than '.'. */
  lemma SplitExtOfMarkdown(stem: string)
    requires exists k :: 0 <= k < |stem| && stem[k] != '.'
    ensures SplitExtStem(stem + "." + "md") == stem
  {
    assert '.' !in "md";
    LastDot(stem, "md");
  }

  /**
   * The default transcript lies directly in the transcriptions directory,
   * and its name splits back into the audio's base name.
   */
  lemma DefaultOutputNamesAudio(scriptPath: string, audioPath: string)
    requires var stem := SplitExtStem(FileName(audioPath)); !IsRooted(stem + ".md") && exists k :: 0 <= k < |stem| && stem[k] != '.'
    ensures var p := DefaultOutputPath(scriptPath, audioPath);
      DirectoryName(p) == TranscriptionsDirectory(scriptPath) &&
      FileName(p) == SplitExtStem(FileName(audioPath)) + ".md" &&
      SplitExtStem(FileName(p)) == SplitExtStem(FileName(audioPath))
  {
    var stem := SplitExtStem(FileName(audioPath));
    TranscriptionsDirectoryForm(scriptPath);
    StemOfName(FileName(audioPath));
    MarkdownInDirectory(TranscriptionsDirectory(scriptPath), stem);
  }

  /** `stem.md` joined to a directory that ends with a name lies in it and splits back into `stem`. */
  lemma MarkdownInDirectory(dir: string, stem: string)
    requires DirectoryForm(dir) && !IsDriveOnly(dir)
    requires !HasSeparator(stem) && !IsRooted(stem + ".md") && exists k :: 0 <= k < |stem| && stem[k] != '.'
    ensures var p := Combine(dir, stem + ".md");
      DirectoryName(p) == dir && FileName(p) == stem + ".md" && SplitExtStem(FileName(p)) == stem
  {
    assert '.' !in "md" && !HasSeparator("md");
    NameWithExtension(stem, "md");
    assert stem + "." + "md" == stem + ".md";
    CombineSplits(dir, stem + ".md");
    SplitExtOfMarkdown(stem);
  }

  // ---------------------------------------------------------------------
  // The transcript file
  // ---------------------------------------------------------------------

  /** A line of the transcript's header, by kind (the texts around the values are fixed). */
  datatype HeaderLine = Title(name: string) | FileLine(path: string) | ModelLine(model: string)
    | LanguageLine(language: string) | PunctuationLine | QualityLine(bestOf: int, beamSize: int)
    | DateLine(date: string) | ProcessingLine(time: string)

  /** The header: audio base name, path, model, language and the date (passed in: the clock is not modelled). */
  function Header(audioPath: string, modelSize: string, language: string, date: string): (r: seq<HeaderLine>)
    ensures |r| == 5 && r[0] == Title(FileName(audioPath)) && r[4] == DateLine(date)
    ensures forall k :: 0 <= k < |r| ==> !r[k].PunctuationLine? && !r[k].QualityLine?
  {
    [Title(FileName(audioPath)), FileLine(audioPath), ModelLine(modelSize), LanguageLine(language), DateLine(date)]
  }

  /** A time segment of the Whisper result. */
  datatype Segment = Segment(start: real, end: real, text: string)

  /** A line of the transcript's body. */
  datatype BodyLine = DetectedLanguage(language: string) | ContentsHeading | Contents(text: string)
    | SegmentsHeading | SegmentLine(start: string, end: string, text: string)

  function SegmentLines(segments: seq<Segment>): (r: seq<BodyLine>)
    ensures |r| == |segments|
    ensures forall k :: 0 <= k < |r| ==> r[k].SegmentLine?
    ensures forall k :: 0 <= k < |r| ==>
      r[k] == SegmentLine(FormatTimestamp(segments[k].start), FormatTimestamp(segments[k].end), Strip(segments[k].text))
  {
    seq(|segments|, k requires 0 <= k < |segments| =>
      SegmentLine(FormatTimestamp(segments[k].start), FormatTimestamp(segments[k].end), Strip(segments[k].text)))
  }

  /**
   * The body: the detected language when the result names one, the
   * stripped text, and the segments section when the result has one.
   */
  function Body(detected: Option<string>, text: string, segments: Option<seq<Segment>>): (r: seq<BodyLine>)
    ensures (|r| > 0 && r[0].DetectedLanguage?) <==> detected.Some? && detected.value != ""
    ensures Contents(Strip(text)) in r
    ensures SegmentsHeading in r <==> segments.Some?
    ensures segments.Some? ==> |r| >= |segments.value| && r[|r| - |segments.value|..] == SegmentLines(segments.value)
  {
    var language := if detected.Some? && detected.value != "" then [DetectedLanguage(detected.value)] else [];
    var lines := if segments.Some? then Some(SegmentLines(segments.value)) else None;
    LayoutParts(language, Strip(text), lines);
    Layout(language, Strip(text), lines)
  }

  /** The language lines, the contents heading and text, then the segments section if there is one. */
  function Layout(language: seq<BodyLine>, text: string, segmentLines: Option<seq<BodyLine>>): seq<BodyLine>
  {
    language + [ContentsHeading, Contents(text)] +
      (if segmentLines.Some? then [SegmentsHeading] + segmentLines.value else [])
  }

  /** Where each part of the layout can be found in it. */
  lemma LayoutParts(language: seq<BodyLine>, text: string, segmentLines: Option<seq<BodyLine>>)
    requires forall k :: 0 <= k < |language| ==> language[k].DetectedLanguage?
    requires segmentLines.Some? ==> forall k :: 0 <= k < |segmentLines.value| ==> segmentLines.value[k].SegmentLine?
    ensures var r := Layout(language, text, segmentLines);
      ((|r| > 0 && r[0].DetectedLanguage?) <==> |language| > 0) &&
      Contents(text) in r &&
      (SegmentsHeading in r <==> segmentLines.Some?) &&
      (segmentLines.Some? ==> |r| >= |segmentLines.value| && r[|r| - |segmentLines.value|..] == segmentLines.value)
  {
    var contents := language + [ContentsHeading, Contents(text)];
    assert contents[|contents| - 1] == Contents(text);
    assert SegmentsHeading !in contents;
    if segmentLines.Some? {
      var lines := segmentLines.value;
      var r := contents + ([SegmentsHeading] + lines);
      assert SegmentsHeading in [SegmentsHeading] + lines;
      assert r[|r| - |lines|..] == lines;
    }
  }
}

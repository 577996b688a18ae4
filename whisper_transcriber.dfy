/**
 * `WhisperTranscriber`: runs the Whisper Python script on an audio file.
 * The file system is the set of paths that exist; a run of the script is
 * its parsed standard output, its standard error lines and its exit code.
 */
module WhisperTranscriber {
  import opened Wrappers
  import opened Text
  import opened Paths
  import opened CommandLine

  /** A value stored in the options dictionary (`Dictionary<string, object>`). */
  datatype OptionValue = Null | Str(s: string) | Flag(b: bool) | Number(i: int)

  /** `object.ToString()` of a non-null option value (`bool` prints as "True"/"False"). */
  function ToText(v: OptionValue): (r: string)
    requires !v.Null?
    ensures v.Str? ==> r == v.s
    ensures v.Flag? ==> r == (if v.b then "True" else "False")
  {
    match v
    case Str(s) => s
    case Flag(b) => if b then "True" else "False"
    case Number(i) => IntToDecimal(i)
  }

  /** The transcriber's four read-only fields. */
  datatype Config = Config(pythonPath: string, scriptPath: string, outputDirectory: string, modelSize: string)

  const DefaultScriptName := "whisper_transcribe.py"

  /**
   * The constructor: without a script path the script is
   * `<base directory>\PythonScripts\whisper_transcribe.py`.
   */
  function Create(pythonPath: string, scriptPath: Option<string>, outputDirectory: string, modelSize: string,
                  baseDirectory: string): (c: Config)
    ensures scriptPath.Some? ==> c.scriptPath == scriptPath.value
  {
    Config(pythonPath, scriptPath.GetOr(Combine(Combine(baseDirectory, "PythonScripts"), DefaultScriptName)),
           outputDirectory, modelSize)
  }

  /**
   * Without a script path, the script is `whisper_transcribe.py` directly in
   * `<base directory>\PythonScripts`.
   */
  lemma DefaultScriptPath(pythonPath: string, outputDirectory: string, modelSize: string, baseDirectory: string)
    ensures var c := Create(pythonPath, None, outputDirectory, modelSize, baseDirectory);
      FileName(c.scriptPath) == DefaultScriptName &&
      DirectoryName(c.scriptPath) == Combine(baseDirectory, "PythonScripts")
  {
    var folder := Combine(baseDirectory, "PythonScripts");
    assert !HasSeparator("PythonScripts") && !IsRooted("PythonScripts");
    assert !HasSeparator(DefaultScriptName) && !IsRooted(DefaultScriptName) by {
      assert !IsSeparator(DefaultScriptName[7]);
    }
    CombineEnds(baseDirectory, "PythonScripts");
    assert DirectoryForm(folder) && !IsDriveOnly(folder);
    CombineSplits(folder, DefaultScriptName);
  }

  // ---------------------------------------------------------------------
  // TranscribeAsync
  // ---------------------------------------------------------------------

  /** The default transcript path: `<output directory>\<audio name without extension>.md`. */
  function OutputPathFor(outputDirectory: string, audioFilePath: string): string
  {
    Combine(outputDirectory, FileNameWithoutExtension(audioFilePath) + ".md")
  }

  /**
   * The transcript is named after the audio file, with extension "md", and
   * lies directly in the output directory.
   */
  lemma OutputPathNamesAudio(outputDirectory: string, audioFilePath: string)
    requires !IsRooted(FileNameWithoutExtension(audioFilePath) + ".md")
    ensures var p := OutputPathFor(outputDirectory, audioFilePath);
      FileNameWithoutExtension(p) == FileNameWithoutExtension(audioFilePath) &&
      FileName(p) == FileNameWithoutExtension(audioFilePath) + ".md" &&
      (DirectoryForm(outputDirectory) ==> DirectoryName(p) == JoinedDirectory(outputDirectory))
  {
    var stem := FileNameWithoutExtension(audioFilePath);
    var ext := "md";
    assert !HasSeparator(ext) && '.' !in ext;
    assert stem + "." + ext == stem + ".md";
    StemOfCombined(outputDirectory, stem, ext);
  }

  /** The arguments of the asynchronous run, as the script receives them. */
  function AsyncArgumentList(c: Config, audioFilePath: string, outputPath: string): seq<Arg>
  {
    [Quoted(c.scriptPath), Quoted(audioFilePath), Bare("--output"), Quoted(outputPath), Bare("--model"), Bare(c.modelSize)]
  }

  /**
   * The `Arguments` string of `RunPythonScriptAsync`: the quoted script,
   * audio and output paths and the bare flags, separated by single spaces.
   */
  function AsyncArguments(c: Config, audioFilePath: string, outputPath: string): string
  {
    RenderAll(AsyncArgumentList(c, audioFilePath, outputPath))
  }

  /**
   * When the paths hold no double quote and do not end in a backslash, and
   * the model size is one word, the script receives exactly: script, audio,
   * "--output", output path, "--model", model size.
   */
  lemma AsyncArgv(c: Config, audioFilePath: string, outputPath: string)
    requires '"' !in c.scriptPath && '"' !in audioFilePath && '"' !in outputPath
    requires !EndsInBackslash(c.scriptPath) && !EndsInBackslash(audioFilePath) && !EndsInBackslash(outputPath)
    requires c.modelSize != "" && '"' !in c.modelSize && ' ' !in c.modelSize
    ensures Argv(AsyncArguments(c, audioFilePath, outputPath)) ==
      [c.scriptPath, audioFilePath, "--output", outputPath, "--model", c.modelSize]
  {
    var args := AsyncArgumentList(c, audioFilePath, outputPath);
    OutputModelFlagsPass();
    assert AllPass(args);
    ArgvRender(args);
  }

  /** The flags of the asynchronous run are single words. */
  lemma OutputModelFlagsPass()
    ensures Passes(Bare("--output")) && Passes(Bare("--model"))
  {
  }

  /** A line of the script's standard output: not JSON, or a JSON object with optional fields. */
  datatype StdoutLine = NotJson | JsonLine(progress: Option<int>, outputPath: Option<string>)

  /** The progress values the lines carry, in arrival order. */
  function Progresses(lines: seq<StdoutLine>): seq<int>
  {
    if lines == [] then []
    else
      var last := lines[|lines| - 1];
      Progresses(lines[..|lines| - 1]) + (if last.JsonLine? && last.progress.Some? then [last.progress.value] else [])
  }

  /** The `output_path` of the last line that carries one, or "" when none does. */
  function LastOutputPath(lines: seq<StdoutLine>): string
  {
    if lines == [] then ""
    else
      var last := lines[|lines| - 1];
      if last.JsonLine? && last.outputPath.Some? then last.outputPath.value
      else LastOutputPath(lines[..|lines| - 1])
  }

  /** Output arriving in two parts: progress values concatenate, and a later output path wins. */
  lemma {:induction false} FoldAppend(a: seq<StdoutLine>, b: seq<StdoutLine>)
    ensures Progresses(a + b) == Progresses(a) + Progresses(b)
    ensures LastOutputPath(a + b) ==
      if exists k :: 0 <= k < |b| && b[k].JsonLine? && b[k].outputPath.Some? then LastOutputPath(b) else LastOutputPath(a)
    decreases |b|
  {
    if b == [] {
      assert a + b == a;
    } else {
      var init := b[..|b| - 1];
      var last := b[|b| - 1];
      assert (a + b)[..|a + b| - 1] == a + init;
      assert (a + b)[|a + b| - 1] == last;
      FoldAppend(a, init);
      if !(last.JsonLine? && last.outputPath.Some?) {
        assert (exists k :: 0 <= k < |b| && b[k].JsonLine? && b[k].outputPath.Some?) <==>
               (exists k :: 0 <= k < |init| && init[k].JsonLine? && init[k].outputPath.Some?) by {
          forall k | 0 <= k < |init| ensures init[k] == b[k] { }
          if exists k :: 0 <= k < |b| && b[k].JsonLine? && b[k].outputPath.Some? {
            var k :| 0 <= k < |b| && b[k].JsonLine? && b[k].outputPath.Some?;
            assert k < |init| && init[k] == b[k];
          }
        }
      }
    }
  }

  /** A line that is not JSON changes neither the progress reported nor the output path. */
  lemma NonJsonIgnored(a: seq<StdoutLine>, b: seq<StdoutLine>)
    ensures Progresses(a + [NotJson] + b) == Progresses(a + b)
    ensures LastOutputPath(a + [NotJson] + b) == LastOutputPath(a + b)
  {
    FoldAppend(a + [NotJson], b);
    FoldAppend(a, [NotJson]);
    FoldAppend(a, b);
    assert (a + [NotJson])[..|a|] == a;
  }

  /**
   * The `OutputDataReceived` handler applied to each line in turn: progress
   * values are forwarded, an `output_path` clears the buffer and is appended.
   */
  method FoldStdout(lines: seq<StdoutLine>) returns (progress: seq<int>, buffer: string)
    ensures progress == Progresses(lines) && buffer == LastOutputPath(lines)
  {
    progress := [];
    buffer := "";
    var i := 0;
    while i < |lines|
      invariant 0 <= i <= |lines|
      invariant progress == Progresses(lines[..i]) && buffer == LastOutputPath(lines[..i])
    {
      var line := lines[i];
      assert lines[..i + 1][..i] == lines[..i] && lines[..i + 1][i] == line;
      match line {
        case NotJson =>
        case JsonLine(p, o) =>
          if p.Some? {
            progress := progress + [p.value];
          }
          if o.Some? {
            buffer := "";
            buffer := buffer + o.value;
          }
      }
      i := i + 1;
    }
    assert lines[..i] == lines;
  }

  /** The path returned: the buffer when non-empty, else the default output path. */
  function ResultPath(buffer: string, outputPath: string): string
  {
    if |buffer| > 0 then buffer else outputPath
  }

  /** A finished run of the script: its standard output, standard error lines and exit code. */
  datatype ScriptRun = ScriptRun(stdout: seq<StdoutLine>, stderr: seq<string>, exitCode: int)

  datatype TranscribeError =
    | AudioMissing(audioPath: string)          // FileNotFoundException before the run
    | ScriptMissing(scriptPath: string)        // FileNotFoundException before the run
    | ScriptFailed(exitCode: int, stderr: string)
    | TranscriptMissing(transcriptPath: string)
    | InvalidOption(key: string)               // NullReferenceException / InvalidCastException

  /**
   * `TranscribeAsync`: the transcript path, or the error. `existing` holds
   * the paths that exist when each is checked.
   */
  function TranscribeAsync(c: Config, audioFilePath: string, existing: set<string>, run: ScriptRun)
    : (r: Result<string, TranscribeError>)
    ensures audioFilePath !in existing ==> r == Failure(AudioMissing(audioFilePath))
    ensures audioFilePath in existing && c.scriptPath !in existing ==> r == Failure(ScriptMissing(c.scriptPath))
    ensures audioFilePath in existing && c.scriptPath in existing && run.exitCode != 0 ==>
      r == Failure(ScriptFailed(run.exitCode, AppendLines(run.stderr, NewLine)))
    ensures r.Success? <==>
      audioFilePath in existing && c.scriptPath in existing && run.exitCode == 0 &&
      ResultPath(LastOutputPath(run.stdout), OutputPathFor(c.outputDirectory, audioFilePath)) in existing
    ensures r.Success? ==> r.value == ResultPath(LastOutputPath(run.stdout), OutputPathFor(c.outputDirectory, audioFilePath))
  {
    if audioFilePath !in existing then Failure(AudioMissing(audioFilePath))
    else if c.scriptPath !in existing then Failure(ScriptMissing(c.scriptPath))
    else
      var outputPath := OutputPathFor(c.outputDirectory, audioFilePath);
      if run.exitCode != 0 then Failure(ScriptFailed(run.exitCode, AppendLines(run.stderr, NewLine)))
      else
        var resultPath := ResultPath(LastOutputPath(run.stdout), outputPath);
        if resultPath !in existing then Failure(TranscriptMissing(resultPath))
        else Success(resultPath)
  }

  /**
   * The script decides where the transcript goes: the last `output_path` it
   * reports, when that is non-empty, is returned (if it exists), whatever
   * the default path is.
   */
  lemma ReportedPathWins(c: Config, audioFilePath: string, existing: set<string>, before: seq<StdoutLine>, path: string,
                         after: seq<StdoutLine>, stderr: seq<string>)
    requires path != "" && path in existing && audioFilePath in existing && c.scriptPath in existing
    requires forall k :: 0 <= k < |after| ==> after[k].NotJson? || after[k].outputPath.None?
    ensures TranscribeAsync(c, audioFilePath, existing,
              ScriptRun(before + [JsonLine(None, Some(path))] + after, stderr, 0)) == Success(path)
  {
    var b := before + [JsonLine(None, Some(path))];
    FoldAppend(b, after);
    assert LastOutputPath(b) == path by {
      assert b[..|b| - 1] == before;
    }
  }

  // ---------------------------------------------------------------------
  // TranscribeAudioFile
  // ---------------------------------------------------------------------

  datatype TranscribeOptions = TranscribeOptions(language: string, addPunctuation: bool, highQuality: bool)

  /**
   * A flag option: false when absent, its value when a bool; a null value or
   * one of another type throws.
   */
  function FlagOption(options: map<string, OptionValue>, key: string): (r: Result<bool, TranscribeError>)
    ensures key !in options ==> r == Success(false)
    ensures key in options && options[key].Flag? ==> r == Success(options[key].b)
    ensures r.Failure? <==> key in options && !options[key].Flag?
  {
    if key !in options then Success(false)
    else match options[key]
      case Flag(b) => Success(b)
      case _ => Failure(InvalidOption(key))
  }

  /**
   * Option extraction in `TranscribeAudioFile`: language (default "pl"; a
   * null value throws), then punctuation, then quality; the first failure
   * is reported.
   */
  function ExtractOptions(options: map<string, OptionValue>): (r: Result<TranscribeOptions, TranscribeError>)
    ensures "language" !in options && r.Success? ==> r.value.language == "pl"
    ensures "language" in options && options["language"].Null? ==> r == Failure(InvalidOption("language"))
    ensures r.Success? ==> FlagOption(options, "add_punctuation") == Success(r.value.addPunctuation)
    ensures r.Success? ==> FlagOption(options, "high_quality") == Success(r.value.highQuality)
    ensures r.Success? <==>
      !("language" in options && options["language"].Null?) &&
      FlagOption(options, "add_punctuation").Success? && FlagOption(options, "high_quality").Success?
  {
    if "language" in options && options["language"].Null? then Failure(InvalidOption("language"))
    else
      var language := if "language" in options then ToText(options["language"]) else "pl";
      match FlagOption(options, "add_punctuation")
      case Failure(e) => Failure(e)
      case Success(punctuation) =>
        match FlagOption(options, "high_quality")
        case Failure(e) => Failure(e)
        case Success(quality) => Success(TranscribeOptions(language, punctuation, quality))
  }

  const QualityArgs: seq<Arg> := [Bare("--best_of"), Bare("5"), Bare("--beam_size"), Bare("5")]

  /** The arguments of `TranscribeAudioFile`, as the script receives them. */
  function AudioFileArgumentList(c: Config, audioFilePath: string, o: TranscribeOptions): seq<Arg>
  {
    [Quoted(c.scriptPath), Quoted(audioFilePath), Bare("--model"), Bare(c.modelSize), Bare("--language"), Bare(o.language)]
    + (if o.highQuality then QualityArgs else [])
    + (if o.addPunctuation then [Bare("--punctuation")] else [])
  }

  /**
   * The `arguments` string of `TranscribeAudioFile`, grown with `+=`: the
   * quoted paths, model and language, then " --best_of 5 --beam_size 5" and
   * " --punctuation" when their options are on.
   */
  method BuildAudioFileArguments(c: Config, audioFilePath: string, o: TranscribeOptions) returns (arguments: string)
    ensures arguments == RenderAll(AudioFileArgumentList(c, audioFilePath, o))
  {
    var args := [Quoted(c.scriptPath), Quoted(audioFilePath), Bare("--model"), Bare(c.modelSize), Bare("--language"), Bare(o.language)];
    arguments := RenderAll(args);
    if o.highQuality {
      arguments := arguments + " " + RenderAll(QualityArgs);
      RenderAppend(args, QualityArgs);
      args := args + QualityArgs;
    } else {
      assert args + [] == args;
    }
    if o.addPunctuation {
      arguments := arguments + " " + RenderAll([Bare("--punctuation")]);
      RenderAppend(args, [Bare("--punctuation")]);
      args := args + [Bare("--punctuation")];
    } else {
      assert args + [] == args;
    }
    assert args == AudioFileArgumentList(c, audioFilePath, o);
  }

  /**
   * When the paths hold no double quote and the model size and language are
   * single words, the script receives the two paths, the model and the
   * language, then the quality flags iff high quality is on, then
   * "--punctuation" iff punctuation is on.
   */
  lemma AudioFileArgv(c: Config, audioFilePath: string, o: TranscribeOptions)
    requires '"' !in c.scriptPath && '"' !in audioFilePath
    requires !EndsInBackslash(c.scriptPath) && !EndsInBackslash(audioFilePath)
    requires c.modelSize != "" && '"' !in c.modelSize && ' ' !in c.modelSize
    requires o.language != "" && '"' !in o.language && ' ' !in o.language
    ensures Argv(RenderAll(AudioFileArgumentList(c, audioFilePath, o))) ==
      [c.scriptPath, audioFilePath, "--model", c.modelSize, "--language", o.language]
      + (if o.highQuality then ["--best_of", "5", "--beam_size", "5"] else [])
      + (if o.addPunctuation then ["--punctuation"] else [])
  {
    var base := [Quoted(c.scriptPath), Quoted(audioFilePath), Bare("--model"), Bare(c.modelSize), Bare("--language"), Bare(o.language)];
    var quality := if o.highQuality then QualityArgs else [];
    var punctuation := if o.addPunctuation then [Bare("--punctuation")] else [];
    BaseArgs(c, audioFilePath, o);
    QualityFlagsPass();
    ArgvOfThree(base, quality, punctuation);
  }

  /** The fixed head of the `TranscribeAudioFile` arguments passes, and its values are the plain strings. */
  lemma BaseArgs(c: Config, audioFilePath: string, o: TranscribeOptions)
    requires '"' !in c.scriptPath && '"' !in audioFilePath
    requires !EndsInBackslash(c.scriptPath) && !EndsInBackslash(audioFilePath)
    requires c.modelSize != "" && '"' !in c.modelSize && ' ' !in c.modelSize
    requires o.language != "" && '"' !in o.language && ' ' !in o.language
    ensures var base := [Quoted(c.scriptPath), Quoted(audioFilePath), Bare("--model"), Bare(c.modelSize), Bare("--language"), Bare(o.language)];
      AllPass(base) && Values(base) == [c.scriptPath, audioFilePath, "--model", c.modelSize, "--language", o.language]
  {
    ModelLanguageFlagsPass();
  }

  /** Three lists that pass, rendered together, reach the program as their values. */
  lemma ArgvOfThree(a: seq<Arg>, b: seq<Arg>, c: seq<Arg>)
    requires AllPass(a) && AllPass(b) && AllPass(c)
    ensures Argv(RenderAll(a + b + c)) == Values(a) + Values(b) + Values(c)
  {
    AppendPasses(a, b);
    AppendPasses(a + b, c);
    ArgvRender(a + b + c);
  }

  /** The model and language flags are single words. */
  lemma ModelLanguageFlagsPass()
    ensures Passes(Bare("--model")) && Passes(Bare("--language"))
  {
  }

  /** The quality and punctuation flags are single words. */
  lemma QualityFlagsPass()
    ensures AllPass(QualityArgs) && Passes(Bare("--punctuation"))
    ensures Values(QualityArgs) == ["--best_of", "5", "--beam_size", "5"] && Values([Bare("--punctuation")]) == ["--punctuation"]
  {
    BestOfPasses();
    BeamSizePasses();
    PunctuationPasses();
  }

  lemma BestOfPasses()
    ensures Passes(Bare("--best_of")) && Passes(Bare("5"))
  {
  }

  lemma BeamSizePasses()
    ensures Passes(Bare("--beam_size"))
  {
  }

  lemma PunctuationPasses()
    ensures Passes(Bare("--punctuation"))
  {
  }

  /** A finished run of the script in plain-text mode: its output and error lines and exit code. */
  datatype TextRun = TextRun(stdout: seq<string>, stderr: seq<string>, exitCode: int)

  /**
   * `TranscribeAudioFile`: the trimmed standard output of the script, or
   * the error.
   */
  function TranscribeAudioFile(c: Config, audioFilePath: string, options: map<string, OptionValue>,
                               existing: set<string>, run: TextRun): (r: Result<string, TranscribeError>)
    ensures audioFilePath !in existing ==> r == Failure(AudioMissing(audioFilePath))
    ensures r.Success? <==>
      audioFilePath in existing && c.scriptPath in existing && ExtractOptions(options).Success? && run.exitCode == 0
    ensures r.Success? ==> r.value == Trim(AppendLines(run.stdout, NewLine))
    ensures audioFilePath in existing && c.scriptPath in existing && ExtractOptions(options).Success? && run.exitCode != 0 ==>
      r == Failure(ScriptFailed(run.exitCode, AppendLines(run.stderr, NewLine)))
  {
    if audioFilePath !in existing then Failure(AudioMissing(audioFilePath))
    else if c.scriptPath !in existing then Failure(ScriptMissing(c.scriptPath))
    else match ExtractOptions(options)
      case Failure(e) => Failure(e)
      case Success(_) =>
        if run.exitCode != 0 then Failure(ScriptFailed(run.exitCode, AppendLines(run.stderr, NewLine)))
        else Success(Trim(AppendLines(run.stdout, NewLine)))
  }

  /** The returned text has no leading or trailing white space. */
  lemma TranscriptIsTrimmed(c: Config, audioFilePath: string, options: map<string, OptionValue>,
                            existing: set<string>, run: TextRun)
    requires TranscribeAudioFile(c, audioFilePath, options, existing, run).Success?
    ensures var t := TranscribeAudioFile(c, audioFilePath, options, existing, run).value;
      Trim(t) == t
  {
    TrimIdempotent(AppendLines(run.stdout, NewLine));
  }
}

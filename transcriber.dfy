/**
 * `Transcriber`: runs the bundled `whisper.exe` on an audio file, writing
 * `<audio name>_transkrypcja.txt` next to it. The file system is the set of
 * paths that exist; a run of the program is its standard output lines, its
 * standard error text and its exit code.
 */
module Transcriber {
  import opened Wrappers
  import opened Paths
  import opened CommandLine
  import W = WhisperTranscriber

  /** The transcriber's two read-only paths. */
  datatype Config = Config(whisperPath: string, modelPath: string)

  /** `<base directory>\whisper\models`, the directory the constructor creates. */
  function ModelsDirectory(baseDirectory: string): string
  {
    Combine(Combine(baseDirectory, "whisper"), "models")
  }

  /** The constructor: the program and the model lie under `<base directory>\whisper`. */
  function Create(baseDirectory: string): Config
  {
    Config(Combine(Combine(baseDirectory, "whisper"), "whisper.exe"),
           Combine(ModelsDirectory(baseDirectory), "medium.pt"))
  }

  lemma InstallNamesPass()
    ensures !HasSeparator("whisper.exe") && !IsRooted("whisper.exe")
    ensures !HasSeparator("medium.pt") && !IsRooted("medium.pt")
  {
    assert !IsSeparator("whisper.exe"[7]);
  }

  lemma DirectoryNamesPass()
    ensures !HasSeparator("whisper") && !IsRooted("whisper")
    ensures !HasSeparator("models") && !IsRooted("models")
  {
  }

  /**
   * The program is named `whisper.exe` and the model `medium.pt`; the model
   * lies in the directory the constructor creates.
   */
  lemma InstallLayout(baseDirectory: string)
    ensures FileName(Create(baseDirectory).whisperPath) == "whisper.exe"
    ensures FileName(Create(baseDirectory).modelPath) == "medium.pt"
    ensures DirectoryName(Create(baseDirectory).modelPath) == ModelsDirectory(baseDirectory)
  {
    InstallNamesPass();
    DirectoryNamesPass();
    var whisperDirectory := Combine(baseDirectory, "whisper");
    CombineEnds(baseDirectory, "whisper");
    CombineSplits(whisperDirectory, "whisper.exe");
    CombineEnds(whisperDirectory, "models");
    assert DirectoryForm(ModelsDirectory(baseDirectory)) && !IsDriveOnly(ModelsDirectory(baseDirectory));
    CombineSplits(ModelsDirectory(baseDirectory), "medium.pt");
  }

  /** `CheckWhisperInstallation` and `CheckModelInstallation`. */
  function Installed(c: Config, existing: set<string>): (r: (bool, bool))
    ensures r.0 <==> c.whisperPath in existing
    ensures r.1 <==> c.modelPath in existing
  {
    (c.whisperPath in existing, c.modelPath in existing)
  }

  // ---------------------------------------------------------------------
  // Options
  // ---------------------------------------------------------------------

  /** A flag is on only when its value is the boolean true; anything else, null included, is off. */
  function Flag(options: map<string, W.OptionValue>, key: string): (b: bool)
    ensures b <==> key in options && options[key] == W.Flag(true)
  {
    key in options && options[key].Flag? && options[key].b
  }

  /**
   * Option extraction in `TranscribeWithOptionsAsync`: the language is the
   * text of its value (a null value or no entry gives "pl"); it never fails.
   */
  function ExtractOptions(options: map<string, W.OptionValue>): (o: W.TranscribeOptions)
    ensures "language" !in options || options["language"].Null? ==> o.language == "pl"
    ensures "language" in options && options["language"].Str? ==> o.language == options["language"].s
    ensures o.addPunctuation <==> "add_punctuation" in options && options["add_punctuation"] == W.Flag(true)
    ensures o.highQuality <==> "high_quality" in options && options["high_quality"] == W.Flag(true)
  {
    var language := if "language" in options && !options["language"].Null? then W.ToText(options["language"]) else "pl";
    W.TranscribeOptions(language, Flag(options, "add_punctuation"), Flag(options, "high_quality"))
  }

  /**
   * Wherever the Python transcriber's stricter extraction succeeds, this one
   * yields the same options; it also succeeds where that one rejects a null
   * language or a non-boolean flag.
   */
  lemma ExtractionsAgree(options: map<string, W.OptionValue>)
    ensures W.ExtractOptions(options).Success? ==> W.ExtractOptions(options).value == ExtractOptions(options)
  {
  }

  // ---------------------------------------------------------------------
  // Output path and arguments
  // ---------------------------------------------------------------------

  const TranscriptSuffix: string := "_transkrypcja"

  /** `<audio directory>\<audio name without extension>_transkrypcja.txt`. */
  function OutputPathFor(audioFilePath: string): string
  {
    Combine(DirectoryName(audioFilePath), FileNameWithoutExtension(audioFilePath) + TranscriptSuffix + ".txt")
  }

  lemma SuffixPasses(stem: string)
    requires !HasSeparator(stem)
    ensures !HasSeparator(stem + TranscriptSuffix) && !HasSeparator("txt") && '.' !in "txt"
  {
    var s := stem + TranscriptSuffix;
    forall k | 0 <= k < |s| ensures !IsSeparator(s[k]) {
      if k >= |stem| {
        assert s[k] == TranscriptSuffix[k - |stem|];
      }
    }
  }

  /**
   * The transcript lies in the audio file's directory, and its name without
   * extension is the audio's name without extension followed by
   * "_transkrypcja".
   */
  lemma OutputPathBesideAudio(audioFilePath: string)
    requires !IsRooted(FileNameWithoutExtension(audioFilePath) + TranscriptSuffix + ".txt")
    ensures var p := OutputPathFor(audioFilePath);
      FileNameWithoutExtension(p) == FileNameWithoutExtension(audioFilePath) + TranscriptSuffix &&
      FileName(p) == FileNameWithoutExtension(audioFilePath) + TranscriptSuffix + ".txt" &&
      DirectoryName(p) == JoinedDirectory(DirectoryName(audioFilePath))
  {
    DirectoryNameForm(audioFilePath);
    var stem := FileNameWithoutExtension(audioFilePath) + TranscriptSuffix;
    SuffixPasses(FileNameWithoutExtension(audioFilePath));
    assert stem + "." + "txt" == FileNameWithoutExtension(audioFilePath) + TranscriptSuffix + ".txt";
    StemOfCombined(DirectoryName(audioFilePath), stem, "txt");
  }

  /**
   * The arguments of `TranscribeWithOptionsAsync` as written: the model path
   * is inserted without quotes, the output directory and audio path with.
   */
  function ArgumentList(modelPath: string, o: W.TranscribeOptions, audioFilePath: string): seq<Arg>
  {
    [Bare("--model"), Bare(modelPath)] + OptionArgumentList(o, audioFilePath, false)
  }

  /** A path argument between double quotes; `escaped` also doubles the backslashes that end it. */
  function PathArg(path: string, escaped: bool): Arg
  {
    if escaped then Escaped(path) else Quoted(path)
  }

  /** The arguments after the model path. */
  function OptionArgumentList(o: W.TranscribeOptions, audioFilePath: string, escaped: bool): seq<Arg>
  {
    [Bare("--language"), Bare(o.language), Bare("--output_dir"), PathArg(DirectoryName(audioFilePath), escaped)]
    + (if o.highQuality then W.QualityArgs else [])
    + (if o.addPunctuation then [Bare("--punctuation")] else [])
    + [PathArg(audioFilePath, escaped)]
  }

  /** The strings the program is meant to receive after the model path. */
  function IntendedOptions(o: W.TranscribeOptions, audioFilePath: string): seq<string>
  {
    ["--language", o.language, "--output_dir", DirectoryName(audioFilePath)]
    + (if o.highQuality then ["--best_of", "5", "--beam_size", "5"] else [])
    + (if o.addPunctuation then ["--punctuation"] else [])
    + [audioFilePath]
  }

  /**
   * The arguments as they should be written: every path between quotes,
   * with the backslashes that end it doubled, so that an output directory
   * such as `C:\` still closes its quote.
   */
  function QuotedArgumentList(modelPath: string, o: W.TranscribeOptions, audioFilePath: string): seq<Arg>
  {
    [Bare("--model"), Escaped(modelPath)] + OptionArgumentList(o, audioFilePath, true)
  }

  /**
   * The `arguments` string of `TranscribeWithOptionsAsync`, grown with `+=`:
   * model, language and output directory each followed by a space, then the
   * quality flags and the punctuation flag (each with a trailing space) when
   * on, then the quoted audio path.
   */
  method BuildArguments(modelPath: string, o: W.TranscribeOptions, audioFilePath: string) returns (arguments: string)
    ensures arguments == RenderAll(ArgumentList(modelPath, o, audioFilePath))
  {
    var args := [Bare("--model"), Bare(modelPath), Bare("--language"), Bare(o.language),
                 Bare("--output_dir"), Quoted(DirectoryName(audioFilePath))];
    arguments := RenderAll(args) + " ";
    if o.highQuality {
      arguments := arguments + RenderAll(W.QualityArgs) + " ";
      Extend(args, W.QualityArgs);
      args := args + W.QualityArgs;
    }
    if o.addPunctuation {
      arguments := arguments + RenderAll([Bare("--punctuation")]) + " ";
      Extend(args, [Bare("--punctuation")]);
      args := args + [Bare("--punctuation")];
    }
    arguments := arguments + Render(Quoted(audioFilePath));
    RenderAppend(args, [Quoted(audioFilePath)]);
    args := args + [Quoted(audioFilePath)];
    ArgumentListShape(modelPath, o, audioFilePath, args);
  }

  /** Appending a rendered list and a space to a rendered prefix and a space. */
  lemma Extend(a: seq<Arg>, b: seq<Arg>)
    requires |a| > 0 && |b| > 0
    ensures RenderAll(a) + " " + RenderAll(b) + " " == RenderAll(a + b) + " "
  {
    RenderAppend(a, b);
  }

  /** The list `BuildArguments` accumulates is the argument list. */
  lemma ArgumentListShape(modelPath: string, o: W.TranscribeOptions, audioFilePath: string, args: seq<Arg>)
    requires args == [Bare("--model"), Bare(modelPath), Bare("--language"), Bare(o.language),
                      Bare("--output_dir"), Quoted(DirectoryName(audioFilePath))]
                     + (if o.highQuality then W.QualityArgs else [])
                     + (if o.addPunctuation then [Bare("--punctuation")] else [])
                     + [Quoted(audioFilePath)]
    ensures args == ArgumentList(modelPath, o, audioFilePath)
  {
  }

  /** The arguments of the plain `TranscribeAsync`: language "pl", no flags. */
  function PlainArgumentList(modelPath: string, audioFilePath: string): seq<Arg>
  {
    [Bare("--model"), Bare(modelPath), Bare("--language"), Bare("pl"),
     Bare("--output_dir"), Quoted(DirectoryName(audioFilePath)), Quoted(audioFilePath)]
  }

  /** `TranscribeAsync` runs the program exactly as `TranscribeWithOptionsAsync` does with no options. */
  lemma PlainIsNoOptions(modelPath: string, audioFilePath: string)
    ensures ExtractOptions(map[]) == W.TranscribeOptions("pl", false, false)
    ensures PlainArgumentList(modelPath, audioFilePath) == ArgumentList(modelPath, ExtractOptions(map[]), audioFilePath)
  {
  }

  lemma OutputDirFlagPasses()
    ensures Passes(Bare("--output_dir"))
  {
  }

  /** A path without double quotes has a directory name without them. */
  lemma DirectoryNameUnquoted(path: string)
    requires '"' !in path
    ensures '"' !in DirectoryName(path)
  {
    assert DirectoryName(path) == path[..|DirectoryName(path)|];
  }

  /**
   * The arguments after the model path pass, and their values are the
   * intended strings. As written, this needs the output directory and the
   * audio path not to end in a backslash; doubled, it needs nothing.
   */
  lemma OptionsPass(o: W.TranscribeOptions, audioFilePath: string, escaped: bool)
    requires o.language != "" && '"' !in o.language && ' ' !in o.language
    requires '"' !in audioFilePath
    requires !escaped ==> !EndsInBackslash(DirectoryName(audioFilePath)) && !EndsInBackslash(audioFilePath)
    ensures AllPass(OptionArgumentList(o, audioFilePath, escaped))
    ensures Values(OptionArgumentList(o, audioFilePath, escaped)) == IntendedOptions(o, audioFilePath)
  {
    var head := [Bare("--language"), Bare(o.language), Bare("--output_dir"), PathArg(DirectoryName(audioFilePath), escaped)];
    var quality := if o.highQuality then W.QualityArgs else [];
    var punctuation := if o.addPunctuation then [Bare("--punctuation")] else [];
    var audio := [PathArg(audioFilePath, escaped)];
    HeadPasses(o, audioFilePath, escaped);
    W.QualityFlagsPass();
    assert AllPass(audio) && Values(audio) == [audioFilePath];
    AppendPasses(head, quality);
    AppendPasses(head + quality, punctuation);
    AppendPasses(head + quality + punctuation, audio);
  }

  /** The language and output directory arguments pass. */
  lemma HeadPasses(o: W.TranscribeOptions, audioFilePath: string, escaped: bool)
    requires o.language != "" && '"' !in o.language && ' ' !in o.language
    requires '"' !in audioFilePath
    requires !escaped ==> !EndsInBackslash(DirectoryName(audioFilePath))
    ensures var head := [Bare("--language"), Bare(o.language), Bare("--output_dir"), PathArg(DirectoryName(audioFilePath), escaped)];
      AllPass(head) && Values(head) == ["--language", o.language, "--output_dir", DirectoryName(audioFilePath)]
  {
    W.ModelLanguageFlagsPass();
    OutputDirFlagPasses();
    DirectoryNameUnquoted(audioFilePath);
  }

  /**
   * With every path quoted and its final backslashes doubled, the program
   * receives the model path as one argument, whatever spaces it holds,
   * followed by the intended options and the audio path, wherever the audio
   * lies (a drive root included).
   */
  lemma QuotedArgv(modelPath: string, o: W.TranscribeOptions, audioFilePath: string)
    requires '"' !in modelPath && '"' !in audioFilePath
    requires o.language != "" && '"' !in o.language && ' ' !in o.language
    ensures Argv(RenderAll(QuotedArgumentList(modelPath, o, audioFilePath))) ==
      ["--model", modelPath] + IntendedOptions(o, audioFilePath)
  {
    var tail := OptionArgumentList(o, audioFilePath, true);
    OptionsPass(o, audioFilePath, true);
    W.ModelLanguageFlagsPass();
    var head := [Bare("--model"), Escaped(modelPath)];
    assert AllPass(head);
    AppendPasses(head, tail);
    ArgvRender(head + tail);
  }

  /** A bare argument holding a space renders as the two words around it. */
  lemma SpaceRendersAsTwo(x: string, p: string, f: string)
    ensures RenderAll([Bare(x), Bare(p + " " + f)]) == RenderAll([Bare(x), Bare(p), Bare(f)])
  {
    var split := [Bare(x), Bare(p), Bare(f)];
    RenderCons(split);
    assert split[1..] == [Bare(p), Bare(f)];
    RenderCons(split[1..]);
    assert split[1..][1..] == [Bare(f)];
  }

  /**
   * As written, a model path holding a space (an application installed
   * under "C:\Program Files") reaches the program as two arguments, so the
   * program receives one argument more than intended.
   */
  lemma UnquotedModelPathSplits(p: string, f: string, o: W.TranscribeOptions, audioFilePath: string)
    requires Passes(Bare(p)) && Passes(Bare(f)) && '"' !in audioFilePath
    requires !EndsInBackslash(DirectoryName(audioFilePath)) && !EndsInBackslash(audioFilePath)
    requires o.language != "" && '"' !in o.language && ' ' !in o.language
    ensures Argv(RenderAll(ArgumentList(p + " " + f, o, audioFilePath))) ==
      ["--model", p, f] + IntendedOptions(o, audioFilePath)
    ensures |Argv(RenderAll(ArgumentList(p + " " + f, o, audioFilePath)))| ==
      |Argv(RenderAll(QuotedArgumentList(p + " " + f, o, audioFilePath)))| + 1
  {
    var tail := OptionArgumentList(o, audioFilePath, false);
    OptionsPass(o, audioFilePath, false);
    W.ModelLanguageFlagsPass();
    var split := [Bare("--model"), Bare(p), Bare(f)];
    assert AllPass(split);
    SpaceRendersAsTwo("--model", p, f);
    RenderAppend([Bare("--model"), Bare(p + " " + f)], tail);
    RenderAppend(split, tail);
    AppendPasses(split, tail);
    ArgvRender(split + tail);
    QuotedArgv(p + " " + f, o, audioFilePath);
  }

  /**
   * As written, audio at a drive root gets the output directory `X:\`,
   * whose final backslash escapes the closing quote: the directory, a
   * quote, a space and the audio path reach the program as one argument,
   * and no audio argument follows. With the backslash doubled the program
   * receives both.
   */
  lemma DriveRootSwallowsAudio(modelPath: string, o: W.TranscribeOptions, drive: char, name: string)
    requires Passes(Bare(modelPath))
    requires o.language != "" && '"' !in o.language && ' ' !in o.language
    requires !o.highQuality && !o.addPunctuation
    requires IsDriveLetter(drive) && name != "" && !HasSeparator(name) && '"' !in name && ' ' !in name
    ensures var audio := [drive, ':', '\\'] + name;
      Argv(RenderAll(ArgumentList(modelPath, o, audio))) ==
        ["--model", modelPath, "--language", o.language, "--output_dir", [drive, ':', '"', ' ', drive, ':', '\\'] + name]
    ensures var audio := [drive, ':', '\\'] + name;
      Argv(RenderAll(QuotedArgumentList(modelPath, o, audio))) ==
        ["--model", modelPath, "--language", o.language, "--output_dir", [drive, ':', '\\'], audio]
  {
    RootAsWritten(modelPath, o, drive, name);
    RootDelivered(modelPath, o, drive, name);
  }

  lemma RootAsWritten(modelPath: string, o: W.TranscribeOptions, drive: char, name: string)
    requires Passes(Bare(modelPath))
    requires o.language != "" && '"' !in o.language && ' ' !in o.language
    requires !o.highQuality && !o.addPunctuation
    requires IsDriveLetter(drive) && name != "" && !HasSeparator(name) && '"' !in name && ' ' !in name
    ensures var audio := [drive, ':', '\\'] + name;
      Argv(RenderAll(ArgumentList(modelPath, o, audio))) ==
        ["--model", modelPath, "--language", o.language, "--output_dir", [drive, ':', '"', ' ', drive, ':', '\\'] + name]
  {
    var audio := [drive, ':', '\\'] + name;
    var head := [Bare("--model"), Bare(modelPath), Bare("--language"), Bare(o.language), Bare("--output_dir")];
    var paths := [Quoted([drive, ':'] + "\\"), Quoted(audio)];
    var flags := ["--model", modelPath, "--language", o.language, "--output_dir"];
    AtDriveRoot(drive, name);
    calc {
      Argv(RenderAll(ArgumentList(modelPath, o, audio)));
      { RootArgumentList(modelPath, o, drive, name); }
      Argv(RenderAll(head + paths));
      { HeadThen(head, paths, modelPath, o.language); }
      flags + Argv(RenderAll(paths));
      { TrailingBackslashMerges([drive, ':'], audio); }
      flags + [[drive, ':'] + "\" " + audio];
    }
    assert [drive, ':'] + "\" " + audio == [drive, ':', '"', ' ', drive, ':', '\\'] + name;
  }

  /** The as-written list for audio at a drive root, with no flags on. */
  lemma RootArgumentList(modelPath: string, o: W.TranscribeOptions, drive: char, name: string)
    requires !o.highQuality && !o.addPunctuation
    requires IsDriveLetter(drive) && name != "" && !HasSeparator(name)
    ensures ArgumentList(modelPath, o, [drive, ':', '\\'] + name) ==
      [Bare("--model"), Bare(modelPath), Bare("--language"), Bare(o.language), Bare("--output_dir")]
      + [Quoted([drive, ':'] + "\\"), Quoted([drive, ':', '\\'] + name)]
  {
    DriveRootKept(drive, name);
    assert [drive, ':'] + "\\" == [drive, ':', '\\'];
  }

  lemma RootDelivered(modelPath: string, o: W.TranscribeOptions, drive: char, name: string)
    requires '"' !in modelPath
    requires o.language != "" && '"' !in o.language && ' ' !in o.language
    requires !o.highQuality && !o.addPunctuation
    requires IsDriveLetter(drive) && name != "" && !HasSeparator(name) && '"' !in name && ' ' !in name
    ensures var audio := [drive, ':', '\\'] + name;
      Argv(RenderAll(QuotedArgumentList(modelPath, o, audio))) ==
        ["--model", modelPath, "--language", o.language, "--output_dir", [drive, ':', '\\'], audio]
  {
    var audio := [drive, ':', '\\'] + name;
    AtDriveRoot(drive, name);
    QuotedArgv(modelPath, o, audio);
  }

  /** A file directly in a drive root: its directory is the root, and it needs no quoting help. */
  lemma AtDriveRoot(drive: char, name: string)
    requires IsDriveLetter(drive) && name != "" && !HasSeparator(name) && '"' !in name && ' ' !in name
    ensures var audio := [drive, ':', '\\'] + name;
      DirectoryName(audio) == [drive, ':', '\\'] && '"' !in audio && ' ' !in audio && !EndsInBackslash(audio)
  {
    var audio := [drive, ':', '\\'] + name;
    DriveRootKept(drive, name);
    forall k | 0 <= k < |audio| ensures audio[k] != '"' && audio[k] != ' ' {
      if k >= 3 { assert audio[k] == name[k - 3]; }
    }
    assert audio[|audio| - 1] == name[|name| - 1];
  }

  /** The five bare arguments before the output directory, then two more rendered arguments. */
  lemma HeadThen(head: seq<Arg>, paths: seq<Arg>, modelPath: string, language: string)
    requires Passes(Bare(modelPath)) && language != "" && '"' !in language && ' ' !in language
    requires head == [Bare("--model"), Bare(modelPath), Bare("--language"), Bare(language), Bare("--output_dir")]
    requires |paths| > 0
    ensures Argv(RenderAll(head + paths)) == ["--model", modelPath, "--language", language, "--output_dir"] + Argv(RenderAll(paths))
  {
    W.ModelLanguageFlagsPass();
    OutputDirFlagPasses();
    assert AllPass(head);
    ArgvAppend(head, paths);
  }

  // ---------------------------------------------------------------------
  // Running the program
  // ---------------------------------------------------------------------

  /** The callback reports: one report of 1 per non-empty standard output line. */
  function ProgressReports(lines: seq<string>): (n: nat)
    ensures n <= |lines|
    ensures n == |lines| <==> forall k :: 0 <= k < |lines| ==> lines[k] != ""
    ensures n == 0 <==> forall k :: 0 <= k < |lines| ==> lines[k] == ""
  {
    if lines == [] then 0
    else
      var n := ProgressReports(lines[..|lines| - 1]);
      assert forall k :: 0 <= k < |lines| - 1 ==> lines[..|lines| - 1][k] == lines[k];
      n + (if lines[|lines| - 1] != "" then 1 else 0)
  }

  /** Reports from lines arriving in two batches add up. */
  lemma {:induction false} ReportsAppend(a: seq<string>, b: seq<string>)
    ensures ProgressReports(a + b) == ProgressReports(a) + ProgressReports(b)
    decreases |b|
  {
    if b == [] {
      assert a + b == a;
    } else {
      var b' := b[..|b| - 1];
      assert (a + b)[..|a + b| - 1] == a + b';
      assert (a + b)[|a + b| - 1] == b[|b| - 1];
      ReportsAppend(a, b');
    }
  }

  /** A finished run of the program. */
  datatype Run = Run(stdout: seq<string>, stderr: string, exitCode: int)

  datatype TranscribeError = AudioMissing(path: string) | ProgramMissing(path: string)
    | ProgramFailed(exitCode: int, stderr: string) | TranscriptMissing(path: string)

  /**
   * The outcome of `TranscribeAsync` and `TranscribeWithOptionsAsync`: the
   * audio must exist, the program must start and exit with 0, and the
   * transcript must then exist; its path is returned.
   */
  function Transcribe(c: Config, audioFilePath: string, existing: set<string>, run: Run): (r: Result<string, TranscribeError>)
    ensures audioFilePath !in existing ==> r == Failure(AudioMissing(audioFilePath))
    ensures r.Success? <==>
      audioFilePath in existing && c.whisperPath in existing && run.exitCode == 0 && OutputPathFor(audioFilePath) in existing
    ensures r.Success? ==> r.value == OutputPathFor(audioFilePath)
    ensures audioFilePath in existing && c.whisperPath in existing && run.exitCode != 0 ==>
      r == Failure(ProgramFailed(run.exitCode, run.stderr))
  {
    if audioFilePath !in existing then Failure(AudioMissing(audioFilePath))
    else
      var outputPath := OutputPathFor(audioFilePath);
      if c.whisperPath !in existing then Failure(ProgramMissing(c.whisperPath))
      else if run.exitCode != 0 then Failure(ProgramFailed(run.exitCode, run.stderr))
      else if outputPath !in existing then Failure(TranscriptMissing(outputPath))
      else Success(outputPath)
  }

  /** A successful transcription returns a path named after the audio file and lying beside it. */
  lemma TranscriptBesideAudio(c: Config, audioFilePath: string, existing: set<string>, run: Run)
    requires Transcribe(c, audioFilePath, existing, run).Success?
    requires !IsRooted(FileNameWithoutExtension(audioFilePath) + TranscriptSuffix + ".txt")
    ensures var p := Transcribe(c, audioFilePath, existing, run).value;
      DirectoryName(p) == JoinedDirectory(DirectoryName(audioFilePath)) &&
      FileNameWithoutExtension(p) == FileNameWithoutExtension(audioFilePath) + TranscriptSuffix
  {
    OutputPathBesideAudio(audioFilePath);
  }
}

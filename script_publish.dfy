/**
 * `whisper_transcribe.py` (the published copy): the development script
 * extended with a time estimate, a mid-transcription progress value,
 * quality options and a longer transcript header. What the two copies have
 * in common (`format_timestamp`, `check_dependencies`, the missing-library
 * message, the default output path and the transcript after its header) is
 * modelled once, in the `Script` module. The published `main` also passes
 * the punctuation, best-of and beam-size options on, and the published
 * `transcribe_audio` prints more messages than the development one; of
 * those messages only the progress values are modelled here.
 */
module PublishScript {
  import opened Wrappers
  import opened Text
  import Script

  /** Python's `int(x)` on a float: truncation toward zero. */
  function Trunc(x: real): (i: int)
    ensures x >= 0.0 ==> 0 <= i && i as real <= x < i as real + 1.0
    ensures x <= 0.0 ==> i <= 0 && i as real - 1.0 < x <= i as real
  {
    if x >= 0.0 then x.Floor else -((-x).Floor)
  }

  // ---------------------------------------------------------------------
  // The time estimate
  // ---------------------------------------------------------------------

  /** The model sizes from smallest to largest. */
  const ModelOrder: seq<string> := ["tiny", "base", "small", "medium", "large"]

  /** Seconds of processing per second of audio on a CUDA device. */
  const CudaFactors: map<string, real> := map["tiny" := 0.05, "base" := 0.1, "small" := 0.2, "medium" := 0.33, "large" := 0.5]

  /** Seconds of processing per second of audio on the CPU. */
  const CpuFactors: map<string, real> := map["tiny" := 0.5, "base" := 0.75, "small" := 1.0, "medium" := 1.5, "large" := 3.0]

  /** The speed factor: the CUDA table only for the device "cuda", the CPU table otherwise; 1.0 for an unknown model. */
  function SpeedFactor(device: string, modelSize: string): (f: real)
    ensures f > 0.0
    ensures modelSize !in ModelOrder ==> f == 1.0
  {
    var table := if device == "cuda" then CudaFactors else CpuFactors;
    assert table.Keys == {"tiny", "base", "small", "medium", "large"};
    if modelSize in table then table[modelSize] else 1.0
  }

  /** `estimate_completion_time`: the scaled duration, at least 5 seconds. */
  function EstimateCompletionTime(audioDuration: real, modelSize: string, device: string): (t: real)
    ensures t >= 5.0 && t >= audioDuration * SpeedFactor(device, modelSize)
    ensures t == 5.0 || t == audioDuration * SpeedFactor(device, modelSize)
  {
    var estimated := audioDuration * SpeedFactor(device, modelSize);
    if 5.0 >= estimated then 5.0 else estimated
  }

  /** Larger models are slower on both devices. */
  lemma LargerModelsSlower(device: string, i: nat, j: nat)
    requires i < j < |ModelOrder|
    ensures SpeedFactor(device, ModelOrder[i]) < SpeedFactor(device, ModelOrder[j])
  {
  }

  /** A CUDA device is never estimated slower than the CPU. */
  lemma CudaNoSlower(audioDuration: real, modelSize: string, device: string)
    requires audioDuration >= 0.0
    ensures EstimateCompletionTime(audioDuration, modelSize, "cuda") <= EstimateCompletionTime(audioDuration, modelSize, device)
  {
    var fast, slow := SpeedFactor("cuda", modelSize), SpeedFactor(device, modelSize);
    assert fast <= slow by {
      if modelSize in ModelOrder {
        var k :| 0 <= k < |ModelOrder| && ModelOrder[k] == modelSize;
        assert fast == CudaFactors[ModelOrder[k]];
      }
    }
    ScaleMonotone(audioDuration, fast, slow);
  }

  /** A longer recording is never estimated to take less time. */
  lemma EstimateMonotone(shorter: real, longer: real, modelSize: string, device: string)
    requires shorter <= longer
    ensures EstimateCompletionTime(shorter, modelSize, device) <= EstimateCompletionTime(longer, modelSize, device)
  {
    var f := SpeedFactor(device, modelSize);
    ScaleMonotone(f, shorter, longer);
  }

  lemma ScaleMonotone(x: real, a: real, b: real)
    requires x >= 0.0 && a <= b
    ensures x * a <= x * b
  {
    assert x * b - x * a == x * (b - a);
  }

  // ---------------------------------------------------------------------
  // Remaining time as text
  // ---------------------------------------------------------------------

  /** What `format_time_remaining` prints: seconds; minutes and seconds; or hours and minutes. */
  datatype Remaining = Seconds(s: int) | MinutesSeconds(m: int, s: int) | HoursMinutes(h: int, m: int)

  function Mod3600(x: real): (r: real)
    ensures 0.0 <= r < 3600.0
    ensures r == x - 3600.0 * (x / 3600.0).Floor as real
  {
    x - 3600.0 * (x / 3600.0).Floor as real
  }

  /**
   * `format_time_remaining`, branching at 60 and 3600 seconds. The parts
   * below the leading one are under 60, and the parts together give back
   * the whole seconds (minutes, in the hours branch).
   */
  function FormatTimeRemaining(seconds: real): (t: Remaining)
    ensures seconds < 60.0 ==> t == Seconds(Trunc(seconds))
    ensures 60.0 <= seconds < 3600.0 ==>
      t.MinutesSeconds? && 1 <= t.m < 60 && 0 <= t.s < 60 && 60 * t.m + t.s == seconds.Floor
    ensures 3600.0 <= seconds ==>
      t.HoursMinutes? && t.h >= 1 && 0 <= t.m < 60 && 60 * (60 * t.h + t.m) == seconds.Floor - seconds.Floor % 60
  {
    if seconds < 60.0 then Seconds(Trunc(seconds))
    else if seconds < 3600.0 then
      var parts := Script.TimestampParts(seconds);
      assert Trunc(seconds / 60.0) == Script.Div60(seconds);
      assert Trunc(Script.Mod60(seconds)) == parts.1;
      MinutesSeconds(Trunc(seconds / 60.0), Trunc(Script.Mod60(seconds)))
    else
      var h := Trunc(seconds / 3600.0);
      var m := Trunc(Mod3600(seconds) / 60.0);
      assert h == (seconds / 3600.0).Floor;
      assert 60 * h + m == Script.Div60(seconds);
      HoursMinutes(h, m)
  }

  /** The printed text. */
  function RemainingText(t: Remaining): string
  {
    match t
    case Seconds(s) => IntToDecimal(s) + " sek."
    case MinutesSeconds(m, s) => IntToDecimal(m) + " min. " + IntToDecimal(s) + " sek."
    case HoursMinutes(h, m) => IntToDecimal(h) + " godz. " + IntToDecimal(m) + " min."
  }

  // ---------------------------------------------------------------------
  // Progress
  // ---------------------------------------------------------------------

  /**
   * The progress printed after the transcription:
   * `min(90, int(20 + 70 * elapsed / estimated))`; a zero estimate raises
   * `ZeroDivisionError`.
   */
  function ProgressDuring(elapsed: real, estimated: real): (p: Option<int>)
    ensures p.None? <==> estimated == 0.0
    ensures p.Some? ==> p.value <= 90
    ensures elapsed >= 0.0 && estimated > 0.0 ==> p.Some? && p.value >= 20
    ensures elapsed >= estimated > 0.0 ==> p == Some(90)
  {
    if estimated == 0.0 then None
    else
      var x := 20.0 + 70.0 * (elapsed / estimated);
      assert elapsed >= 0.0 && estimated > 0.0 ==> x >= 20.0 by {
        if elapsed >= 0.0 && estimated > 0.0 { QuotientBounds(elapsed, estimated); }
      }
      assert elapsed >= estimated > 0.0 ==> x >= 90.0 by {
        if elapsed >= estimated > 0.0 { QuotientBounds(elapsed, estimated); }
      }
      var i := Trunc(x);
      Some(if 90 <= i then 90 else i)
  }

  lemma QuotientBounds(a: real, b: real)
    requires a >= 0.0 && b > 0.0
    ensures a / b >= 0.0
    ensures a >= b ==> a / b >= 1.0
  {
    NonNegativeQuotient(a, b);
    if a >= b {
      QuotientAtLeastOne(a, b);
    }
  }

  lemma QuotientAtLeastOne(a: real, b: real)
    requires a >= b && b > 0.0
    ensures a / b >= 1.0
  {
    var q := a / b;
    assert q * b == a;
  }

  lemma NonNegativeQuotient(a: real, b: real)
    requires a >= 0.0 && b > 0.0
    ensures a / b >= 0.0
  {
    var q := a / b;
    assert q * b == a;
  }

  /**
   * With the script's own estimate the progress values of a successful
   * run, 0, 10, 20, the mid value, 90 and 100, never decrease.
   */
  lemma ProgressNeverDecreases(audioDuration: real, modelSize: string, device: string, elapsed: real)
    requires elapsed >= 0.0
    ensures var p := ProgressDuring(elapsed, EstimateCompletionTime(audioDuration, modelSize, device));
      p.Some? && var values := [0, 10, 20, p.value, 90, 100];
      forall i, j :: 0 <= i < j < |values| ==> values[i] <= values[j]
  {
  }

  /** `speed_ratio`: audio seconds per processing second, 0 when no time was measured. */
  function SpeedRatio(audioDuration: real, totalTime: real): (r: real)
    ensures totalTime > 0.0 ==> r * totalTime == audioDuration
    ensures totalTime <= 0.0 ==> r == 0.0
    ensures audioDuration >= 0.0 ==> r >= 0.0
  {
    if totalTime > 0.0 then
      QuotientBounds(if audioDuration >= 0.0 then audioDuration else 0.0, totalTime);
      audioDuration / totalTime
    else 0.0
  }

  // ---------------------------------------------------------------------
  // Options and header
  // ---------------------------------------------------------------------

  /**
   * The options of `model.transcribe`, the development script's two entries
   * with `best_of` and `beam_size` inserted only when above 1.
   */
  method TranscribeOptions(language: string, bestOf: int, beamSize: int) returns (options: map<string, Script.PyValue>)
    ensures forall k :: k in Script.TranscribeOptions(language) ==> k in options && options[k] == Script.TranscribeOptions(language)[k]
    ensures ("best_of" in options <==> bestOf > 1) && ("best_of" in options ==> options["best_of"] == Script.PyInt(bestOf))
    ensures ("beam_size" in options <==> beamSize > 1) && ("beam_size" in options ==> options["beam_size"] == Script.PyInt(beamSize))
    ensures options.Keys <= {"language", "task", "best_of", "beam_size"}
    ensures bestOf <= 1 && beamSize <= 1 ==> options == Script.TranscribeOptions(language)
  {
    options := Script.TranscribeOptions(language);
    if bestOf > 1 {
      options := options["best_of" := Script.PyInt(bestOf)];
    }
    if beamSize > 1 {
      options := options["beam_size" := Script.PyInt(beamSize)];
    }
  }

  /**
   * The header: the development script's first four lines, the punctuation
   * line when punctuation is on, the quality line when either parameter is
   * above 1, the date and the processing time.
   */
  function Header(audioPath: string, modelSize: string, language: string, addPunctuation: bool, bestOf: int, beamSize: int,
                  date: string, processing: real): (r: seq<Script.HeaderLine>)
    ensures |r| >= 6 && r[|r| - 2] == Script.DateLine(date)
    ensures r[..4] == Script.Header(audioPath, modelSize, language, date)[..4]
    ensures Script.PunctuationLine in r <==> addPunctuation
    ensures Script.QualityLine(bestOf, beamSize) in r <==> bestOf > 1 || beamSize > 1
    ensures r[|r| - 1] == Script.ProcessingLine(RemainingText(FormatTimeRemaining(processing)))
  {
    var first := Script.Header(audioPath, modelSize, language, date)[..4];
    var punctuation := if addPunctuation then [Script.PunctuationLine] else [];
    var quality := if bestOf > 1 || beamSize > 1 then [Script.QualityLine(bestOf, beamSize)] else [];
    var last := [Script.DateLine(date), Script.ProcessingLine(RemainingText(FormatTimeRemaining(processing)))];
    assert forall k :: 0 <= k < 4 ==> !first[k].PunctuationLine? && !first[k].QualityLine?;
    assert Script.PunctuationLine !in first + quality + last;
    assert Script.QualityLine(bestOf, beamSize) !in first + punctuation + last;
    first + punctuation + quality + last
  }

  /** With punctuation and quality off, the header is the development script's plus the processing time. */
  lemma HeaderExtendsDevelopment(audioPath: string, modelSize: string, language: string, bestOf: int, beamSize: int,
                                 date: string, processing: real)
    requires bestOf <= 1 && beamSize <= 1
    ensures Header(audioPath, modelSize, language, false, bestOf, beamSize, date, processing) ==
      Script.Header(audioPath, modelSize, language, date) + [Script.ProcessingLine(RemainingText(FormatTimeRemaining(processing)))]
  {
  }
}

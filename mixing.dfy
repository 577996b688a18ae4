/**
 * `MixWavFiles`: how the two temporary recordings of a mixed session become
 * the output file. The file system and the NAudio mixing pipeline are inputs:
 * whether each temporary file exists, their sizes, whether the pipeline
 * throws and whether a file copy throws.
 */
module Mixing {
  import opened Wrappers

  /** What is known about the two temporary files when mixing starts. */
  datatype TempFiles = TempFiles(micExists: bool, systemExists: bool, micSize: int, systemSize: int)

  datatype Source = Microphone | SystemAudio

  datatype MixError =
    | TempFilesMissing      // FileNotFoundException: neither file exists
    | BothTooSmall          // InvalidOperationException: both files under 100 bytes
    | CopyFailed            // the copy of the only existing file threw
    | MixAndFallbackFailed  // InvalidOperationException wrapping the mixing error

  datatype Outcome = Mixed | Copied(source: Source) | Failed(error: MixError)

  /** The size of one source's temporary file. */
  function SizeOf(f: TempFiles, s: Source): int
  {
    match s
    case Microphone => f.micSize
    case SystemAudio => f.systemSize
  }

  predicate BothSmall(f: TempFiles)
  {
    f.micSize < 100 && f.systemSize < 100
  }

  /** The file copied when the mixing pipeline throws, if any is large enough. */
  function Fallback(f: TempFiles): (r: Option<Source>)
    ensures r == Some(Microphone) <==> f.micSize > f.systemSize && f.micSize > 1000
    ensures r == Some(SystemAudio) <==> !(f.micSize > f.systemSize && f.micSize > 1000) && f.systemSize > 1000
  {
    if f.micSize > f.systemSize && f.micSize > 1000 then Some(Microphone)
    else if f.systemSize > 1000 then Some(SystemAudio)
    else None
  }

  /** The outcome of `MixWavFiles` for the given files, pipeline and copy behaviour. */
  function MixWavFiles(f: TempFiles, pipelineThrows: bool, copyFails: bool): (r: Outcome)
    ensures r == Mixed <==>
      f.micExists && f.systemExists && !BothSmall(f) && !pipelineThrows
    ensures r == Failed(TempFilesMissing) <==> !f.micExists && !f.systemExists
    ensures r == Failed(BothTooSmall) <==> f.micExists && f.systemExists && BothSmall(f)
    ensures r == Failed(CopyFailed) <==> f.micExists != f.systemExists && copyFails
    ensures r == Failed(MixAndFallbackFailed) <==>
      f.micExists && f.systemExists && !BothSmall(f) && pipelineThrows && (copyFails || Fallback(f).None?)
  {
    if !f.micExists || !f.systemExists then
      if f.micExists && !f.systemExists then
        if copyFails then Failed(CopyFailed) else Copied(Microphone)
      else if !f.micExists && f.systemExists then
        if copyFails then Failed(CopyFailed) else Copied(SystemAudio)
      else
        Failed(TempFilesMissing)
    else if BothSmall(f) then
      Failed(BothTooSmall)
    else if !pipelineThrows then
      Mixed
    else
      match Fallback(f)
      case Some(s) => if copyFails then Failed(MixAndFallbackFailed) else Copied(s)
      case None => Failed(MixAndFallbackFailed)
  }

  /** When exactly one temporary file exists it is copied as it is: its size is never looked at. */
  lemma OnlyFileCopied(f: TempFiles, pipelineThrows: bool, micSize: int, systemSize: int)
    requires f.micExists != f.systemExists
    ensures MixWavFiles(f, pipelineThrows, false) == Copied(if f.micExists then Microphone else SystemAudio)
    ensures MixWavFiles(f, pipelineThrows, false) ==
            MixWavFiles(f.(micSize := micSize, systemSize := systemSize), !pipelineThrows, false)
  {
  }

  /** With both files present, mixing is attempted unless both are tiny, even if one of them is. */
  lemma MixedDespiteTinyFile(f: TempFiles)
    requires f.micExists && f.systemExists
    requires f.micSize < 100 && f.systemSize >= 100
    ensures MixWavFiles(f, false, false) == Mixed
  {
  }

  /**
   * The copy that replaces a failed mix is always the larger of the two
   * files, and holds more than 1000 bytes.
   */
  lemma FallbackPrefersLarger(f: TempFiles, copyFails: bool)
    requires f.micExists && f.systemExists
    requires MixWavFiles(f, true, copyFails).Copied?
    ensures var s := MixWavFiles(f, true, copyFails).source;
      SizeOf(f, s) > 1000 &&
      SizeOf(f, s) >= SizeOf(f, if s == Microphone then SystemAudio else Microphone)
  {
    var s := MixWavFiles(f, true, copyFails).source;
    assert Fallback(f) == Some(s);
  }

  // ---------------------------------------------------------------------
  // Conversion plan handed to the mixing pipeline
  // ---------------------------------------------------------------------

  /** A wave format as far as mixing cares: sample rate and channel count. */
  datatype Format = Format(sampleRate: int, channels: nat)

  /** How one source is prepared for the mixer. */
  datatype SourcePlan = SourcePlan(volume: real, toStereo: bool, resampleTo: Option<int>)

  /** The microphone is attenuated to 0.8 and made stereo when mono; it is never resampled. */
  function MicPlan(mic: Format): (p: SourcePlan)
    ensures p.volume == 0.8 && p.resampleTo == None
    ensures p.toStereo <==> mic.channels == 1
  {
    SourcePlan(0.8, mic.channels == 1, None)
  }

  /**
   * System audio is attenuated to 0.8 and resampled to the chosen rate when
   * its rate differs; its channels are never converted.
   */
  function SystemPlan(system: Format, sampleRate: int): (p: SourcePlan)
    ensures p.volume == 0.8 && !p.toStereo
    ensures p.resampleTo.Some? <==> system.sampleRate != sampleRate
    ensures p.resampleTo.Some? ==> p.resampleTo.value == sampleRate
  {
    SourcePlan(0.8, false, if system.sampleRate != sampleRate then Some(sampleRate) else None)
  }

  /** The format a source has after its plan is applied. */
  function Apply(f: Format, p: SourcePlan): Format
  {
    Format(if p.resampleTo.Some? then p.resampleTo.value else f.sampleRate, if p.toStereo then 2 else f.channels)
  }

  /**
   * The common format is stereo at the chosen rate. The microphone, captured
   * mono at that rate, and stereo system audio at any rate both reach it;
   * mono system audio never does, whatever its rate.
   */
  lemma PlanReachesCommonFormat(mic: Format, system: Format, sampleRate: int)
    ensures mic == Format(sampleRate, 1) && system.channels == 2 ==>
      Apply(mic, MicPlan(mic)) == Format(sampleRate, 2) && Apply(system, SystemPlan(system, sampleRate)) == Format(sampleRate, 2)
    ensures Apply(system, SystemPlan(system, sampleRate)).channels == system.channels
    ensures Apply(system, SystemPlan(system, sampleRate)).sampleRate == sampleRate
    ensures Apply(mic, MicPlan(mic)).sampleRate == mic.sampleRate
  {
  }
}

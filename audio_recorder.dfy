/**
 * `AudioRecorder`: records one wave-in device (44100 Hz, 16-bit, stereo,
 * 50 ms buffers) into a WAV file and reports a mean-magnitude level for
 * every buffer it writes. The device, the writer and the cancellation
 * token source are abstracted to what the recorder can observe of them;
 * whether opening them throws is an input.
 */
module AudioRecorder {
  import opened Wrappers
  import opened Pcm
  import Devices

  // ---------------------------------------------------------------------
  // CalculateLevel
  // ---------------------------------------------------------------------

  /** A single-precision quotient: a number, NaN (0 / 0) or +infinity (positive / 0). */
  datatype Level = Finite(value: real) | NaN | PositiveInfinity

  /** `sum / count` as `float` division computes it for a non-negative sum. */
  function Quotient(sum: real, count: nat): (q: Level)
    requires sum >= 0.0
    ensures q.Finite? <==> count > 0
    ensures q.Finite? ==> q.value * count as real == sum
    ensures q == NaN <==> count == 0 && sum == 0.0
  {
    if count > 0 then Finite(sum / count as real)
    else if sum == 0.0 then NaN
    else PositiveInfinity
  }

  /** The normalised magnitude |s / 32768| of sample j. */
  function Magnitude(buffer: seq<byte>, j: nat): (m: real)
    requires 2 * j + 2 <= |buffer|
    ensures 0.0 <= m <= 1.0
    ensures m == 1.0 <==> SampleAt(buffer, j) == -32768
  {
    Abs(SampleAt(buffer, j)) as real / 32768.0
  }

  /** The sum of the magnitudes of the first k samples. */
  function SumAbs(buffer: seq<byte>, k: nat): (s: real)
    requires 2 * k <= |buffer|
    ensures 0.0 <= s <= k as real
  {
    if k == 0 then 0.0 else SumAbs(buffer, k - 1) + Magnitude(buffer, k - 1)
  }

  /**
   * The level `CalculateLevel` returns: the magnitudes of the samples the
   * loop reads (every even offset below n) summed and divided by n / 2.
   */
  function MeanLevel(buffer: seq<byte>, n: nat): (r: Level)
    requires Fits(buffer, n)
    ensures r.Finite? <==> n >= 2
    ensures r == NaN <==> n == 0 || (n == 1 && SampleAt(buffer, 0) == 0)
  {
    assert n == 1 ==> SumAbs(buffer, 1) == Magnitude(buffer, 0);
    Quotient(SumAbs(buffer, SampleCount(n)), n / 2)
  }

  /**
   * For an even, non-zero byte count the level is the mean magnitude of the
   * n / 2 samples, between 0 and 1.
   */
  lemma LevelInUnitInterval(buffer: seq<byte>, n: nat)
    requires Fits(buffer, n) && n % 2 == 0 && n >= 2
    ensures MeanLevel(buffer, n) == Finite(SumAbs(buffer, n / 2) / (n / 2) as real)
    ensures 0.0 <= MeanLevel(buffer, n).value <= 1.0
  {
    var k := n / 2;
    assert SampleCount(n) == k;
    var sum := SumAbs(buffer, k);
    assert MeanLevel(buffer, n) == Finite(sum / k as real);
    MeanOfBounded(sum, k as real);
  }

  /** A sum of k terms, each in [0, 1], divided by k lies in [0, 1]. */
  lemma MeanOfBounded(sum: real, k: real)
    requires 0.0 < k && 0.0 <= sum <= k
    ensures 0.0 <= sum / k <= 1.0
  {
    var q := sum / k;
    assert q * k == sum;
  }

  /**
   * An odd byte count makes the loop read one sample more than it divides
   * by: three bytes of two full-scale samples give a level of 2.
   */
  lemma OddCountOvershoots()
    ensures MeanLevel([0, 128, 0, 128], 3) == Finite(2.0)
  {
    var b: seq<byte> := [0, 128, 0, 128];
    assert SampleAt(b, 0) == -32768 && SampleAt(b, 1) == -32768;
    assert SumAbs(b, 2) == 2.0;
  }

  /** `CalculateLevel`: the mean magnitude of the buffer's samples. */
  method CalculateLevel(buffer: seq<byte>, bytesRecorded: nat) returns (level: Level)
    requires Fits(buffer, bytesRecorded)
    ensures level == MeanLevel(buffer, bytesRecorded)
  {
    var sampleCount := bytesRecorded / 2;
    var sum := 0.0;
    var i := 0;
    ghost var j := 0;
    while i < bytesRecorded
      invariant i == 2 * j && j <= SampleCount(bytesRecorded)
      invariant sum == SumAbs(buffer, j)
    {
      var sample := Int16At(buffer, i);
      var normalized := sample as real / 32768.0;
      var magnitude := if normalized < 0.0 then -normalized else normalized;
      assert magnitude == Magnitude(buffer, j);
      sum := sum + magnitude;
      i := i + 2;
      j := j + 1;
    }
    level := Quotient(sum, sampleCount);
  }

  // ---------------------------------------------------------------------
  // GetRecordingDevices
  // ---------------------------------------------------------------------

  /** `GetRecordingDevices`: the product name of every wave-in device, in device order. */
  method GetRecordingDevices(productNames: seq<string>) returns (devices: array<string>)
    ensures fresh(devices)
    ensures devices[..] == productNames
  {
    devices := new string[|productNames|];
    var i := 0;
    while i < |productNames|
      invariant 0 <= i <= |productNames|
      invariant devices[..i] == productNames[..i]
    {
      devices[i] := productNames[i];
      i := i + 1;
    }
  }

  // ---------------------------------------------------------------------
  // Start, stop and clean-up
  // ---------------------------------------------------------------------

  /** An open wave-in device and whether `StopRecording` has been asked of it. */
  datatype Capture = Capture(config: Devices.WaveInConfig, stopRequested: bool)

  /** The `_cancellationTokenSource` field: null, live (cancelled or not) or disposed. */
  datatype Token = NoToken | Live(cancelled: bool) | Disposed

  /** A buffer delivered by `DataAvailable`. */
  datatype Chunk = Chunk(buffer: seq<byte>, bytesRecorded: nat)

  /**
   * The recorder's fields: `_isRecording`, `_waveIn`, whether `_writer` is
   * non-null, `_outputFilePath`, `_cancellationTokenSource`, the bytes
   * written through the current writer and the levels reported so far.
   */
  datatype RecorderState = RecorderState(
    isRecording: bool, waveIn: Option<Capture>, writerOpen: bool, outputFilePath: string,
    token: Token, written: seq<byte>, levels: seq<Level>)

  const Initial := RecorderState(false, None, false, "", NoToken, [], [])

  /** The device `StartRecording` opens for a device number. */
  function CaptureFor(deviceNumber: int): Capture
  {
    Capture(Devices.WaveInConfig(deviceNumber, 44100, 2), false)
  }

  /** Recording is on exactly while the device and the writer are open, and then a token exists. */
  predicate Consistent(s: RecorderState)
  {
    (s.isRecording <==> s.waveIn.Some?) && (s.isRecording <==> s.writerOpen) &&
    (s.isRecording ==> !s.token.NoToken?)
  }

  /** `CleanupRecording`: recording off, writer and device disposed and nulled. */
  function Cleaned(s: RecorderState): (r: RecorderState)
    ensures Consistent(r) && !r.isRecording
  {
    s.(isRecording := false, writerOpen := false, waveIn := None)
  }

  /**
   * `StartRecording`: refused while recording; otherwise a fresh token, and
   * then either the device and a new writer open (`ok`) or, when anything
   * throws, a clean-up.
   */
  function Start(s: RecorderState, path: string, deviceNumber: int, ok: bool): (r: (RecorderState, bool))
    ensures r.1 <==> !s.isRecording && ok
    ensures s.isRecording ==> r.0 == s
    ensures r.1 ==> r.0.isRecording && r.0.waveIn == Some(CaptureFor(deviceNumber)) && r.0.written == []
    ensures !s.isRecording ==> r.0.outputFilePath == path && r.0.token == Live(false)
    ensures !s.isRecording && !ok ==> !r.0.isRecording && r.0.waveIn == None && !r.0.writerOpen
    ensures r.0.levels == s.levels
    ensures Consistent(s) ==> Consistent(r.0)
  {
    if s.isRecording then (s, false)
    else
      var s1 := s.(outputFilePath := path, token := Live(false));
      if ok then (s1.(waveIn := Some(CaptureFor(deviceNumber)), writerOpen := true, written := [], isRecording := true), true)
      else (Cleaned(s1), false)
  }

  /**
   * `StopRecording`: only while recording. It cancels the token (which
   * throws once the token is disposed) and asks the device to stop (which
   * throws when `throws`); it never clears `isRecording` itself.
   */
  function Stop(s: RecorderState, throws: bool): (r: (RecorderState, bool))
    ensures r.0.isRecording == s.isRecording && r.0.writerOpen == s.writerOpen
    ensures r.1 <==> s.isRecording && !s.token.Disposed? && !(throws && s.waveIn.Some?)
    ensures !s.isRecording ==> r.0 == s
    ensures r.1 && s.waveIn.Some? ==> r.0.waveIn == Some(s.waveIn.value.(stopRequested := true))
    ensures r.0.written == s.written && r.0.levels == s.levels && r.0.outputFilePath == s.outputFilePath
    ensures Consistent(s) ==> Consistent(r.0)
  {
    if !s.isRecording || s.token.Disposed? then (s, false)
    else
      var s1 := s.(token := if s.token.Live? then Live(true) else s.token);
      if s1.waveIn.None? then (s1, true)
      else if throws then (s1, false)
      else (s1.(waveIn := Some(s1.waveIn.value.(stopRequested := true))), true)
  }

  /**
   * `OnDataAvailable`: with a writer open the buffer's recorded bytes are
   * written and their level reported; without one nothing happens.
   */
  function DataAvailable(s: RecorderState, c: Chunk): (r: RecorderState)
    requires s.writerOpen ==> Fits(c.buffer, c.bytesRecorded)
    ensures !s.writerOpen ==> r == s
    ensures s.writerOpen ==> r.written == s.written + c.buffer[..c.bytesRecorded]
    ensures s.writerOpen ==> r.levels == s.levels + [MeanLevel(c.buffer, c.bytesRecorded)]
    ensures r.isRecording == s.isRecording && r.waveIn == s.waveIn && r.writerOpen == s.writerOpen
    ensures r.token == s.token && r.outputFilePath == s.outputFilePath
  {
    if s.writerOpen then
      s.(written := s.written + c.buffer[..c.bytesRecorded],
         levels := s.levels + [MeanLevel(c.buffer, c.bytesRecorded)])
    else s
  }

  /** Every chunk's recorded bytes lie inside its buffer. */
  predicate AllFit(chunks: seq<Chunk>)
  {
    forall k :: 0 <= k < |chunks| ==> Fits(chunks[k].buffer, chunks[k].bytesRecorded)
  }

  /** The recorded bytes of the chunks, one after another. */
  function Concat(chunks: seq<Chunk>): seq<byte>
    requires AllFit(chunks)
  {
    if chunks == [] then []
    else Concat(chunks[..|chunks| - 1]) + chunks[|chunks| - 1].buffer[..chunks[|chunks| - 1].bytesRecorded]
  }

  /** The state after each chunk has been delivered in turn. */
  function Deliver(s: RecorderState, chunks: seq<Chunk>): RecorderState
    requires AllFit(chunks)
  {
    if chunks == [] then s
    else DataAvailable(Deliver(s, chunks[..|chunks| - 1]), chunks[|chunks| - 1])
  }

  /**
   * Delivering buffers to an open writer appends exactly their recorded
   * bytes and one level per buffer, and changes nothing else; with no
   * writer it changes nothing at all.
   */
  lemma {:induction false} DeliverAppends(s: RecorderState, chunks: seq<Chunk>)
    requires AllFit(chunks)
    ensures s.writerOpen ==> Deliver(s, chunks).written == s.written + Concat(chunks)
    ensures |Deliver(s, chunks).levels| == |s.levels| + (if s.writerOpen then |chunks| else 0)
    ensures !s.writerOpen ==> Deliver(s, chunks) == s
    ensures Deliver(s, chunks) == s.(written := Deliver(s, chunks).written, levels := Deliver(s, chunks).levels)
  {
    if chunks != [] {
      var init := chunks[..|chunks| - 1];
      assert AllFit(init) by {
        forall k | 0 <= k < |init| ensures Fits(init[k].buffer, init[k].bytesRecorded) {
          assert init[k] == chunks[k];
        }
      }
      DeliverAppends(s, init);
      if s.writerOpen {
        var last := chunks[|chunks| - 1];
        assert Deliver(s, chunks).written == Deliver(s, init).written + last.buffer[..last.bytesRecorded];
        assert s.written + Concat(init) + last.buffer[..last.bytesRecorded] == s.written + Concat(chunks);
      }
    }
  }

  /**
   * A whole session from an idle recorder: a successful start, buffers
   * delivered, a successful stop (still recording) and the device's
   * `RecordingStopped` (clean-up) leave the recorder idle with the file
   * holding exactly the recorded bytes and one level per buffer.
   */
  lemma Session(s: RecorderState, path: string, deviceNumber: int, chunks: seq<Chunk>)
    requires !s.isRecording && AllFit(chunks)
    ensures var (s1, started) := Start(s, path, deviceNumber, true);
      var (s2, stopped) := Stop(Deliver(s1, chunks), false);
      var s3 := Cleaned(s2);
      started && stopped && s2.isRecording && !s3.isRecording && Consistent(s3) &&
      s3.written == Concat(chunks) && |s3.levels| == |s.levels| + |chunks| && s3.outputFilePath == path
  {
    var s1 := Start(s, path, deviceNumber, true).0;
    DeliverAppends(s1, chunks);
  }

  /** Clean-up twice is clean-up once. */
  lemma CleanupIdempotent(s: RecorderState)
    ensures Cleaned(Cleaned(s)) == Cleaned(s)
  {
  }

  /** The recorder object, its fields updated in place by the methods below. */
  class Recorder {
    var isRecording: bool
    var waveIn: Option<Capture>
    var writerOpen: bool
    var outputFilePath: string
    var token: Token
    var written: seq<byte>
    var levels: seq<Level>

    function State(): RecorderState
      reads this
    {
      RecorderState(isRecording, waveIn, writerOpen, outputFilePath, token, written, levels)
    }

    ghost predicate Valid()
      reads this
    {
      Consistent(State())
    }

    constructor ()
      ensures State() == Initial && Valid()
    {
      isRecording := false;
      waveIn := None;
      writerOpen := false;
      outputFilePath := "";
      token := NoToken;
      written := [];
      levels := [];
    }

    /** `CleanupRecording` (also the whole of `OnRecordingStopped`). */
    method CleanupRecording()
      modifies this
      ensures State() == Cleaned(old(State())) && Valid()
    {
      isRecording := false;
      writerOpen := false;
      waveIn := None;
    }

    /** `StartRecording`; `ok` says whether opening the device and the writer succeeds. */
    method StartRecording(path: string, deviceNumber: int, ok: bool) returns (started: bool)
      requires Valid()
      modifies this
      ensures (State(), started) == Start(old(State()), path, deviceNumber, ok) && Valid()
    {
      if isRecording {
        return false;
      }
      outputFilePath := path;
      token := Live(false);
      if !ok {
        CleanupRecording();
        return false;
      }
      waveIn := Some(CaptureFor(deviceNumber));
      writerOpen := true;
      written := [];
      isRecording := true;
      return true;
    }

    /** `StopRecording`; `throws` says whether the device's `StopRecording` throws. */
    method StopRecording(throws: bool) returns (stopped: bool)
      requires Valid()
      modifies this
      ensures (State(), stopped) == Stop(old(State()), throws) && Valid()
    {
      if !isRecording {
        return false;
      }
      if token.Disposed? {
        // Cancel on a disposed source throws ObjectDisposedException
        return false;
      }
      if token.Live? {
        token := Live(true);
      }
      if waveIn.Some? {
        if throws {
          return false;
        }
        waveIn := Some(waveIn.value.(stopRequested := true));
      }
      return true;
    }

    /** `OnDataAvailable` for one delivered buffer. */
    method OnDataAvailable(buffer: seq<byte>, bytesRecorded: nat)
      requires Valid() && (writerOpen ==> Fits(buffer, bytesRecorded))
      modifies this
      ensures State() == DataAvailable(old(State()), Chunk(buffer, bytesRecorded)) && Valid()
    {
      if writerOpen {
        written := written + buffer[..bytesRecorded];
        var level := CalculateLevel(buffer, bytesRecorded);
        levels := levels + [level];
      }
    }

    /** `Dispose`: stop, then dispose the token source if there is one. */
    method Dispose(throws: bool)
      requires Valid()
      modifies this
      ensures State() == var s := Stop(old(State()), throws).0;
                         s.(token := if s.token.NoToken? then NoToken else Disposed)
      ensures Valid()
    {
      var stopped := StopRecording(throws);
      if !token.NoToken? {
        token := Disposed;
      }
    }
  }
}

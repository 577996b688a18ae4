/**
 * The high-pass and low-pass biquad sample providers of the recording form.
 *
 * Both providers share the same `Read` loop and differ only in the numerator
 * coefficients computed at construction.  The model works over `real`; the
 * trigonometric values cos(w0) and alpha = sin(w0)/(2q) are parameters.
 */
module Filters {
  import opened Wrappers

  /**
   * The five-slot coefficient array in the source's layout: slots 0..2 hold the
   * numerator divided by a0, slot 3 holds a0 itself and slot 4 holds a1 / a0.
   * `Read` never uses slot 3, and there is no a2: the y[n-2] term is taken with
   * coefficient 1.
   */
  datatype Coefficients = Coefficients(c0: real, c1: real, c2: real, c3: real, c4: real)

  /**
   * High-pass design (Audio EQ Cookbook numerator, a0 = 1 + alpha, a1 = -2 cos w0).
   * None when a0 is zero, where single precision would produce infinities.
   */
  function HighPassCoefficients(cosW0: real, alpha: real): (r: Option<Coefficients>)
    ensures r.Some? <==> 1.0 + alpha != 0.0
    ensures r.Some? ==> r.value.c3 == 1.0 + alpha
    ensures r.Some? ==> r.value.c0 == r.value.c2 && r.value.c1 == -2.0 * r.value.c0
    ensures r.Some? ==> r.value.c0 + r.value.c1 + r.value.c2 == 0.0
    ensures r.Some? ==> r.value.c4 * (1.0 + alpha) == -2.0 * cosW0
  {
    var a0 := 1.0 + alpha;
    if a0 == 0.0 then None
    else
      var b0 := (1.0 + cosW0) / 2.0;
      Some(Coefficients(b0 / a0, -(1.0 + cosW0) / a0, b0 / a0, a0, -2.0 * cosW0 / a0))
  }

  /** Low-pass design: the same denominator, numerator (1 - cos w0)/2, 1 - cos w0, (1 - cos w0)/2. */
  function LowPassCoefficients(cosW0: real, alpha: real): (r: Option<Coefficients>)
    ensures r.Some? <==> 1.0 + alpha != 0.0
    ensures r.Some? ==> r.value.c3 == 1.0 + alpha
    ensures r.Some? ==> r.value.c0 == r.value.c2 && r.value.c1 == 2.0 * r.value.c0
    ensures r.Some? ==> r.value.c0 - r.value.c1 + r.value.c2 == 0.0
    ensures r.Some? ==> r.value.c4 * (1.0 + alpha) == -2.0 * cosW0
  {
    var a0 := 1.0 + alpha;
    if a0 == 0.0 then None
    else
      var b0 := (1.0 - cosW0) / 2.0;
      Some(Coefficients(b0 / a0, (1.0 - cosW0) / a0, b0 / a0, a0, -2.0 * cosW0 / a0))
  }

  /**
   * The registers of one channel: x[n-2], x[n-1], x[n] and y[n-2], y[n-1], y[n].
   * The source keeps them at slots 3k, 3k+1, 3k+2 of its `xv` and `yv` arrays.
   */
  datatype Taps = Taps(x2: real, x1: real, x0: real, y2: real, y1: real, y0: real)

  /**
   * The source's update for one sample x of a channel: both registers shift by
   * one and the new output is computed from the shifted values, with the y[n-2]
   * term taken with coefficient 1.
   */
  function Shift(t: Taps, c: Coefficients, x: real): Taps
  {
    Taps(t.x1, t.x0, x, t.y1, t.y0, Output(c, x, t.x0, t.x1, t.y0, t.y1))
  }

  /** y[n] = c0 x[n] + c1 x[n-1] + c2 x[n-2] - c4 y[n-1] - y[n-2]. */
  function Output(c: Coefficients, x0: real, x1: real, x2: real, y1: real, y2: real): real
  {
    c.c0 * x0 + c.c1 * x1 + c.c2 * x2 - c.c4 * y1 - y2
  }

  /** All channels' registers, indexed by channel. */
  type Registers = seq<Taps>

  const Cleared: Taps := Taps(0.0, 0.0, 0.0, 0.0, 0.0, 0.0)

  /**
   * Filtering the first n samples one `Read` call delivers: sample i belongs to
   * channel i % channels (counted from the start of the call) and is replaced by
   * the newest output of that channel.  Returns the final registers and the outputs.
   */
  function Run(h: Registers, c: Coefficients, input: seq<real>, n: nat): (r: (Registers, seq<real>))
    requires |h| >= 1 && n <= |input|
    ensures |r.0| == |h| && |r.1| == n
  {
    if n == 0 then (h, [])
    else
      var before := Run(h, c, input, n - 1);
      var ch := (n - 1) % |h|;
      var t := Shift(before.0[ch], c, input[n - 1]);
      (before.0[ch := t], before.1 + [t.y0])
  }

  /** The last sample of a run updates only its own channel, and its output is that channel's newest y. */
  lemma RunStep(h: Registers, c: Coefficients, input: seq<real>, n: nat)
    requires |h| >= 1 && n < |input|
    ensures var before := Run(h, c, input, n);
            var after := Run(h, c, input, n + 1);
            after.0 == before.0[n % |h| := Shift(before.0[n % |h|], c, input[n])] &&
            after.1 == before.1 + [after.0[n % |h|].y0]
  {
  }

  /** The k-th output of a run is the newest output of sample k's channel right after sample k. */
  lemma {:induction false} RunOutput(h: Registers, c: Coefficients, input: seq<real>, n: nat, k: nat)
    requires |h| >= 1 && k < n <= |input|
    ensures Run(h, c, input, n).1[k] == Run(h, c, input, k + 1).0[k % |h|].y0
  {
    RunStep(h, c, input, n - 1);
    if k < n - 1 {
      RunOutput(h, c, input, n - 1, k);
    } else {
      assert k + 1 == n;
    }
  }

  /**
   * Channels never interact: two runs whose inputs agree on the samples of
   * channel ch, started from registers that agree on ch, end with the same
   * registers for ch.
   */
  lemma {:induction false} ChannelsIndependent(h1: Registers, h2: Registers, c: Coefficients,
                                               in1: seq<real>, in2: seq<real>, n: nat, ch: nat)
    requires |h1| == |h2| >= 1 && ch < |h1| && h1[ch] == h2[ch]
    requires n <= |in1| && n <= |in2|
    requires forall k :: 0 <= k < n && k % |h1| == ch ==> in1[k] == in2[k]
    ensures Run(h1, c, in1, n).0[ch] == Run(h2, c, in2, n).0[ch]
  {
    if n > 0 {
      ChannelsIndependent(h1, h2, c, in1, in2, n - 1, ch);
      RunStep(h1, c, in1, n - 1);
      RunStep(h2, c, in2, n - 1);
    }
  }

  /** ...and produce the same outputs for the samples of channel ch. */
  lemma ChannelOutputsIndependent(h1: Registers, h2: Registers, c: Coefficients,
                                  in1: seq<real>, in2: seq<real>, n: nat, ch: nat)
    requires |h1| == |h2| >= 1 && ch < |h1| && h1[ch] == h2[ch]
    requires n <= |in1| && n <= |in2|
    requires forall k :: 0 <= k < n && k % |h1| == ch ==> in1[k] == in2[k]
    ensures forall k :: 0 <= k < n && k % |h1| == ch ==> Run(h1, c, in1, n).1[k] == Run(h2, c, in2, n).1[k]
  {
    forall k | 0 <= k < n && k % |h1| == ch
      ensures Run(h1, c, in1, n).1[k] == Run(h2, c, in2, n).1[k]
    {
      RunOutput(h1, c, in1, n, k);
      RunOutput(h2, c, in2, n, k);
      ChannelsIndependent(h1, h2, c, in1, in2, k + 1, ch);
    }
  }

  lemma {:induction false} MultipleAtLeast(m: int, c: int)
    requires m >= 1 && c >= 1
    ensures m * c >= c
    decreases m
  {
    if m > 1 {
      MultipleAtLeast(m - 1, c);
      assert m * c == (m - 1) * c + c;
    }
  }

  /** Division with remainder has one answer: a = q c + r with 0 <= r < c fixes a % c. */
  lemma ModUnique(a: int, c: int, q: int, r: int)
    requires c >= 1 && a == q * c + r && 0 <= r < c
    ensures a % c == r
  {
    var q' := a / c;
    var r' := a % c;
    assert a == q' * c + r';
    assert (q - q') * c == r' - r by {
      assert q * c - q' * c == (q - q') * c;
    }
    if q > q' {
      MultipleAtLeast(q - q', c);
    } else if q < q' {
      MultipleAtLeast(q' - q, c);
    }
  }

  /** Samples whose indices differ by less than the channel count belong to different channels. */
  lemma ChannelsOfNeighbours(k: nat, d: nat, channels: nat)
    requires 0 < d < channels && d <= k
    ensures (k - d) % channels != k % channels
  {
    var q := k / channels;
    var r := k % channels;
    assert k == q * channels + r;
    if r >= d {
      ModUnique(k - d, channels, q, r - d);
    } else {
      ModUnique(k - d, channels, q - 1, r - d + channels);
    }
  }

  /** Samples whose indices differ by exactly the channel count belong to the same channel. */
  lemma SameChannelOneFrameBack(k: nat, channels: nat)
    requires 1 <= channels <= k
    ensures (k - channels) % channels == k % channels
  {
    var q := k / channels;
    assert k == q * channels + k % channels;
    ModUnique(k - channels, channels, q - 1, k % channels);
  }

  /** A channel's registers are left alone by samples of the other channels. */
  lemma {:induction false} Untouched(h: Registers, c: Coefficients, input: seq<real>, n: nat, m: nat, ch: nat)
    requires |h| >= 1 && ch < |h| && n <= m <= |input|
    requires forall k :: n <= k < m ==> k % |h| != ch
    ensures Run(h, c, input, m).0[ch] == Run(h, c, input, n).0[ch]
    decreases m - n
  {
    if m > n {
      Untouched(h, c, input, n, m - 1, ch);
      RunStep(h, c, input, m - 1);
    }
  }

  /** Between a sample and the same channel's sample one frame later, that channel is not touched. */
  lemma OneFrame(h: Registers, c: Coefficients, input: seq<real>, k: nat)
    requires |h| >= 1 && |h| <= k < |input|
    ensures Run(h, c, input, k).0[k % |h|] == Run(h, c, input, k - |h| + 1).0[k % |h|]
  {
    var channels := |h|;
    forall j | k - channels + 1 <= j < k
      ensures j % channels != k % channels
    {
      ChannelsOfNeighbours(k, k - j, channels);
    }
    Untouched(h, c, input, k - channels + 1, k, k % channels);
  }

  /**
   * What the filter computes: with C channels interleaved, every output from the
   * third frame on obeys the difference equation on its own channel,
   * out[k] = c0 in[k] + c1 in[k-C] + c2 in[k-2C] - c4 out[k-C] - out[k-2C].
   */
  lemma InterleavedRecurrence(h: Registers, c: Coefficients, input: seq<real>, n: nat, k: nat)
    requires |h| >= 1 && 2 * |h| <= k < n <= |input|
    ensures var C := |h|;
            var out := Run(h, c, input, n).1;
            out[k] == Output(c, input[k], input[k - C], input[k - 2 * C], out[k - C], out[k - 2 * C])
  {
    var C := |h|;
    var ch := k % C;
    SameChannelOneFrameBack(k, C);
    SameChannelOneFrameBack(k - C, C);
    RunOutput(h, c, input, n, k);
    RunOutput(h, c, input, n, k - C);
    RunOutput(h, c, input, n, k - 2 * C);
    RunStep(h, c, input, k);
    RunStep(h, c, input, k - C);
    RunStep(h, c, input, k - 2 * C);
    OneFrame(h, c, input, k);
    OneFrame(h, c, input, k - C);
  }

  predicate AllZero(s: seq<real>)
  {
    forall k :: 0 <= k < |s| ==> s[k] == 0.0
  }

  /** Silence in, silence out: from cleared registers, all-zero input gives all-zero output. */
  lemma {:induction false} SilenceStaysSilent(c: Coefficients, channels: nat, input: seq<real>, n: nat)
    requires channels >= 1 && n <= |input| && AllZero(input)
    ensures Run(seq(channels, _ => Cleared), c, input, n).0 == seq(channels, _ => Cleared)
    ensures AllZero(Run(seq(channels, _ => Cleared), c, input, n).1)
  {
    if n > 0 {
      var z := seq(channels, _ => Cleared);
      SilenceStaysSilent(c, channels, input, n - 1);
      RunStep(z, c, input, n - 1);
      assert z[(n - 1) % channels := Cleared] == z;
    }
  }

  /** The source's flat register layout read as per-channel taps. */
  function Layout(xs: seq<real>, ys: seq<real>, channels: nat): (h: Registers)
    requires |xs| == 3 * channels && |ys| == 3 * channels
    ensures |h| == channels
  {
    seq(channels, k requires 0 <= k < channels =>
      Taps(xs[3 * k], xs[3 * k + 1], xs[3 * k + 2], ys[3 * k], ys[3 * k + 1], ys[3 * k + 2]))
  }

  /** Rewriting the three slots of channel ch in the flat arrays rewrites that channel's taps and no other. */
  lemma LayoutUpdate(xs: seq<real>, ys: seq<real>, channels: nat, ch: nat, t: Taps)
    requires |xs| == 3 * channels && |ys| == 3 * channels && ch < channels
    ensures Layout(xs[3 * ch := t.x2][3 * ch + 1 := t.x1][3 * ch + 2 := t.x0],
                   ys[3 * ch := t.y2][3 * ch + 1 := t.y1][3 * ch + 2 := t.y0], channels)
            == Layout(xs, ys, channels)[ch := t]
  {
    var xs' := xs[3 * ch := t.x2][3 * ch + 1 := t.x1][3 * ch + 2 := t.x0];
    var ys' := ys[3 * ch := t.y2][3 * ch + 1 := t.y1][3 * ch + 2 := t.y0];
    forall k | 0 <= k < channels && k != ch
      ensures Layout(xs', ys', channels)[k] == Layout(xs, ys, channels)[k]
    {
      assert 3 * k + 2 < 3 * ch || 3 * ch + 2 < 3 * k;
    }
  }

  /**
   * In the layout p + o + rest + s, the sample just after `o` is rest[0], and
   * overwriting it moves the boundary one place to the right.
   */
  lemma Overwrite(p: seq<real>, o: seq<real>, rest: seq<real>, s: seq<real>, y: real)
    requires |rest| > 0
    ensures (p + o + rest + s)[|p| + |o|] == rest[0]
    ensures (p + o + rest + s)[|p| + |o| := y] == p + (o + [y]) + rest[1..] + s
  {
  }

  /** The three windows of the layout p + o + s. */
  lemma Window(whole: seq<real>, p: seq<real>, o: seq<real>, s: seq<real>)
    requires whole == p + o + s
    ensures whole[..|p|] == p && whole[|p|..|p| + |o|] == o && whole[|p| + |o|..] == s
  {
  }

  /** The wrapped provider's `Read`: it writes `produced` into the buffer at `offset` and nothing else. */
  method Upstream(buffer: array<real>, offset: nat, produced: seq<real>)
    requires offset + |produced| <= buffer.Length
    modifies buffer
    ensures buffer[..] == old(buffer[..offset]) + produced + old(buffer[offset + |produced|..])
  {
    forall k | 0 <= k < |produced| {
      buffer[offset + k] := produced[k];
    }
  }

  /**
   * One filter provider (`HighPassFilterSampleProvider` or
   * `LowPassFilterSampleProvider`): fixed coefficients and channel count, and the
   * two register arrays it updates in place.
   */
  class Biquad {
    const channels: nat
    const coeffs: Coefficients
    var xv: array<real>
    var yv: array<real>

    ghost predicate Valid()
      reads this
    {
      channels >= 1 && xv.Length == 3 * channels && yv.Length == 3 * channels && xv != yv
    }

    /** The registers, channel by channel. */
    function State(): (h: Registers)
      reads this, xv, yv
      requires Valid()
      ensures |h| == channels
    {
      Layout(xv[..], yv[..], channels)
    }

    /** The constructor: registers sized three per channel and cleared. */
    constructor (channels: nat, coeffs: Coefficients)
      requires channels >= 1
      ensures Valid() && fresh(xv) && fresh(yv)
      ensures this.channels == channels && this.coeffs == coeffs
      ensures State() == seq(channels, _ => Cleared)
    {
      this.channels := channels;
      this.coeffs := coeffs;
      xv := new real[3 * channels](_ => 0.0);
      yv := new real[3 * channels](_ => 0.0);
    }

    /** The body of `Read`'s loop for one sample: shift channel ch's registers and compute its newest output. */
    method Filter(ch: nat, x: real) returns (y: real)
      requires Valid() && ch < channels
      modifies xv, yv
      ensures Valid()
      ensures State() == old(State())[ch := Shift(old(State())[ch], coeffs, x)]
      ensures y == State()[ch].y0
    {
      ghost var xs := xv[..];
      ghost var ys := yv[..];
      ghost var current := State()[ch];
      assert current == Taps(xs[3 * ch], xs[3 * ch + 1], xs[3 * ch + 2], ys[3 * ch], ys[3 * ch + 1], ys[3 * ch + 2]);
      ghost var t := Shift(current, coeffs, x);
      var channelOffset := ch * 3;
      xv[channelOffset] := xv[channelOffset + 1];
      xv[channelOffset + 1] := xv[channelOffset + 2];
      xv[channelOffset + 2] := x;
      yv[channelOffset] := yv[channelOffset + 1];
      yv[channelOffset + 1] := yv[channelOffset + 2];
      assert xv[channelOffset] == current.x1 && xv[channelOffset + 1] == current.x0 && xv[channelOffset + 2] == x;
      assert yv[channelOffset] == current.y1 && yv[channelOffset + 1] == current.y0;
      yv[channelOffset + 2] := Output(coeffs, xv[channelOffset + 2], xv[channelOffset + 1], xv[channelOffset],
                                      yv[channelOffset + 1], yv[channelOffset]);
      y := yv[channelOffset + 2];
      assert xv[..] == xs[3 * ch := t.x2][3 * ch + 1 := t.x1][3 * ch + 2 := t.x0];
      assert yv[..] == ys[3 * ch := t.y2][3 * ch + 1 := t.y1][3 * ch + 2 := t.y0];
      LayoutUpdate(xs, ys, channels, ch, t);
    }

    /**
     * One iteration of `Read`'s loop: filters sample i of the call, stored at
     * buffer[offset + i], as a sample of channel i % channels and writes the
     * result back.  `outputs` are the filtered samples before it.
     */
    method FilterAt(buffer: array<real>, offset: nat, i: nat, ghost start: Registers, ghost produced: seq<real>,
                    ghost before: seq<real>, ghost outputs: seq<real>, ghost after: seq<real>) returns (y: real)
      requires Valid() && buffer != xv && buffer != yv
      requires |start| == channels && i < |produced| && |before| == offset
      requires (State(), outputs) == Run(start, coeffs, produced, i)
      requires buffer[..] == before + outputs + produced[i..] + after
      modifies buffer, xv, yv
      ensures Valid()
      ensures (State(), outputs + [y]) == Run(start, coeffs, produced, i + 1)
      ensures buffer[..] == before + (outputs + [y]) + produced[i + 1..] + after
    {
      Overwrite(before, outputs, produced[i..], after, buffer[offset + i]);
      var ch := i % channels;
      y := Filter(ch, buffer[offset + i]);
      buffer[offset + i] := y;
      assert produced[i..][1..] == produced[i + 1..];
      Overwrite(before, outputs, produced[i..], after, y);
      RunStep(start, coeffs, produced, i);
    }

    /**
     * `Read`: the upstream provider writes `produced` at `offset`; each of those
     * samples is then replaced by its filtered value.  Returns the upstream count.
     */
    method Read(buffer: array<real>, offset: nat, count: nat, produced: seq<real>) returns (samplesRead: nat)
      requires Valid()
      requires offset + count <= buffer.Length && |produced| <= count
      requires buffer != xv && buffer != yv
      modifies buffer, xv, yv
      ensures Valid()
      ensures samplesRead == |produced|
      ensures State() == Run(old(State()), coeffs, produced, |produced|).0
      ensures buffer[offset..offset + samplesRead] == Run(old(State()), coeffs, produced, |produced|).1
      ensures buffer[..offset] == old(buffer[..offset])
      ensures buffer[offset + samplesRead..] == old(buffer[offset + samplesRead..])
    {
      ghost var start := State();
      ghost var before := old(buffer[..offset]);
      ghost var after := old(buffer[offset + |produced|..]);
      samplesRead := |produced|;
      Upstream(buffer, offset, produced);
      assert buffer[..] == before + [] + produced[0..] + after;
      var i := 0;
      ghost var outputs: seq<real> := [];
      while i < samplesRead
        invariant 0 <= i <= samplesRead
        invariant Valid()
        invariant (State(), outputs) == Run(start, coeffs, produced, i)
        invariant buffer[..] == before + outputs + produced[i..] + after
      {
        var y := FilterAt(buffer, offset, i, start, produced, before, outputs, after);
        outputs := outputs + [y];
        i := i + 1;
      }
      Window(buffer[..], before, outputs, after);
    }
  }
}

/** AudioMixer::resample and AudioMixer::convertFormat on 16-bit samples. */
module FormatConversion {
  import opened Bytes
  import opened Pcm

  /** 16 bits per sample throughout. */
  datatype AudioFormat = AudioFormat(sampleRate: int, channels: int)

  predicate Usable(f: AudioFormat) {
    f.sampleRate > 0 && f.channels > 0
  }

  // ----- resampling -----

  function OutputFrames(frames: nat, inRate: int, outRate: int): nat
    requires inRate > 0 && outRate > 0
  {
    MulNonNegative(frames, outRate);
    frames * outRate / inRate
  }

  lemma MulNonNegative(a: int, b: int)
    requires a >= 0 && b >= 0
    ensures a * b >= 0
  {
  }

  /** The source frame left of output frame i. */
  function SourceFrame(i: nat, inRate: int, outRate: int): nat
    requires inRate > 0 && outRate > 0
  {
    MulNonNegative(i, inRate);
    i * inRate / outRate
  }

  /** How far output frame i lies past that source frame, in units of 1/outRate. */
  function SourceOffset(i: nat, inRate: int, outRate: int): (offset: nat)
    requires inRate > 0 && outRate > 0
    ensures offset < outRate
  {
    MulNonNegative(i, inRate);
    i * inRate % outRate
  }

  /** Linear interpolation between two samples, rounded toward zero. */
  function Interpolate(left: int16, right: int16, offset: nat, outRate: int): (v: int16)
    requires 0 <= offset < outRate
    ensures (left <= right ==> left <= v <= right) && (right <= left ==> right <= v <= left)
  {
    Convexity(left, right, offset, outRate);
    TruncDiv(left * (outRate - offset) + right * offset, outRate)
  }

  lemma Convexity(left: int, right: int, offset: nat, outRate: int)
    requires 0 <= offset < outRate
    ensures var v := TruncDiv(left * (outRate - offset) + right * offset, outRate);
            (left <= right ==> left <= v <= right) && (right <= left ==> right <= v <= left)
  {
    var n := left * (outRate - offset) + right * offset;
    assert n == left * outRate + (right - left) * offset;
    assert n == right * outRate + (left - right) * (outRate - offset);
    if left <= right {
      MulNonNegative(right - left, offset);
      MulNonNegative(right - left, outRate - offset);
      TruncDivBetween(n, outRate, left, right);
    } else {
      MulNonNegative(left - right, offset);
      MulNonNegative(left - right, outRate - offset);
      TruncDivBetween(n, outRate, right, left);
    }
  }

  lemma TruncDivBetween(n: int, d: int, lo: int, hi: int)
    requires d > 0 && lo * d <= n <= hi * d
    ensures lo <= TruncDiv(n, d) <= hi
  {
    if n >= 0 {
      DivBetween(n, d, lo, hi);
    } else {
      DivBetween(-n, d, -hi, -lo);
    }
  }

  lemma DivBetween(n: int, d: int, lo: int, hi: int)
    requires d > 0 && n >= 0 && lo * d <= n <= hi * d
    ensures lo <= n / d <= hi
  {
    var q := n / d;
    assert q * d <= n < (q + 1) * d;
    if q < lo { LessMul(q + 1, lo, d); }
    if hi < q { LessMul(hi + 1, q, d); }
  }

  lemma LessMul(a: int, b: int, d: int)
    requires a <= b && d > 0
    ensures a * d <= b * d
  {
  }

  /** Every source frame the loop reads exists. */
  lemma SourceInRange(i: nat, frames: nat, inRate: int, outRate: int)
    requires inRate > 0 && outRate > 0 && i < OutputFrames(frames, inRate, outRate)
    ensures SourceFrame(i, inRate, outRate) < frames
  {
    var n := OutputFrames(frames, inRate, outRate);
    assert n * inRate <= frames * outRate;
    LessMul(i + 1, n, inRate);
    var src := SourceFrame(i, inRate, outRate);
    assert src * outRate <= i * inRate;
    if src >= frames { LessMul(frames, src, outRate); }
  }

  lemma SlotInRange(frame: nat, channel: nat, frames: nat, channels: nat)
    requires frame < frames && channel < channels
    ensures 0 <= frame * channels + channel < frames * channels
  {
    LessMul(frame + 1, frames, channels);
  }

  /** Output frame i of one channel. */
  function ResampledAt(input: seq<int16>, inRate: int, outRate: int, channels: nat, i: nat, ch: nat): int16
    requires inRate > 0 && outRate > 0 && ch < channels
    requires i < OutputFrames(|input| / channels, inRate, outRate)
  {
    var frames := |input| / channels;
    var src := SourceFrame(i, inRate, outRate);
    SourceInRange(i, frames, inRate, outRate);
    SlotInRange(src, ch, frames, channels);
    var left := input[src * channels + ch];
    if src + 1 < frames then
      SlotInRange(src + 1, ch, frames, channels);
      Interpolate(left, input[(src + 1) * channels + ch], SourceOffset(i, inRate, outRate), outRate)
    else
      left
  }

  lemma SlotOf(j: nat, frames: nat, channels: nat)
    requires j < frames * channels
    ensures channels > 0 && j / channels < frames && j % channels < channels
    ensures j / channels * channels + j % channels == j
  {
    NoChannels(frames, channels);
    if j / channels >= frames { LessMul(frames, j / channels, channels); }
  }

  lemma NoChannels(frames: nat, channels: nat)
    requires 0 < frames * channels
    ensures channels > 0
  {
  }

  function Resampled(input: seq<int16>, inRate: int, outRate: int, channels: nat): (output: seq<int16>)
    requires inRate > 0 && outRate > 0 && channels > 0
    ensures |output| == OutputFrames(|input| / channels, inRate, outRate) * channels
  {
    var frames := OutputFrames(|input| / channels, inRate, outRate);
    MulNonNegative(frames, channels);
    seq(frames * channels, j requires 0 <= j < frames * channels =>
      SlotOf(j, frames, channels);
      ResampledAt(input, inRate, outRate, channels, j / channels, j % channels))
  }

  /** The loop's source index and fraction, computed in reals, are the exact quotient and remainder. */
  lemma IndexInReals(i: nat, inRate: int, outRate: int)
    requires inRate > 0 && outRate > 0
    ensures var index := i as real * (inRate as real / outRate as real);
            && Trunc(index) == SourceFrame(i, inRate, outRate)
            && index - Trunc(index) as real == SourceOffset(i, inRate, outRate) as real / outRate as real
  {
    hide Trunc;
    MulNonNegative(i, inRate);
    var n, d := i * inRate, outRate;
    ScaleQuotient(i as real, inRate as real, d as real);
    assert i as real * inRate as real == n as real;
    assert i as real * (inRate as real / outRate as real) == n as real / d as real;
    TruncOfQuotient(n, d);
    SplitInReals(n, d);
  }

  lemma SplitInReals(n: nat, d: int)
    requires d > 0
    ensures n as real / d as real == (n / d) as real + (n % d) as real / d as real
  {
    var q, r := n / d, n % d;
    assert n == q * d + r;
    assert (q * d) as real == q as real * d as real;
    QuotientSplit(n as real, q as real, d as real, r as real);
  }

  function Blend(left: real, right: real, frac: real): real {
    left + (right - left) * frac
  }

  /** Interpolating in reals and casting is the exact integer interpolation. */
  lemma BlendInReals(left: int16, right: int16, offset: nat, outRate: int)
    requires 0 <= offset < outRate
    ensures Trunc(Blend(left as real, right as real, offset as real / outRate as real))
            == Interpolate(left, right, offset, outRate)
  {
    hide Trunc, TruncDiv;
    BlendQuotient(left as real, right as real, offset as real, outRate as real);
    BlendNumerator(left, right, offset, outRate);
    TruncOfQuotient(left * (outRate - offset) + right * offset, outRate);
  }

  lemma BlendNumerator(left: int, right: int, offset: int, d: int)
    ensures (left * (d - offset) + right * offset) as real
         == left as real * (d as real - offset as real) + right as real * offset as real
  {
    assert (left * (d - offset)) as real == left as real * (d - offset) as real;
    assert (right * offset) as real == right as real * offset as real;
  }

  lemma ScaleQuotient(a: real, b: real, d: real)
    requires d > 0.0
    ensures a * (b / d) == a * b / d
  {
  }

  lemma BlendQuotient(left: real, right: real, r: real, d: real)
    requires d > 0.0
    ensures Blend(left, right, r / d) == (left * (d - r) + right * r) / d
  {
    ScaleQuotient(right - left, r, d);
    assert left == left * d / d;
  }

  lemma NestedDivision(n: nat, channels: nat)
    requires channels > 0
    ensures n / 2 / channels == n / (2 * channels)
  {
    var q := n / 2 / channels;
    assert q * channels <= n / 2 < (q + 1) * channels;
    assert 2 * (q * channels) == q * (2 * channels);
    assert q * (2 * channels) <= n < (q + 1) * (2 * channels);
    QuotientIs(n, 2 * channels, q);
  }

  lemma QuotientIs(n: nat, d: nat, q: nat)
    requires d > 0 && q * d <= n < (q + 1) * d
    ensures n / d == q
  {
    if n / d < q { LessMul(n / d + 1, q, d); }
    if n / d > q { LessMul(q + 1, n / d, d); }
  }

  /** The frame count of the input times the output rate fits a 32-bit int. */
  predicate FitsInt(length: nat, channels: int, outRate: int)
    requires channels > 0
  {
    length / (2 * channels) * outRate < 0x8000_0000
  }

  function ResampledBytes(input: seq<byte>, inRate: int, outRate: int, channels: nat): seq<byte>
    requires inRate > 0 && outRate > 0 && channels > 0
  {
    if inRate == outRate then input else ToBytes(Resampled(Samples(input), inRate, outRate, channels))
  }

  lemma SplitSlot(i: nat, ch: nat, channels: nat)
    requires ch < channels
    ensures i * channels + ch >= 0
    ensures (i * channels + ch) / channels == i && (i * channels + ch) % channels == ch
  {
    MulNonNegative(i, channels);
    QuotientIs(i * channels + ch, channels, i);
    var j := i * channels + ch;
    assert j % channels == j - j / channels * channels;
  }

  /** One slot of the resampled block, by frame and channel. */
  lemma ResampledSlot(input: seq<int16>, inRate: int, outRate: int, channels: nat, i: nat, ch: nat)
    requires inRate > 0 && outRate > 0 && ch < channels
    requires i < OutputFrames(|input| / channels, inRate, outRate)
    ensures 0 <= i * channels + ch < |Resampled(input, inRate, outRate, channels)|
    ensures Resampled(input, inRate, outRate, channels)[i * channels + ch] ==
            ResampledAt(input, inRate, outRate, channels, i, ch)
  {
    hide ResampledAt, OutputFrames;
    SlotInRange(i, ch, OutputFrames(|input| / channels, inRate, outRate), channels);
    SplitSlot(i, ch, channels);
  }

  /** The samples output frame i is made from are inside the input. */
  lemma SourceSlots(input: seq<int16>, inRate: int, outRate: int, channels: nat, i: nat, ch: nat)
    requires inRate > 0 && outRate > 0 && ch < channels
    requires i < OutputFrames(|input| / channels, inRate, outRate)
    ensures var frames := |input| / channels;
            var src := SourceFrame(i, inRate, outRate);
            && src < frames && 0 <= src * channels + ch < |input|
            && (src + 1 < frames ==> 0 <= (src + 1) * channels + ch < |input|)
  {
    var frames := |input| / channels;
    SourceInRange(i, frames, inRate, outRate);
    SlotInRange(SourceFrame(i, inRate, outRate), ch, frames, channels);
    if SourceFrame(i, inRate, outRate) + 1 < frames {
      SlotInRange(SourceFrame(i, inRate, outRate) + 1, ch, frames, channels);
    }
  }

  /** The value between two samples, frac of the way, rounded toward zero. */
  function Between(left: int16, right: int16, frac: real): int {
    Trunc(left as real + (right as real - left as real) * frac)
  }

  /** v is the linear interpolation of a channel at a position in frames; the last frame is held. */
  predicate IsInterpolation(v: int, input: seq<int16>, channels: nat, ch: nat, position: real)
    requires ch < channels
  {
    var frames, src := |input| / channels, position.Floor;
    && 0 <= src < frames && 0 <= src * channels + ch < |input|
    && if src + 1 < frames then
         && 0 <= (src + 1) * channels + ch < |input|
         && v == Between(input[src * channels + ch], input[(src + 1) * channels + ch], position - src as real)
       else v == input[src * channels + ch]
  }

  lemma BetweenIs(left: int16, right: int16, offset: nat, outRate: int)
    requires 0 <= offset < outRate
    ensures Between(left, right, offset as real / outRate as real) == Interpolate(left, right, offset, outRate)
  {
    BlendInReals(left, right, offset, outRate);
    hide Trunc, Interpolate;
  }

  lemma InterpolatedAt(input: seq<int16>, inRate: int, outRate: int, channels: nat, i: nat, ch: nat, position: real)
    requires inRate > 0 && outRate > 0 && ch < channels
    requires i < OutputFrames(|input| / channels, inRate, outRate)
    requires position.Floor == SourceFrame(i, inRate, outRate)
    requires position - position.Floor as real == SourceOffset(i, inRate, outRate) as real / outRate as real
    ensures IsInterpolation(ResampledAt(input, inRate, outRate, channels, i, ch), input, channels, ch, position)
  {
    hide Interpolate, Between, SourceFrame, SourceOffset, OutputFrames;
    SourceSlots(input, inRate, outRate, channels, i, ch);
    var src := SourceFrame(i, inRate, outRate);
    if src + 1 < |input| / channels {
      var left, right := input[src * channels + ch], input[(src + 1) * channels + ch];
      BetweenIs(left, right, SourceOffset(i, inRate, outRate), outRate);
    }
  }

  lemma PositionOf(i: nat, inRate: int, outRate: int)
    requires inRate > 0 && outRate > 0
    ensures var position := (i * inRate) as real / outRate as real;
            && position.Floor == SourceFrame(i, inRate, outRate)
            && position - position.Floor as real == SourceOffset(i, inRate, outRate) as real / outRate as real
  {
    MulNonNegative(i, inRate);
    FloorOfQuotient(i * inRate, outRate);
    SplitInReals(i * inRate, outRate);
  }

  /** What resampling means: frames * outRate / inRate frames come out, and each is the linear
      interpolation of the input at the position its own number times inRate / outRate. */
  predicate IsResampled(output: seq<int16>, input: seq<int16>, inRate: int, outRate: int, channels: nat)
    requires inRate > 0 && outRate > 0 && channels > 0
  {
    && |output| == |input| / channels * outRate / inRate * channels
    && forall j :: 0 <= j < |output| ==>
         IsInterpolation(output[j], input, channels, j % channels, (j / channels * inRate) as real / outRate as real)
  }

  lemma ResampledInterpolates(input: seq<int16>, inRate: int, outRate: int, channels: nat)
    requires inRate > 0 && outRate > 0 && channels > 0
    ensures IsResampled(Resampled(input, inRate, outRate, channels), input, inRate, outRate, channels)
  {
    hide ResampledAt, IsInterpolation;
    var output := Resampled(input, inRate, outRate, channels);
    forall j | 0 <= j < |output|
      ensures IsInterpolation(output[j], input, channels, j % channels,
                              (j / channels * inRate) as real / outRate as real)
    {
      ResampledSampleInterpolates(input, inRate, outRate, channels, j);
    }
  }

  lemma ResampledSampleInterpolates(input: seq<int16>, inRate: int, outRate: int, channels: nat, j: nat)
    requires inRate > 0 && outRate > 0 && channels > 0
    requires j < |Resampled(input, inRate, outRate, channels)|
    ensures IsInterpolation(Resampled(input, inRate, outRate, channels)[j], input, channels, j % channels,
                            (j / channels * inRate) as real / outRate as real)
  {
    hide ResampledAt, IsInterpolation, SourceFrame, SourceOffset, OutputFrames;
    var i, ch := j / channels, j % channels;
    SlotOf(j, OutputFrames(|input| / channels, inRate, outRate), channels);
    PositionOf(i, inRate, outRate);
    InterpolatedAt(input, inRate, outRate, channels, i, ch, (i * inRate) as real / outRate as real);
  }

  lemma NextRow(i: int, channels: int)
    ensures (i + 1) * channels == i * channels + channels
  {
  }

  method Resample(input: seq<byte>, inputSampleRate: int, outputSampleRate: int, channels: nat)
    returns (output: seq<byte>)
    requires inputSampleRate > 0 && outputSampleRate > 0 && channels > 0
    requires FitsInt(|input|, channels, outputSampleRate)
    ensures output == ResampledBytes(input, inputSampleRate, outputSampleRate, channels)
    ensures inputSampleRate == outputSampleRate ==> output == input
    ensures inputSampleRate != outputSampleRate ==>
              IsResampled(Samples(output), Samples(input), inputSampleRate, outputSampleRate, channels)
  {
    if inputSampleRate == outputSampleRate {
      return input;
    }
    var inputSampleCount := |input| / (2 * channels);
    NestedDivision(|input|, channels);
    MulNonNegative(inputSampleCount, outputSampleRate);
    var outputSampleCount := inputSampleCount * outputSampleRate / inputSampleRate;
    var samples := ResampleSamples(Samples(input), inputSampleRate, outputSampleRate, channels, outputSampleCount);
    output := ToBytes(samples);
    ResampledInterpolates(Samples(input), inputSampleRate, outputSampleRate, channels);
    SamplesOfBytes(samples);
  }

  /** The outer loop, frame by frame. */
  method ResampleSamples(inputPtr: seq<int16>, inputSampleRate: int, outputSampleRate: int, channels: nat,
                         outputSampleCount: nat) returns (output: seq<int16>)
    requires inputSampleRate > 0 && outputSampleRate > 0 && channels > 0
    requires outputSampleCount == OutputFrames(|inputPtr| / channels, inputSampleRate, outputSampleRate)
    ensures output == Resampled(inputPtr, inputSampleRate, outputSampleRate, channels)
  {
    hide Resampled, OutputFrames, Trunc;
    ghost var expected := Resampled(inputPtr, inputSampleRate, outputSampleRate, channels);
    MulNonNegative(outputSampleCount, channels);
    var outputPtr := new int16[outputSampleCount * channels];
    var ratio := inputSampleRate as real / outputSampleRate as real;
    for i := 0 to outputSampleCount
      invariant 0 <= i * channels <= outputPtr.Length
      invariant outputPtr[..i * channels] == expected[..i * channels]
    {
      ResampleFrame(inputPtr, inputSampleRate, outputSampleRate, channels, ratio, i, outputPtr);
      NextRow(i, channels);
    }
    assert outputPtr[..] == outputPtr[..outputSampleCount * channels] == expected;
    output := outputPtr[..];
  }

  /** The body of the outer loop: one output frame, channel by channel. */
  method ResampleFrame(inputPtr: seq<int16>, inputSampleRate: int, outputSampleRate: int, channels: nat,
                       ratio: real, i: nat, outputPtr: array<int16>)
    requires inputSampleRate > 0 && outputSampleRate > 0 && channels > 0
    requires ratio == inputSampleRate as real / outputSampleRate as real
    requires i < OutputFrames(|inputPtr| / channels, inputSampleRate, outputSampleRate)
    requires outputPtr.Length == |Resampled(inputPtr, inputSampleRate, outputSampleRate, channels)|
    requires 0 <= i * channels <= outputPtr.Length
    requires outputPtr[..i * channels] ==
             Resampled(inputPtr, inputSampleRate, outputSampleRate, channels)[..i * channels]
    modifies outputPtr
    ensures 0 <= i * channels + channels <= outputPtr.Length
    ensures outputPtr[..i * channels + channels] ==
            Resampled(inputPtr, inputSampleRate, outputSampleRate, channels)[..i * channels + channels]
  {
    hide Resampled, ResampledAt, SourceOffset, SourceFrame, OutputFrames, Trunc;
    ghost var expected := Resampled(inputPtr, inputSampleRate, outputSampleRate, channels);
    var srcIndex := i as real * ratio;
    var srcIndexInt := Trunc(srcIndex);
    var frac := srcIndex - srcIndexInt as real;
    IndexInReals(i, inputSampleRate, outputSampleRate);
    assert srcIndex == i as real * (inputSampleRate as real / outputSampleRate as real);
    var base := i * channels;
    for ch := 0 to channels
      invariant base + ch <= outputPtr.Length
      invariant outputPtr[..base + ch] == expected[..base + ch]
    {
      ResampledSlot(inputPtr, inputSampleRate, outputSampleRate, channels, i, ch);
      var v := ResampleSample(inputPtr, inputSampleRate, outputSampleRate, channels, i, srcIndexInt, frac, ch);
      outputPtr[base + ch] := v;
      assert outputPtr[..base + ch + 1] == outputPtr[..base + ch] + [v];
      assert expected[..base + ch + 1] == expected[..base + ch] + [v];
    }
  }

  /** The body of the inner loop: interpolate, or repeat the last source frame. */
  method ResampleSample(inputPtr: seq<int16>, inputSampleRate: int, outputSampleRate: int, channels: nat,
                        i: nat, srcIndexInt: int, frac: real, ch: nat) returns (v: int16)
    requires inputSampleRate > 0 && outputSampleRate > 0 && ch < channels
    requires i < OutputFrames(|inputPtr| / channels, inputSampleRate, outputSampleRate)
    requires srcIndexInt == SourceFrame(i, inputSampleRate, outputSampleRate)
    requires frac == SourceOffset(i, inputSampleRate, outputSampleRate) as real / outputSampleRate as real
    ensures v == ResampledAt(inputPtr, inputSampleRate, outputSampleRate, channels, i, ch)
  {
    hide Interpolate, SourceOffset, SourceFrame, OutputFrames, Trunc, Blend;
    SourceSlots(inputPtr, inputSampleRate, outputSampleRate, channels, i, ch);
    var inputSampleCount := |inputPtr| / channels;
    if srcIndexInt + 1 < inputSampleCount {
      var sample1 := inputPtr[srcIndexInt * channels + ch];
      var sample2 := inputPtr[(srcIndexInt + 1) * channels + ch];
      BlendInReals(sample1, sample2, SourceOffset(i, inputSampleRate, outputSampleRate), outputSampleRate);
      v := Trunc(Blend(sample1 as real, sample2 as real, frac));
    } else {
      v := inputPtr[srcIndexInt * channels + ch];
    }
  }

  // ----- channel conversion -----

  function Duplicated(mono: seq<int16>): seq<int16> {
    seq(2 * |mono|, j requires 0 <= j < 2 * |mono| => mono[j / 2])
  }

  function Averaged(stereo: seq<int16>): seq<int16> {
    seq(|stereo| / 2, i requires 0 <= i < |stereo| / 2 => Average(stereo[2 * i], stereo[2 * i + 1]))
  }

  /** (left + right) / 2 with the division of C++. */
  function Average(left: int16, right: int16): (avg: int16)
    ensures (left <= avg <= right) || (right <= avg <= left)
  {
    TruncDiv(left as int + right as int, 2)
  }

  /** m is the mean of l and r, rounded toward zero. */
  predicate IsMean(m: int, l: int, r: int) {
    -1 <= 2 * m - (l + r) <= 1 && (l + r >= 0 ==> 0 <= 2 * m <= l + r) && (l + r <= 0 ==> l + r <= 2 * m <= 0)
  }

  lemma MeanIs(l: int16, r: int16)
    ensures IsMean(Average(l, r), l, r)
  {
  }

  /** What stereo to mono means: each sample is the mean of its pair, and a broken pair is dropped. */
  predicate IsMonoOf(mono: seq<int16>, stereo: seq<int16>) {
    && |mono| == |stereo| / 2
    && forall i :: 0 <= i < |mono| ==> IsMean(mono[i], stereo[2 * i], stereo[2 * i + 1])
  }

  /** What mono to stereo means: both sides carry the sample. */
  predicate IsStereoOf(stereo: seq<int16>, mono: seq<int16>) {
    && |stereo| == 2 * |mono|
    && forall i :: 0 <= i < |mono| ==> stereo[2 * i] == mono[i] && stereo[2 * i + 1] == mono[i]
  }

  function ConvertChannels(input: seq<byte>, inChannels: nat, outChannels: nat): seq<byte> {
    if inChannels == 1 && outChannels == 2 then ToBytes(Duplicated(Samples(input)))
    else if inChannels == 2 && outChannels == 1 then ToBytes(Averaged(Samples(input)))
    else input
  }

  function Converted(input: seq<byte>, from: AudioFormat, to: AudioFormat): seq<byte>
    requires Usable(from) && Usable(to)
  {
    ConvertChannels(ResampledBytes(input, from.sampleRate, to.sampleRate, from.channels), from.channels, to.channels)
  }

  /** What conversion means: the rate first, at the number of channels that came in, and then mono to
      stereo or stereo to mono; any other change of channels leaves the samples alone. */
  predicate IsConversion(output: seq<int16>, rated: seq<int16>, input: seq<int16>, from: AudioFormat, to: AudioFormat)
    requires Usable(from) && Usable(to)
  {
    && (if from.sampleRate == to.sampleRate then rated == input
        else IsResampled(rated, input, from.sampleRate, to.sampleRate, from.channels))
    && (if from.channels == 1 && to.channels == 2 then IsStereoOf(output, rated)
        else if from.channels == 2 && to.channels == 1 then IsMonoOf(output, rated)
        else output == rated)
  }

  method ConvertFormat(input: seq<byte>, inputFormat: AudioFormat, outputFormat: AudioFormat)
    returns (result: seq<byte>)
    requires Usable(inputFormat) && Usable(outputFormat)
    requires FitsInt(|input|, inputFormat.channels, outputFormat.sampleRate)
    ensures result == Converted(input, inputFormat, outputFormat)
    ensures exists rated :: IsConversion(Samples(result), rated, Samples(input), inputFormat, outputFormat)
  {
    hide ResampledBytes, Samples, ToBytes, Duplicated, Averaged, IsResampled, IsStereoOf, IsMonoOf;
    result := input;
    if inputFormat.sampleRate != outputFormat.sampleRate {
      result := Resample(result, inputFormat.sampleRate, outputFormat.sampleRate, inputFormat.channels);
    } else {
      SameRate(input, inputFormat.sampleRate, inputFormat.channels);
    }
    ghost var rated := Samples(result);
    if inputFormat.channels == 1 && outputFormat.channels == 2 {
      result := MonoToStereo(result);
    } else if inputFormat.channels == 2 && outputFormat.channels == 1 {
      result := StereoToMono(result);
    }
    assert IsConversion(Samples(result), rated, Samples(input), inputFormat, outputFormat);
  }

  lemma SameRate(input: seq<byte>, rate: int, channels: nat)
    requires rate > 0 && channels > 0
    ensures ResampledBytes(input, rate, rate, channels) == input
  {
  }

  lemma NothingConverted()
    ensures ToBytes(Duplicated([])) == [] == ToBytes(Averaged([]))
  {
  }

  lemma DuplicatedAppend(mono: seq<int16>, s: int16)
    ensures Duplicated(mono + [s]) == Duplicated(mono) + [s, s]
  {
  }

  lemma AveragedAppend(stereo: seq<int16>, left: int16, right: int16)
    requires |stereo| % 2 == 0
    ensures Averaged(stereo + [left, right]) == Averaged(stereo) + [Average(left, right)]
  {
    hide Average;
  }

  lemma AveragedIgnoresOddSample(stereo: seq<int16>)
    ensures Averaged(stereo[..2 * (|stereo| / 2)]) == Averaged(stereo)
  {
    hide Average;
  }

  lemma MonoIsMean(input: seq<byte>)
    ensures IsMonoOf(Samples(ToBytes(Averaged(Samples(input)))), Samples(input))
  {
    var stereo := Samples(input);
    SamplesOfBytes(Averaged(stereo));
    hide Samples, ToBytes, Average, IsMean;
    forall i | 0 <= i < |stereo| / 2 ensures IsMean(Averaged(stereo)[i], stereo[2 * i], stereo[2 * i + 1]) {
      MeanIs(stereo[2 * i], stereo[2 * i + 1]);
    }
  }

  lemma StereoIsTwice(input: seq<byte>)
    ensures IsStereoOf(Samples(ToBytes(Duplicated(Samples(input)))), Samples(input))
  {
    SamplesOfBytes(Duplicated(Samples(input)));
    hide Samples, ToBytes;
  }

  method MonoToStereo(input: seq<byte>) returns (stereo: seq<byte>)
    ensures stereo == ToBytes(Duplicated(Samples(input)))
    ensures IsStereoOf(Samples(stereo), Samples(input))
  {
    StereoIsTwice(input);
    hide IsStereoOf;
    hide Samples, ToBytes, Duplicated, LowByte, HighByte;
    stereo := [];
    var monoPtr := Samples(input);
    NothingConverted();
    var sampleCount := |input| / 2;
    for i := 0 to sampleCount
      invariant stereo == ToBytes(Duplicated(monoPtr[..i]))
    {
      var sample := monoPtr[i];
      stereo := stereo + [LowByte(sample), HighByte(sample)];
      stereo := stereo + [LowByte(sample), HighByte(sample)];
      assert monoPtr[..i + 1] == monoPtr[..i] + [sample];
      DuplicatedAppend(monoPtr[..i], sample);
      ToBytesAppend(Duplicated(monoPtr[..i]), sample);
      ToBytesAppend(Duplicated(monoPtr[..i]) + [sample], sample);
      assert Duplicated(monoPtr[..i]) + [sample] + [sample] == Duplicated(monoPtr[..i]) + [sample, sample];
    }
    assert monoPtr[..sampleCount] == monoPtr;
  }

  method StereoToMono(input: seq<byte>) returns (mono: seq<byte>)
    ensures mono == ToBytes(Averaged(Samples(input)))
    ensures IsMonoOf(Samples(mono), Samples(input))
  {
    MonoIsMean(input);
    hide IsMonoOf;
    hide Samples, ToBytes, Averaged, LowByte, HighByte;
    mono := [];
    var stereoPtr := Samples(input);
    NothingConverted();
    var sampleCount := |input| / 4;
    for i := 0 to sampleCount
      invariant mono == ToBytes(Averaged(stereoPtr[..2 * i]))
    {
      var left, right := stereoPtr[i * 2], stereoPtr[i * 2 + 1];
      var avg: int16 := TruncDiv(left as int + right as int, 2);
      mono := mono + [LowByte(avg), HighByte(avg)];
      assert stereoPtr[..2 * (i + 1)] == stereoPtr[..2 * i] + [left, right];
      AveragedAppend(stereoPtr[..2 * i], left, right);
      ToBytesAppend(Averaged(stereoPtr[..2 * i]), avg);
    }
    AveragedIgnoresOddSample(stereoPtr);
  }

  // ----- what conversion guarantees -----

  /** Whole input frames convert to whole output frames. */
  lemma ConversionKeepsWholeFrames(input: seq<byte>, from: AudioFormat, to: AudioFormat)
    requires Usable(from) && Usable(to) && from.channels <= 2 && to.channels <= 2
    requires |input| % (2 * from.channels) == 0
    ensures |Converted(input, from, to)| % (2 * to.channels) == 0
  {
    hide Resampled, Duplicated, Averaged, Samples, ToBytes;
    var resampled := ResampledBytes(input, from.sampleRate, to.sampleRate, from.channels);
    if from.sampleRate != to.sampleRate {
      var frames := OutputFrames(|Samples(input)| / from.channels, from.sampleRate, to.sampleRate);
      assert |resampled| == 2 * (frames * from.channels);
    }
    ChannelConversionSize(resampled, from.channels, to.channels);
  }

  lemma ChannelConversionSize(input: seq<byte>, from: nat, to: nat)
    requires 1 <= from <= 2 && 1 <= to <= 2 && |input| % (2 * from) == 0
    ensures |ConvertChannels(input, from, to)| % (2 * to) == 0
  {
    hide Samples, ToBytes, Duplicated, Averaged;
    DuplicatedSize(Samples(input));
    AveragedSize(Samples(input));
  }

  lemma DuplicatedSize(mono: seq<int16>)
    ensures |Duplicated(mono)| == 2 * |mono|
  {
  }

  lemma AveragedSize(stereo: seq<int16>)
    ensures |Averaged(stereo)| == |stereo| / 2
  {
  }

  /** Every resampled value lies between the two source samples around it. */
  lemma ResampledBetweenNeighbours(input: seq<int16>, inRate: int, outRate: int, channels: nat, i: nat, ch: nat)
    requires inRate > 0 && outRate > 0 && ch < channels
    requires i < OutputFrames(|input| / channels, inRate, outRate)
    ensures var frames := |input| / channels;
            var src := SourceFrame(i, inRate, outRate);
            var next := if src + 1 < frames then src + 1 else src;
            && 0 <= src * channels + ch < |input| && 0 <= next * channels + ch < |input|
            && 0 <= i * channels + ch < |Resampled(input, inRate, outRate, channels)|
            && var left, right, v := input[src * channels + ch], input[next * channels + ch],
                 Resampled(input, inRate, outRate, channels)[i * channels + ch];
               (left <= right ==> left <= v <= right) && (right <= left ==> right <= v <= left)
  {
    hide Resampled, OutputFrames, SourceFrame, SourceOffset;
    SourceSlots(input, inRate, outRate, channels, i, ch);
    ResampledSlot(input, inRate, outRate, channels, i, ch);
  }

  lemma ProductOverFactor(a: nat, m: nat, r: nat)
    requires m > 0 && r > 0
    ensures a * (m * r) / r == a * m && a * (m * r) % r == 0
  {
    assert a * (m * r) == (a * m) * r;
    QuotientIs(a * (m * r), r, a * m);
  }

  lemma ProductOverProduct(a: nat, m: nat, r: nat)
    requires m > 0 && r > 0
    ensures m * r > 0 && a * m * r / (m * r) == a && a * m * r % (m * r) == 0
  {
    assert a * m * r == a * (m * r);
    QuotientIs(a * m * r, m * r, a);
  }

  /** Upsampling by an integer factor keeps source frame k at frame m*k. */
  lemma UpsamplingKeepsFrames(input: seq<int16>, r: int, m: int, channels: nat, k: nat, ch: nat)
    requires r > 0 && m > 0 && m * r > 0 && ch < channels && k < |input| / channels
    ensures var n := |input| / channels;
            && OutputFrames(n, r, m * r) == n * m
            && 0 <= (k * m) * channels + ch < |Resampled(input, r, m * r, channels)|
            && 0 <= k * channels + ch < |input|
            && Resampled(input, r, m * r, channels)[(k * m) * channels + ch] == input[k * channels + ch]
  {
    var n, out, i := |input| / channels, m * r, k * m;
    ProductOverFactor(n, m, r);
    assert n * out == n * (m * r);
    ProductOverProduct(k, m, r);
    LessMul(k + 1, n, m);
    assert i < OutputFrames(n, r, out);
    assert SourceFrame(i, r, out) == k && SourceOffset(i, r, out) == 0;
    SourceSlots(input, r, out, channels, i, ch);
    ResampledSlot(input, r, out, channels, i, ch);
    ResampledAtSource(input, r, out, channels, i, ch);
  }

  /** An output frame that falls on a source frame repeats it. */
  lemma ResampledAtSource(input: seq<int16>, inRate: int, outRate: int, channels: nat, i: nat, ch: nat)
    requires inRate > 0 && outRate > 0 && ch < channels
    requires i < OutputFrames(|input| / channels, inRate, outRate)
    requires SourceOffset(i, inRate, outRate) == 0
    requires 0 <= SourceFrame(i, inRate, outRate) * channels + ch < |input|
    ensures ResampledAt(input, inRate, outRate, channels, i, ch)
         == input[SourceFrame(i, inRate, outRate) * channels + ch]
  {
    hide SourceFrame, SourceOffset, OutputFrames;
    SourceSlots(input, inRate, outRate, channels, i, ch);
    var src := SourceFrame(i, inRate, outRate);
    if src + 1 < |input| / channels {
      NoOffset(input[src * channels + ch], input[(src + 1) * channels + ch], outRate);
    }
  }

  lemma NoOffset(left: int16, right: int16, d: int)
    requires d > 0
    ensures Interpolate(left, right, 0, d) == left
  {
    if left >= 0 {
      QuotientIs(left * d, d, left);
    } else {
      QuotientIs(-(left * d), d, -(left as int));
    }
  }

  /** Downsampling by an integer factor picks every m-th frame. */
  lemma DownsamplingPicksFrames(input: seq<int16>, r: int, m: int, channels: nat, k: nat, ch: nat)
    requires r > 0 && m > 0 && m * r > 0 && ch < channels
    requires |input| / channels % m == 0 && k < |input| / channels / m
    ensures OutputFrames(|input| / channels, m * r, r) == |input| / channels / m
    ensures 0 <= k * channels + ch < |Resampled(input, m * r, r, channels)|
    ensures 0 <= (k * m) * channels + ch < |input|
    ensures Resampled(input, m * r, r, channels)[k * channels + ch] == input[(k * m) * channels + ch]
  {
    var frames, rate := |input| / channels, m * r;
    var n := frames / m;
    assert frames == n * m;
    ProductOverProduct(n, m, r);
    assert OutputFrames(frames, rate, r) == n;
    ProductOverFactor(k, m, r);
    assert SourceFrame(k, rate, r) == k * m && SourceOffset(k, rate, r) == 0;
    SourceSlots(input, rate, r, channels, k, ch);
    ResampledSlot(input, rate, r, channels, k, ch);
    ResampledAtSource(input, rate, r, channels, k, ch);
  }

  // ----- the round trip through a faster stereo format -----

  /** x sits in y at every m-th frame. */
  ghost predicate EveryMth(x: seq<int16>, y: seq<int16>, m: nat) {
    && |y| == |x| * m
    && forall k :: 0 <= k < |x| ==> Picked(y, k, m, x[k])
  }

  ghost predicate Picked(y: seq<int16>, k: nat, m: nat, v: int16) {
    0 <= k * m < |y| && y[k * m] == v
  }

  /** Upsampling mono audio by m. */
  lemma UpsampledMono(input: seq<byte>, r: int, m: int)
    requires r > 0 && m > 0 && m * r > 0
    ensures EveryMth(Samples(input), Samples(ResampledBytes(input, r, m * r, 1)), m)
  {
    hide Resampled, OutputFrames, Samples, ToBytes;
    var x := Samples(input);
    if r == m * r {
      FactorOne(r, m);
    } else {
      var y := Resampled(x, r, m * r, 1);
      SamplesOfBytes(y);
      if |x| == 0 {
        ProductOverFactor(0, m, r);
        NoFrames(r, m * r);
      } else {
        UpsamplingKeepsFrames(x, r, m, 1, 0, 0);
      }
      forall k | 0 <= k < |x| ensures Picked(y, k, m, x[k]) {
        UpsamplingKeepsFrames(x, r, m, 1, k, 0);
      }
    }
  }

  lemma FactorOne(r: int, m: int)
    requires r > 0 && m * r == r
    ensures m == 1
  {
  }

  lemma NoFrames(inRate: int, outRate: int)
    requires inRate > 0 && outRate > 0
    ensures OutputFrames(0, inRate, outRate) == 0
  {
  }

  /** Downsampling the duplicated block gives every sample of x twice. */
  lemma DownsampledStereo(x: seq<int16>, y: seq<int16>, r: int, m: int)
    requires r > 0 && m > 0 && m * r > 0 && EveryMth(x, y, m)
    ensures Samples(ResampledBytes(ToBytes(Duplicated(y)), m * r, r, 2)) == Duplicated(x)
  {
    hide Resampled, OutputFrames, Samples, ToBytes, EveryMth;
    var d := Duplicated(y);
    SamplesOfBytes(d);
    MthCount(x, y, m);
    if m * r == r {
      FactorOne(r, m);
      MthOne(x, y);
    } else {
      var w := Resampled(d, m * r, r, 2);
      SamplesOfBytes(w);
      assert |d| / 2 == |y|;
      ProductOverProduct(|x|, m, r);
      CountIs(|x|, m, r);
      forall j | 0 <= j < 2 * |x| ensures w[j] == x[j / 2] {
        var k, ch := j / 2, j % 2;
        DownsamplingPicksFrames(d, r, m, 2, k, ch);
        MthAt(x, y, m, k);
        assert ((k * m) * 2 + ch) / 2 == k * m;
      }
    }
  }

  lemma CountIs(n: nat, m: int, r: int)
    requires m > 0 && r > 0 && m * r > 0
    ensures n * m >= 0 && OutputFrames(n * m, m * r, r) == n
  {
    MulNonNegative(n, m);
    ProductOverProduct(n, m, r);
  }

  lemma MthCount(x: seq<int16>, y: seq<int16>, m: nat)
    requires m > 0 && EveryMth(x, y, m)
    ensures |y| == |x| * m && |y| % m == 0 && |y| / m == |x|
  {
    QuotientIs(|y|, m, |x|);
  }

  lemma MthOne(x: seq<int16>, y: seq<int16>)
    requires EveryMth(x, y, 1)
    ensures x == y
  {
    assert |y| == |x|;
    forall k | 0 <= k < |x| ensures x[k] == y[k] {
      assert Picked(y, k, 1, x[k]);
    }
  }

  lemma MthAt(x: seq<int16>, y: seq<int16>, m: nat, k: nat)
    requires EveryMth(x, y, m) && k < |x|
    ensures 0 <= k * m < |y| && y[k * m] == x[k]
  {
    assert Picked(y, k, m, x[k]);
  }

  lemma AverageOfDuplicates(x: seq<int16>)
    ensures Averaged(Duplicated(x)) == x
  {
  }

  /** 16-bit mono audio survives conversion to stereo at any multiple of its rate and back. */
  lemma FormatRoundTrip(input: seq<byte>, r: int, m: int)
    requires r > 0 && m > 0 && |input| % 2 == 0
    ensures m * r > 0
    ensures var mono, stereo := AudioFormat(r, 1), AudioFormat(m * r, 2);
            Converted(Converted(input, mono, stereo), stereo, mono) == input
  {
    hide ResampledBytes, Samples, ToBytes, Duplicated, Averaged, EveryMth;
    PositiveProduct(m, r);
    var x := Samples(input);
    var up := ResampledBytes(input, r, m * r, 1);
    UpsampledMono(input, r, m);
    DownsampledStereo(x, Samples(up), r, m);
    AverageOfDuplicates(x);
    BytesOfSamples(input);
  }

  lemma PositiveProduct(a: int, b: int)
    requires a > 0 && b > 0
    ensures a * b > 0
  {
  }
}

/** 16-bit little-endian PCM: the int16_t view that the mixer takes of its byte buffers. */
module Pcm {
  import opened Bytes

  type int16 = x: int | -32768 <= x < 32768

  function SampleOf(lo: byte, hi: byte): int16 {
    var u := lo + 256 * hi;
    if u < 32768 then u else u - 65536
  }

  function LowByte(s: int16): byte { s % 256 }

  function HighByte(s: int16): byte { s / 256 % 256 }

  /** The samples of a buffer; a trailing odd byte is not part of any sample. */
  function Samples(buffer: seq<byte>): (samples: seq<int16>)
    ensures |samples| == |buffer| / 2
  {
    seq(|buffer| / 2, i requires 0 <= i < |buffer| / 2 => SampleOf(buffer[2 * i], buffer[2 * i + 1]))
  }

  function ToBytes(samples: seq<int16>): (buffer: seq<byte>)
    ensures |buffer| == 2 * |samples|
  {
    seq(2 * |samples|, j requires 0 <= j < 2 * |samples| =>
      if j % 2 == 0 then LowByte(samples[j / 2]) else HighByte(samples[j / 2]))
  }

  lemma SampleRoundTrip(s: int16)
    ensures SampleOf(LowByte(s), HighByte(s)) == s
  {
    assert s == 256 * (s / 256) + s % 256;
  }

  lemma ByteRoundTrip(lo: byte, hi: byte)
    ensures LowByte(SampleOf(lo, hi)) == lo && HighByte(SampleOf(lo, hi)) == hi
  {
    var s := SampleOf(lo, hi);
    if s < 0 {
      assert s == 256 * (hi - 256) + lo;
    }
  }

  lemma SamplesOfBytes(samples: seq<int16>)
    ensures Samples(ToBytes(samples)) == samples
  {
    hide LowByte, HighByte, SampleOf;
    forall i | 0 <= i < |samples| ensures Samples(ToBytes(samples))[i] == samples[i] {
      SampleRoundTrip(samples[i]);
    }
  }

  lemma BytesOfSamples(buffer: seq<byte>)
    requires |buffer| % 2 == 0
    ensures ToBytes(Samples(buffer)) == buffer
  {
    hide LowByte, HighByte, SampleOf;
    var samples := Samples(buffer);
    forall j | 0 <= j < |buffer| ensures ToBytes(samples)[j] == buffer[j] {
      ByteRoundTrip(buffer[2 * (j / 2)], buffer[2 * (j / 2) + 1]);
    }
  }

  lemma BytesOfSample(s: int16)
    ensures LowByte(s) as int + 256 * HighByte(s) as int == if s >= 0 then s else s + 65536
  {
    assert s == 256 * (s / 256) + s % 256;
    assert -128 <= s / 256 < 128;
  }

  /** Little-endian two's complement: the low byte first. */
  lemma LittleEndian(samples: seq<int16>, i: nat)
    requires i < |samples|
    ensures ToBytes(samples)[2 * i] as int + 256 * ToBytes(samples)[2 * i + 1] as int ==
            if samples[i] >= 0 then samples[i] as int else samples[i] as int + 65536
  {
    hide LowByte, HighByte;
    BytesOfSample(samples[i]);
  }

  lemma ToBytesAppend(samples: seq<int16>, s: int16)
    ensures ToBytes(samples + [s]) == ToBytes(samples) + [LowByte(s), HighByte(s)]
  {
    hide LowByte, HighByte;
  }

  // ----- truncation toward zero, as in static_cast<int16_t> and the C++ division -----

  function TruncDiv(n: int, d: int): int
    requires d > 0
  {
    if n >= 0 then n / d else -(-n / d)
  }

  function Trunc(x: real): int {
    if x >= 0.0 then x.Floor else -(-x).Floor
  }

  function Abs(x: real): real {
    if x >= 0.0 then x else -x
  }

  /** Truncation moves a value by less than one, toward zero. */
  lemma TruncBounds(x: real)
    ensures Abs(x - Trunc(x) as real) < 1.0
    ensures Abs(Trunc(x) as real) <= Abs(x)
  {
  }

  lemma TruncOfInt(n: int)
    ensures Trunc(n as real) == n
  {
  }

  /** A quotient of integers truncated as a real is the integer division of C++. */
  lemma TruncOfQuotient(n: int, d: int)
    requires d > 0
    ensures Trunc(n as real / d as real) == TruncDiv(n, d)
  {
    FloorOfQuotient(if n >= 0 then n else -n, d);
    assert -(n as real / d as real) == (-n) as real / d as real;
  }

  lemma FloorOfQuotient(n: nat, d: int)
    requires d > 0
    ensures (n as real / d as real).Floor == n / d && n as real / d as real >= 0.0
  {
    var q, r := n / d, n % d;
    assert n as real == q as real * d as real + r as real;
    QuotientSplit(n as real, q as real, d as real, r as real);
    assert 0.0 <= r as real / d as real < 1.0 by { FractionBound(r as real, d as real); }
  }

  lemma QuotientSplit(n: real, q: real, d: real, r: real)
    requires d > 0.0 && n == q * d + r
    ensures n / d == q + r / d
  {
  }

  lemma FractionBound(r: real, d: real)
    requires 0.0 <= r < d
    ensures 0.0 <= r / d < 1.0
  {
  }
}

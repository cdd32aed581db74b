/**
  The sample quantizer of the browser client: `floatTo16BitPCM` turns a frame of
  normalised samples into signed 16-bit PCM.  Each sample is clamped to [-1, 1],
  negative values are scaled by 0x8000 and the others by 0x7fff, and the product is
  stored into an `Int16Array`, whose element store truncates toward zero and then
  wraps modulo 2^16.  Samples are modelled as reals; NaN is not modelled.
 */
module Quantizer {

  const Int16Min: int := -32768
  const Int16Max: int := 32767

  /** 0x8000, the scale applied to negative samples. */
  const NegativeScale: real := 32768.0
  /** 0x7fff, the scale applied to zero and positive samples. */
  const PositiveScale: real := 32767.0

  predicate IsInt16(v: int) {
    Int16Min <= v <= Int16Max
  }

  /** Limits a sample to [-1, 1]: first caps it at 1, then raises it to at least -1. */
  function Clamp(x: real): (s: real)
    ensures -1.0 <= s <= 1.0
    ensures -1.0 <= x <= 1.0 ==> s == x
    ensures x <= -1.0 ==> s == -1.0
    ensures 1.0 <= x ==> s == 1.0
  {
    var upper := if x < 1.0 then x else 1.0;
    if -1.0 < upper then upper else -1.0
  }

  /** The asymmetric scale: negative samples are multiplied by 32768, the rest by 32767. */
  function Scale(s: real): real
  {
    if s < 0.0 then s * NegativeScale else s * PositiveScale
  }

  /** Conversion of a number to an integer by dropping its fractional part. */
  function TruncateTowardZero(r: real): (n: int)
    ensures 0.0 <= r ==> n as real <= r < n as real + 1.0
    ensures r < 0.0 ==> n as real - 1.0 < r <= n as real
  {
    if 0.0 <= r then r.Floor else -((-r).Floor)
  }

  /** The two's-complement wrap of an integer into 16 bits. */
  function WrapInt16(n: int): (v: int)
    ensures IsInt16(v)
    ensures (v - n) % 65536 == 0
    ensures IsInt16(n) ==> v == n
  {
    var m := n % 65536;
    if m <= Int16Max then m else m - 65536
  }

  /** What an `Int16Array` element store does with a (finite) number. */
  function StoreInt16(r: real): int
  {
    WrapInt16(TruncateTowardZero(r))
  }

  /** The value `floatTo16BitPCM` stores for one input sample.  The second
      postcondition says that the clamp keeps the store from ever wrapping. */
  function QuantizeSample(x: real): (v: int)
    ensures IsInt16(v)
    ensures v == TruncateTowardZero(Scale(Clamp(x)))
  {
    var s := Clamp(x);
    var scaled := Scale(s);
    assert -32768.0 <= scaled <= 32767.0;
    StoreInt16(scaled)
  }

  /** The output of `floatTo16BitPCM` as a value. */
  function Pcm16(frame: seq<real>): (pcm: seq<int>)
    ensures |pcm| == |frame|
    ensures forall i :: 0 <= i < |pcm| ==> IsInt16(pcm[i])
  {
    seq(|frame|, i requires 0 <= i < |frame| => QuantizeSample(frame[i]))
  }

  /** `floatTo16BitPCM`: the sample-by-sample loop of the client. */
  method FloatTo16BitPCM(input: seq<real>) returns (output: seq<int>)
    ensures |output| == |input|
    ensures forall i :: 0 <= i < |input| ==> output[i] == QuantizeSample(input[i])
    ensures output == Pcm16(input)
  {
    output := [];
    var i := 0;
    while i < |input|
      invariant 0 <= i <= |input|
      invariant |output| == i
      invariant forall j :: 0 <= j < i ==> output[j] == QuantizeSample(input[j])
    {
      var s := Clamp(input[i]);
      output := output + [StoreInt16(Scale(s))];
      i := i + 1;
    }
  }

  /** The sample value a 16-bit code stands for, inverting the asymmetric scale. */
  function Dequantize(v: int): real
  {
    if v < 0 then v as real / NegativeScale else v as real / PositiveScale
  }

  /** The full-scale inputs reach the ends of the 16-bit range without overflow. */
  lemma QuantizeEndpoints()
    ensures QuantizeSample(-1.0) == Int16Min
    ensures QuantizeSample(1.0) == Int16Max
  {
  }

  /** Out-of-range inputs saturate: they quantize like the nearest end point. */
  lemma QuantizeSaturates(x: real)
    ensures x <= -1.0 ==> QuantizeSample(x) == QuantizeSample(-1.0)
    ensures 1.0 <= x ==> QuantizeSample(x) == QuantizeSample(1.0)
  {
  }

  /** Negative samples never become positive codes, non-negative samples never
      become negative codes, and silence stays silence. */
  lemma QuantizeSign(x: real)
    ensures x < 0.0 ==> QuantizeSample(x) <= 0
    ensures 0.0 <= x ==> 0 <= QuantizeSample(x)
    ensures x == 0.0 ==> QuantizeSample(x) == 0
  {
  }

  /** Quantization preserves the order of samples. */
  lemma QuantizeMonotone(x: real, y: real)
    requires x <= y
    ensures QuantizeSample(x) <= QuantizeSample(y)
  {
    var cx, cy := Clamp(x), Clamp(y);
    assert cx <= cy;
    if cx < 0.0 && 0.0 <= cy {
      QuantizeSign(cx);
      QuantizeSign(cy);
    } else if cx < 0.0 {
      assert -cy * NegativeScale <= -cx * NegativeScale;
      assert (-cy * NegativeScale).Floor <= (-cx * NegativeScale).Floor;
    } else {
      assert cx * PositiveScale <= cy * PositiveScale;
    }
  }

  /** Every 16-bit code is reproduced exactly from the sample it stands for. */
  lemma DequantizeRoundTrip(v: int)
    requires IsInt16(v)
    ensures -1.0 <= Dequantize(v) <= 1.0
    ensures QuantizeSample(Dequantize(v)) == v
  {
    var s := Dequantize(v);
    if v < 0 {
      assert s * NegativeScale == v as real;
      assert (-(s * NegativeScale)).Floor == -v;
    } else {
      assert s * PositiveScale == v as real;
      assert (s * PositiveScale).Floor == v;
    }
  }

  /** For an in-range sample, dequantizing its code lands within one step of
      the positive scale below the sample (truncation never rounds up in magnitude). */
  lemma QuantizeErrorBound(x: real)
    requires -1.0 <= x <= 1.0
    ensures 0.0 <= x ==> x - 1.0 / PositiveScale < Dequantize(QuantizeSample(x)) <= x
    ensures x < 0.0 ==> x <= Dequantize(QuantizeSample(x)) < x + 1.0 / NegativeScale
  {
    var v := QuantizeSample(x);
    if 0.0 <= x {
      assert v as real <= x * PositiveScale < v as real + 1.0;
      assert Dequantize(v) == v as real / PositiveScale;
    } else {
      QuantizeSign(x);
      assert v as real - 1.0 < x * NegativeScale <= v as real;
      if v < 0 {
        assert Dequantize(v) == v as real / NegativeScale;
      } else {
        assert v == 0;
      }
    }
  }
}

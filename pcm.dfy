/**
 * Float-to-int16 conversion of the recorded buffer (src/main.cpp:230-236):
 * each sample is clamped to [-1, 1], scaled by 32767 and converted to
 * int16_t, which truncates toward zero.
 *
 * The product `sample * 32767.0f` is a single-precision multiplication in the
 * source; here it is the exact product, followed by the truncation.
 */
module Pcm {

  newtype int16 = x: int | -0x8000 <= x < 0x8000

  /** The largest magnitude the conversion scales to. */
  const FullScale: int := 32767

  /** `std::max(-1.0f, std::min(1.0f, x))`. */
  function Clamp(x: real): (c: real)
    ensures -1.0 <= c <= 1.0
    ensures -1.0 <= x <= 1.0 ==> c == x
    ensures 1.0 < x ==> c == 1.0
    ensures x < -1.0 ==> c == -1.0
  {
    var upper := if x < 1.0 then x else 1.0;
    if -1.0 < upper then upper else -1.0
  }

  /** Conversion of a real to an integer, truncating toward zero. */
  function Trunc(r: real): (t: int)
    ensures 0.0 <= r ==> 0 <= t && t as real <= r < t as real + 1.0
    ensures r < 0.0 ==> t <= 0 && t as real - 1.0 < r <= t as real
  {
    if 0.0 <= r then r.Floor else -((-r).Floor)
  }

  /**
   * One sample of the conversion loop. The result is the integer nearest to
   * Clamp(x) * 32767 on the side of zero, so it never reaches -32768.
   */
  function Quantize(x: real): (q: int16)
    ensures -FullScale as int16 <= q <= FullScale as int16
    ensures 0.0 <= x ==> 0 <= q && q as real <= Clamp(x) * 32767.0 < q as real + 1.0
    ensures x < 0.0 ==> q <= 0 && q as real - 1.0 < Clamp(x) * 32767.0 <= q as real
  {
    Trunc(Clamp(x) * 32767.0) as int16
  }

  /** Reading a PCM value back as a sample in [-1, 1]. */
  function Dequantize(q: int16): real
  {
    q as real / 32767.0
  }

  /** The quantised buffer, sample by sample: same length, every code in range. */
  function Quantized(buffer: seq<real>): (pcm: seq<int16>)
    ensures |pcm| == |buffer|
    ensures forall i :: 0 <= i < |pcm| ==> pcm[i] == Quantize(buffer[i])
    ensures forall i :: 0 <= i < |pcm| ==> -FullScale as int16 <= pcm[i] <= FullScale as int16
  {
    seq(|buffer|, i requires 0 <= i < |buffer| => Quantize(buffer[i]))
  }

  /** Full-scale and out-of-range samples map to the extreme codes. */
  lemma QuantizeFullScale(x: real)
    ensures 1.0 <= x ==> Quantize(x) == 32767
    ensures x <= -1.0 ==> Quantize(x) == -32767
    ensures Quantize(0.0) == 0
  {
  }

  /** Truncation toward zero treats a sample and its negation alike. */
  lemma QuantizeOdd(x: real)
    ensures Quantize(-x) == -Quantize(x)
  {
    var c := Clamp(x);
    assert Clamp(-x) == -c;
    if 0.0 <= c * 32767.0 {
      assert Trunc(-(c * 32767.0)) == -Trunc(c * 32767.0);
    } else {
      assert Trunc(-(c * 32767.0)) == -Trunc(c * 32767.0);
    }
  }

  /** A louder sample never gives a smaller code. */
  lemma QuantizeMonotone(x: real, y: real)
    requires x <= y
    ensures Quantize(x) <= Quantize(y)
  {
    var a, b := Clamp(x) * 32767.0, Clamp(y) * 32767.0;
    assert a <= b;
    if 0.0 <= a {
      assert a.Floor <= b.Floor;
    } else if b < 0.0 {
      assert (-b).Floor <= (-a).Floor;
    }
  }

  /** Reading a code back is within one step (1/32767) of the clamped sample. */
  lemma QuantizeRoundTrip(x: real)
    ensures -1.0 / 32767.0 < Dequantize(Quantize(x)) - Clamp(x) < 1.0 / 32767.0
  {
    var q := Quantize(x);
    var c := Clamp(x);
    assert -1.0 < q as real - c * 32767.0 < 1.0;
  }

  /**
   * A bound of 1/32768 per sample does not hold: the in-range sample
   * 0.99999/32767 reads back as 0, which is more than 1/32768 away.
   */
  lemma RoundTripErrorExceedsOne32768th()
    ensures var x := 99999.0 / (100000.0 * 32767.0);
            -1.0 <= x <= 1.0 && Clamp(x) - Dequantize(Quantize(x)) > 1.0 / 32768.0
  {
    var x := 99999.0 / (100000.0 * 32767.0);
    assert x * 32767.0 < 1.0;
    assert Quantize(x) == 0;
  }

  /**
   * The conversion loop (src/main.cpp:231-236): a buffer of int16 of the same
   * length, filled in place index by index.
   */
  method ToPcm(buffer: seq<real>) returns (pcm: seq<int16>)
    ensures |pcm| == |buffer|
    ensures forall i :: 0 <= i < |buffer| ==> pcm[i] == Quantize(buffer[i])
  {
    var out := new int16[|buffer|];
    for i := 0 to |buffer|
      invariant forall k :: 0 <= k < i ==> out[k] == Quantize(buffer[k])
    {
      out[i] := Quantize(buffer[i]);
    }
    pcm := out[..];
  }
}

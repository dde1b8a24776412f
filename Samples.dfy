/**
 * Sample domains of the audio controller and the pure conversions between them:
 * the complex I/Q samples of the application, the interleaved float buffers of the
 * audio devices, the gain curve of the render path and the fixed capture attenuation.
 */
module Samples {

  /** One I/Q sample (a pair of doubles in the source). */
  datatype Complex = Complex(Real: real, Imag: real)

  /**
   * A device-facing 32-bit float. The model keeps exact real values: the narrowing
   * cast of the render path is the identity here.
   */
  newtype Float = real

  /** The fixed attenuation applied to captured samples. */
  const InputGain: real := 0.01

  const Zero: Complex := Complex(0.0, 0.0)

  /** x raised to a natural power. */
  function Pow(x: real, k: nat): real
  {
    if k == 0 then 1.0 else x * Pow(x, k - 1)
  }

  lemma {:induction false} PowOfOne(k: nat)
    ensures Pow(1.0, k) == 1.0
  {
    if k > 0 {
      PowOfOne(k - 1);
    }
  }

  lemma {:induction false} PowNonNegative(x: real, k: nat)
    requires 0.0 <= x
    ensures 0.0 <= Pow(x, k)
  {
    if k > 0 {
      PowNonNegative(x, k - 1);
    }
  }

  /** An even power is a power of the square. */
  lemma {:induction false} PowOfSquare(x: real, k: nat)
    ensures Pow(x, 2 * k) == Pow(x * x, k)
  {
    if k > 0 {
      PowOfSquare(x, k - 1);
      calc {
        Pow(x, 2 * k);
        x * Pow(x, 2 * k - 1);
        x * (x * Pow(x, 2 * (k - 1)));
        (x * x) * Pow(x * x, k - 1);
        Pow(x * x, k);
      }
    }
  }

  lemma {:induction false} PowStrictlyIncreasing(x: real, y: real, k: nat)
    requires 0.0 <= x < y && 1 <= k
    ensures Pow(x, k) < Pow(y, k)
  {
    if k == 1 {
      assert Pow(x, 1) == x && Pow(y, 1) == y;
    } else {
      PowStrictlyIncreasing(x, y, k - 1);
      PowNonNegative(x, k - 1);
      var px, py := Pow(x, k - 1), Pow(y, k - 1);
      assert x * px <= x * py by {
        assert x * (py - px) >= 0.0;
      }
      assert x * py < y * py by {
        assert (y - x) * py > 0.0;
      }
    }
  }

  /**
   * The linear factor the render path applies for a gain setting: (setting / 10)^10.
   * It is never negative, is exactly unity at the default setting 10 and silences at 0.
   */
  function EffectiveGain(audioGain: real): (g: real)
    ensures 0.0 <= g
    ensures audioGain == 10.0 ==> g == 1.0
    ensures audioGain == 0.0 ==> g == 0.0
  {
    var a := audioGain / 10.0;
    PowOfSquare(a, 5);
    assert 0.0 <= a * a;
    PowNonNegative(a * a, 5);
    PowOfOne(10);
    Pow(a, 10)
  }

  /** The gain curve is strictly increasing over non-negative settings. */
  lemma GainStrictlyIncreasing(x: real, y: real)
    requires 0.0 <= x < y
    ensures EffectiveGain(x) < EffectiveGain(y)
  {
    PowStrictlyIncreasing(x / 10.0, y / 10.0, 10);
  }

  lemma PowEvenIgnoresSign(a: real, k: nat)
    ensures Pow(-a, 2 * k) == Pow(a, 2 * k)
  {
    var b := -a;
    PowOfSquare(a, k);
    PowOfSquare(b, k);
    assert b * b == a * a;
  }

  /** A negative setting is not clamped: it gives the factor of its magnitude. */
  lemma GainIgnoresSign(x: real)
    ensures EffectiveGain(-x) == EffectiveGain(x)
  {
    assert -x / 10.0 == -(x / 10.0);
    PowEvenIgnoresSign(x / 10.0, 5);
  }

  /** One amplitude scaled by a linear factor and written as a device float. */
  function Amplified(x: real, gain: real): (y: Float)
    ensures gain == 1.0 ==> y as real == x
    ensures x == 0.0 || gain == 0.0 ==> y == 0.0 as Float
    ensures 0.0 <= gain ==> (0.0 <= x ==> 0.0 <= y as real) && (x <= 0.0 ==> y as real <= 0.0)
  {
    (x * gain) as Float
  }

  /**
   * The device buffer the render path writes for mono amplitudes `audio` at linear
   * factor `gain`: each scaled amplitude in both slots of its stereo frame.
   */
  function Duplicated(audio: seq<real>, gain: real): (frames: seq<Float>)
    ensures |frames| == 2 * |audio|
    ensures forall j :: 0 <= j < |frames| ==> frames[j] == Amplified(audio[j / 2], gain)
  {
    if audio == [] then []
    else
      var v := Amplified(audio[0], gain);
      [v, v] + Duplicated(audio[1..], gain)
  }

  /** Rendering one more amplitude appends one more stereo frame. */
  lemma DuplicatedSnoc(audio: seq<real>, a: real, gain: real)
    ensures Duplicated(audio + [a], gain) == Duplicated(audio, gain) + [Amplified(a, gain), Amplified(a, gain)]
  {
    var v := Amplified(a, gain);
    var longer, shorter := Duplicated(audio + [a], gain), Duplicated(audio, gain) + [v, v];
    forall j | 0 <= j < |longer|
      ensures longer[j] == shorter[j]
    {
      if j < 2 * |audio| {
        assert (audio + [a])[j / 2] == audio[j / 2];
      } else {
        assert j / 2 == |audio|;
      }
    }
  }

  /** The left (even) slots of an interleaved buffer. */
  function Left(frames: seq<Float>): seq<Float>
  {
    seq(|frames| / 2, i requires 0 <= i < |frames| / 2 => frames[2 * i])
  }

  /** The right (odd) slots of an interleaved buffer. */
  function Right(frames: seq<Float>): seq<Float>
  {
    seq(|frames| / 2, i requires 0 <= i < |frames| / 2 => frames[2 * i + 1])
  }

  /** Every amplitude scaled by a linear factor and narrowed to a device float. */
  function Scaled(audio: seq<real>, gain: real): seq<Float>
  {
    seq(|audio|, i requires 0 <= i < |audio| => Amplified(audio[i], gain))
  }

  /** The render output is mono: both channels carry the scaled amplitudes. */
  lemma DuplicatedIsMono(audio: seq<real>, gain: real)
    ensures Left(Duplicated(audio, gain)) == Scaled(audio, gain)
    ensures Right(Duplicated(audio, gain)) == Scaled(audio, gain)
  {
    var f := Duplicated(audio, gain);
    var s := Scaled(audio, gain);
    forall i | 0 <= i < |audio|
      ensures Left(f)[i] == s[i] && Right(f)[i] == s[i]
    {
      assert (2 * i) / 2 == i && (2 * i + 1) / 2 == i;
      assert f[2 * i] == s[i] && f[2 * i + 1] == s[i];
    }
  }

  /** A hook that writes one constant amplitude yields that amplitude times the gain everywhere. */
  lemma DuplicatedConstant(audio: seq<real>, a: real, gain: real)
    requires forall i :: 0 <= i < |audio| ==> audio[i] == a
    ensures forall j :: 0 <= j < |Duplicated(audio, gain)| ==> Duplicated(audio, gain)[j] == Amplified(a, gain)
  {
  }

  /**
   * The complex samples the capture path makes of an interleaved buffer: one per
   * whole frame, left channel to the real part and right channel to the imaginary
   * part, both attenuated by InputGain. A trailing odd slot is ignored.
   */
  function Captured(frames: seq<Float>): (iq: seq<Complex>)
    ensures |iq| == |frames| / 2
    ensures forall i :: 0 <= i < |iq| ==>
      iq[i] == Complex(frames[2 * i] as real * InputGain, frames[2 * i + 1] as real * InputGain)
  {
    if |frames| < 2 then []
    else [Complex(frames[0] as real * InputGain, frames[1] as real * InputGain)] + Captured(frames[2..])
  }

  /** The interleaved device buffer of a complex sequence: real part left, imaginary part right. */
  function Interleaved(iq: seq<Complex>): (frames: seq<Float>)
    ensures |frames| == 2 * |iq|
    ensures forall i :: 0 <= i < |iq| ==> frames[2 * i] == iq[i].Real as Float && frames[2 * i + 1] == iq[i].Imag as Float
  {
    if iq == [] then [] else [iq[0].Real as Float, iq[0].Imag as Float] + Interleaved(iq[1..])
  }

  /** Both components of every sample multiplied by the same factor. */
  function ScaledIQ(iq: seq<Complex>, k: real): seq<Complex>
  {
    seq(|iq|, i requires 0 <= i < |iq| => Complex(iq[i].Real * k, iq[i].Imag * k))
  }

  /** Capturing an interleaved buffer gives back the interleaved samples, attenuated. */
  lemma CapturedInterleaved(iq: seq<Complex>)
    ensures Captured(Interleaved(iq)) == ScaledIQ(iq, InputGain)
  {
    var f := Interleaved(iq);
    var c, s := Captured(f), ScaledIQ(iq, InputGain);
    assert |c| == |s|;
    forall i | 0 <= i < |iq| ensures c[i] == s[i] {
      var x := iq[i];
      assert f[2 * i] == x.Real as Float && f[2 * i + 1] == x.Imag as Float;
      assert c[i] == Complex(f[2 * i] as real * InputGain, f[2 * i + 1] as real * InputGain);
      assert s[i] == Complex(x.Real * InputGain, x.Imag * InputGain);
    }
  }
}

/** Audio blocks as the recorder sees them: raw bytes of signed 16-bit mono
    samples, the level meter `_calculate_volume` computes over one block, and
    the payload `b''.join(frames)` written when a recording stops. */
module Volume {

  newtype byte = x: int | 0 <= x < 256

  /** The RMS amplitude at which the meter is full. */
  const FullScale: int := 10000

  /** `array('h', ...)` reading two bytes, low byte first: a signed 16-bit
      sample. */
  function Sample(lo: byte, hi: byte): (v: int)
    ensures -32768 <= v < 32768
  {
    var u := lo as int + 256 * hi as int;
    if u >= 32768 then u - 65536 else u
  }

  /** The two bytes, low byte first, that store sample `v`. */
  function EncodeSample(v: int): (b: seq<byte>)
    requires -32768 <= v < 32768
    ensures |b| == 2
  {
    var u := if v < 0 then v + 65536 else v;
    [(u % 256) as byte, (u / 256) as byte]
  }

  /** Encoding a sample and reading it back gives the sample. */
  lemma SampleRoundTrip(v: int)
    requires -32768 <= v < 32768
    ensures var b := EncodeSample(v); Sample(b[0], b[1]) == v
  {
  }

  /** Reading two bytes and encoding the sample gives the two bytes back. */
  lemma EncodeRoundTrip(lo: byte, hi: byte)
    ensures EncodeSample(Sample(lo, hi)) == [lo, hi]
  {
  }

  /** The samples of a block of even length: sample `i` is bytes `2i` and `2i + 1`. */
  function Samples(data: seq<byte>): (s: seq<int>)
    requires |data| % 2 == 0
    ensures |s| == |data| / 2
    ensures forall i | 0 <= i < |s| :: s[i] == Sample(data[2 * i], data[2 * i + 1])
  {
    if |data| == 0 then [] else [Sample(data[0], data[1])] + Samples(data[2..])
  }

  /** Splitting a byte string at an even position splits its samples there. */
  lemma {:induction false} SamplesAppend(a: seq<byte>, b: seq<byte>)
    requires |a| % 2 == 0 && |b| % 2 == 0
    ensures Samples(a + b) == Samples(a) + Samples(b)
  {
    if |a| == 0 {
      assert a + b == b;
    } else {
      assert (a + b)[2..] == a[2..] + b;
      SamplesAppend(a[2..], b);
      var x := Sample(a[0], a[1]);
      assert Samples(a + b) == [x] + Samples(a[2..] + b);
      assert Samples(a) == [x] + Samples(a[2..]);
    }
  }

  function SumSquares(s: seq<int>): nat
  {
    if |s| == 0 then 0 else s[0] * s[0] + SumSquares(s[1..])
  }

  /** Square of the meter reading `min(1.0, rms / 10000)` for one block:
      `min(1, mean square / 10000^2)`. A block with no samples or an odd number
      of bytes makes the computation raise, and the reading is then 0. */
  function SquaredLevel(data: seq<byte>): (v: real)
    ensures 0.0 <= v <= 1.0
    ensures |data| == 0 || |data| % 2 == 1 ==> v == 0.0
  {
    if |data| == 0 || |data| % 2 == 1 then 0.0
    else
      var s := Samples(data);
      Meter(SumSquares(s), |s|)
  }

  /** `min(1, (sumSquares / count) / 10000^2)`. */
  function Meter(sumSquares: nat, count: nat): (v: real)
    requires count > 0
    ensures 0.0 <= v <= 1.0
  {
    var meanSquare := sumSquares as real / count as real;
    var full := (FullScale * FullScale) as real;
    if meanSquare >= full then 1.0 else meanSquare / full
  }

  lemma MeterZero(sumSquares: nat, count: nat)
    requires count > 0
    ensures Meter(sumSquares, count) == 0.0 <==> sumSquares == 0
  {
    if sumSquares > 0 {
      PositiveQuotient(sumSquares as real, count as real);
    }
  }

  lemma MeterFull(sumSquares: nat, count: nat)
    requires count > 0 && sumSquares >= count * (FullScale * FullScale)
    ensures Meter(sumSquares, count) == 1.0
  {
    var full := FullScale * FullScale;
    assert (count * full) as real == count as real * full as real;
    QuotientAtLeast(sumSquares as real, count as real, full as real);
  }

  /** Every sample is zero. */
  predicate Silent(s: seq<int>)
  {
    forall i | 0 <= i < |s| :: s[i] == 0
  }

  lemma {:induction false} SumSquaresZero(s: seq<int>)
    ensures SumSquares(s) == 0 <==> Silent(s)
  {
    if |s| > 0 {
      SumSquaresZero(s[1..]);
      assert forall i | 1 <= i < |s| :: s[i] == s[1..][i - 1];
    }
  }

  lemma {:induction false} SumSquaresLoud(s: seq<int>)
    requires forall i | 0 <= i < |s| :: s[i] <= -FullScale || FullScale <= s[i]
    ensures SumSquares(s) >= |s| * (FullScale * FullScale)
  {
    if |s| > 0 {
      SumSquaresLoud(s[1..]);
      SquareAtLeast(s[0]);
    }
  }

  lemma SquareAtLeast(x: int)
    requires x <= -FullScale || FullScale <= x
    ensures x * x >= FullScale * FullScale
  {
    if x < 0 {
      assert (-x) * (-x) >= FullScale * (-x) >= FullScale * FullScale;
    } else {
      assert x * x >= FullScale * x >= FullScale * FullScale;
    }
  }

  /** The meter reads 0 for a well-formed block exactly when every sample is 0. */
  lemma SilentIffZero(data: seq<byte>)
    requires |data| > 0 && |data| % 2 == 0
    ensures SquaredLevel(data) == 0.0 <==> Silent(Samples(data))
  {
    var s := Samples(data);
    SumSquaresZero(s);
    MeterZero(SumSquares(s), |s|);
  }

  lemma PositiveQuotient(m: real, n: real)
    requires m > 0.0 && n > 0.0
    ensures m / n > 0.0
  {
  }

  lemma QuotientAtLeast(m: real, n: real, f: real)
    requires n > 0.0 && m >= n * f
    ensures m / n >= f
  {
  }

  /** A block whose every sample is at least 10000 in magnitude fills the meter. */
  lemma LoudIsFull(data: seq<byte>)
    requires |data| > 0 && |data| % 2 == 0
    requires forall i | 0 <= i < |data| / 2 :: Samples(data)[i] <= -FullScale || FullScale <= Samples(data)[i]
    ensures SquaredLevel(data) == 1.0
  {
    var s := Samples(data);
    SumSquaresLoud(s);
    MeterFull(SumSquares(s), |s|);
  }

  /** `b''.join(frames)`: the blocks one after another. */
  function Concat(frames: seq<seq<byte>>): (payload: seq<byte>)
    ensures |frames| > 0 ==> |payload| >= |frames[0]| && payload[..|frames[0]|] == frames[0]
    ensures (forall k | 0 <= k < |frames| :: |frames[k]| % 2 == 0) ==> |payload| % 2 == 0
  {
    if |frames| == 0 then [] else frames[0] + Concat(frames[1..])
  }

  /** Appending a block appends its bytes to the payload, after the earlier ones. */
  lemma {:induction false} ConcatAppend(frames: seq<seq<byte>>, f: seq<byte>)
    ensures Concat(frames + [f]) == Concat(frames) + f
  {
    if |frames| > 0 {
      assert (frames + [f])[1..] == frames[1..] + [f];
      ConcatAppend(frames[1..], f);
    } else {
      assert frames + [f] == [f];
    }
  }

  /** Blocks of whole samples give a payload whose samples are the blocks'
      samples in arrival order. */
  lemma {:induction false} ConcatSamples(frames: seq<seq<byte>>)
    requires forall k | 0 <= k < |frames| :: |frames[k]| % 2 == 0
    ensures |Concat(frames)| % 2 == 0
    ensures Samples(Concat(frames)) == ConcatSamplesOf(frames)
  {
    if |frames| > 0 {
      ConcatSamples(frames[1..]);
      SamplesAppend(frames[0], Concat(frames[1..]));
    }
  }

  function ConcatSamplesOf(frames: seq<seq<byte>>): seq<int>
    requires forall k | 0 <= k < |frames| :: |frames[k]| % 2 == 0
  {
    if |frames| == 0 then [] else Samples(frames[0]) + ConcatSamplesOf(frames[1..])
  }
}

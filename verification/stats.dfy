/** The per-channel statistics pass over the difference image: one row-major
    scan that keeps, per channel, a running maximum started at 0 and a
    running sum, followed by the division of each sum by the pixel count. */
module Stats {
  import opened Reduce
  import opened Images
  import opened Difference

  /** The outcomes of dividing an exact, non-negative sum by a pixel count:
      a finite quotient, kept as the exact real rather than rounded to the
      nearest double, +infinity (x / 0 with x > 0) or NaN (0 / 0). */
  datatype Double = Finite(value: real) | Infinity | NaN

  /** Division of a non-negative sum by a pixel count: the exact quotient for
      a positive count, and the double special values for a zero count. */
  function Divide(x: nat, n: nat): (r: Double)
    ensures n > 0 ==> r.Finite? && r.value * n as real == x as real
    ensures n == 0 ==> (r == NaN <==> x == 0) && (r == Infinity <==> x > 0)
  {
    if n > 0 then Finite(x as real / n as real)
    else if x == 0 then NaN
    else Infinity
  }

  /** The channel-`k` samples the pass has read after its first `n` pixels:
      none at all for a depth that no branch of the scan dispatches on. */
  function Scanned(img: Image, k: nat, n: nat): seq<nat>
    requires Valid(img) && k < PixelChannels && n <= Pixels(img)
  {
    if IsUnsigned(img.depth) then Channel(img, k)[..n] else []
  }

  /** Folds the three samples of pixel `p` into the accumulators, channel by
      channel: the sum always grows by the sample, the maximum is replaced
      only by a strictly greater sample, and step `k` touches index `k` only. */
  method AccumulatePixel(img: Image, p: nat, max: seq<nat>, sum: seq<nat>)
    returns (max': seq<nat>, sum': seq<nat>)
    requires Valid(img) && p < Pixels(img)
    requires |max| == PixelChannels && |sum| == PixelChannels
    ensures |max'| == PixelChannels && |sum'| == PixelChannels
    ensures forall k :: 0 <= k < PixelChannels ==>
      && sum'[k] == sum[k] + Channel(img, k)[p]
      && max[k] <= max'[k]
      && Channel(img, k)[p] <= max'[k]
      && (max'[k] == max[k] || (max'[k] == Channel(img, k)[p] && Channel(img, k)[p] > max[k]))
  {
    max', sum' := max, sum;
    var k := 0;
    while k < img.channels
      invariant k <= PixelChannels
      invariant |max'| == PixelChannels && |sum'| == PixelChannels
      invariant forall c :: 0 <= c < k ==>
        && sum'[c] == sum[c] + Channel(img, c)[p]
        && max[c] <= max'[c]
        && Channel(img, c)[p] <= max'[c]
        && (max'[c] == max[c] || (max'[c] == Channel(img, c)[p] && Channel(img, c)[p] > max[c]))
      invariant forall c :: k <= c < PixelChannels ==> sum'[c] == sum[c] && max'[c] == max[c]
    {
      var v := img.data[p * PixelChannels + k];
      assert v == Channel(img, k)[p];
      sum' := sum'[k := sum'[k] + v];
      if v > max'[k] {
        max' := max'[k := v];
      }
      k := k + 1;
    }
  }

  /** The nested row/column scan. For the unsigned depths the accumulators
      end as the maximum (0 for an empty image) and the sum of each channel's
      samples; for a depth no branch handles they keep their initial 0. */
  method ScanChannels(img: Image) returns (max: seq<nat>, sum: seq<nat>)
    requires Valid(img) && img.depth != F32
    ensures |max| == img.channels && |sum| == img.channels
    ensures forall k :: 0 <= k < img.channels ==>
      && max[k] == (if IsUnsigned(img.depth) then Max(Channel(img, k)) else 0)
      && sum[k] == (if IsUnsigned(img.depth) then Sum(Channel(img, k)) else 0)
  {
    max := seq(img.channels, _ => 0);
    sum := seq(img.channels, _ => 0);
    var i := 0;
    while i < img.rows
      invariant i <= img.rows
      invariant i * img.cols <= Pixels(img)
      invariant |max| == PixelChannels && |sum| == PixelChannels
      invariant forall k :: 0 <= k < PixelChannels ==>
        && max[k] == Max(Scanned(img, k, i * img.cols))
        && sum[k] == Sum(Scanned(img, k, i * img.cols))
    {
      var j := 0;
      while j < img.cols
        invariant j <= img.cols
        invariant i * img.cols + j <= Pixels(img)
        invariant |max| == PixelChannels && |sum| == PixelChannels
        invariant forall k :: 0 <= k < PixelChannels ==>
          && max[k] == Max(Scanned(img, k, i * img.cols + j))
          && sum[k] == Sum(Scanned(img, k, i * img.cols + j))
      {
        PixelIndexInRange(i, j, img.rows, img.cols);
        var p := i * img.cols + j;
        if IsUnsigned(img.depth) {
          max, sum := AccumulatePixel(img, p, max, sum);
          forall k | 0 <= k < PixelChannels
            ensures max[k] == Max(Scanned(img, k, p + 1))
            ensures sum[k] == Sum(Scanned(img, k, p + 1))
          {
            var s := Channel(img, k);
            assert s[..p + 1] == s[..p] + [s[p]];
            MaxSnoc(s[..p], s[p]);
            SumSnoc(s[..p], s[p]);
          }
        }
        j := j + 1;
      }
      assert i * img.cols + img.cols == (i + 1) * img.cols;
      i := i + 1;
    }
    assert i * img.cols == Pixels(img);
    forall k | 0 <= k < PixelChannels
      ensures IsUnsigned(img.depth) ==> Scanned(img, k, Pixels(img)) == Channel(img, k)
    {
    }
  }

  /** Divides every channel's sum by the pixel count, in place. */
  method DivideAll(sum: seq<nat>, n: nat) returns (avg: seq<Double>)
    ensures |avg| == |sum|
    ensures forall k :: 0 <= k < |sum| ==> avg[k] == Divide(sum[k], n)
  {
    avg := seq(|sum|, k requires 0 <= k < |sum| => Finite(sum[k] as real));
    var k := 0;
    while k < |sum|
      invariant k <= |sum| && |avg| == |sum|
      invariant forall c :: 0 <= c < k ==> avg[c] == Divide(sum[c], n)
      invariant forall c :: k <= c < |sum| ==> avg[c] == Finite(sum[c] as real)
    {
      avg := avg[k := Divide(sum[k], n)];
      k := k + 1;
    }
  }

  /** The whole pass: one maximum and one mean per channel. */
  method ChannelStats(img: Image) returns (max: seq<nat>, avg: seq<Double>)
    requires Valid(img) && img.depth != F32
    ensures |max| == img.channels && |avg| == img.channels
    ensures IsUnsigned(img.depth) ==>
      forall k :: 0 <= k < img.channels ==> IsMaxOrZero(Channel(img, k), max[k])
    ensures img.depth == Other ==> forall k :: 0 <= k < img.channels ==> max[k] == 0
    ensures forall k :: 0 <= k < img.channels ==> InRange(img.depth, max[k])
    ensures Pixels(img) > 0 ==> forall k :: 0 <= k < img.channels ==>
      && avg[k].Finite?
      && avg[k].value == (if IsUnsigned(img.depth) then Sum(Channel(img, k)) as real / Pixels(img) as real else 0.0)
      && 0.0 <= avg[k].value <= max[k] as real
    ensures Pixels(img) == 0 ==> forall k :: 0 <= k < img.channels ==> avg[k] == NaN
  {
    var sum;
    max, sum := ScanChannels(img);
    avg := DivideAll(sum, Pixels(img));
    forall k | 0 <= k < PixelChannels
      ensures IsUnsigned(img.depth) ==> IsMaxOrZero(Channel(img, k), max[k])
      ensures InRange(img.depth, max[k])
      ensures Pixels(img) > 0 ==> 0.0 <= avg[k].value <= max[k] as real
    {
      if IsUnsigned(img.depth) {
        MaxCharacterised(Channel(img, k), max[k]);
        ChannelMaxFitsDepth(img, k);
        if Pixels(img) > 0 {
          MeanWithinMax(Channel(img, k));
        }
      }
    }
  }

  /** The largest channel sample fits the image's depth: at most 255 for
      8-bit and at most 65535 for 16-bit samples. */
  lemma ChannelMaxFitsDepth(img: Image, k: nat)
    requires Valid(img) && k < PixelChannels
    ensures InRange(img.depth, Max(Channel(img, k)))
  {
    ChannelInRange(img, k);
    match img.depth
    case U8 => MaxWithinBound(Channel(img, k), 255);
    case U16 => MaxWithinBound(Channel(img, k), 65535);
    case _ =>
  }

  /** The mean of a non-empty unsigned image's channel fits its depth too. */
  lemma ChannelMeanFitsDepth(img: Image, k: nat)
    requires Valid(img) && k < PixelChannels && Pixels(img) > 0
    ensures img.depth == U8 ==> Sum(Channel(img, k)) as real / Pixels(img) as real <= 255.0
    ensures img.depth == U16 ==> Sum(Channel(img, k)) as real / Pixels(img) as real <= 65535.0
  {
    ChannelMaxFitsDepth(img, k);
    MeanWithinMax(Channel(img, k));
  }

  /** Comparing an image with itself reports a maximum and a sum of 0 in
      every channel. */
  lemma IdenticalImagesGiveZeroStats(a: Image, k: nat)
    requires Valid(a) && k < PixelChannels
    ensures Max(Channel(AbsDiff(a, a), k)) == 0
    ensures Sum(Channel(AbsDiff(a, a), k)) == 0
  {
    var d := AbsDiff(a, a);
    AbsDiffSelfIsZero(a);
    forall p | 0 <= p < |Channel(d, k)|
      ensures Channel(d, k)[p] <= 0
    {
      assert p * PixelChannels + k < |d.data|;
    }
    MaxWithinBound(Channel(d, k), 0);
    SumWithinBound(Channel(d, k), 0);
  }
}

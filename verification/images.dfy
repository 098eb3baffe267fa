/** A decoded image as the statistics pass sees it: `rows` x `cols` pixels,
    each holding `channels` interleaved samples, stored row by row. */
module Images {

  /** The element depth the pass dispatches on: CV_8U, CV_16U, CV_32F, and
      every other depth OpenCV knows (8S, 16S, 32S, 64F, ...). Samples are
      naturals, so the negative or fractional samples of those other depths
      are not represented; only the fact that no branch of the scan reads
      them is. */
  datatype Depth = U8 | U16 | F32 | Other

  /** Number of interleaved channels in a `Vec3b` / `Vec3w` pixel. */
  const PixelChannels: nat := 3

  datatype Image = Image(rows: nat, cols: nat, channels: nat, depth: Depth, data: seq<nat>)

  /** The depths whose samples the pass reads as unsigned integers. */
  predicate IsUnsigned(d: Depth)
  {
    d == U8 || d == U16
  }

  /** Whether `v` is representable in depth `d`; only the unsigned depths
      constrain the stored value. */
  predicate InRange(d: Depth, v: nat)
  {
    match d
    case U8 => v <= 255
    case U16 => v <= 65535
    case _ => true
  }

  /** Number of pixels, the divisor of the mean. */
  function Pixels(img: Image): nat
  {
    img.rows * img.cols
  }

  /** A three-channel, continuous, row-major image whose samples fit its depth. */
  predicate Valid(img: Image)
  {
    && img.channels == PixelChannels
    && |img.data| == Pixels(img) * PixelChannels
    && forall i :: 0 <= i < |img.data| ==> InRange(img.depth, img.data[i])
  }

  /** Both images have the same dimensions, channel count and depth. */
  predicate SameShape(a: Image, b: Image)
  {
    a.rows == b.rows && a.cols == b.cols && a.channels == b.channels && a.depth == b.depth
  }

  /** The channel-`k` samples of every pixel, in row-major pixel order. */
  function Channel(img: Image, k: nat): seq<nat>
    requires Valid(img) && k < PixelChannels
  {
    seq(Pixels(img), p requires 0 <= p < Pixels(img) => img.data[p * PixelChannels + k])
  }

  /** The linear pixel index `i * cols + j` of an in-bounds (row, column)
      pair lies below the pixel count. */
  lemma PixelIndexInRange(i: nat, j: nat, rows: nat, cols: nat)
    requires i < rows && j < cols
    ensures i * cols + j < rows * cols
  {
    assert i * cols + j < (i + 1) * cols;
    assert (i + 1) * cols <= rows * cols;
  }

  /** Every channel-`k` sample fits the image's depth. */
  lemma ChannelInRange(img: Image, k: nat)
    requires Valid(img) && k < PixelChannels
    ensures forall p :: 0 <= p < |Channel(img, k)| ==> InRange(img.depth, Channel(img, k)[p])
  {
    forall p | 0 <= p < |Channel(img, k)|
      ensures InRange(img.depth, Channel(img, k)[p])
    {
      assert p * PixelChannels + k < |img.data|;
    }
  }
}

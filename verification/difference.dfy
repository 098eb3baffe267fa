/** The difference image: the element-wise absolute difference of two
    same-shaped images, the value `cv::absdiff` is documented to compute. */
module Difference {
  import opened Images

  /** Absolute difference of two unsigned samples. */
  function Dist(x: nat, y: nat): (r: nat)
    ensures x == y + r || y == x + r
  {
    if x >= y then x - y else y - x
  }

  /** The absolute-difference image of `a` and `b`: each sample is the
      distance between the two input samples at that index. It has their
      shape and fits their depth, because a difference of two unsigned samples
      is never larger than the larger of them, so no saturation is needed. */
  function AbsDiff(a: Image, b: Image): (r: Image)
    requires Valid(a) && Valid(b) && SameShape(a, b)
    ensures Valid(r) && SameShape(r, a)
    ensures |r.data| == |a.data|
    ensures forall i :: 0 <= i < |r.data| ==>
      a.data[i] == b.data[i] + r.data[i] || b.data[i] == a.data[i] + r.data[i]
  {
    var diff := seq(|a.data|, i requires 0 <= i < |a.data| => Dist(a.data[i], b.data[i]));
    Image(a.rows, a.cols, a.channels, a.depth, diff)
  }

  /** The difference image does not depend on the order of its operands. */
  lemma AbsDiffSymmetric(a: Image, b: Image)
    requires Valid(a) && Valid(b) && SameShape(a, b)
    ensures AbsDiff(a, b) == AbsDiff(b, a)
  {
    assert AbsDiff(a, b).data == AbsDiff(b, a).data;
  }

  /** An image compared with itself gives an all-zero difference. */
  lemma AbsDiffSelfIsZero(a: Image)
    requires Valid(a)
    ensures forall i :: 0 <= i < |AbsDiff(a, a).data| ==> AbsDiff(a, a).data[i] == 0
  {
  }

  /** The difference image is all zero exactly when the two images hold the
      same samples. */
  lemma AbsDiffZeroIffEqual(a: Image, b: Image)
    requires Valid(a) && Valid(b) && SameShape(a, b)
    ensures (forall i :: 0 <= i < |AbsDiff(a, b).data| ==> AbsDiff(a, b).data[i] == 0)
        <==> a.data == b.data
  {
    var d := AbsDiff(a, b).data;
    if forall i :: 0 <= i < |d| ==> d[i] == 0 {
      forall i | 0 <= i < |a.data|
        ensures a.data[i] == b.data[i]
      {
        assert d[i] == Dist(a.data[i], b.data[i]);
      }
    }
  }
}

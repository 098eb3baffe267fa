# CV_ImageComparison: per-channel difference statistics

`CV_ImageComparison/Main.cpp` loads two images, takes their absolute
difference with `cv::absdiff`, and scans the difference image once, row by
row and column by column. For every one of its three interleaved channels it
keeps a running maximum, which starts at 0 and is replaced only by a strictly
greater sample. It also keeps a running sum. Afterwards each sum is divided
by `rows * cols` to give the channel mean. The scan dispatches on the
element depth. The 8-bit (`Vec3b`) and 16-bit (`Vec3w`) unsigned branches
read the samples as integers, and a 32-bit float branch reads floats. Any
other depth matches no branch, so max and mean stay 0.

This project models that pass in Dafny:

- `Images` (`images.dfy`): the difference image as a row-major, channel-interleaved
  `seq<nat>` with `rows`, `cols`, `channels` and a `Depth`
  (`U8 | U16 | F32 | Other`). `Valid` requires three channels, matching
  `Vec3b`/`Vec3w`, storage of `rows * cols * 3` samples, and samples that
  fit the depth (≤ 255 for 8-bit, ≤ 65535 for 16-bit).
- `Difference` (`difference.dfy`): `cv::absdiff` as a pure specification
  function, `|a - b|` per sample over two images of the same shape.
- `Reduce` (`reduce.dfy`): reference `Sum` and `Max` folds over a channel's
  samples, written front to back, independently of the scan. Lemmas connect
  them to a running accumulator (`SumSnoc`, `MaxSnoc`) and characterise the
  maximum. The maximum is an upper bound that is attained, or 0 when there
  are no samples, and no other value has that property.
- `Stats` (`stats.dfy`): the nested row/column/channel loops
  (`ScanChannels`, `AccumulatePixel`), the per-channel division
  (`DivideAll`), and the whole pass (`ChannelStats`). The accumulators are
  `double` in the source. Sums of integer samples are exact, so they are
  modelled as `nat`. The quotient is a `Double` that is `Finite(real)`, or
  `NaN` for the `0 / 0` of an empty image. `main` never reaches that NaN
  case: it returns early when either input is empty (Main.cpp:12-20), and
  the difference image keeps the inputs' size, so `rows * cols > 0` at the
  division.

Main.cpp has no parallel partitioning, no tracking of the positions where
the maximum occurs, and no error for an unsupported depth. None of these is
modelled. An unsupported depth gives all-zero maxima, following the code.

## Model

| member | source | states |
|---|---|---|
| Difference.Dist | CV_ImageComparison/Main.cpp:24-25 | The difference `r` of two samples satisfies `x == y + r` or `y == x + r`, so it is the absolute difference. |
| Difference.AbsDiff | CV_ImageComparison/Main.cpp:24-25 | The difference image has the inputs' shape and depth. Each sample `r` satisfies `a == b + r` or `b == a + r` at its index, so it is `|a - b|`. It fits the depth, so unsigned absdiff never needs saturation. |
| Difference.AbsDiffSymmetric | CV_ImageComparison/Main.cpp:24-25 | `absdiff(a, b) == absdiff(b, a)` for all same-shaped valid images. |
| Difference.AbsDiffSelfIsZero | CV_ImageComparison/Main.cpp:24-25 | Comparing an image with itself gives an all-zero difference image. |
| Difference.AbsDiffZeroIffEqual | CV_ImageComparison/Main.cpp:24-25 | The difference image is all zero if and only if the two images hold the same samples. |
| Images.PixelIndexInRange | CV_ImageComparison/Main.cpp:36-39 | For `i < rows` and `j < cols`, the pixel read by `at(i, j)` has row-major index `i*cols + j < rows*cols`, so every access is in bounds. |
| Images.ChannelInRange | CV_ImageComparison/Main.cpp:39 | Every channel sample of a valid image fits the `Vec3b`/`Vec3w` sample type of its depth. |
| Reduce.SumSnoc | CV_ImageComparison/Main.cpp:41 | Adding one more sample to the running sum gives the sum of all samples seen so far plus that sample. |
| Reduce.MaxSnoc | CV_ImageComparison/Main.cpp:42-44 | Appending a sample changes the maximum only when the sample is strictly greater than it, and then the sample becomes the maximum. |
| Reduce.MaxIsUpperBound | CV_ImageComparison/Main.cpp:42-44 | The maximum is ≥ every sample of the channel. |
| Reduce.MaxIsAttained | CV_ImageComparison/Main.cpp:42-44 | A non-empty channel attains its maximum at some pixel. |
| Reduce.MaxWithinBound | CV_ImageComparison/Main.cpp:42-44 | A bound that holds for every sample also holds for the maximum. |
| Reduce.SumWithinBound | CV_ImageComparison/Main.cpp:41 | If every sample is ≤ b, the sum is ≤ count × b. |
| Reduce.SumAtMostCountTimesMax | CV_ImageComparison/Main.cpp:41-44 | The sum never exceeds the sample count times the maximum. |
| Reduce.MaxCharacterised | CV_ImageComparison/Main.cpp:32-44 | A value is the result of the running maximum started at 0 iff it bounds every sample and is one of them, or is 0 for no samples (both directions). |
| Reduce.MeanWithinMax | CV_ImageComparison/Main.cpp:67-69 | For at least one sample, `0 ≤ sum / count ≤ max`. |
| Stats.Divide | CV_ImageComparison/Main.cpp:68 | Dividing by a positive count gives a finite `r` with `r * n == x`. Dividing by 0 gives NaN iff the sum is 0, and +infinity iff it is positive. |
| Stats.AccumulatePixel | CV_ImageComparison/Main.cpp:40-45 | After one pixel, every channel's sum has grown by exactly that channel's sample. The maximum never decreases, is ≥ the sample, and changes only to a strictly greater sample. Step `k` touches index `k` only (loop invariant). |
| Stats.ScanChannels | CV_ImageComparison/Main.cpp:32-66 | One max and one sum per channel. After the nested scan, for 8U/16U each channel's running max equals the reference maximum and its running sum equals the reference sum. Both are 0 for an empty image. For any other depth they stay 0. |
| Stats.DivideAll | CV_ImageComparison/Main.cpp:67-69 | One mean per channel, each that channel's sum divided by the pixel count as `Divide` states it: the exact quotient for a positive count, NaN or +infinity for a zero count. |
| Stats.ChannelStats | CV_ImageComparison/Main.cpp:29-69 | One max and one mean per channel. For 8U/16U the max bounds every sample and is attained, or is 0 for an empty image. For other depths it is 0. The max fits the depth. For a non-empty image the mean is `sum / (rows*cols)` (0 for other depths) and `0 ≤ mean ≤ max`. For an empty image it is NaN. |
| Stats.ChannelMaxFitsDepth | CV_ImageComparison/Main.cpp:39-48 | The channel maximum is ≤ 255 for 8U and ≤ 65535 for 16U. |
| Stats.ChannelMeanFitsDepth | CV_ImageComparison/Main.cpp:87-92 | The channel mean of a non-empty image is ≤ 255 for 8U and ≤ 65535 for 16U. |
| Stats.IdenticalImagesGiveZeroStats | CV_ImageComparison/Main.cpp:24-45 | Comparing an image with itself gives a maximum and a sum of 0 in every channel. |

## Left out

- Stats.ScanChannels: requires a depth other than CV_32F. The float branch (Main.cpp:56-64) compares and accumulates 32-bit floats, and floating point is not modelled.
- Stats.ChannelStats: requires a depth other than CV_32F, for the same reason.
- Stats.Divide: a positive-count quotient is the exact real `x / n`. The program stores the nearest double instead: for a sum of 1 over 3 pixels it stores 0.33333333333333331, not 1/3. Rounding to nearest is monotone, and 0, 255 and 65535 are exact doubles, so the rounded mean still satisfies `0 ≤ mean ≤ max` and fits the depth.
- Stats.DivideAll: each mean is the exact real quotient from `Divide`, not the rounded double the program stores. The same monotonicity argument applies.
- Stats.ChannelStats: the mean is stated as the exact real `sum / (rows*cols)`, not the nearest double the program stores. `0 ≤ mean ≤ max` and the depth bounds survive that rounding, as argued for `Stats.Divide`.
- Sums are exact naturals. The source accumulates in `double`, which is exact only while a channel sum stays below 2^53 (over 2^37 pixels of 16-bit samples).
- The `int` product `rows * cols` at Main.cpp:68 is unbounded here. 32-bit overflow needs images of more than 2^31 pixels.
- Images with other than three channels: `at<Vec3b>`/`at<Vec3w>` reads three interleaved samples per pixel. With another channel count it reads the wrong memory, so `Valid` requires `channels == 3`.
- Difference.AbsDiff: requires two valid images of the same shape. On a mismatch `cv::absdiff` raises an OpenCV exception from library code that is not part of this model.
- Signed and 64-bit float depths (8S, 16S, 32S, 64F) are all `Other`, and samples are naturals. Their negative or fractional samples are not represented, so `AbsDiff` on such images omits the saturation `cv::absdiff` applies to signed depths: for 8S, `|127 - (-128)|` saturates to 127. The statistics pass is unaffected, because no branch reads an `Other` image.
- The internals of `cv::absdiff`. Only its documented result, `|a - b|` per sample, is modelled.
- `cv::imread` and the empty-image error returns (Main.cpp:7-20): file I/O and image decoding.
- Console output (Main.cpp:72-82), `cv::imshow`/`cv::waitKey` (Main.cpp:102-103), and the commented-out block (Main.cpp:85-98). The bounds 255 and 65535 listed in that block appear only as the depth bounds proved above.

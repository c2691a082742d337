/** The colour-distribution analyzer: per-channel population variance of the
    red, green and blue bytes, averaged and compared with a band. */
module ColorDistribution {
  import opened Image
  import opened Stats

  /** The bytes of channel c, one per pixel, in buffer order. */
  function Channel(img: ImageData, c: nat): (s: seq<int>)
    requires img.Valid() && c < 3
    ensures |s| == img.PixelCount()
  {
    seq(img.PixelCount(), p requires 0 <= p < img.PixelCount() => img.data[Index(p, c)])
  }

  /** Sum and sum of squares of channel c over the first k pixels. */
  function ChannelTotals(img: ImageData, c: nat, k: nat): (int, int)
    requires img.Valid() && c < 3 && k <= img.PixelCount()
  {
    if k == 0 then (0, 0)
    else
      var (total, squares) := ChannelTotals(img, c, k - 1);
      var v := img.data[Index(k - 1, c)];
      (total + v, squares + v * v)
  }

  lemma {:induction false} ChannelTotalsAreSums(img: ImageData, c: nat, k: nat)
    requires img.Valid() && c < 3 && k <= img.PixelCount()
    ensures ChannelTotals(img, c, k) == (Sum(Channel(img, c)[..k]), SumSq(Channel(img, c)[..k]))
  {
    if k > 0 {
      ChannelTotalsAreSums(img, c, k - 1);
      SumExtend(Channel(img, c), k - 1);
    }
  }

  /** The mean of the red, green and blue population variances. */
  function AverageVariance(img: ImageData): real
    requires img.Valid() && img.PixelCount() > 0
  {
    (PopVariance(Channel(img, 0)) + PopVariance(Channel(img, 1)) + PopVariance(Channel(img, 2))) / 3.0
  }

  /** The verdict: the average variance lies below 500 or above 3000. On an
      empty buffer the source divides 0 by 0, and NaN compares false. */
  ghost predicate ColorUnusual(img: ImageData)
    requires img.Valid()
  {
    img.PixelCount() > 0 &&
    (AverageVariance(img) < 500.0 || AverageVariance(img) > 3000.0)
  }

  /** The per-channel variances `squares/n - (sums/n)^2`, averaged and compared
      with the band [500, 3000]. With no pixels the source divides 0 by 0, and
      NaN compares false. */
  function VarianceVerdict(sums: seq<int>, squares: seq<int>, pixelCount: nat): bool
    requires |sums| == 3 && |squares| == 3
  {
    if pixelCount == 0 then false
    else
      var variances := seq(3, c requires 0 <= c < 3 =>
        ShortcutFromTotals(sums[c], squares[c], pixelCount));
      var avgVariance := (variances[0] + variances[1] + variances[2]) / 3.0;
      avgVariance < 500.0 || avgVariance > 3000.0
  }

  /** On the buffer's true totals the shortcut verdict is the variance band test. */
  lemma VerdictOfTotals(img: ImageData, sums: seq<int>, squares: seq<int>)
    requires img.Valid() && |sums| == 3 && |squares| == 3
    requires forall c :: 0 <= c < 3 ==> sums[c] == Sum(Channel(img, c)) && squares[c] == SumSq(Channel(img, c))
    ensures VarianceVerdict(sums, squares, img.PixelCount()) == ColorUnusual(img)
  {
    if img.PixelCount() > 0 {
      VarianceShortcut(Channel(img, 0));
      VarianceShortcut(Channel(img, 1));
      VarianceShortcut(Channel(img, 2));
    }
  }

  /** One pass over the buffer accumulating per-channel sums and sums of
      squares, then the shortcut variance. */
  method AnalyzeColorDistribution(img: ImageData) returns (unusual: bool)
    requires img.Valid()
    ensures unusual == ColorUnusual(img)
  {
    var channelSums, channelSquares := SumChannels(img);
    unusual := VarianceVerdict(channelSums[..], channelSquares[..], |img.data| / 4);
    TotalsVerdict(img, channelSums[..], channelSquares[..]);
  }

  /** The outer loop over the pixels, four bytes at a time, filling two
      three-slot arrays. */
  method SumChannels(img: ImageData) returns (channelSums: array<int>, channelSquares: array<int>)
    requires img.Valid()
    ensures channelSums.Length == 3 && channelSquares.Length == 3
    ensures forall c :: 0 <= c < 3 ==>
      (channelSums[c], channelSquares[c]) == ChannelTotals(img, c, img.PixelCount())
  {
    var data := img.data;
    channelSums := new int[3](_ => 0);
    channelSquares := new int[3](_ => 0);
    var i := 0;
    ghost var p := 0;  // the pixel that starts at byte i
    while i < |data|
      invariant 0 <= p <= img.PixelCount() && i == 4 * p
      invariant forall c :: 0 <= c < 3 ==>
        (channelSums[c], channelSquares[c]) == ChannelTotals(img, c, p)
    {
      AddPixel(img, i, p, channelSums, channelSquares);
      i, p := i + 4, p + 1;
    }
  }

  /** The inner loop over the red, green and blue bytes of pixel p, which
      starts at byte i. */
  method AddPixel(img: ImageData, i: nat, ghost p: nat, channelSums: array<int>, channelSquares: array<int>)
    requires img.Valid() && i == 4 * p && p < img.PixelCount()
    requires channelSums.Length == 3 && channelSquares.Length == 3 && channelSums != channelSquares
    requires forall c :: 0 <= c < 3 ==> (channelSums[c], channelSquares[c]) == ChannelTotals(img, c, p)
    modifies channelSums, channelSquares
    ensures forall c :: 0 <= c < 3 ==>
      (channelSums[c], channelSquares[c]) == ChannelTotals(img, c, p + 1)
  {
    var channel := 0;
    while channel < 3
      invariant 0 <= channel <= 3
      invariant forall c :: 0 <= c < channel ==>
        (channelSums[c], channelSquares[c]) == ChannelTotals(img, c, p + 1)
      invariant forall c :: channel <= c < 3 ==>
        (channelSums[c], channelSquares[c]) == ChannelTotals(img, c, p)
    {
      var value := img.data[i + channel];
      channelSums[channel] := channelSums[channel] + value;
      channelSquares[channel] := channelSquares[channel] + value * value;
      channel := channel + 1;
    }
  }

  /** Totals over every pixel give the verdict on the image. */
  lemma TotalsVerdict(img: ImageData, sums: seq<int>, squares: seq<int>)
    requires img.Valid() && |sums| == 3 && |squares| == 3
    requires forall c :: 0 <= c < 3 ==> (sums[c], squares[c]) == ChannelTotals(img, c, img.PixelCount())
    ensures VarianceVerdict(sums, squares, |img.data| / 4) == ColorUnusual(img)
  {
    forall c | 0 <= c < 3
      ensures sums[c] == Sum(Channel(img, c)) && squares[c] == SumSq(Channel(img, c))
    {
      ChannelTotalsAreSums(img, c, img.PixelCount());
      assert Channel(img, c)[..img.PixelCount()] == Channel(img, c);
    }
    VerdictOfTotals(img, sums, squares);
  }

  /** A single-colour image has variance zero and is therefore unusual. */
  lemma SolidIsUnusual(img: ImageData)
    requires img.Valid() && img.PixelCount() > 0 && Solid(img)
    ensures ColorUnusual(img)
  {
    forall c | 0 <= c < 3
      ensures PopVariance(Channel(img, c)) == 0.0
    {
      ConstantVariance(Channel(img, c), img.data[c]);
    }
  }
}

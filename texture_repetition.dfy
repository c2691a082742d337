/** The texture-repetition analyzer: 16 x 16 blocks on a grid, each compared
    with every block further down and further right, and the share of
    comparisons that find the two blocks alike. */
module TextureRepetition {
  import opened Image

  /** The analyzer's block size. */
  const BlockSize: nat := 16

  // ---- comparing two blocks ----

  /** Three times |brightness1 - brightness2| for the pixel at offset (x, y)
      in the blocks with top-left corners (x1, y1) and (x2, y2). */
  function PixelDiff3(bright: (nat, nat) -> int, x1: nat, y1: nat, x2: nat, y2: nat, x: nat, y: nat): nat {
    Abs(BlockPixel(bright, x1, y1, x, y) - BlockPixel(bright, x2, y2, x, y))
  }

  /** Three times the brightness at offset (x, y) of the block with top-left corner (cornerX, cornerY). */
  function BlockPixel(bright: (nat, nat) -> int, cornerX: nat, cornerY: nat, x: nat, y: nat): int {
    bright(cornerX + x, cornerY + y)
  }

  /** Every pixel of one size x size block has the brightness of the matching pixel of the other. */
  ghost predicate SameBlocks(bright: (nat, nat) -> int, x1: nat, y1: nat, x2: nat, y2: nat, size: nat) {
    forall x: nat, y: nat :: x < size && y < size ==> BlockPixel(bright, x1, y1, x, y) == BlockPixel(bright, x2, y2, x, y)
  }

  /** Row y of the two blocks, offsets 0 up to (not including) xEnd. */
  function BlockRowDiff3(bright: (nat, nat) -> int, x1: nat, y1: nat, x2: nat, y2: nat, y: nat, xEnd: nat): nat {
    if xEnd == 0 then 0
    else BlockRowDiff3(bright, x1, y1, x2, y2, y, xEnd - 1) + PixelDiff3(bright, x1, y1, x2, y2, xEnd - 1, y)
  }

  /** Rows 0 up to (not including) yEnd of the two size x size blocks. */
  function BlockDiff3(bright: (nat, nat) -> int, x1: nat, y1: nat, x2: nat, y2: nat, size: nat, yEnd: nat): nat {
    if yEnd == 0 then 0
    else BlockDiff3(bright, x1, y1, x2, y2, size, yEnd - 1) + BlockRowDiff3(bright, x1, y1, x2, y2, yEnd - 1, size)
  }

  /** `1 - difference / (size * size * 255)`, from three times the difference. */
  function Similarity(difference3: nat, size: nat): real
    requires size > 0
  {
    1.0 - (difference3 as real / 3.0) / (size * size * 255) as real
  }

  /** The block comparison's two loops over size x size pixels. */
  method CompareBlocks(bright: (nat, nat) -> int, x1: nat, y1: nat, x2: nat, y2: nat, size: nat) returns (similarity: real)
    requires size > 0
    ensures similarity == Similarity(BlockDiff3(bright, x1, y1, x2, y2, size, size), size)
  {
    var difference3: nat := 0;
    var y: nat := 0;
    while y < size
      invariant y <= size
      invariant difference3 == BlockDiff3(bright, x1, y1, x2, y2, size, y)
    {
      difference3 := CompareRow(bright, x1, y1, x2, y2, y, size, difference3);
      y := y + 1;
    }
    similarity := Similarity(difference3, size);
  }

  /** The inner loop of the block comparison, over row y of both blocks. */
  method CompareRow(bright: (nat, nat) -> int, x1: nat, y1: nat, x2: nat, y2: nat, y: nat, size: nat, difference3: nat)
    returns (d: nat)
    ensures d == difference3 + BlockRowDiff3(bright, x1, y1, x2, y2, y, size)
  {
    d := difference3;
    var x: nat := 0;
    while x < size
      invariant x <= size
      invariant d == difference3 + BlockRowDiff3(bright, x1, y1, x2, y2, y, x)
    {
      d := d + PixelDiff3(bright, x1, y1, x2, y2, x, y);
      x := x + 1;
    }
  }

  /** `similarity > 0.8`. */
  predicate Alike(bright: (nat, nat) -> int, x1: nat, y1: nat, x2: nat, y2: nat) {
    Similarity(BlockDiff3(bright, x1, y1, x2, y2, BlockSize, BlockSize), BlockSize) > 0.8
  }

  // ---- the comparison count, loop level by loop level ----

  /** How many comparisons found two blocks alike, out of how many. */
  datatype Tally = Tally(similar: nat, comparisons: nat)

  /** Innermost loop: block (x1, y1) against (x2, y2), (x2 + 16, y2), ... while x2 < width - 16. */
  function ScanX2(bright: (nat, nat) -> int, width: nat, x1: nat, y1: nat, y2: nat, x2: nat): Tally
    decreases width - x2
  {
    if x2 >= width - BlockSize then Tally(0, 0)
    else
      var rest := ScanX2(bright, width, x1, y1, y2, x2 + BlockSize);
      Tally(rest.similar + (if Alike(bright, x1, y1, x2, y2) then 1 else 0), rest.comparisons + 1)
  }

  /** Block (x1, y1) against every block row y2, y2 + 16, ... while y2 < height - 16. */
  function ScanY2(bright: (nat, nat) -> int, width: nat, height: nat, x1: nat, y1: nat, y2: nat): Tally
    decreases height - y2
  {
    if y2 >= height - BlockSize then Tally(0, 0)
    else
      var row, rest := ScanX2(bright, width, x1, y1, y2, x1 + BlockSize), ScanY2(bright, width, height, x1, y1, y2 + BlockSize);
      Tally(row.similar + rest.similar, row.comparisons + rest.comparisons)
  }

  /** Blocks (x1, y1), (x1 + 16, y1), ... of one grid row, each against the blocks below-right of it. */
  function ScanX1(bright: (nat, nat) -> int, width: nat, height: nat, y1: nat, x1: nat): Tally
    decreases width - x1
  {
    if x1 >= width - BlockSize then Tally(0, 0)
    else
      var block, rest := ScanY2(bright, width, height, x1, y1, y1 + BlockSize), ScanX1(bright, width, height, y1, x1 + BlockSize);
      Tally(block.similar + rest.similar, block.comparisons + rest.comparisons)
  }

  /** Grid rows y1, y1 + 16, ... while y1 < height - 16. */
  function ScanY1(bright: (nat, nat) -> int, width: nat, height: nat, y1: nat): Tally
    decreases height - y1
  {
    if y1 >= height - BlockSize then Tally(0, 0)
    else
      var row, rest := ScanX1(bright, width, height, y1, 0), ScanY1(bright, width, height, y1 + BlockSize);
      Tally(row.similar + rest.similar, row.comparisons + rest.comparisons)
  }

  function ImageTally(img: ImageData): Tally
    requires img.Valid()
  {
    ScanY1(BrightnessMap(img), img.width, img.height, 0)
  }

  /** `totalComparisons > 0 ? similarBlocks / totalComparisons : 0`. */
  function RepetitionScore(img: ImageData): real
    requires img.Valid()
  {
    var t := ImageTally(img);
    if t.comparisons > 0 then t.similar as real / t.comparisons as real else 0.0
  }

  /** The analyzer's four nested loops. Each inner loop is a method of its
      own below, carrying the two counters in and out. */
  method AnalyzeTextureRepetition(img: ImageData) returns (score: real)
    requires img.Valid()
    ensures score == RepetitionScore(img)
  {
    var similarBlocks, totalComparisons := LoopY1(BrightnessMap(img), img.width, img.height);
    score := if totalComparisons > 0 then similarBlocks as real / totalComparisons as real else 0.0;
  }

  /** `for (let y1 = 0; y1 < height - blockSize; y1 += blockSize)` */
  method LoopY1(bright: (nat, nat) -> int, width: nat, height: nat) returns (similarBlocks: nat, totalComparisons: nat)
    ensures Tally(similarBlocks, totalComparisons) == ScanY1(bright, width, height, 0)
  {
    similarBlocks, totalComparisons := 0, 0;
    var y1: nat := 0;
    while y1 < height - BlockSize
      invariant similarBlocks + ScanY1(bright, width, height, y1).similar == ScanY1(bright, width, height, 0).similar
      invariant totalComparisons + ScanY1(bright, width, height, y1).comparisons == ScanY1(bright, width, height, 0).comparisons
      decreases height - y1
    {
      similarBlocks, totalComparisons := LoopX1(bright, width, height, y1, similarBlocks, totalComparisons);
      y1 := y1 + BlockSize;
    }
  }

  /** `for (let x1 = 0; x1 < width - blockSize; x1 += blockSize)` */
  method LoopX1(bright: (nat, nat) -> int, width: nat, height: nat, y1: nat, similarBlocks: nat, totalComparisons: nat)
    returns (similar: nat, total: nat)
    ensures similar == similarBlocks + ScanX1(bright, width, height, y1, 0).similar
    ensures total == totalComparisons + ScanX1(bright, width, height, y1, 0).comparisons
  {
    similar, total := similarBlocks, totalComparisons;
    var x1: nat := 0;
    while x1 < width - BlockSize
      invariant similar + ScanX1(bright, width, height, y1, x1).similar == similarBlocks + ScanX1(bright, width, height, y1, 0).similar
      invariant total + ScanX1(bright, width, height, y1, x1).comparisons == totalComparisons + ScanX1(bright, width, height, y1, 0).comparisons
      decreases width - x1
    {
      similar, total := LoopY2(bright, width, height, x1, y1, similar, total);
      x1 := x1 + BlockSize;
    }
  }

  /** `for (let y2 = y1 + blockSize; y2 < height - blockSize; y2 += blockSize)` */
  method LoopY2(bright: (nat, nat) -> int, width: nat, height: nat, x1: nat, y1: nat, similarBlocks: nat, totalComparisons: nat)
    returns (similar: nat, total: nat)
    ensures similar == similarBlocks + ScanY2(bright, width, height, x1, y1, y1 + BlockSize).similar
    ensures total == totalComparisons + ScanY2(bright, width, height, x1, y1, y1 + BlockSize).comparisons
  {
    similar, total := similarBlocks, totalComparisons;
    var y2: nat := y1 + BlockSize;
    while y2 < height - BlockSize
      invariant similar + ScanY2(bright, width, height, x1, y1, y2).similar == similarBlocks + ScanY2(bright, width, height, x1, y1, y1 + BlockSize).similar
      invariant total + ScanY2(bright, width, height, x1, y1, y2).comparisons == totalComparisons + ScanY2(bright, width, height, x1, y1, y1 + BlockSize).comparisons
      decreases height - y2
    {
      similar, total := LoopX2(bright, width, x1, y1, y2, similar, total);
      y2 := y2 + BlockSize;
    }
  }

  /** `for (let x2 = x1 + blockSize; x2 < width - blockSize; x2 += blockSize)` */
  method LoopX2(bright: (nat, nat) -> int, width: nat, x1: nat, y1: nat, y2: nat, similarBlocks: nat, totalComparisons: nat)
    returns (similar: nat, total: nat)
    ensures similar == similarBlocks + ScanX2(bright, width, x1, y1, y2, x1 + BlockSize).similar
    ensures total == totalComparisons + ScanX2(bright, width, x1, y1, y2, x1 + BlockSize).comparisons
  {
    similar, total := similarBlocks, totalComparisons;
    var x2: nat := x1 + BlockSize;
    while x2 < width - BlockSize
      invariant similar + ScanX2(bright, width, x1, y1, y2, x2).similar == similarBlocks + ScanX2(bright, width, x1, y1, y2, x1 + BlockSize).similar
      invariant total + ScanX2(bright, width, x1, y1, y2, x2).comparisons == totalComparisons + ScanX2(bright, width, x1, y1, y2, x1 + BlockSize).comparisons
      decreases width - x2
    {
      var similarity := CompareBlocks(bright, x1, y1, x2, y2, BlockSize);
      if similarity > 0.8 {
        similar := similar + 1;
      }
      total := total + 1;
      x2 := x2 + BlockSize;
    }
  }

  // ---- the block comparison ----

  lemma {:induction false} RowDiffZero(bright: (nat, nat) -> int, x1: nat, y1: nat, x2: nat, y2: nat, y: nat, xEnd: nat)
    ensures BlockRowDiff3(bright, x1, y1, x2, y2, y, xEnd) == 0 <==>
            forall x: nat :: x < xEnd ==> PixelDiff3(bright, x1, y1, x2, y2, x, y) == 0
  {
    if xEnd > 0 {
      RowDiffZero(bright, x1, y1, x2, y2, y, xEnd - 1);
    }
  }

  lemma {:induction false} BlockDiffZero(bright: (nat, nat) -> int, x1: nat, y1: nat, x2: nat, y2: nat, size: nat, yEnd: nat)
    ensures BlockDiff3(bright, x1, y1, x2, y2, size, yEnd) == 0 <==>
            forall x: nat, y: nat :: x < size && y < yEnd ==> PixelDiff3(bright, x1, y1, x2, y2, x, y) == 0
  {
    if yEnd > 0 {
      BlockDiffZero(bright, x1, y1, x2, y2, size, yEnd - 1);
      RowDiffZero(bright, x1, y1, x2, y2, yEnd - 1, size);
    }
  }

  /** Two blocks compare as perfectly similar (1) exactly when every pixel
      of one has the brightness of the matching pixel of the other. */
  lemma IdenticalIffPerfect(bright: (nat, nat) -> int, x1: nat, y1: nat, x2: nat, y2: nat, size: nat)
    requires size > 0
    ensures Similarity(BlockDiff3(bright, x1, y1, x2, y2, size, size), size) == 1.0 <==>
            SameBlocks(bright, x1, y1, x2, y2, size)
  {
    BlockDiffZero(bright, x1, y1, x2, y2, size, size);
    SimilarityOne(BlockDiff3(bright, x1, y1, x2, y2, size, size), size);
    forall x: nat, y: nat | x < size && y < size
      ensures PixelDiff3(bright, x1, y1, x2, y2, x, y) == 0 <==> BlockPixel(bright, x1, y1, x, y) == BlockPixel(bright, x2, y2, x, y)
    {
    }
  }

  lemma SimilarityOne(d: nat, size: nat)
    requires size > 0
    ensures Similarity(d, size) == 1.0 <==> d == 0
  {
    var m := (size * size * 255) as real;
    assert m > 0.0 by {
      assert size * size >= 1 by {
        assert size * size >= size;
      }
    }
    assert (d as real / 3.0) / m == 0.0 <==> d == 0;
  }

  lemma {:induction false} RowDiffSymmetric(bright: (nat, nat) -> int, x1: nat, y1: nat, x2: nat, y2: nat, y: nat, xEnd: nat)
    ensures BlockRowDiff3(bright, x1, y1, x2, y2, y, xEnd) == BlockRowDiff3(bright, x2, y2, x1, y1, y, xEnd)
  {
    if xEnd > 0 {
      RowDiffSymmetric(bright, x1, y1, x2, y2, y, xEnd - 1);
    }
  }

  lemma {:induction false} BlockDiffSymmetric(bright: (nat, nat) -> int, x1: nat, y1: nat, x2: nat, y2: nat, size: nat, yEnd: nat)
    ensures BlockDiff3(bright, x1, y1, x2, y2, size, yEnd) == BlockDiff3(bright, x2, y2, x1, y1, size, yEnd)
  {
    if yEnd > 0 {
      BlockDiffSymmetric(bright, x1, y1, x2, y2, size, yEnd - 1);
      RowDiffSymmetric(bright, x1, y1, x2, y2, yEnd - 1, size);
    }
  }

  /** Comparing block A with block B gives what comparing B with A gives. */
  lemma SimilaritySymmetric(bright: (nat, nat) -> int, x1: nat, y1: nat, x2: nat, y2: nat, size: nat)
    requires size > 0
    ensures Similarity(BlockDiff3(bright, x1, y1, x2, y2, size, size), size) ==
            Similarity(BlockDiff3(bright, x2, y2, x1, y1, size, size), size)
  {
    BlockDiffSymmetric(bright, x1, y1, x2, y2, size, size);
  }

  /** Brightness values of the source's range, three times 0 .. 255. */
  ghost predicate InRange(bright: (nat, nat) -> int) {
    forall x: nat, y: nat :: 0 <= bright(x, y) <= 765
  }

  /** An image's brightness map is in range. */
  lemma BrightnessInRange(img: ImageData)
    requires img.Valid()
    ensures InRange(BrightnessMap(img))
  {
  }

  /** On an image, compareBlocks returns a value in [0, 1]. */
  lemma ImageSimilarityBounds(img: ImageData, x1: nat, y1: nat, x2: nat, y2: nat)
    requires img.Valid()
    ensures 0.0 <= Similarity(BlockDiff3(BrightnessMap(img), x1, y1, x2, y2, BlockSize, BlockSize), BlockSize) <= 1.0
  {
    BrightnessInRange(img);
    SimilarityBounds(BrightnessMap(img), x1, y1, x2, y2, BlockSize);
  }

  lemma {:induction false} RowDiffBound(bright: (nat, nat) -> int, x1: nat, y1: nat, x2: nat, y2: nat, y: nat, xEnd: nat)
    requires InRange(bright)
    ensures BlockRowDiff3(bright, x1, y1, x2, y2, y, xEnd) <= 765 * xEnd
  {
    if xEnd > 0 {
      RowDiffBound(bright, x1, y1, x2, y2, y, xEnd - 1);
    }
  }

  lemma {:induction false} BlockDiffBound(bright: (nat, nat) -> int, x1: nat, y1: nat, x2: nat, y2: nat, size: nat, yEnd: nat)
    requires InRange(bright)
    ensures BlockDiff3(bright, x1, y1, x2, y2, size, yEnd) <= 765 * (size * yEnd)
  {
    if yEnd > 0 {
      BlockDiffBound(bright, x1, y1, x2, y2, size, yEnd - 1);
      RowDiffBound(bright, x1, y1, x2, y2, yEnd - 1, size);
      assert size * yEnd == size * (yEnd - 1) + size;
    }
  }

  /** With brightness in range, the similarity of two blocks lies in [0, 1]. */
  lemma SimilarityBounds(bright: (nat, nat) -> int, x1: nat, y1: nat, x2: nat, y2: nat, size: nat)
    requires InRange(bright) && size > 0
    ensures 0.0 <= Similarity(BlockDiff3(bright, x1, y1, x2, y2, size, size), size) <= 1.0
  {
    BlockDiffBound(bright, x1, y1, x2, y2, size, size);
    SimilarityRange(BlockDiff3(bright, x1, y1, x2, y2, size, size), size);
  }

  lemma SimilarityRange(d: nat, size: nat)
    requires size > 0 && d <= 765 * (size * size)
    ensures 0.0 <= Similarity(d, size) <= 1.0
  {
    var n := size * size;
    assert n >= 1 by {
      assert size * size >= size;
    }
    assert n * 255 == size * size * 255;
    var m := (n * 255) as real;
    assert d as real / 3.0 <= m;
  }

  /** For 16 x 16 blocks, `similarity > 0.8` is an integer threshold on the
      tripled difference: below 39168, i.e. an average brightness difference
      under 51 per pixel. */
  lemma AlikeIff(bright: (nat, nat) -> int, x1: nat, y1: nat, x2: nat, y2: nat)
    ensures Alike(bright, x1, y1, x2, y2) <==> BlockDiff3(bright, x1, y1, x2, y2, BlockSize, BlockSize) < 39168
  {
    var d := BlockDiff3(bright, x1, y1, x2, y2, BlockSize, BlockSize);
    assert Similarity(d, BlockSize) == 1.0 - (d as real / 3.0) / 65280.0;
  }

  // ---- the tally ----

  lemma {:induction false} ScanX2Bounded(bright: (nat, nat) -> int, width: nat, x1: nat, y1: nat, y2: nat, x2: nat)
    ensures ScanX2(bright, width, x1, y1, y2, x2).similar <= ScanX2(bright, width, x1, y1, y2, x2).comparisons
    ensures ScanX2(bright, width, x1, y1, y2, x2).comparisons > 0 <==> x2 + BlockSize < width
    decreases width - x2
  {
    if x2 < width - BlockSize {
      ScanX2Bounded(bright, width, x1, y1, y2, x2 + BlockSize);
    }
  }

  lemma {:induction false} ScanY2Bounded(bright: (nat, nat) -> int, width: nat, height: nat, x1: nat, y1: nat, y2: nat)
    ensures ScanY2(bright, width, height, x1, y1, y2).similar <= ScanY2(bright, width, height, x1, y1, y2).comparisons
    ensures ScanY2(bright, width, height, x1, y1, y2).comparisons > 0 <==>
            y2 + BlockSize < height && x1 + 2 * BlockSize < width
    decreases height - y2
  {
    if y2 < height - BlockSize {
      ScanX2Bounded(bright, width, x1, y1, y2, x1 + BlockSize);
      ScanY2Bounded(bright, width, height, x1, y1, y2 + BlockSize);
    }
  }

  lemma {:induction false} ScanX1Bounded(bright: (nat, nat) -> int, width: nat, height: nat, y1: nat, x1: nat)
    ensures ScanX1(bright, width, height, y1, x1).similar <= ScanX1(bright, width, height, y1, x1).comparisons
    ensures ScanX1(bright, width, height, y1, x1).comparisons > 0 <==>
            y1 + 2 * BlockSize < height && x1 + 2 * BlockSize < width
    decreases width - x1
  {
    if x1 < width - BlockSize {
      ScanY2Bounded(bright, width, height, x1, y1, y1 + BlockSize);
      ScanX1Bounded(bright, width, height, y1, x1 + BlockSize);
    }
  }

  lemma {:induction false} ScanY1Bounded(bright: (nat, nat) -> int, width: nat, height: nat, y1: nat)
    ensures ScanY1(bright, width, height, y1).similar <= ScanY1(bright, width, height, y1).comparisons
    ensures ScanY1(bright, width, height, y1).comparisons > 0 <==>
            y1 + 2 * BlockSize < height && 2 * BlockSize < width
    decreases height - y1
  {
    if y1 < height - BlockSize {
      ScanX1Bounded(bright, width, height, y1, 0);
      ScanY1Bounded(bright, width, height, y1 + BlockSize);
    }
  }

  // ---- every compared block lies inside the image ----

  /** Two brightness maps that agree on every pixel of a width x height image. */
  ghost predicate AgreeInside(b1: (nat, nat) -> int, b2: (nat, nat) -> int, width: nat, height: nat) {
    forall x: nat, y: nat :: x < width && y < height ==> b1(x, y) == b2(x, y)
  }

  lemma {:induction false} RowDiffInside(b1: (nat, nat) -> int, b2: (nat, nat) -> int, width: nat, height: nat,
                                         x1: nat, y1: nat, x2: nat, y2: nat, y: nat, xEnd: nat)
    requires AgreeInside(b1, b2, width, height)
    requires x1 + xEnd <= width && x2 + xEnd <= width && y1 + y < height && y2 + y < height
    ensures BlockRowDiff3(b1, x1, y1, x2, y2, y, xEnd) == BlockRowDiff3(b2, x1, y1, x2, y2, y, xEnd)
  {
    if xEnd > 0 {
      RowDiffInside(b1, b2, width, height, x1, y1, x2, y2, y, xEnd - 1);
    }
  }

  lemma {:induction false} BlockDiffInside(b1: (nat, nat) -> int, b2: (nat, nat) -> int, width: nat, height: nat,
                                           x1: nat, y1: nat, x2: nat, y2: nat, size: nat, yEnd: nat)
    requires AgreeInside(b1, b2, width, height)
    requires x1 + size <= width && x2 + size <= width && y1 + yEnd <= height && y2 + yEnd <= height
    ensures BlockDiff3(b1, x1, y1, x2, y2, size, yEnd) == BlockDiff3(b2, x1, y1, x2, y2, size, yEnd)
  {
    if yEnd > 0 {
      BlockDiffInside(b1, b2, width, height, x1, y1, x2, y2, size, yEnd - 1);
      RowDiffInside(b1, b2, width, height, x1, y1, x2, y2, yEnd - 1, size);
    }
  }

  /** Two blocks that both lie inside the image are alike under one map iff
      under the other. */
  lemma AlikeInside(b1: (nat, nat) -> int, b2: (nat, nat) -> int, width: nat, height: nat,
                    x1: nat, y1: nat, x2: nat, y2: nat)
    requires AgreeInside(b1, b2, width, height)
    requires x1 + BlockSize <= width && x2 + BlockSize <= width
    requires y1 + BlockSize <= height && y2 + BlockSize <= height
    ensures Alike(b1, x1, y1, x2, y2) <==> Alike(b2, x1, y1, x2, y2)
  {
    BlockDiffInside(b1, b2, width, height, x1, y1, x2, y2, BlockSize, BlockSize);
  }

  lemma {:induction false} ScanX2Inside(b1: (nat, nat) -> int, b2: (nat, nat) -> int, width: nat, height: nat,
                                        x1: nat, y1: nat, y2: nat, x2: nat)
    requires AgreeInside(b1, b2, width, height)
    requires x1 + BlockSize <= width && y1 + BlockSize <= height && y2 + BlockSize <= height
    ensures ScanX2(b1, width, x1, y1, y2, x2) == ScanX2(b2, width, x1, y1, y2, x2)
    decreases width - x2
  {
    if x2 < width - BlockSize {
      AlikeInside(b1, b2, width, height, x1, y1, x2, y2);
      ScanX2Inside(b1, b2, width, height, x1, y1, y2, x2 + BlockSize);
    }
  }

  lemma {:induction false} ScanY2Inside(b1: (nat, nat) -> int, b2: (nat, nat) -> int, width: nat, height: nat,
                                        x1: nat, y1: nat, y2: nat)
    requires AgreeInside(b1, b2, width, height)
    requires x1 + BlockSize <= width && y1 + BlockSize <= height
    ensures ScanY2(b1, width, height, x1, y1, y2) == ScanY2(b2, width, height, x1, y1, y2)
    decreases height - y2
  {
    if y2 < height - BlockSize {
      ScanX2Inside(b1, b2, width, height, x1, y1, y2, x1 + BlockSize);
      ScanY2Inside(b1, b2, width, height, x1, y1, y2 + BlockSize);
    }
  }

  lemma {:induction false} ScanX1Inside(b1: (nat, nat) -> int, b2: (nat, nat) -> int, width: nat, height: nat,
                                        y1: nat, x1: nat)
    requires AgreeInside(b1, b2, width, height)
    requires y1 + BlockSize <= height
    ensures ScanX1(b1, width, height, y1, x1) == ScanX1(b2, width, height, y1, x1)
    decreases width - x1
  {
    if x1 < width - BlockSize {
      ScanY2Inside(b1, b2, width, height, x1, y1, y1 + BlockSize);
      ScanX1Inside(b1, b2, width, height, y1, x1 + BlockSize);
    }
  }

  lemma {:induction false} ScanY1Inside(b1: (nat, nat) -> int, b2: (nat, nat) -> int, width: nat, height: nat, y1: nat)
    requires AgreeInside(b1, b2, width, height)
    ensures ScanY1(b1, width, height, y1) == ScanY1(b2, width, height, y1)
    decreases height - y1
  {
    if y1 < height - BlockSize {
      ScanX1Inside(b1, b2, width, height, y1, 0);
      ScanY1Inside(b1, b2, width, height, y1 + BlockSize);
    }
  }

  /** The loops' bounds keep both blocks of every comparison inside the
      image, so any brightness map that agrees with the image's on its
      pixels, whatever it holds beyond them, gives the same tally. */
  lemma TallyReadsOnlyImage(img: ImageData, bright: (nat, nat) -> int)
    requires img.Valid() && AgreeInside(bright, BrightnessMap(img), img.width, img.height)
    ensures ScanY1(bright, img.width, img.height, 0) == ImageTally(img)
  {
    ScanY1Inside(bright, BrightnessMap(img), img.width, img.height, 0);
  }

  /** Some pair of blocks is compared exactly when the image is wider and
      taller than two blocks; the alike pairs never outnumber the compared ones. */
  lemma TallyFacts(img: ImageData)
    requires img.Valid()
    ensures ImageTally(img).similar <= ImageTally(img).comparisons
    ensures ImageTally(img).comparisons > 0 <==> img.width > 32 && img.height > 32
  {
    ScanY1Bounded(BrightnessMap(img), img.width, img.height, 0);
  }

  /** With no block pair to compare, at most two blocks across or down,
      the score is 0. */
  lemma NoPairsNoRepetition(img: ImageData)
    requires img.Valid() && (img.width <= 32 || img.height <= 32)
    ensures RepetitionScore(img) == 0.0
  {
    TallyFacts(img);
  }

  /** The repetition score is a share: between 0 and 1. */
  lemma ScoreBounds(img: ImageData)
    requires img.Valid()
    ensures 0.0 <= RepetitionScore(img) <= 1.0
  {
    TallyFacts(img);
    var t := ImageTally(img);
    if t.comparisons > 0 {
      ShareBounds(t.similar, t.comparisons);
    }
  }

  lemma ShareBounds(s: nat, c: nat)
    requires s <= c && c > 0
    ensures 0.0 <= s as real / c as real <= 1.0
  {
  }

  /** Every pixel inside the width x height area has brightness c. */
  ghost predicate Uniform(bright: (nat, nat) -> int, width: nat, height: nat, c: int) {
    forall x: nat, y: nat :: x < width && y < height ==> bright(x, y) == c
  }

  /** Two blocks inside a uniform area are alike. */
  lemma UniformAlike(bright: (nat, nat) -> int, width: nat, height: nat, c: int, x1: nat, y1: nat, x2: nat, y2: nat)
    requires Uniform(bright, width, height, c)
    requires x1 + BlockSize <= width && x2 + BlockSize <= width
    requires y1 + BlockSize <= height && y2 + BlockSize <= height
    ensures Alike(bright, x1, y1, x2, y2)
  {
    forall x: nat, y: nat | x < BlockSize && y < BlockSize
      ensures BlockPixel(bright, x1, y1, x, y) == BlockPixel(bright, x2, y2, x, y)
    {
      assert bright(x1 + x, y1 + y) == c && bright(x2 + x, y2 + y) == c;
    }
    IdenticalIffPerfect(bright, x1, y1, x2, y2, BlockSize);
  }

  lemma {:induction false} UniformScanX2(bright: (nat, nat) -> int, width: nat, height: nat, c: int, x1: nat, y1: nat, y2: nat, x2: nat)
    requires Uniform(bright, width, height, c)
    requires x1 + BlockSize <= width && y1 + BlockSize <= height && y2 + BlockSize <= height
    ensures ScanX2(bright, width, x1, y1, y2, x2).similar == ScanX2(bright, width, x1, y1, y2, x2).comparisons
    decreases width - x2
  {
    if x2 < width - BlockSize {
      UniformAlike(bright, width, height, c, x1, y1, x2, y2);
      UniformScanX2(bright, width, height, c, x1, y1, y2, x2 + BlockSize);
    }
  }

  lemma {:induction false} UniformScanY2(bright: (nat, nat) -> int, width: nat, height: nat, c: int, x1: nat, y1: nat, y2: nat)
    requires Uniform(bright, width, height, c)
    requires x1 + BlockSize <= width && y1 + BlockSize <= height
    ensures ScanY2(bright, width, height, x1, y1, y2).similar == ScanY2(bright, width, height, x1, y1, y2).comparisons
    decreases height - y2
  {
    if y2 < height - BlockSize {
      UniformScanX2(bright, width, height, c, x1, y1, y2, x1 + BlockSize);
      UniformScanY2(bright, width, height, c, x1, y1, y2 + BlockSize);
    }
  }

  lemma {:induction false} UniformScanX1(bright: (nat, nat) -> int, width: nat, height: nat, c: int, y1: nat, x1: nat)
    requires Uniform(bright, width, height, c)
    requires y1 + BlockSize <= height
    ensures ScanX1(bright, width, height, y1, x1).similar == ScanX1(bright, width, height, y1, x1).comparisons
    decreases width - x1
  {
    if x1 < width - BlockSize {
      UniformScanY2(bright, width, height, c, x1, y1, y1 + BlockSize);
      UniformScanX1(bright, width, height, c, y1, x1 + BlockSize);
    }
  }

  lemma {:induction false} UniformScanY1(bright: (nat, nat) -> int, width: nat, height: nat, c: int, y1: nat)
    requires Uniform(bright, width, height, c)
    ensures ScanY1(bright, width, height, y1).similar == ScanY1(bright, width, height, y1).comparisons
    decreases height - y1
  {
    if y1 < height - BlockSize {
      UniformScanX1(bright, width, height, c, y1, 0);
      UniformScanY1(bright, width, height, c, y1 + BlockSize);
    }
  }

  /** In a single-colour image every compared pair of blocks is alike. */
  lemma SolidAllAlike(img: ImageData)
    requires img.Valid() && Solid(img)
    ensures ImageTally(img).similar == ImageTally(img).comparisons
  {
    var c := SolidUniform(img);
    UniformScanY1(BrightnessMap(img), img.width, img.height, c, 0);
  }

  /** The brightness view of a single-colour image is uniform. */
  lemma SolidUniform(img: ImageData) returns (c: int)
    requires img.Valid() && Solid(img)
    ensures Uniform(BrightnessMap(img), img.width, img.height, c)
  {
    if |img.data| == 0 {
      assert img.width * img.height == 0;
      c := 0;
    } else {
      c := img.data[0] + img.data[1] + img.data[2];
      SolidBrightnessMap(img);
    }
  }

  /** A single-colour image larger than two blocks each way repeats
      perfectly: the score is 1. */
  lemma SolidRepeats(img: ImageData)
    requires img.Valid() && Solid(img) && img.width > 32 && img.height > 32
    ensures RepetitionScore(img) == 1.0
  {
    SolidAllAlike(img);
    TallyFacts(img);
    ShareOne(ImageTally(img).comparisons);
  }

  lemma ShareOne(n: nat)
    requires n > 0
    ensures n as real / n as real == 1.0
  {
  }
}

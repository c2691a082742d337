/** The symmetry analyzer: how closely each row's brightness mirrors itself
    about the vertical axis. */
module Symmetry {
  import opened Wrappers
  import opened Image

  /** Three times |left - right| brightness for column x of row y and its
      mirror column width - 1 - x. */
  function PairDiff3(bright: (nat, nat) -> int, width: nat, x: nat, y: nat): nat
    requires x < width
  {
    Abs(bright(x, y) - bright(width - 1 - x, y))
  }

  /** Row y's mirrored differences, columns 0 up to (not including) xEnd. */
  function RowDiff3(bright: (nat, nat) -> int, width: nat, y: nat, xEnd: nat): nat
    requires xEnd <= width
  {
    if xEnd == 0 then 0 else RowDiff3(bright, width, y, xEnd - 1) + PairDiff3(bright, width, xEnd - 1, y)
  }

  /** The mirrored differences of rows 0 up to (not including) yEnd. */
  function MirrorDiff3(bright: (nat, nat) -> int, width: nat, yEnd: nat): nat
  {
    if yEnd == 0 then 0 else MirrorDiff3(bright, width, yEnd - 1) + RowDiff3(bright, width, yEnd - 1, width / 2)
  }

  /** How many left/right pairs the scan compares. */
  function Pairs(img: ImageData): nat {
    img.height * (img.width / 2)
  }

  /** `1 - totalDifference / maxPossibleDifference`, from three times the
      total difference; a zero maximum makes the quotient 0 / 0, which is
      NaN in the source: None here. */
  function ScoreOf(totalDifference3: nat, maxPossibleDifference: nat): Option<real> {
    if maxPossibleDifference == 0 then None
    else Some(1.0 - (totalDifference3 as real / 3.0) / maxPossibleDifference as real)
  }

  /** The score of the whole image, with 255 possible per compared pair. */
  function SymmetryScore(img: ImageData): Option<real>
    requires img.Valid()
  {
    ScoreOf(MirrorDiff3(BrightnessMap(img), img.width, img.height), 255 * Pairs(img))
  }

  /** Pixel (x, y) has the brightness of its mirror pixel (width - 1 - x, y). */
  ghost predicate MirrorPixel(img: ImageData, x: nat, y: nat)
    requires img.Valid() && x < img.width && y < img.height
  {
    Brightness3(img, x, y) == Brightness3(img, img.width - 1 - x, y)
  }

  /** Every pixel of the left half has the brightness of its mirror pixel. */
  ghost predicate Mirrored(img: ImageData)
    requires img.Valid()
  {
    forall x: nat, y: nat :: x < img.width / 2 && y < img.height ==> MirrorPixel(img, x, y)
  }

  /** The source's two nested loops, accumulating the difference and the
      largest possible difference pair by pair. */
  method AnalyzeSymmetry(img: ImageData) returns (score: Option<real>)
    requires img.Valid()
    ensures score == SymmetryScore(img)
  {
    var totalDifference3: nat := 0;
    var maxPossibleDifference: nat := 0;
    ghost var half := img.width / 2;
    var y := 0;
    while y < img.height
      invariant y <= img.height
      invariant totalDifference3 == MirrorDiff3(BrightnessMap(img), img.width, y)
      invariant maxPossibleDifference == 255 * (y * half)
    {
      totalDifference3, maxPossibleDifference := ScanRow(img, y, totalDifference3, maxPossibleDifference);
      assert y * half + half == (y + 1) * half;
      y := y + 1;
    }
    score := ScoreOf(totalDifference3, maxPossibleDifference);
  }

  /** The inner loop over the left half of row y. */
  method ScanRow(img: ImageData, y: nat, totalDifference3: nat, maxPossibleDifference: nat)
    returns (total3: nat, maxPossible: nat)
    requires img.Valid() && y < img.height
    ensures total3 == totalDifference3 + RowDiff3(BrightnessMap(img), img.width, y, img.width / 2)
    ensures maxPossible == maxPossibleDifference + 255 * (img.width / 2)
  {
    var width := img.width;
    total3, maxPossible := totalDifference3, maxPossibleDifference;
    var x := 0;
    while x < width / 2
      invariant x <= width / 2
      invariant total3 == totalDifference3 + RowDiff3(BrightnessMap(img), width, y, x)
      invariant maxPossible == maxPossibleDifference + 255 * x
    {
      total3 := total3 + PairDiff3(BrightnessMap(img), width, x, y);
      maxPossible := maxPossible + 255;
      x := x + 1;
    }
  }

  // ---- properties ----

  /** The score is NaN exactly when there is no pair to compare. */
  lemma ScoreNaN(img: ImageData)
    requires img.Valid()
    ensures SymmetryScore(img).None? <==> img.width < 2 || img.height == 0
  {
    if img.width >= 2 && img.height > 0 {
      assert Pairs(img) >= 1 by {
        assert img.width / 2 >= 1;
      }
    }
  }

  lemma {:induction false} RowDiffBound(bright: (nat, nat) -> int, width: nat, y: nat, xEnd: nat)
    requires xEnd <= width
    requires forall x: nat :: x < width ==> 0 <= bright(x, y) <= 765
    ensures RowDiff3(bright, width, y, xEnd) <= 765 * xEnd
  {
    if xEnd > 0 {
      RowDiffBound(bright, width, y, xEnd - 1);
    }
  }

  lemma {:induction false} MirrorDiffBound(bright: (nat, nat) -> int, width: nat, yEnd: nat)
    requires forall x: nat, y: nat :: x < width ==> 0 <= bright(x, y) <= 765
    ensures MirrorDiff3(bright, width, yEnd) <= 765 * (yEnd * (width / 2))
  {
    if yEnd > 0 {
      var half := width / 2;
      MirrorDiffBound(bright, width, yEnd - 1);
      RowDiffBound(bright, width, yEnd - 1, half);
      assert yEnd * half == (yEnd - 1) * half + half;
    }
  }

  /** A score is in [0, 1] as long as the difference does not exceed the
      maximum (three times it here, as the difference is tripled). */
  lemma ScoreOfBounds(d: nat, m: nat)
    requires m > 0 && d <= 3 * m
    ensures 0.0 <= ScoreOf(d, m).value <= 1.0
  {
    assert d as real / 3.0 <= m as real;
  }

  /** The score is 1 exactly when there is no difference at all. */
  lemma ScoreOfPerfect(d: nat, m: nat)
    requires m > 0
    ensures ScoreOf(d, m).value == 1.0 <==> d == 0
  {
    assert (d as real / 3.0) / m as real == 0.0 <==> d == 0;
  }

  /** A defined score lies between 0 (every pair as far apart as possible)
      and 1 (a perfect mirror). */
  lemma ScoreBounds(img: ImageData)
    requires img.Valid() && SymmetryScore(img).Some?
    ensures 0.0 <= SymmetryScore(img).value <= 1.0
  {
    var b := BrightnessMap(img);
    MirrorDiffBound(b, img.width, img.height);
    ScoreOfBounds(MirrorDiff3(b, img.width, img.height), 255 * Pairs(img));
  }

  lemma {:induction false} RowDiffZero(bright: (nat, nat) -> int, width: nat, y: nat, xEnd: nat)
    requires xEnd <= width
    ensures RowDiff3(bright, width, y, xEnd) == 0 <==>
            forall x: nat :: x < xEnd ==> PairDiff3(bright, width, x, y) == 0
  {
    if xEnd > 0 {
      RowDiffZero(bright, width, y, xEnd - 1);
    }
  }

  lemma {:induction false} MirrorDiffZero(bright: (nat, nat) -> int, width: nat, yEnd: nat)
    ensures MirrorDiff3(bright, width, yEnd) == 0 <==>
            forall x: nat, y: nat :: x < width / 2 && y < yEnd ==> PairDiff3(bright, width, x, y) == 0
  {
    if yEnd > 0 {
      MirrorDiffZero(bright, width, yEnd - 1);
      RowDiffZero(bright, width, yEnd - 1, width / 2);
    }
  }

  /** A score of exactly 1 means exactly that every row mirrors itself. */
  lemma PerfectIffMirrored(img: ImageData)
    requires img.Valid() && SymmetryScore(img).Some?
    ensures SymmetryScore(img).value == 1.0 <==> Mirrored(img)
  {
    var b := BrightnessMap(img);
    MirrorDiffZero(b, img.width, img.height);
    MirroredMap(img);
    ScoreOfPerfect(MirrorDiff3(b, img.width, img.height), 255 * Pairs(img));
  }

  lemma MirroredMap(img: ImageData)
    requires img.Valid()
    ensures Mirrored(img) <==>
            forall x: nat, y: nat :: x < img.width / 2 && y < img.height ==>
              PairDiff3(BrightnessMap(img), img.width, x, y) == 0
  {
    forall x: nat, y: nat | x < img.width / 2 && y < img.height
      ensures PairDiff3(BrightnessMap(img), img.width, x, y) == 0 <==> MirrorPixel(img, x, y)
    {
    }
  }

  /** A single-colour image of width at least 2 scores a perfect 1. */
  lemma SolidIsSymmetric(img: ImageData)
    requires img.Valid() && Solid(img) && img.width >= 2 && img.height > 0
    ensures SymmetryScore(img) == Some(1.0)
  {
    ScoreNaN(img);
    forall x: nat, y: nat | x < img.width / 2 && y < img.height
      ensures MirrorPixel(img, x, y)
    {
      SolidBrightness(img, x, y);
      SolidBrightness(img, img.width - 1 - x, y);
    }
    PerfectIffMirrored(img);
  }
}

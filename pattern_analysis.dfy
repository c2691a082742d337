/** The pattern analyzer: the four pixel analyzers run on a downscaled copy
    of the image, each adding a fixed weight and one clue when it fires. */
module PatternAnalysis {
  import opened Wrappers
  import opened Image
  import opened Clues
  import ColorDistribution
  import EdgeConsistency
  import Symmetry
  import TextureRepetition

  /** Each side of the canvas is capped at 400 pixels, independently. */
  const CanvasLimit: nat := 400

  /** `Math.min(side, 400)`. */
  function CanvasSide(side: nat): (s: nat)
    ensures s <= side && s <= CanvasLimit
    ensures s == side <==> side <= CanvasLimit
    ensures s == side || s == CanvasLimit
  {
    if side < CanvasLimit then side else CanvasLimit
  }

  /** `symmetry > 0.85`; a NaN score compares false. */
  predicate HighlySymmetric(score: Option<real>) {
    score.Some? && score.value > 0.85
  }

  /** `repetition > 0.6`. */
  predicate Repetitive(score: real) {
    score > 0.6
  }

  /** The analysis from the four analyzers' verdicts: colour, edge,
      symmetry and repetition tests in that order, and the score capped at
      1 (the weights add up to exactly 1, so the cap never bites). */
  function CombineVerdicts(colorUnusual: bool, edgesUnnatural: bool, symmetry: Option<real>, repetition: real): (r: Analysis)
    ensures r.score == TotalWeight(r.clues)
    ensures 0.0 <= r.score <= 1.0
    ensures InOrder(r.clues)
    ensures forall c :: c in r.clues <==>
              || (colorUnusual && c == UnusualColors)
              || (edgesUnnatural && c == InconsistentEdges)
              || (HighlySymmetric(symmetry) && c == HighSymmetry)
              || (Repetitive(repetition) && c == RepeatedTexture)
  {
    var t3, t4 := HighlySymmetric(symmetry), Repetitive(repetition);
    var a := FourTests(colorUnusual, UnusualColors, edgesUnnatural, InconsistentEdges, t3, HighSymmetry, t4, RepeatedTexture);
    FourTestsBuilt(colorUnusual, UnusualColors, edgesUnnatural, InconsistentEdges, t3, HighSymmetry, t4, RepeatedTexture);
    FourTestsMembers(colorUnusual, UnusualColors, edgesUnnatural, InconsistentEdges, t3, HighSymmetry, t4, RepeatedTexture);
    Analysis(Min(a.score, 1.0), a.clues)
  }

  /** The analysis of a canvas, the edge test's final
      coefficient-of-variation rule being the parameter `cvRule`. */
  ghost function Patterns(canvas: ImageData, cvRule: seq<int> -> bool): Analysis
    requires canvas.Valid()
  {
    CombineVerdicts(ColorDistribution.ColorUnusual(canvas), EdgeConsistency.Unnatural(canvas, cvRule),
                    Symmetry.SymmetryScore(canvas), TextureRepetition.RepetitionScore(canvas))
  }

  /** The source's four analyzer calls on the canvas, the image drawn at
      CanvasSide(width) x CanvasSide(height). A canvas with a zero side makes
      `getImageData` throw, and the analysis fails (None). Otherwise each
      verdict adds its weight and clue as CombineVerdicts states; the
      analyzers share no state, so running all four before the additions
      changes nothing. */
  method AnalyzeImagePatterns(imageWidth: nat, imageHeight: nat, canvas: ImageData, cvRule: seq<int> -> bool)
    returns (r: Option<Analysis>)
    requires canvas.Valid()
    requires canvas.width == CanvasSide(imageWidth) && canvas.height == CanvasSide(imageHeight)
    ensures r.None? <==> imageWidth == 0 || imageHeight == 0
    ensures r.Some? ==> r.value == Patterns(canvas, cvRule)
  {
    if canvas.width == 0 || canvas.height == 0 {
      return None;
    }
    var colorUnusual := ColorDistribution.AnalyzeColorDistribution(canvas);
    var edgesUnnatural := EdgeConsistency.AnalyzeEdgeConsistency(canvas, cvRule);
    var symmetry := Symmetry.AnalyzeSymmetry(canvas);
    var repetition := TextureRepetition.AnalyzeTextureRepetition(canvas);
    r := Some(CombineVerdicts(colorUnusual, edgesUnnatural, symmetry, repetition));
  }

  // ---- properties ----

  /** A single-colour canvas at least two pixels wide: its colours are
      unusual, it has no edges, it is perfectly symmetric, and it repeats
      exactly when it holds more than two blocks each way. */
  lemma SolidCanvas(canvas: ImageData, cvRule: seq<int> -> bool)
    requires canvas.Valid() && Solid(canvas) && canvas.width >= 2 && canvas.height > 0
    ensures Patterns(canvas, cvRule) ==
            if canvas.width > 32 && canvas.height > 32 then Analysis(0.7, [UnusualColors, HighSymmetry, RepeatedTexture])
            else Analysis(0.45, [UnusualColors, HighSymmetry])
  {
    assert canvas.PixelCount() > 0 by {
      assert canvas.width * canvas.height > 0;
    }
    ColorDistribution.SolidIsUnusual(canvas);
    EdgeConsistency.SolidNotUnnatural(canvas, cvRule);
    Symmetry.SolidIsSymmetric(canvas);
    var repeats := canvas.width > 32 && canvas.height > 32;
    if repeats {
      TextureRepetition.SolidRepeats(canvas);
    } else {
      TextureRepetition.NoPairsNoRepetition(canvas);
    }
    SolidVerdicts(repeats);
  }

  /** The verdicts a single-colour canvas receives, combined. */
  lemma SolidVerdicts(repeats: bool)
    ensures CombineVerdicts(true, false, Some(1.0), if repeats then 1.0 else 0.0) ==
            if repeats then Analysis(0.7, [UnusualColors, HighSymmetry, RepeatedTexture])
            else Analysis(0.45, [UnusualColors, HighSymmetry])
  {
  }
}

/** The metadata analyzer: three tests on the file size and the decoded
    image's dimensions, each adding a fixed weight and one clue. */
module Metadata {
  import opened Wrappers
  import opened Image
  import opened Clues

  /** The width x height pairs the analyzer treats as typical generator
      output; 1024 x 1024 is listed twice. */
  const AIDimensions: seq<(nat, nat)> :=
    [(512, 512), (768, 768), (1024, 1024),
     (512, 768), (768, 512), (1024, 1024),
     (1024, 768), (768, 1024), (896, 1152), (1152, 896)]

  /** The aspect ratios the analyzer treats as typical generator output. */
  const AIAspectRatios: seq<real> := [1.0, 1.33, 0.75, 1.78, 0.56, 1.5, 0.67]

  /** `megapixels = w * h / 1e6` and `sizePerMP = fileSize / megapixels`;
      the test is `sizePerMP < 100000 && megapixels > 1`. The two conjuncts
      are taken in the other order so that the quotient is only formed when
      it is defined; with megapixels 0 the source's quotient is Infinity or
      NaN and the second conjunct is false anyway. */
  predicate LowCompressionTest(fileSize: nat, width: nat, height: nat) {
    var megapixels := (width * height) as real / 1000000.0;
    megapixels > 1.0 && fileSize as real / megapixels < 100000.0
  }

  /** Both sides within 5 of a listed pair, inclusive. */
  predicate NearDimension(d: (nat, nat), width: nat, height: nat) {
    Abs(width - d.0) <= 5 && Abs(height - d.1) <= 5
  }

  /** `aiDimensions.some(...)`. */
  function SomeDimension(dims: seq<(nat, nat)>, width: nat, height: nat): (b: bool)
    ensures b <==> exists i :: 0 <= i < |dims| && NearDimension(dims[i], width, height)
  {
    if |dims| == 0 then false
    else NearDimension(dims[0], width, height) || SomeDimension(dims[1..], width, height)
  }

  predicate IsAIDimension(width: nat, height: nat) {
    SomeDimension(AIDimensions, width, height)
  }

  /** `width / height`; a zero height gives Infinity or NaN in the source,
      None here. */
  function AspectRatio(width: nat, height: nat): (r: Option<real>)
    ensures r.Some? <==> height > 0
    ensures r.Some? ==> r.value * height as real == width as real
  {
    if height == 0 then None else Some(width as real / height as real)
  }

  function RealAbs(v: real): real {
    if v < 0.0 then -v else v
  }

  /** Strictly closer than 0.02 to a listed ratio. */
  predicate NearRatio(listed: real, ratio: real) {
    RealAbs(ratio - listed) < 0.02
  }

  /** `commonAIAspectRatios.some(...)`. */
  function SomeRatio(ratios: seq<real>, ratio: real): (b: bool)
    ensures b <==> exists i :: 0 <= i < |ratios| && NearRatio(ratios[i], ratio)
  {
    if |ratios| == 0 then false
    else NearRatio(ratios[0], ratio) || SomeRatio(ratios[1..], ratio)
  }

  /** Infinity and NaN are not within 0.02 of any listed ratio. */
  predicate HasCommonAspectRatio(width: nat, height: nat) {
    var r := AspectRatio(width, height);
    r.Some? && SomeRatio(AIAspectRatios, r.value)
  }

  /** The analysis: the three tests in order, each adding its weight and its
      clue, and the score capped at 1. The cap never bites, as the weights
      add up to at most 0.9. */
  function AnalyzeMetadata(fileSize: nat, width: nat, height: nat): (r: Analysis)
    ensures r.score == TotalWeight(r.clues)
    ensures 0.0 <= r.score <= 0.9
    ensures InOrder(r.clues)
    ensures forall c :: c in r.clues <==>
              || (LowCompressionTest(fileSize, width, height) && c == LowCompression)
              || (IsAIDimension(width, height) && c == AIDimension(width, height))
              || (HasCommonAspectRatio(width, height) && c == AIAspectRatio(width, height))
  {
    var t1, t2, t3 := LowCompressionTest(fileSize, width, height), IsAIDimension(width, height), HasCommonAspectRatio(width, height);
    var a := ThreeTests(t1, LowCompression, t2, AIDimension(width, height), t3, AIAspectRatio(width, height));
    ThreeTestsBuilt(t1, LowCompression, t2, AIDimension(width, height), t3, AIAspectRatio(width, height));
    ThreeTestsMembers(t1, LowCompression, t2, AIDimension(width, height), t3, AIAspectRatio(width, height));
    Analysis(Min(a.score, 1.0), a.clues)
  }

  // ---- properties ----

  /** The compression test in integers: the file has fewer than one byte per
      ten pixels, and there are more than a million pixels. */
  lemma LowCompressionExact(fileSize: nat, width: nat, height: nat)
    ensures LowCompressionTest(fileSize, width, height) <==>
            10 * fileSize < width * height && width * height > 1000000
  {
    var p := width * height;
    var megapixels := p as real / 1000000.0;
    assert megapixels > 1.0 <==> p > 1000000;
    if megapixels > 1.0 {
      DivLess(fileSize as real, megapixels, 100000.0);
      assert 100000.0 * megapixels == p as real / 10.0;
    }
  }

  lemma DivLess(a: real, m: real, b: real)
    requires m > 0.0
    ensures a / m < b <==> a < b * m
  {
    assert a / m * m == a;
  }

  /** 512 x 512 is a generator dimension, and so is 517 x 507: the
      tolerance is inclusive. */
  lemma DimensionMatches()
    ensures IsAIDimension(512, 512)
    ensures IsAIDimension(517, 507)
  {
    assert NearDimension(AIDimensions[0], 512, 512);
    assert NearDimension(AIDimensions[0], 517, 507);
  }

  /** Neither 518 x 512 nor 600 x 600 is a generator dimension. */
  lemma DimensionMisses()
    ensures !IsAIDimension(518, 512)
    ensures !IsAIDimension(600, 600)
  {
    forall i | 0 <= i < |AIDimensions|
      ensures !NearDimension(AIDimensions[i], 518, 512) && !NearDimension(AIDimensions[i], 600, 600)
    {
    }
  }

  /** The ratio tolerance is strict: 101 x 100 is within 0.02 of 1, while
      102 x 100 (exactly 0.02 away) is not close to any listed ratio. */
  lemma AspectExamples()
    ensures HasCommonAspectRatio(101, 100)
    ensures !HasCommonAspectRatio(102, 100)
  {
    assert NearRatio(AIAspectRatios[0], 101.0 / 100.0);
  }
}

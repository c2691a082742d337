/** The final verdict: the metadata and pattern analyses mixed into one
    confidence, a label, a fake flag and the clues shown, plus the colour
    the result is displayed in. */
module Fusion {
  import opened Wrappers
  import opened Sequences
  import opened Image
  import opened Clues
  import opened Metadata
  import opened PatternAnalysis

  datatype Label = AIGenerated | Real | Uncertain

  datatype DetectionResult = DetectionResult(verdict: Label, confidence: real, isFake: bool, clues: seq<Clue>)

  const MetadataWeight: real := 0.4
  const PatternWeight: real := 0.6

  /** How many clues the result keeps. */
  const ShownClues: nat := 3

  function Max(a: real, b: real): real {
    if a < b then b else a
  }

  /** The weighted total of the two analyses' scores. */
  function TotalScore(metadata: Analysis, patterns: Analysis): real {
    metadata.score * MetadataWeight + patterns.score * PatternWeight
  }

  /** The verdict: the weighted total clamped to [0.1, 0.95]; above 0.7 the
      image is AI-generated and fake, below 0.3 it is real and not fake, and
      in between it is uncertain and fake when above 0.5. */
  function Fuse(metadata: Analysis, patterns: Analysis): (r: DetectionResult)
    ensures 0.1 <= r.confidence <= 0.95
    ensures var total := TotalScore(metadata, patterns);
      && (0.1 <= total <= 0.95 ==> r.confidence == total)
      && (total < 0.1 ==> r.confidence == 0.1)
      && (total > 0.95 ==> r.confidence == 0.95)
    ensures r.verdict == AIGenerated <==> r.confidence > 0.7
    ensures r.verdict == Real <==> r.confidence < 0.3
    ensures r.isFake <==> r.confidence > 0.5
    ensures r.clues <= metadata.clues + patterns.clues
    ensures |r.clues| <= ShownClues
    ensures |r.clues| == ShownClues || r.clues == metadata.clues + patterns.clues
  {
    var confidence := Max(0.1, Min(0.95, TotalScore(metadata, patterns)));
    var allClues := metadata.clues + patterns.clues;
    if confidence > 0.7 then DetectionResult(AIGenerated, confidence, true, Take(allClues, ShownClues))
    else if confidence < 0.3 then DetectionResult(Real, confidence, false, Take(allClues, ShownClues))
    else DetectionResult(Uncertain, confidence, confidence > 0.5, Take(allClues, ShownClues))
  }

  /** `analyzeImageCharacteristics`: both analyses of the uploaded image,
      the pattern one on the canvas the image was drawn on, then the mix.
      When the pattern analysis throws (an image with a zero side), the
      caller's handler reports the failure and no result is set: None. */
  method AnalyzeImageCharacteristics(fileSize: nat, imageWidth: nat, imageHeight: nat, canvas: ImageData, cvRule: seq<int> -> bool)
    returns (r: Option<DetectionResult>)
    requires canvas.Valid()
    requires canvas.width == CanvasSide(imageWidth) && canvas.height == CanvasSide(imageHeight)
    ensures r.None? <==> imageWidth == 0 || imageHeight == 0
    ensures r.Some? ==> r.value == Fuse(AnalyzeMetadata(fileSize, imageWidth, imageHeight), Patterns(canvas, cvRule))
  {
    var metadataAnalysis := AnalyzeMetadata(fileSize, imageWidth, imageHeight);
    var patternAnalysis := AnalyzeImagePatterns(imageWidth, imageHeight, canvas, cvRule);
    if patternAnalysis.None? {
      return None;
    }
    r := Some(Fuse(metadataAnalysis, patternAnalysis.value));
  }

  datatype Color = Gray | Red | Yellow | Green

  /** `getResultColor`: gray with no result, red for a fake, yellow for an
      uncertain one that is not fake, green otherwise. */
  function ResultColor(result: Option<DetectionResult>): (c: Color)
    ensures c == Gray <==> result.None?
    ensures c == Red <==> result.Some? && result.value.isFake
    ensures c == Yellow <==> result.Some? && !result.value.isFake && result.value.verdict == Uncertain
    ensures c == Green <==> result.Some? && !result.value.isFake && result.value.verdict != Uncertain
  {
    if result.None? then Gray
    else if result.value.isFake then Red
    else if result.value.verdict == Uncertain then Yellow
    else Green
  }

  // ---- properties ----

  /** On a fused result the colour reads off the confidence: red above 0.5,
      yellow from 0.3 to 0.5, green below 0.3. */
  lemma ColorOfConfidence(metadata: Analysis, patterns: Analysis)
    ensures var r := Fuse(metadata, patterns);
      && (ResultColor(Some(r)) == Red <==> r.confidence > 0.5)
      && (ResultColor(Some(r)) == Yellow <==> 0.3 <= r.confidence <= 0.5)
      && (ResultColor(Some(r)) == Green <==> r.confidence < 0.3)
      && ResultColor(Some(r)) != Gray
  {
  }

  /** When no test fires the image is real, with the floor confidence 0.1
      and no clue. */
  lemma NothingFires(metadata: Analysis, patterns: Analysis)
    requires metadata == Analysis(0.0, []) && patterns == Analysis(0.0, [])
    ensures Fuse(metadata, patterns) == DetectionResult(Real, 0.1, false, [])
  {
  }

  /** When every test fires the total 0.96 is clamped to 0.95, and the clues
      shown are the three metadata ones. */
  lemma EverythingFires(metadata: Analysis, patterns: Analysis)
    requires metadata.score == 0.9 && patterns.score == 1.0 && |metadata.clues| == 3
    ensures Fuse(metadata, patterns).confidence == 0.95
    ensures Fuse(metadata, patterns).clues == metadata.clues
  {
    assert (metadata.clues + patterns.clues)[..3] == metadata.clues;
  }

  /** Neither analysis alone can make an image AI-generated: that label
      needs a metadata score above 0.25 and a pattern score above 0.5. */
  lemma AIGeneratedNeedsBoth(metadata: Analysis, patterns: Analysis)
    requires 0.0 <= metadata.score <= 0.9 && 0.0 <= patterns.score <= 1.0
    requires Fuse(metadata, patterns).verdict == AIGenerated
    ensures metadata.score > 0.25 && patterns.score > 0.5
  {
  }

  /** With no pattern test firing, the metadata tests can at most make the
      image uncertain and never fake. */
  lemma MetadataAloneNotFake(metadata: Analysis, patterns: Analysis)
    requires 0.0 <= metadata.score <= 0.9 && patterns.score == 0.0
    ensures Fuse(metadata, patterns).verdict != AIGenerated && !Fuse(metadata, patterns).isFake
  {
  }

  /** Every pattern test firing with no metadata test makes the image
      uncertain but fake. */
  lemma PatternsAloneUncertainFake(metadata: Analysis, patterns: Analysis)
    requires metadata.score == 0.0 && patterns.score == 1.0
    ensures Fuse(metadata, patterns).verdict == Uncertain && Fuse(metadata, patterns).isFake
  {
  }

  /** Metadata clues take precedence: with three or more of them, no pattern
      clue is shown. */
  lemma MetadataCluesFirst(metadata: Analysis, patterns: Analysis)
    requires |metadata.clues| >= ShownClues
    ensures Fuse(metadata, patterns).clues == metadata.clues[..ShownClues]
  {
    assert (metadata.clues + patterns.clues)[..ShownClues] == metadata.clues[..ShownClues];
  }
}

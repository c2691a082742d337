/** The findings the image detector reports and the score-and-clues record
    each of its two analyses returns. */
module Clues {

  /** One clue per test, in the order the detector can emit them. The
      dimension and aspect clues carry the dimensions their message prints
      (the aspect clue prints width / height). */
  datatype Clue =
    | LowCompression
    | AIDimension(width: nat, height: nat)
    | AIAspectRatio(width: nat, height: nat)
    | UnusualColors
    | InconsistentEdges
    | HighSymmetry
    | RepeatedTexture

  /** The position of a clue's test in emission order. */
  function Rank(c: Clue): nat {
    match c
    case LowCompression => 0
    case AIDimension(_, _) => 1
    case AIAspectRatio(_, _) => 2
    case UnusualColors => 3
    case InconsistentEdges => 4
    case HighSymmetry => 5
    case RepeatedTexture => 6
  }

  /** The amount a test adds to its analysis' score when it fires. */
  function Weight(c: Clue): real {
    match c
    case LowCompression => 0.3
    case AIDimension(_, _) => 0.4
    case AIAspectRatio(_, _) => 0.2
    case UnusualColors => 0.2
    case InconsistentEdges => 0.3
    case HighSymmetry => 0.25
    case RepeatedTexture => 0.25
  }

  /** The summed weights of a list of clues. */
  function TotalWeight(clues: seq<Clue>): real {
    if |clues| == 0 then 0.0 else TotalWeight(clues[..|clues| - 1]) + Weight(clues[|clues| - 1])
  }

  /** Clues strictly follow emission order: each test appears at most once. */
  ghost predicate InOrder(clues: seq<Clue>) {
    forall i, j :: 0 <= i < j < |clues| ==> Rank(clues[i]) < Rank(clues[j])
  }

  /** What an analysis returns: a score and the clues that justify it. */
  datatype Analysis = Analysis(score: real, clues: seq<Clue>)

  /** `score += weight; clues.push(clue)`: one test that fired. */
  function Push(a: Analysis, c: Clue): Analysis {
    Analysis(a.score + Weight(c), a.clues + [c])
  }

  /** Pushing a clue adds its weight to the weight of the list. */
  lemma PushWeight(a: Analysis, c: Clue)
    ensures TotalWeight(Push(a, c).clues) == TotalWeight(a.clues) + Weight(c)
  {
    var s := Push(a, c).clues;
    assert s[..|s| - 1] == a.clues;
  }

  /** `Math.min`, with which both analyses cap their score at 1. */
  function Min(a: real, b: real): real {
    if a < b then a else b
  }

  /** `if (test) { score += weight; clues.push(clue); }` */
  function Step(a: Analysis, fires: bool, c: Clue): Analysis {
    if fires then Push(a, c) else a
  }

  /** An analysis built so far: its score is the weight of its clues, and
      its clues are in order and all come from tests ranked before `next`. */
  ghost predicate Built(a: Analysis, next: nat) {
    && a.score == TotalWeight(a.clues)
    && InOrder(a.clues)
    && forall i :: 0 <= i < |a.clues| ==> Rank(a.clues[i]) < next
  }

  /** A test ranked `next` keeps an analysis built and adds its weight when
      it fires. */
  lemma StepBuilt(a: Analysis, fires: bool, c: Clue)
    requires Built(a, Rank(c))
    ensures Built(Step(a, fires, c), Rank(c) + 1)
    ensures Step(a, fires, c).score == a.score + (if fires then Weight(c) else 0.0)
  {
    if fires {
      PushWeight(a, c);
      AppendInOrder(a.clues, c);
    }
  }

  /** A clue ranked after every clue of an ordered list keeps it ordered. */
  lemma AppendInOrder(clues: seq<Clue>, c: Clue)
    requires InOrder(clues)
    requires forall i :: 0 <= i < |clues| ==> Rank(clues[i]) < Rank(c)
    ensures InOrder(clues + [c])
    ensures forall i :: 0 <= i < |clues + [c]| ==> Rank((clues + [c])[i]) <= Rank(c)
  {
    var s := clues + [c];
    forall i, j | 0 <= i < j < |s|
      ensures Rank(s[i]) < Rank(s[j])
    {
      if j == |clues| {
        assert s[i] == clues[i];
      } else {
        assert s[i] == clues[i] && s[j] == clues[j];
      }
    }
    forall i | 0 <= i < |s|
      ensures Rank(s[i]) <= Rank(c)
    {
      if i < |clues| {
        assert s[i] == clues[i];
      }
    }
  }

  /** A test adds its clue, and only its clue, to the list when it fires. */
  lemma StepMembers(a: Analysis, fires: bool, c: Clue)
    ensures forall x :: x in Step(a, fires, c).clues <==> x in a.clues || (fires && x == c)
  {
  }

  /** Three tests, ranked one after the other, applied to an empty analysis. */
  function ThreeTests(t1: bool, c1: Clue, t2: bool, c2: Clue, t3: bool, c3: Clue): Analysis {
    Step(Step(Step(Analysis(0.0, []), t1, c1), t2, c2), t3, c3)
  }

  /** Three tests leave their clues in order, and the score is the weight of
      the tests that fired. */
  lemma ThreeTestsBuilt(t1: bool, c1: Clue, t2: bool, c2: Clue, t3: bool, c3: Clue)
    requires Rank(c1) < Rank(c2) < Rank(c3)
    ensures Built(ThreeTests(t1, c1, t2, c2, t3, c3), Rank(c3) + 1)
    ensures ThreeTests(t1, c1, t2, c2, t3, c3).score ==
            (if t1 then Weight(c1) else 0.0) + (if t2 then Weight(c2) else 0.0) + (if t3 then Weight(c3) else 0.0)
  {
    var a0 := Analysis(0.0, []);
    StepBuilt(a0, t1, c1);
    var a1 := Step(a0, t1, c1);
    StepBuilt(a1, t2, c2);
    StepBuilt(Step(a1, t2, c2), t3, c3);
  }

  /** The clues of three tests are exactly those of the tests that fired. */
  lemma ThreeTestsMembers(t1: bool, c1: Clue, t2: bool, c2: Clue, t3: bool, c3: Clue)
    ensures forall x :: x in ThreeTests(t1, c1, t2, c2, t3, c3).clues <==>
              (t1 && x == c1) || (t2 && x == c2) || (t3 && x == c3)
  {
    var a0 := Analysis(0.0, []);
    StepMembers(a0, t1, c1);
    var a1 := Step(a0, t1, c1);
    StepMembers(a1, t2, c2);
    StepMembers(Step(a1, t2, c2), t3, c3);
  }

  /** Four tests, ranked one after the other, applied to an empty analysis. */
  function FourTests(t1: bool, c1: Clue, t2: bool, c2: Clue, t3: bool, c3: Clue, t4: bool, c4: Clue): Analysis {
    Step(ThreeTests(t1, c1, t2, c2, t3, c3), t4, c4)
  }

  /** Four tests leave their clues in order, and the score is the weight of
      the tests that fired. */
  lemma FourTestsBuilt(t1: bool, c1: Clue, t2: bool, c2: Clue, t3: bool, c3: Clue, t4: bool, c4: Clue)
    requires Rank(c1) < Rank(c2) < Rank(c3) < Rank(c4)
    ensures Built(FourTests(t1, c1, t2, c2, t3, c3, t4, c4), Rank(c4) + 1)
    ensures FourTests(t1, c1, t2, c2, t3, c3, t4, c4).score ==
            (if t1 then Weight(c1) else 0.0) + (if t2 then Weight(c2) else 0.0) +
            (if t3 then Weight(c3) else 0.0) + (if t4 then Weight(c4) else 0.0)
  {
    ThreeTestsBuilt(t1, c1, t2, c2, t3, c3);
    StepBuilt(ThreeTests(t1, c1, t2, c2, t3, c3), t4, c4);
  }

  /** The clues of four tests are exactly those of the tests that fired. */
  lemma FourTestsMembers(t1: bool, c1: Clue, t2: bool, c2: Clue, t3: bool, c3: Clue, t4: bool, c4: Clue)
    ensures forall x :: x in FourTests(t1, c1, t2, c2, t3, c3, t4, c4).clues <==>
              (t1 && x == c1) || (t2 && x == c2) || (t3 && x == c3) || (t4 && x == c4)
  {
    ThreeTestsMembers(t1, c1, t2, c2, t3, c3);
    StepMembers(ThreeTests(t1, c1, t2, c2, t3, c3), t4, c4);
  }
}

/** The edge-consistency analyzer: a 3x3 gradient kernel on the red bytes,
    the squared strengths above the noise floor collected in scan order, and
    a dispersion rule over the collection. */
module EdgeConsistency {
  import opened Wrappers
  import opened Image

  /** The gradient pair the kernel computes at byte position index, reading
      the red bytes left of, at and right of index in the rows that start at
      index, index + 4 * width and index + 8 * width. Reading past the end of a
      typed array gives `undefined` and the arithmetic NaN (None here); the
      read furthest along is index + 4 + 8 * width, so NaN arises exactly when
      that read is past the end. */
  function Kernel(data: seq<int>, width: nat, index: nat): (r: Option<(int, int)>)
    requires index >= 4
    ensures r.None? <==> index + 4 + 8 * width >= |data|
  {
    if index + 4 + 8 * width >= |data| then None
    else
      var w4, w8 := width * 4, width * 8;
      var gradX := -data[index - 4] + data[index + 4]
                   - 2 * data[index - 4 + w4] + 2 * data[index + 4 + w4]
                   - data[index - 4 + w8] + data[index + 4 + w8];
      var gradY := data[index - 4 + w8] + 2 * data[index + w8] + data[index + 4 + w8]
                   - data[index - 4] - 2 * data[index] - data[index + 4];
      Some((gradX, gradY))
  }

  function StrengthSq(k: Option<(int, int)>): Option<int> {
    match k
    case Some((gx, gy)) => Some(gx * gx + gy * gy)
    case None => None
  }

  /** gradX^2 + gradY^2 at pixel (x, y), or None when the kernel read NaN. */
  function StrengthSqAt(img: ImageData, x: nat, y: nat): Option<int>
    requires 1 <= x && 1 <= y
  {
    StrengthSq(Kernel(img.data, img.width, (y * img.width + x) * 4))
  }

  /** `edgeStrength > 50`, i.e. the squared strength exceeds 2500; NaN compares false. */
  predicate Strong(s: Option<int>) {
    s.Some? && s.value > 2500
  }

  /** The squared strength at every position, as one value the scan is
      parametrised by; positions outside the interior read NaN. */
  function StrengthMap(img: ImageData): (nat, nat) -> Option<int> {
    (x: nat, y: nat) => if 1 <= x && 1 <= y then StrengthSqAt(img, x, y) else None
  }

  /** What the scan pushes at (x, y): the squared strength if strong, else nothing. */
  function Pushed(strength: (nat, nat) -> Option<int>, x: nat, y: nat): seq<int> {
    var s := strength(x, y);
    if Strong(s) then [s.value] else []
  }

  /** The collection from row y, columns 1 up to (not including) xEnd. */
  function RowEdges(strength: (nat, nat) -> Option<int>, y: nat, xEnd: int): seq<int>
    decreases xEnd
  {
    if xEnd <= 1 then [] else RowEdges(strength, y, xEnd - 1) + Pushed(strength, xEnd - 1, y)
  }

  /** The collection from rows 1 up to (not including) yEnd, columns 1 .. width - 2. */
  function EdgesBelow(strength: (nat, nat) -> Option<int>, width: nat, yEnd: int): seq<int>
    decreases yEnd
  {
    if yEnd <= 1 then [] else EdgesBelow(strength, width, yEnd - 1) + RowEdges(strength, yEnd - 1, width - 1)
  }

  /** Every interior position the loops visit, in scan order. */
  function Collected(img: ImageData): seq<int> {
    EdgesBelow(StrengthMap(img), img.width, img.height - 1)
  }

  /** The verdict: no collected edge means "not unnatural"; otherwise the
      coefficient-of-variation rule decides. */
  predicate Unnatural(img: ImageData, cvRule: seq<int> -> bool) {
    var s := Collected(img);
    |s| > 0 && cvRule(s)
  }

  /** The source's scan followed by its verdict: no edge collected means
      "not unnatural". */
  method AnalyzeEdgeConsistency(img: ImageData, cvRule: seq<int> -> bool) returns (unnatural: bool)
    ensures unnatural == Unnatural(img, cvRule)
  {
    var edgeStrengths := CollectEdges(img);
    if |edgeStrengths| == 0 {
      return false;
    }
    unnatural := cvRule(edgeStrengths);
  }

  /** The outer scan over the interior rows, pushing strong edges as it goes. */
  method CollectEdges(img: ImageData) returns (edgeStrengths: seq<int>)
    ensures edgeStrengths == Collected(img)
  {
    edgeStrengths := [];
    var y := 1;
    while y < img.height - 1
      invariant 1 <= y && (img.height >= 2 ==> y <= img.height - 1) && (img.height < 2 ==> y == 1)
      invariant edgeStrengths == EdgesBelow(StrengthMap(img), img.width, y)
    {
      edgeStrengths := ScanRow(img, y, edgeStrengths);
      y := y + 1;
    }
  }

  /** The inner scan over the interior columns of row y. */
  method ScanRow(img: ImageData, y: nat, edgeStrengths: seq<int>) returns (r: seq<int>)
    requires 1 <= y
    ensures r == edgeStrengths + RowEdges(StrengthMap(img), y, img.width - 1)
  {
    var width: int := img.width;
    r := edgeStrengths;
    var x := 1;
    while x < width - 1
      invariant 1 <= x && (width >= 2 ==> x <= width - 1) && (width < 2 ==> x == 1)
      invariant r == edgeStrengths + RowEdges(StrengthMap(img), y, x)
    {
      var strength := StrengthSqAt(img, x, y);
      ghost var acc := r;
      if Strong(strength) {
        r := r + [strength.value];
      }
      ScanStep(StrengthMap(img), y, x, edgeStrengths, acc, strength);
      x := x + 1;
    }
  }

  /** One position of the row scan extends the collection as RowEdges does. */
  lemma ScanStep(strength: (nat, nat) -> Option<int>, y: nat, x: nat, before: seq<int>, acc: seq<int>, s: Option<int>)
    requires 1 <= x
    requires acc == before + RowEdges(strength, y, x)
    requires s == strength(x, y)
    ensures (if Strong(s) then acc + [s.value] else acc) == before + RowEdges(strength, y, x + 1)
  {
    assert RowEdges(strength, y, x + 1) == RowEdges(strength, y, x) + Pushed(strength, x, y);
  }

  // ---- what the collection contains ----

  /** Only squared strengths above 2500 are collected. */
  lemma {:induction false} RowEdgesStrong(strength: (nat, nat) -> Option<int>, y: nat, xEnd: int)
    ensures forall g :: g in RowEdges(strength, y, xEnd) ==> g > 2500
    decreases xEnd
  {
    if xEnd > 1 {
      RowEdgesStrong(strength, y, xEnd - 1);
    }
  }

  lemma {:induction false} EdgesBelowStrong(strength: (nat, nat) -> Option<int>, width: nat, yEnd: int)
    ensures forall g :: g in EdgesBelow(strength, width, yEnd) ==> g > 2500
    decreases yEnd
  {
    if yEnd > 1 {
      EdgesBelowStrong(strength, width, yEnd - 1);
      RowEdgesStrong(strength, yEnd - 1, width - 1);
    }
  }

  /** A strong edge of squared strength g at interior column x of row y. */
  ghost predicate EdgeAt(strength: (nat, nat) -> Option<int>, width: nat, x: nat, y: nat, g: int)
  {
    1 <= x < width - 1 && strength(x, y) == Some(g) && g > 2500
  }

  /** Row y holds a strong edge of squared strength g at some interior column. */
  ghost predicate RowHasEdge(strength: (nat, nat) -> Option<int>, width: nat, y: nat, g: int) {
    exists x: nat :: EdgeAt(strength, width, x, y, g)
  }

  lemma {:induction false} RowMembership(strength: (nat, nat) -> Option<int>, width: nat, y: nat, xEnd: int, g: int)
    requires xEnd <= width - 1
    ensures g in RowEdges(strength, y, xEnd) <==> exists x: nat :: x < xEnd && EdgeAt(strength, width, x, y, g)
    decreases xEnd
  {
    if xEnd > 1 {
      RowMembership(strength, width, y, xEnd - 1, g);
      if EdgeAt(strength, width, xEnd - 1, y, g) {
        assert g in Pushed(strength, xEnd - 1, y);
      }
    }
  }

  lemma {:induction false} RowsMembership(strength: (nat, nat) -> Option<int>, width: nat, yEnd: int, g: int)
    ensures g in EdgesBelow(strength, width, yEnd) <==>
            exists y: nat :: 1 <= y < yEnd && RowHasEdge(strength, width, y, g)
    decreases yEnd
  {
    if yEnd > 1 {
      var last := yEnd - 1;
      RowsMembership(strength, width, last, g);
      RowMembership(strength, width, last, width - 1, g);
      var earlier, row := EdgesBelow(strength, width, last), RowEdges(strength, last, width - 1);
      if g in row {
        assert RowHasEdge(strength, width, last, g);
      }
      if RowHasEdge(strength, width, last, g) {
        var x: nat :| EdgeAt(strength, width, x, last, g);
        assert g in row;
      }
      if exists y: nat :: 1 <= y < yEnd && RowHasEdge(strength, width, y, g) {
        var y: nat :| 1 <= y < yEnd && RowHasEdge(strength, width, y, g);
        if y < last {
          assert g in earlier;
        }
      }
    }
  }

  /** A value is collected exactly when it is the squared strength, above
      2500, at some interior position (1 <= x < width - 1, 1 <= y < height - 1)
      of the scan. */
  lemma CollectedIffEdge(img: ImageData, g: int)
    ensures g in Collected(img) <==>
            exists y: nat :: 1 <= y < img.height - 1 && RowHasEdge(StrengthMap(img), img.width, y, g)
  {
    RowsMembership(StrengthMap(img), img.width, img.height - 1, g);
  }

  /** Only squared strengths above 2500 are collected. */
  lemma CollectedStrong(img: ImageData)
    ensures forall g :: g in Collected(img) ==> g > 2500
  {
    EdgesBelowStrong(StrengthMap(img), img.width, img.height - 1);
  }

  // ---- what the kernel reads ----

  /** The kernel reads rows y .. y + 2, so on the last interior row it reads
      past the end of the buffer: no edge is ever collected from row height - 2. */
  lemma LastRowNaN(img: ImageData, x: nat)
    requires img.Valid() && img.height >= 3 && 1 <= x
    ensures StrengthSqAt(img, x, img.height - 2) == None
  {
    var w, h := img.width, img.height;
    assert (h - 2) * w + 2 * w == w * h;
  }

  /** On a solid image every kernel read in the buffer sees the same red
      byte, so both gradients vanish. */
  lemma SolidKernel(img: ImageData, q: nat)
    requires img.Valid() && Solid(img) && q >= 1
    ensures Kernel(img.data, img.width, 4 * q) in {None, Some((0, 0))}
  {
    var w := img.width;
    if 4 * q + 4 + 8 * w < |img.data| {
      SolidRed(img, q - 1);
      SolidRed(img, q);
      SolidRed(img, q + 1);
      SolidRed(img, q - 1 + w);
      SolidRed(img, q + 1 + w);
      SolidRed(img, q - 1 + 2 * w);
      SolidRed(img, q + 2 * w);
      SolidRed(img, q + 1 + 2 * w);
    }
  }

  lemma {:induction false} NoStrongRow(strength: (nat, nat) -> Option<int>, y: nat, xEnd: int)
    requires forall x: nat :: !Strong(strength(x, y))
    ensures RowEdges(strength, y, xEnd) == []
    decreases xEnd
  {
    if xEnd > 1 {
      NoStrongRow(strength, y, xEnd - 1);
    }
  }

  /** With no strong position anywhere the collection is empty. */
  lemma {:induction false} NoStrongNoEdges(strength: (nat, nat) -> Option<int>, width: nat, yEnd: int)
    requires forall x: nat, y: nat :: !Strong(strength(x, y))
    ensures EdgesBelow(strength, width, yEnd) == []
    decreases yEnd
  {
    if yEnd > 1 {
      NoStrongNoEdges(strength, width, yEnd - 1);
      NoStrongRow(strength, yEnd - 1, width - 1);
    }
  }

  /** A single-colour image has no edges and is never judged unnatural,
      whatever the dispersion rule. */
  lemma SolidNotUnnatural(img: ImageData, cvRule: seq<int> -> bool)
    requires img.Valid() && Solid(img)
    ensures Collected(img) == [] && !Unnatural(img, cvRule)
  {
    forall x: nat, y: nat
      ensures !Strong(StrengthMap(img)(x, y))
    {
      if 1 <= x && 1 <= y {
        SolidKernel(img, y * img.width + x);
      }
    }
    NoStrongNoEdges(StrengthMap(img), img.width, img.height - 1);
  }

  lemma {:induction false} SameStrengthRow(s1: (nat, nat) -> Option<int>, s2: (nat, nat) -> Option<int>, y: nat, xEnd: int)
    requires forall x: nat :: s1(x, y) == s2(x, y)
    ensures RowEdges(s1, y, xEnd) == RowEdges(s2, y, xEnd)
    decreases xEnd
  {
    if xEnd > 1 {
      SameStrengthRow(s1, s2, y, xEnd - 1);
    }
  }

  lemma {:induction false} SameStrengthSameEdges(s1: (nat, nat) -> Option<int>, s2: (nat, nat) -> Option<int>, width: nat, yEnd: int)
    requires forall x: nat, y: nat :: s1(x, y) == s2(x, y)
    ensures EdgesBelow(s1, width, yEnd) == EdgesBelow(s2, width, yEnd)
    decreases yEnd
  {
    if yEnd > 1 {
      SameStrengthSameEdges(s1, s2, width, yEnd - 1);
      SameStrengthRow(s1, s2, yEnd - 1, width - 1);
    }
  }

  /** The kernel reads only red bytes: two images of the same shape whose
      red bytes agree have the same kernel result at every pixel. */
  lemma RedKernel(a: ImageData, b: ImageData, q: nat)
    requires a.Valid() && b.Valid() && a.width == b.width && a.height == b.height && q >= 1
    requires forall k :: 0 <= k < a.PixelCount() ==> a.data[Index(k, 0)] == b.data[Index(k, 0)]
    ensures Kernel(a.data, a.width, 4 * q) == Kernel(b.data, b.width, 4 * q)
  {
    forall k: nat | 4 * k < |a.data|
      ensures a.data[4 * k] == b.data[4 * k]
    {
      RedIndex(a, k);
    }
    KernelOnRed(a.data, b.data, a.width, q);
  }

  /** The kernel at byte 4q reads only bytes at multiples of 4. */
  lemma KernelOnRed(da: seq<int>, db: seq<int>, width: nat, q: nat)
    requires |da| == |db| && q >= 1
    requires forall k: nat :: 4 * k < |da| ==> da[4 * k] == db[4 * k]
    ensures Kernel(da, width, 4 * q) == Kernel(db, width, 4 * q)
  {
    if 4 * q + 4 + 8 * width < |da| {
      assert da[4 * (q - 1)] == db[4 * (q - 1)];
      assert da[4 * q] == db[4 * q];
      assert da[4 * (q + 1)] == db[4 * (q + 1)];
      assert da[4 * (q - 1 + width)] == db[4 * (q - 1 + width)];
      assert da[4 * (q + 1 + width)] == db[4 * (q + 1 + width)];
      assert da[4 * (q - 1 + 2 * width)] == db[4 * (q - 1 + 2 * width)];
      assert da[4 * (q + 2 * width)] == db[4 * (q + 2 * width)];
      assert da[4 * (q + 1 + 2 * width)] == db[4 * (q + 1 + 2 * width)];
    }
  }

  lemma RedStrength(a: ImageData, b: ImageData, x: nat, y: nat)
    requires a.Valid() && b.Valid() && a.width == b.width && a.height == b.height
    requires forall k :: 0 <= k < a.PixelCount() ==> a.data[Index(k, 0)] == b.data[Index(k, 0)]
    requires 1 <= x && 1 <= y
    ensures StrengthSqAt(a, x, y) == StrengthSqAt(b, x, y)
  {
    var q := y * a.width + x;
    RedKernel(a, b, q);
    assert (y * a.width + x) * 4 == 4 * q;
  }

  /** The edge analysis sees only the red channel: images of the same shape
      with the same red bytes collect the same edges. */
  lemma RedOnly(a: ImageData, b: ImageData)
    requires a.Valid() && b.Valid() && a.width == b.width && a.height == b.height
    requires forall k :: 0 <= k < a.PixelCount() ==> a.data[Index(k, 0)] == b.data[Index(k, 0)]
    ensures Collected(a) == Collected(b)
  {
    forall x: nat, y: nat
      ensures StrengthMap(a)(x, y) == StrengthMap(b)(x, y)
    {
      if 1 <= x && 1 <= y {
        RedStrength(a, b, x, y);
      }
    }
    SameStrengthSameEdges(StrengthMap(a), StrengthMap(b), a.width, a.height - 1);
  }
}

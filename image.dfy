/** The RGBA pixel buffer that a canvas' `getImageData` hands to the pixel
    analyzers: row-major, four bytes (red, green, blue, alpha) per pixel. */
module Image {

  datatype ImageData = ImageData(data: seq<int>, width: nat, height: nat)
  {
    /** The buffer holds exactly width * height pixels of four bytes each. */
    ghost predicate Valid() {
      |data| == 4 * (width * height) &&
      forall i :: 0 <= i < |data| ==> 0 <= data[i] <= 255
    }

    function PixelCount(): nat {
      |data| / 4
    }
  }

  /** The buffer position of channel c of the p-th pixel in row-major order. */
  function Index(p: nat, c: nat): nat {
    4 * p + c
  }

  /** The buffer position of channel c of pixel (x, y). */
  function Offset(width: nat, x: nat, y: nat, c: nat): nat {
    Index(y * width + x, c)
  }

  lemma OffsetInRange(img: ImageData, x: nat, y: nat, c: nat)
    requires img.Valid() && x < img.width && y < img.height && c < 4
    ensures Offset(img.width, x, y, c) < |img.data|
  {
    var w, h := img.width, img.height;
    assert Offset(w, x, y, c) == (y * w + x) * 4 + c;
    assert y * w + x < (y + 1) * w by {
      assert (y + 1) * w == y * w + w;
    }
    assert (y + 1) * w <= h * w by {
      assert y + 1 <= h;
    }
    assert h * w == w * h;
  }

  /** Channel c of pixel (x, y). */
  function Byte(img: ImageData, x: nat, y: nat, c: nat): (v: int)
    requires img.Valid() && x < img.width && y < img.height && c < 4
    ensures 0 <= v <= 255
  {
    OffsetInRange(img, x, y, c);
    img.data[Offset(img.width, x, y, c)]
  }

  /** Three times the brightness `(r + g + b) / 3` that the analyzers compare;
      keeping the factor 3 makes every brightness comparison an integer one. */
  function Brightness3(img: ImageData, x: nat, y: nat): (b: int)
    requires img.Valid() && x < img.width && y < img.height
    ensures 0 <= b <= 765
  {
    Byte(img, x, y, 0) + Byte(img, x, y, 1) + Byte(img, x, y, 2)
  }

  /** Three times the brightness of every pixel, as one value the pixel
      analyzers' sums are parametrised by (0 outside the image, which the
      repetition tally never depends on: `TextureRepetition.TallyReadsOnlyImage`). */
  function BrightnessMap(img: ImageData): (nat, nat) -> int
    requires img.Valid()
  {
    (x: nat, y: nat) => if x < img.width && y < img.height then Brightness3(img, x, y) else 0
  }

  function Abs(v: int): nat {
    if v < 0 then -v else v
  }

  /** Every pixel has the same red, green and blue bytes as the first one. */
  ghost predicate Solid(img: ImageData)
    requires img.Valid()
  {
    forall p, c :: 0 <= p < img.PixelCount() && 0 <= c < 3 ==> img.data[Index(p, c)] == img.data[c]
  }

  lemma SolidByte(img: ImageData, x: nat, y: nat, c: nat)
    requires img.Valid() && Solid(img) && x < img.width && y < img.height && c < 3
    ensures Byte(img, x, y, c) == img.data[c]
  {
    OffsetInRange(img, x, y, c);
    var p := y * img.width + x;
    assert p < img.PixelCount();
    assert Offset(img.width, x, y, c) == Index(p, c);
  }

  lemma SolidBrightness(img: ImageData, x: nat, y: nat)
    requires img.Valid() && Solid(img) && x < img.width && y < img.height
    ensures Brightness3(img, x, y) == img.data[0] + img.data[1] + img.data[2]
  {
    SolidByte(img, x, y, 0);
    SolidByte(img, x, y, 1);
    SolidByte(img, x, y, 2);
  }

  /** A red byte read at 4 * k inside the buffer belongs to the k-th pixel. */
  lemma RedIndex(img: ImageData, k: nat)
    requires img.Valid() && 4 * k < |img.data|
    ensures k < img.PixelCount() && Index(k, 0) == 4 * k
  {
  }

  lemma SolidRed(img: ImageData, k: nat)
    requires img.Valid() && Solid(img) && 4 * k < |img.data|
    ensures img.data[4 * k] == img.data[0]
  {
    RedIndex(img, k);
  }

  /** A solid image has the same brightness everywhere inside it. */
  lemma SolidBrightnessMap(img: ImageData)
    requires img.Valid() && Solid(img)
    ensures forall x: nat, y: nat :: x < img.width && y < img.height ==>
              BrightnessMap(img)(x, y) == img.data[0] + img.data[1] + img.data[2]
  {
    forall x: nat, y: nat | x < img.width && y < img.height
      ensures BrightnessMap(img)(x, y) == img.data[0] + img.data[1] + img.data[2]
    {
      SolidBrightness(img, x, y);
    }
  }
}

/**
 * The image operations the preprocessing pipeline uses, on a pixel grid:
 * geometric transposes and flips, a resize whose pixel values come from an
 * interpolation kernel, a crop that pads with black outside the image,
 * and the reversal of the channel axis.
 */
module Images {

  /** One pixel, with its three channels in storage order. */
  datatype Pixel = Pixel(c0: int, c1: int, c2: int)

  const Black := Pixel(0, 0, 0)

  /** An image: its size and its rows of pixels (`rows[y][x]`). */
  datatype Image = Image(width: nat, height: nat, rows: seq<seq<Pixel>>)
  {
    /** The grid has `height` rows of `width` pixels. */
    predicate Valid()
    {
      |rows| == height && forall y :: 0 <= y < |rows| ==> |rows[y]| == width
    }

    /** The pixel at column x, row y; black outside the grid. */
    function At(x: int, y: int): Pixel
    {
      if 0 <= y < |rows| && 0 <= x < |rows[y]| then rows[y][x] else Black
    }
  }

  /** The width-by-height image whose pixel at (x, y) is f(x, y). */
  function Build(width: nat, height: nat, f: (int, int) -> Pixel): (img: Image)
    ensures img.Valid() && img.width == width && img.height == height
    ensures forall x, y :: 0 <= x < width && 0 <= y < height ==> img.At(x, y) == f(x, y)
  {
    Image(width, height, BuildRows(width, height, f))
  }

  /** The first n rows of the image Build makes. */
  function BuildRows(width: nat, n: nat, f: (int, int) -> Pixel): (rows: seq<seq<Pixel>>)
    ensures |rows| == n
    ensures forall y :: 0 <= y < n ==> |rows[y]| == width
    ensures forall x, y :: 0 <= x < width && 0 <= y < n ==> rows[y][x] == f(x, y)
  {
    if n == 0 then [] else BuildRows(width, n - 1, f) + [BuildRow(width, n - 1, f)]
  }

  /** The first m pixels of row y. */
  function BuildRow(m: nat, y: int, f: (int, int) -> Pixel): (row: seq<Pixel>)
    ensures |row| == m
    ensures forall x :: 0 <= x < m ==> row[x] == f(x, y)
  {
    if m == 0 then [] else BuildRow(m - 1, y, f) + [f(m - 1, y)]
  }

  /** Two valid images of one size that agree on every pixel are equal. */
  lemma Extensionality(a: Image, b: Image)
    requires a.Valid() && b.Valid() && a.width == b.width && a.height == b.height
    requires forall x, y :: 0 <= x < a.width && 0 <= y < a.height ==> a.At(x, y) == b.At(x, y)
    ensures a == b
  {
    forall y | 0 <= y < a.height
      ensures a.rows[y] == b.rows[y]
    {
      forall x | 0 <= x < a.width
        ensures a.rows[y][x] == b.rows[y][x]
      {
        assert a.At(x, y) == b.At(x, y);
      }
    }
  }

  /** PIL's TRANSPOSE: rows become columns; the size is swapped. */
  function Transpose(img: Image): (r: Image)
    ensures r.Valid() && r.width == img.height && r.height == img.width
    ensures forall x, y :: 0 <= x < r.width && 0 <= y < r.height ==> r.At(x, y) == img.At(y, x)
  {
    Build(img.height, img.width, (x, y) => img.At(y, x))
  }

  /** PIL's FLIP_TOP_BOTTOM: row y comes from row height - 1 - y. */
  function FlipTopBottom(img: Image): (r: Image)
    ensures r.Valid() && r.width == img.width && r.height == img.height
    ensures forall x, y :: 0 <= x < r.width && 0 <= y < r.height ==> r.At(x, y) == img.At(x, img.height - 1 - y)
  {
    Build(img.width, img.height, (x, y) => img.At(x, img.height - 1 - y))
  }

  /** PIL's FLIP_LEFT_RIGHT: column x comes from column width - 1 - x. */
  function FlipLeftRight(img: Image): (r: Image)
    ensures r.Valid() && r.width == img.width && r.height == img.height
    ensures forall x, y :: 0 <= x < r.width && 0 <= y < r.height ==> r.At(x, y) == img.At(img.width - 1 - x, y)
  {
    Build(img.width, img.height, (x, y) => img.At(img.width - 1 - x, y))
  }

  /**
   * Resampling to width by height; the pixel value at (x, y) is given by the
   * interpolation kernel (PIL's bilinear filter is not part of this model).
   * PIL raises ValueError when a side is 0, so both must be positive.
   */
  function Resize(img: Image, width: nat, height: nat, kernel: (Image, nat, nat, int, int) -> Pixel): (r: Image)
    requires width > 0 && height > 0
    ensures r.Valid() && r.width == width && r.height == height
    ensures forall x, y :: 0 <= x < width && 0 <= y < height ==> r.At(x, y) == kernel(img, width, height, x, y)
  {
    Build(width, height, (x, y) => kernel(img, width, height, x, y))
  }

  /**
   * PIL's `crop((left, top, left + width, top + height))`: the box may reach
   * outside the image, and those pixels are black.
   */
  function Crop(img: Image, left: int, top: int, width: nat, height: nat): (r: Image)
    ensures r.Valid() && r.width == width && r.height == height
    ensures forall x, y :: 0 <= x < width && 0 <= y < height ==> r.At(x, y) == img.At(left + x, top + y)
  {
    Build(width, height, (x, y) => img.At(left + x, top + y))
  }

  /** The pixel with its channel order reversed, numpy's `[:, :, (2, 1, 0)]`. */
  function ReversePixel(p: Pixel): (q: Pixel)
    ensures q.c0 == p.c2 && q.c1 == p.c1 && q.c2 == p.c0
  {
    Pixel(p.c2, p.c1, p.c0)
  }

  /** Every pixel with its channel order reversed (RGB to BGR). */
  function ReverseChannels(img: Image): (r: Image)
    ensures r.Valid() && r.width == img.width && r.height == img.height
    ensures forall x, y :: 0 <= x < r.width && 0 <= y < r.height ==> r.At(x, y) == ReversePixel(img.At(x, y))
  {
    Build(img.width, img.height, (x, y) => ReversePixel(img.At(x, y)))
  }

  /** Reversing the channels twice gives back a valid image unchanged. */
  lemma ReverseChannelsTwice(img: Image)
    requires img.Valid()
    ensures ReverseChannels(ReverseChannels(img)) == img
  {
    var r := ReverseChannels(ReverseChannels(img));
    Extensionality(r, img);
  }

  /** Transposing twice gives back a valid image unchanged. */
  lemma TransposeTwice(img: Image)
    requires img.Valid()
    ensures Transpose(Transpose(img)) == img
  {
    Extensionality(Transpose(Transpose(img)), img);
  }

  /** Flipping top to bottom twice gives back a valid image unchanged. */
  lemma FlipTopBottomTwice(img: Image)
    requires img.Valid()
    ensures FlipTopBottom(FlipTopBottom(img)) == img
  {
    Extensionality(FlipTopBottom(FlipTopBottom(img)), img);
  }

  /** Flipping left to right twice gives back a valid image unchanged. */
  lemma FlipLeftRightTwice(img: Image)
    requires img.Valid()
    ensures FlipLeftRight(FlipLeftRight(img)) == img
  {
    Extensionality(FlipLeftRight(FlipLeftRight(img)), img);
  }
}

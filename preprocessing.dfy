/**
 * `ImagePreprocessor` of the vision service: orientation correction from the
 * EXIF orientation tag, aspect-preserving resize of the shorter side to the
 * model input size, centre crop to a square, and optional RGB-to-BGR swap.
 */
module ImagePreprocessing {
  import opened Wrappers
  import opened Rounding
  import opened Images

  /** The three PIL transposes the orientation correction can use. */
  datatype Transform = TransposeOp | FlipTopBottomOp | FlipLeftRightOp

  /** Position of a transform in the fixed order in which they are applied. */
  function Rank(t: Transform): nat
  {
    match t
    case TransposeOp => 0
    case FlipTopBottomOp => 1
    case FlipLeftRightOp => 2
  }

  /**
   * The transforms applied for an orientation tag (None: no EXIF data or no
   * orientation entry). With k = tag - 1: transpose when k >= 4, flip top to
   * bottom when k is 2, 3, 6 or 7, flip left to right when k is 1, 2, 5 or 6.
   */
  function OrientationTransforms(orientation: Option<int>): (ts: seq<Transform>)
    ensures |ts| <= 3
    ensures forall i, j :: 0 <= i < j < |ts| ==> Rank(ts[i]) < Rank(ts[j])
    ensures (orientation.None? || orientation.value == 1) ==> ts == []
    ensures TransposeOp in ts <==> orientation.Some? && orientation.value >= 5
    ensures FlipTopBottomOp in ts <==> orientation.Some? && orientation.value in {3, 4, 7, 8}
    ensures FlipLeftRightOp in ts <==> orientation.Some? && orientation.value in {2, 3, 6, 7}
  {
    match orientation
    case None => []
    case Some(tag) =>
      var k := tag - 1;
      (if k >= 4 then [TransposeOp] else [])
      + (if k in {2, 3, 6, 7} then [FlipTopBottomOp] else [])
      + (if k in {1, 2, 5, 6} then [FlipLeftRightOp] else [])
  }

  function Apply(img: Image, t: Transform): Image
  {
    match t
    case TransposeOp => Transpose(img)
    case FlipTopBottomOp => FlipTopBottom(img)
    case FlipLeftRightOp => FlipLeftRight(img)
  }

  /** The transforms applied one after the other, first one first. */
  function ApplyAll(img: Image, ts: seq<Transform>): Image
    decreases |ts|
  {
    if ts == [] then img else ApplyAll(Apply(img, ts[0]), ts[1..])
  }

  /**
   * `_update_orientation`. Only the transpose changes the size: it swaps width
   * and height for every tag >= 5. No EXIF data, no orientation entry, or a
   * tag of 1 or less leave the image as it is.
   */
  function UpdateOrientation(img: Image, orientation: Option<int>): (r: Image)
    ensures if orientation.Some? && orientation.value >= 5
      then r.width == img.height && r.height == img.width
      else r.width == img.width && r.height == img.height
    ensures orientation.None? || orientation.value <= 1 ==> r == img
  {
    OrientationSwaps(orientation);
    ApplyAllSize(img, OrientationTransforms(orientation));
    ApplyAll(img, OrientationTransforms(orientation))
  }

  /** The transforms of a tag hold one transpose when the tag is 5 or more, none otherwise. */
  lemma OrientationSwaps(orientation: Option<int>)
    ensures Swaps(OrientationTransforms(orientation)) <==> orientation.Some? && orientation.value >= 5
  {
    if orientation.Some? {
      var k := orientation.value - 1;
      var a := if k >= 4 then [TransposeOp] else [];
      var b := if k in {2, 3, 6, 7} then [FlipTopBottomOp] else [];
      var c := if k in {1, 2, 5, 6} then [FlipLeftRightOp] else [];
      assert OrientationTransforms(orientation) == a + b + c;
      SwapsAppend(a + b, c);
      SwapsAppend(a, b);
    }
  }

  /** Whether the transforms hold an odd number of transposes. */
  function Swaps(ts: seq<Transform>): bool
  {
    if ts == [] then false else (ts[0] == TransposeOp) != Swaps(ts[1..])
  }

  lemma {:induction false} SwapsAppend(a: seq<Transform>, b: seq<Transform>)
    ensures Swaps(a + b) == (Swaps(a) != Swaps(b))
  {
    if a != [] {
      assert (a + b)[1..] == a[1..] + b;
      SwapsAppend(a[1..], b);
    } else {
      assert a + b == b;
    }
  }

  /** Each transpose swaps width and height; flips keep them. */
  lemma {:induction false} ApplyAllSize(img: Image, ts: seq<Transform>)
    ensures var r := ApplyAll(img, ts);
      if Swaps(ts)
      then r.width == img.height && r.height == img.width
      else r.width == img.width && r.height == img.height
    decreases |ts|
  {
    if ts != [] {
      ApplyAllSize(Apply(img, ts[0]), ts[1..]);
    }
  }

  /** The side of the displayed picture on which a stored row or column lies. */
  datatype Side = Top | Bottom | Left | Right

  /**
   * Meaning of the orientation values 1 to 8 of the TIFF 6.0 / EXIF
   * Orientation tag (0x0112): the visual side on which the stored 0th row lies.
   */
  function ZerothRow(tag: int): Side
    requires 1 <= tag <= 8
  {
    if tag <= 2 then Top
    else if tag <= 4 then Bottom
    else if tag == 5 || tag == 8 then Left
    else Right
  }

  /** The visual side on which the stored 0th column lies. */
  function ZerothColumn(tag: int): Side
    requires 1 <= tag <= 8
  {
    if tag == 1 || tag == 4 then Left
    else if tag == 2 || tag == 3 then Right
    else if tag == 5 || tag == 6 then Top
    else Bottom
  }

  /** The stored 0th row lies on a left or right side: the picture is turned a quarter. */
  predicate Sideways(tag: int)
    requires 1 <= tag <= 8
  {
    ZerothRow(tag) == Left || ZerothRow(tag) == Right
  }

  /**
   * For the displayed pixel (x, y) of a stored picture of width w and height h,
   * the stored column it comes from, given where the stored 0th row and 0th
   * column lie.
   */
  function SourceColumn(row0: Side, col0: Side, w: int, x: int, y: int): int
  {
    if row0 == Top || row0 == Bottom
    then (if col0 == Left then x else w - 1 - x)
    else (if col0 == Top then y else w - 1 - y)
  }

  /** The stored row the displayed pixel (x, y) comes from. */
  function SourceRow(row0: Side, h: int, x: int, y: int): int
  {
    if row0 == Top || row0 == Bottom
    then (if row0 == Top then y else h - 1 - y)
    else (if row0 == Left then x else h - 1 - x)
  }

  /**
   * The picture as it is meant to be seen, read straight off the tag's
   * meaning: each displayed pixel taken from the stored pixel that lies there.
   * When the 0th row is a left or right side the displayed picture is h wide.
   */
  function Upright(img: Image, tag: int): (u: Image)
    requires 1 <= tag <= 8
    ensures u.Valid()
    ensures Sideways(tag) ==> u.width == img.height && u.height == img.width
    ensures !Sideways(tag) ==> u.width == img.width && u.height == img.height
    ensures forall x, y :: 0 <= x < u.width && 0 <= y < u.height ==>
      u.At(x, y) == img.At(SourceColumn(ZerothRow(tag), ZerothColumn(tag), img.width, x, y),
                           SourceRow(ZerothRow(tag), img.height, x, y))
  {
    var row0, col0 := ZerothRow(tag), ZerothColumn(tag);
    var w, h := img.width, img.height;
    if row0 == Top || row0 == Bottom
    then Build(w, h, (x, y) => img.At(SourceColumn(row0, col0, w, x, y), SourceRow(row0, h, x, y)))
    else Build(h, w, (x, y) => img.At(SourceColumn(row0, col0, w, x, y), SourceRow(row0, h, x, y)))
  }

  /** For the eight standard tags the transform list puts the picture upright. */
  lemma OrientationIsUpright(img: Image, tag: int)
    requires img.Valid() && 1 <= tag <= 8
    ensures UpdateOrientation(img, Some(tag)) == Upright(img, tag)
  {
    match tag
    case 1 => UprightTag1(img);
    case 2 => UprightTag2(img);
    case 3 => UprightTag3(img);
    case 4 => UprightTag4(img);
    case 5 => UprightTag5(img);
    case 6 => UprightTag6(img);
    case 7 => UprightTag7(img);
    case 8 => UprightTag8(img);
  }

  /** Applying one to three transforms, spelled out. */
  lemma ApplyAllUnfold(img: Image, ts: seq<Transform>)
    requires 1 <= |ts| <= 3
    ensures |ts| == 1 ==> ApplyAll(img, ts) == Apply(img, ts[0])
    ensures |ts| == 2 ==> ApplyAll(img, ts) == Apply(Apply(img, ts[0]), ts[1])
    ensures |ts| == 3 ==> ApplyAll(img, ts) == Apply(Apply(Apply(img, ts[0]), ts[1]), ts[2])
  {
    var a := Apply(img, ts[0]);
    assert ApplyAll(img, ts) == ApplyAll(a, ts[1..]);
    if |ts| == 1 {
      assert ts[1..] == [];
    } else {
      var b := Apply(a, ts[1]);
      assert ApplyAll(a, ts[1..]) == ApplyAll(b, ts[2..]) by {
        assert ts[1..][1..] == ts[2..];
      }
      if |ts| == 2 {
        assert ts[2..] == [];
      } else {
        assert ApplyAll(b, ts[2..]) == ApplyAll(Apply(b, ts[2]), []) by {
          assert ts[2..][1..] == [];
        }
      }
    }
  }

  lemma UprightTag1(img: Image)
    requires img.Valid()
    ensures UpdateOrientation(img, Some(1)) == Upright(img, 1)
  {
    assert OrientationTransforms(Some(1)) == [];
    UprightPixels1(img);
  }

  lemma UprightPixels1(img: Image)
    requires img.Valid()
    ensures img == Upright(img, 1)
  {
    var u := Upright(img, 1);
    assert ZerothRow(1) == Top && ZerothColumn(1) == Left;
    forall x, y | 0 <= x < img.width && 0 <= y < img.height
      ensures img.At(x, y) == u.At(x, y)
    {
      assert u.At(x, y) == img.At(x, y);
    }
    Extensionality(img, u);
  }

  lemma UprightTag2(img: Image)
    requires img.Valid()
    ensures UpdateOrientation(img, Some(2)) == Upright(img, 2)
  {
    assert OrientationTransforms(Some(2)) == [FlipLeftRightOp];
    ApplyAllUnfold(img, [FlipLeftRightOp]);
    UprightPixels2(img);
  }

  lemma UprightPixels2(img: Image)
    requires img.Valid()
    ensures FlipLeftRight(img) == Upright(img, 2)
  {
    var r := FlipLeftRight(img);
    var u := Upright(img, 2);
    assert ZerothRow(2) == Top && ZerothColumn(2) == Right;
    forall x, y | 0 <= x < r.width && 0 <= y < r.height
      ensures r.At(x, y) == u.At(x, y)
    {
      assert u.At(x, y) == img.At(img.width - 1 - x, y);
    }
    Extensionality(r, u);
  }

  lemma UprightTag3(img: Image)
    requires img.Valid()
    ensures UpdateOrientation(img, Some(3)) == Upright(img, 3)
  {
    assert OrientationTransforms(Some(3)) == [FlipTopBottomOp, FlipLeftRightOp];
    ApplyAllUnfold(img, [FlipTopBottomOp, FlipLeftRightOp]);
    UprightPixels3(img);
  }

  lemma UprightPixels3(img: Image)
    requires img.Valid()
    ensures FlipLeftRight(FlipTopBottom(img)) == Upright(img, 3)
  {
    var r := FlipLeftRight(FlipTopBottom(img));
    var u := Upright(img, 3);
    forall x, y | 0 <= x < r.width && 0 <= y < r.height
      ensures r.At(x, y) == u.At(x, y)
    {
      UprightPixel3(img, x, y);
    }
    Extensionality(r, u);
  }

  lemma UprightPixel3(img: Image, x: int, y: int)
    requires img.Valid() && 0 <= x < img.width && 0 <= y < img.height
    ensures FlipLeftRight(FlipTopBottom(img)).At(x, y) == Upright(img, 3).At(x, y)
  {
    var f := FlipTopBottom(img);
    assert FlipLeftRight(f).At(x, y) == f.At(img.width - 1 - x, y);
    assert ZerothRow(3) == Bottom && ZerothColumn(3) == Right;
  }

  lemma UprightTag4(img: Image)
    requires img.Valid()
    ensures UpdateOrientation(img, Some(4)) == Upright(img, 4)
  {
    assert OrientationTransforms(Some(4)) == [FlipTopBottomOp];
    ApplyAllUnfold(img, [FlipTopBottomOp]);
    UprightPixels4(img);
  }

  lemma UprightPixels4(img: Image)
    requires img.Valid()
    ensures FlipTopBottom(img) == Upright(img, 4)
  {
    var r := FlipTopBottom(img);
    var u := Upright(img, 4);
    assert ZerothRow(4) == Bottom && ZerothColumn(4) == Left;
    forall x, y | 0 <= x < r.width && 0 <= y < r.height
      ensures r.At(x, y) == u.At(x, y)
    {
      assert u.At(x, y) == img.At(x, img.height - 1 - y);
    }
    Extensionality(r, u);
  }

  lemma UprightTag5(img: Image)
    requires img.Valid()
    ensures UpdateOrientation(img, Some(5)) == Upright(img, 5)
  {
    assert OrientationTransforms(Some(5)) == [TransposeOp];
    ApplyAllUnfold(img, [TransposeOp]);
    UprightPixels5(img);
  }

  lemma UprightPixels5(img: Image)
    requires img.Valid()
    ensures Transpose(img) == Upright(img, 5)
  {
    var r := Transpose(img);
    var u := Upright(img, 5);
    assert ZerothRow(5) == Left && ZerothColumn(5) == Top;
    forall x, y | 0 <= x < r.width && 0 <= y < r.height
      ensures r.At(x, y) == u.At(x, y)
    {
      assert u.At(x, y) == img.At(y, x);
    }
    Extensionality(r, u);
  }

  lemma UprightTag6(img: Image)
    requires img.Valid()
    ensures UpdateOrientation(img, Some(6)) == Upright(img, 6)
  {
    assert OrientationTransforms(Some(6)) == [TransposeOp, FlipLeftRightOp];
    ApplyAllUnfold(img, [TransposeOp, FlipLeftRightOp]);
    UprightPixels6(img);
  }

  lemma UprightPixels6(img: Image)
    requires img.Valid()
    ensures FlipLeftRight(Transpose(img)) == Upright(img, 6)
  {
    var r := FlipLeftRight(Transpose(img));
    var u := Upright(img, 6);
    forall x, y | 0 <= x < r.width && 0 <= y < r.height
      ensures r.At(x, y) == u.At(x, y)
    {
      UprightPixel6(img, x, y);
    }
    Extensionality(r, u);
  }

  lemma UprightPixel6(img: Image, x: int, y: int)
    requires img.Valid() && 0 <= x < img.height && 0 <= y < img.width
    ensures FlipLeftRight(Transpose(img)).At(x, y) == Upright(img, 6).At(x, y)
  {
    var t := Transpose(img);
    assert FlipLeftRight(t).At(x, y) == t.At(img.height - 1 - x, y);
    assert ZerothRow(6) == Right && ZerothColumn(6) == Top;
  }

  lemma UprightTag7(img: Image)
    requires img.Valid()
    ensures UpdateOrientation(img, Some(7)) == Upright(img, 7)
  {
    assert OrientationTransforms(Some(7)) == [TransposeOp, FlipTopBottomOp, FlipLeftRightOp];
    ApplyAllUnfold(img, [TransposeOp, FlipTopBottomOp, FlipLeftRightOp]);
    UprightPixels7(img);
  }

  lemma UprightPixels7(img: Image)
    requires img.Valid()
    ensures FlipLeftRight(FlipTopBottom(Transpose(img))) == Upright(img, 7)
  {
    var r := FlipLeftRight(FlipTopBottom(Transpose(img)));
    var u := Upright(img, 7);
    forall x, y | 0 <= x < r.width && 0 <= y < r.height
      ensures r.At(x, y) == u.At(x, y)
    {
      UprightPixel7(img, x, y);
    }
    Extensionality(r, u);
  }

  lemma UprightPixel7(img: Image, x: int, y: int)
    requires img.Valid() && 0 <= x < img.height && 0 <= y < img.width
    ensures FlipLeftRight(FlipTopBottom(Transpose(img))).At(x, y) == Upright(img, 7).At(x, y)
  {
    ComposedPixel7(img, x, y);
    UprightAt7(img, x, y);
  }

  lemma ComposedPixel7(img: Image, x: int, y: int)
    requires img.Valid() && 0 <= x < img.height && 0 <= y < img.width
    ensures FlipLeftRight(FlipTopBottom(Transpose(img))).At(x, y) == img.At(img.width - 1 - y, img.height - 1 - x)
  {
    var t := Transpose(img);
    var f := FlipTopBottom(t);
    assert FlipLeftRight(f).At(x, y) == f.At(img.height - 1 - x, y);
    assert f.At(img.height - 1 - x, y) == t.At(img.height - 1 - x, img.width - 1 - y);
  }

  lemma UprightAt7(img: Image, x: int, y: int)
    requires img.Valid() && 0 <= x < img.height && 0 <= y < img.width
    ensures Upright(img, 7).At(x, y) == img.At(img.width - 1 - y, img.height - 1 - x)
  {
    assert ZerothRow(7) == Right && ZerothColumn(7) == Bottom;
  }

  lemma UprightTag8(img: Image)
    requires img.Valid()
    ensures UpdateOrientation(img, Some(8)) == Upright(img, 8)
  {
    assert OrientationTransforms(Some(8)) == [TransposeOp, FlipTopBottomOp];
    ApplyAllUnfold(img, [TransposeOp, FlipTopBottomOp]);
    UprightPixels8(img);
  }

  lemma UprightPixels8(img: Image)
    requires img.Valid()
    ensures FlipTopBottom(Transpose(img)) == Upright(img, 8)
  {
    var r := FlipTopBottom(Transpose(img));
    var u := Upright(img, 8);
    forall x, y | 0 <= x < r.width && 0 <= y < r.height
      ensures r.At(x, y) == u.At(x, y)
    {
      UprightPixel8(img, x, y);
    }
    Extensionality(r, u);
  }

  lemma UprightPixel8(img: Image, x: int, y: int)
    requires img.Valid() && 0 <= x < img.height && 0 <= y < img.width
    ensures FlipTopBottom(Transpose(img)).At(x, y) == Upright(img, 8).At(x, y)
  {
    var t := Transpose(img);
    assert FlipTopBottom(t).At(x, y) == t.At(x, img.width - 1 - y);
    assert ZerothRow(8) == Left && ZerothColumn(8) == Bottom;
  }

  /**
   * Why preprocessing can fail: PIL's image size has a zero side, and Python
   * divides by it; or a target side of the resize is 0, which PIL's `resize`
   * rejects with ValueError (this happens exactly when the input size is 0).
   */
  datatype PreprocessError = ZeroDivision | EmptyResize

  /** Interpolation kernel: the pixel at (x, y) of a resize of the image to the given size. */
  type Kernel = (Image, nat, nat, int, int) -> Pixel

  /** Offset of a centred window of `inputSize` in a side of `size`, by floor division. */
  function CenterOffset(size: int, inputSize: nat): (offset: int)
    ensures 2 * offset == size - inputSize || 2 * offset == size - inputSize - 1
    ensures offset <= size - inputSize - offset <= offset + 1
    ensures inputSize <= size ==> 0 <= offset && offset + inputSize <= size
  {
    // Dafny's division by a positive divisor rounds down, as Python's // does
    (size - inputSize) / 2
  }

  /**
   * The `ImagePreprocessor` of a model whose input is inputSize by inputSize
   * pixels, with channels in BGR order when isBgr holds.
   */
  datatype Preprocessor = Preprocessor(inputSize: nat, isBgr: bool)
  {
    /**
     * `_resize_keep_aspect_ratio`: the shorter side becomes inputSize (the
     * height for a square), the other side round(inputSize * longer / shorter).
     */
    function ResizeKeepAspectRatio(img: Image, kernel: Kernel): (r: Result<Image, PreprocessError>)
      ensures r == Failure(ZeroDivision) <==> img.width == 0 || img.height == 0
      ensures r == Failure(EmptyResize) <==> img.width > 0 && img.height > 0 && inputSize == 0
      ensures r.Success? ==> r.value.Valid() && r.value.width >= inputSize && r.value.height >= inputSize
      ensures r.Success? && img.width < img.height ==>
        && r.value.width == inputSize
        && r.value.height == RoundHalfEven(Scaled(inputSize, img.height, img.width))
      ensures r.Success? && img.width >= img.height ==>
        && r.value.height == inputSize
        && r.value.width == RoundHalfEven(Scaled(inputSize, img.width, img.height))
      ensures r.Success? ==> forall x, y :: 0 <= x < r.value.width && 0 <= y < r.value.height ==>
        r.value.At(x, y) == kernel(img, r.value.width, r.value.height, x, y)
    {
      if img.height == 0 then Failure(ZeroDivision)
      // the aspect ratio is 0 exactly when the width is, and Python divides by it when width < height
      else if img.width == 0 then Failure(ZeroDivision)
      else
        var (width, height) := TargetSize(img.width, img.height);
        PilResize(img, width, height, kernel)
    }

    /**
     * The new size `_resize_keep_aspect_ratio` computes from the aspect ratio
     * width / height of an image without a zero side.
     */
    function TargetSize(width: nat, height: nat): (size: (nat, nat))
      requires width > 0 && height > 0
      ensures size.0 >= inputSize && size.1 >= inputSize
      ensures width < height ==> size.0 == inputSize && size.1 == RoundHalfEven(Scaled(inputSize, height, width))
      ensures width >= height ==> size.1 == inputSize && size.0 == RoundHalfEven(Scaled(inputSize, width, height))
    {
      var aspectRatio := width as real / height as real;
      if width < height then
        var exact := inputSize as real / aspectRatio;
        LongerSide(inputSize, height, width);
        assert exact == Scaled(inputSize, height, width);
        RoundAtLeast(exact, inputSize);
        (inputSize, RoundHalfEven(exact))
      else
        var exact := inputSize as real * aspectRatio;
        LongerSide(inputSize, width, height);
        assert exact == Scaled(inputSize, width, height);
        RoundAtLeast(exact, inputSize);
        (RoundHalfEven(exact), inputSize)
    }

    /** `_crop_center`: the inputSize by inputSize box at the centre offsets. */
    function CropCenter(img: Image): (r: Image)
      ensures r.Valid() && r.width == inputSize && r.height == inputSize
      ensures forall x, y :: 0 <= x < inputSize && 0 <= y < inputSize ==>
        r.At(x, y) == img.At(CenterOffset(img.width, inputSize) + x, CenterOffset(img.height, inputSize) + y)
    {
      Crop(img, CenterOffset(img.width, inputSize), CenterOffset(img.height, inputSize), inputSize, inputSize)
    }

    /** `preprocess`: orientation, resize, centre crop, then the BGR swap if asked for. */
    function Preprocess(img: Image, orientation: Option<int>, kernel: Kernel): (r: Result<Image, PreprocessError>)
      ensures r == Failure(ZeroDivision) <==> img.width == 0 || img.height == 0
      ensures r == Failure(EmptyResize) <==> img.width > 0 && img.height > 0 && inputSize == 0
      ensures r.Success? ==> r.value.Valid() && r.value.width == inputSize && r.value.height == inputSize
    {
      var oriented := UpdateOrientation(img, orientation);
      match ResizeKeepAspectRatio(oriented, kernel)
      case Failure(e) => Failure(e)
      case Success(resized) =>
        var cropped := CropCenter(resized);
        Success(if isBgr then ReverseChannels(cropped) else cropped)
    }
  }

  /** PIL's `resize`: ValueError unless both target sides are positive. */
  function PilResize(img: Image, width: nat, height: nat, kernel: Kernel): (r: Result<Image, PreprocessError>)
    ensures r.Failure? <==> width == 0 || height == 0
    ensures r.Failure? ==> r.error == EmptyResize
    ensures r.Success? ==> r.value == Resize(img, width, height, kernel)
  {
    if width == 0 || height == 0 then Failure(EmptyResize) else Success(Resize(img, width, height, kernel))
  }

  /** The exact length inputSize * longer / shorter that keeps the aspect ratio. */
  function Scaled(inputSize: nat, longer: nat, shorter: nat): real
    requires 0 < shorter
  {
    inputSize as real * longer as real / shorter as real
  }

  /**
   * Python computes the scaled length as inputSize / (shorter / longer) or as
   * inputSize * (longer / shorter); on exact reals both are Scaled, which is
   * at least inputSize.
   */
  lemma LongerSide(inputSize: nat, longer: nat, shorter: nat)
    requires 0 < shorter <= longer
    ensures inputSize as real / (shorter as real / longer as real) == Scaled(inputSize, longer, shorter)
    ensures inputSize as real * (longer as real / shorter as real) == Scaled(inputSize, longer, shorter)
    ensures Scaled(inputSize, longer, shorter) >= inputSize as real
  {
  }

  /**
   * For a positive input size, every image with two positive sides comes out inputSize by inputSize; the
   * crop box lies inside the resized image, so every output pixel is a pixel
   * of the resized image (channel-swapped when isBgr) and none is padding.
   */
  lemma PreprocessFitsModelInput(p: Preprocessor, img: Image, orientation: Option<int>, kernel: Kernel)
    requires img.width > 0 && img.height > 0 && p.inputSize > 0
    ensures var resized := p.ResizeKeepAspectRatio(UpdateOrientation(img, orientation), kernel);
      && resized.Success?
      && var left := CenterOffset(resized.value.width, p.inputSize);
      && var top := CenterOffset(resized.value.height, p.inputSize);
      && 0 <= left && left + p.inputSize <= resized.value.width
      && 0 <= top && top + p.inputSize <= resized.value.height
      && var r := p.Preprocess(img, orientation, kernel);
      && r.Success? && r.value.width == p.inputSize && r.value.height == p.inputSize
      && forall x, y :: 0 <= x < p.inputSize && 0 <= y < p.inputSize ==>
           r.value.At(x, y) == (if p.isBgr then ReversePixel(resized.value.At(left + x, top + y))
                                else resized.value.At(left + x, top + y))
  {
    var oriented := UpdateOrientation(img, orientation);
    var resized := p.ResizeKeepAspectRatio(oriented, kernel).value;
    var cropped := p.CropCenter(resized);
    assert p.Preprocess(img, orientation, kernel) == Success(if p.isBgr then ReverseChannels(cropped) else cropped);
  }

  /** A BGR preprocessor differs from the RGB one only by the channel swap, which undoes itself. */
  lemma BgrIsReversedRgb(inputSize: nat, img: Image, orientation: Option<int>, kernel: Kernel)
    requires img.width > 0 && img.height > 0 && inputSize > 0
    ensures var rgb := Preprocessor(inputSize, false).Preprocess(img, orientation, kernel);
      var bgr := Preprocessor(inputSize, true).Preprocess(img, orientation, kernel);
      && rgb.Success? && bgr.Success?
      && bgr.value == ReverseChannels(rgb.value)
      && ReverseChannels(bgr.value) == rgb.value
  {
    var rgb := Preprocessor(inputSize, false).Preprocess(img, orientation, kernel);
    PreprocessFitsModelInput(Preprocessor(inputSize, false), img, orientation, kernel);
    ReverseChannelsTwice(rgb.value);
  }
}

/** The crop-box and output-size arithmetic of
    apps/api/app/services/image_cropper.py. Opening, cropping, resizing and
    saving the picture are PIL and file-system calls; the model keeps the
    sizes they work on and the decisions made from them. */
module ImageCropper {
  import opened Wrappers

  datatype Size = Size(width: int, height: int)

  /** A PIL crop box: the left and top edges are inside, right and bottom
      outside. */
  datatype Box = Box(left: int, top: int, right: int, bottom: int)

  /** The size of the image `img.crop(box)` returns. */
  function CroppedSize(box: Box): Size
  {
    Size(box.right - box.left, box.bottom - box.top)
  }

  /** A box that lies within a picture of the given size and is not empty. */
  predicate Inside(box: Box, image: Size)
  {
    0 <= box.left < box.right <= image.width && 0 <= box.top < box.bottom <= image.height
  }

  /** What a cropper reports: the picture was saved, with its path, its size
      and whether it was resized on the way; or it returned False. */
  datatype Outcome = Saved(path: string, size: Size, resized: bool) | NotSaved

  /** `output_path = input_path` when none is given. */
  function OutputPath(inputPath: string, outputPath: Option<string>): (r: string)
    ensures outputPath.Some? ==> r == outputPath.value
    ensures outputPath.None? ==> r == inputPath
  {
    if outputPath.None? then inputPath else outputPath.value
  }

  function Min(a: int, b: int): (m: int)
    ensures m <= a && m <= b && (m == a || m == b)
  {
    if a < b then a else b
  }

  // ---------------------------------------------------------------------
  // crop_to_square

  /** A wide picture keeps a middle square of its height; any other keeps the
      top-left square of its width. */
  function SquareBox(image: Size): Box
  {
    if image.width > image.height then
      var left := (image.width - image.height) / 2;
      Box(left, 0, left + image.height, image.height)
    else
      Box(0, 0, image.width, image.width)
  }

  lemma SquareBoxFits(image: Size)
    requires image.width >= 1 && image.height >= 1
    ensures var box := SquareBox(image);
            && Inside(box, image)
            && CroppedSize(box) == Size(Min(image.width, image.height), Min(image.width, image.height))
  {
  }

  /** The square of a wide picture is centred: the columns dropped on the
      left and on the right differ by at most one, the extra one on the right. */
  lemma SquareBoxCentred(image: Size)
    requires image.width > image.height >= 1
    ensures var box := SquareBox(image);
            var dropped := image.width - box.right;
            box.left == dropped || box.left + 1 == dropped
  {
  }

  /** A picture of at most its width in height is cut at the top-left. */
  lemma SquareBoxKeepsTop(image: Size)
    requires image.width <= image.height
    ensures SquareBox(image).left == 0 && SquareBox(image).top == 0
  {
  }

  /** The resize step shared by both square croppers: only a side that
      differs from `size` is resized, and a resize to a non-positive size
      raises, which the cropper reports as False. */
  function SaveSquare(path: string, side: int, size: int): (r: Outcome)
  {
    if side != size then
      if size <= 0 then NotSaved else Saved(path, Size(size, size), true)
    else Saved(path, Size(side, side), false)
  }

  /** `crop_to_square`; `picture` is the size of the picture, or None when it
      cannot be opened. */
  function CropToSquare(inputPath: string, outputPath: Option<string>, picture: Option<Size>, size: int): (r: Outcome)
    ensures picture.None? ==> r == NotSaved
    ensures r.Saved? ==> r.path == OutputPath(inputPath, outputPath) && r.size.width == r.size.height
    ensures r.Saved? && r.resized ==> r.size == Size(size, size) && size >= 1
    ensures picture.Some? && size >= 1 ==> r.Saved?
  {
    if picture.None? then NotSaved
    else SaveSquare(OutputPath(inputPath, outputPath), CroppedSize(SquareBox(picture.value)).width, size)
  }

  /** A picture that opens is saved as a `size` by `size` square, unless
      `size` is not positive; it is resized exactly when its shorter side
      is not `size` already. */
  lemma CropToSquareOutput(inputPath: string, outputPath: Option<string>, picture: Option<Size>, size: int)
    requires picture.Some? ==> picture.value.width >= 1 && picture.value.height >= 1
    ensures var r := CropToSquare(inputPath, outputPath, picture, size);
            var side := if picture.Some? then Min(picture.value.width, picture.value.height) else 0;
            && (r.Saved? <==> picture.Some? && size >= 1)
            && (r.Saved? ==> r.path == OutputPath(inputPath, outputPath) && r.size == Size(size, size)
                             && (r.resized <==> side != size))
  {
    if picture.Some? {
      SquareBoxFits(picture.value);
    }
  }

  // ---------------------------------------------------------------------
  // crop_to_square_from_top

  function TopSquareBox(image: Size): Box
  {
    var side := Min(image.width, image.height);
    Box(0, 0, side, side)
  }

  /** The square always starts at the top-left corner, has the shorter side,
      and fits. */
  lemma TopSquareBoxFits(image: Size)
    requires image.width >= 1 && image.height >= 1
    ensures var box := TopSquareBox(image);
            && box.left == 0 && box.top == 0
            && Inside(box, image)
            && CroppedSize(box) == Size(Min(image.width, image.height), Min(image.width, image.height))
  {
  }

  /** The two square croppers cut the same square unless the picture is at
      least two columns wider than tall (one extra column is dropped on the
      right either way). */
  lemma SquareBoxesAgreeUnlessWide(image: Size)
    ensures image.width <= image.height + 1 <==> SquareBox(image) == TopSquareBox(image)
  {
  }

  function CropToSquareFromTop(inputPath: string, outputPath: Option<string>, picture: Option<Size>, size: int): (r: Outcome)
    ensures picture.None? ==> r == NotSaved
    ensures r.Saved? ==> r.path == OutputPath(inputPath, outputPath) && r.size.width == r.size.height
    ensures r.Saved? && r.resized ==> r.size == Size(size, size) && size >= 1
    ensures picture.Some? && size >= 1 ==> r.Saved?
  {
    if picture.None? then NotSaved
    else SaveSquare(OutputPath(inputPath, outputPath), CroppedSize(TopSquareBox(picture.value)).width, size)
  }

  /** The same output as `crop_to_square`: both keep a square of the
      shorter side, so they resize alike and save the same size. */
  lemma FromTopSavesSameSize(inputPath: string, outputPath: Option<string>, picture: Option<Size>, size: int)
    requires picture.Some? ==> picture.value.width >= 1 && picture.value.height >= 1
    ensures CropToSquareFromTop(inputPath, outputPath, picture, size) == CropToSquare(inputPath, outputPath, picture, size)
  {
    if picture.Some? {
      SquareBoxFits(picture.value);
      TopSquareBoxFits(picture.value);
    }
  }

  // ---------------------------------------------------------------------
  // crop_top_and_crop_to_size

  /** The box that drops the top `topCrop` rows. */
  function BelowTopBox(image: Size, topCrop: int): Box
  {
    Box(0, topCrop, image.width, image.height)
  }

  /** The top-left box of at most the target size, within the rest. */
  function TargetBox(rest: Size, target: Size): Box
  {
    Box(0, 0, Min(target.width, rest.width), Min(target.height, rest.height))
  }

  /** `crop_top_and_crop_to_size`: False when no row would be left;
      a target with a negative side makes the second crop raise. */
  function CropTopAndCropToSize(inputPath: string, outputPath: Option<string>, picture: Option<Size>,
                                topCrop: int, target: Size): (r: Outcome)
    ensures r.Saved? ==> && picture.Some? && picture.value.height > topCrop && !r.resized
                         && r.path == OutputPath(inputPath, outputPath)
                         && 0 <= r.size.width <= target.width && r.size.width <= picture.value.width
                         && 0 <= r.size.height <= target.height && r.size.height <= picture.value.height - topCrop
  {
    if picture.None? || picture.value.height <= topCrop then NotSaved
    else
      var rest := CroppedSize(BelowTopBox(picture.value, topCrop));
      var final := CroppedSize(TargetBox(rest, target));
      if final.width < 0 || final.height < 0 then NotSaved
      else Saved(OutputPath(inputPath, outputPath), final, false)
  }

  /** A picture no taller than `topCrop` is refused. */
  lemma TooShortRefused(inputPath: string, outputPath: Option<string>, image: Size, topCrop: int, target: Size)
    requires image.height <= topCrop
    ensures CropTopAndCropToSize(inputPath, outputPath, Some(image), topCrop, target) == NotSaved
  {
  }

  /** Otherwise the result is the target size, cut down to what the
      picture has below the dropped rows. */
  lemma CropTopOutput(inputPath: string, outputPath: Option<string>, image: Size, topCrop: int, target: Size)
    requires image.width >= 1 && image.height > topCrop >= 0
    requires target.width >= 0 && target.height >= 0
    ensures var r := CropTopAndCropToSize(inputPath, outputPath, Some(image), topCrop, target);
            && r.Saved?
            && r.path == OutputPath(inputPath, outputPath)
            && r.size == Size(Min(target.width, image.width), Min(target.height, image.height - topCrop))
            && r.size.width <= target.width && r.size.height <= target.height
  {
  }

  /** Both crops lie within what they cut from when the target is not
      empty and `topCrop` is not negative. */
  lemma CropTopBoxesFit(image: Size, topCrop: int, target: Size)
    requires image.width >= 1 && image.height > topCrop >= 0
    requires target.width >= 1 && target.height >= 1
    ensures Inside(BelowTopBox(image, topCrop), image)
    ensures var rest := CroppedSize(BelowTopBox(image, topCrop));
            rest == Size(image.width, image.height - topCrop) && Inside(TargetBox(rest, target), rest)
  {
  }
}

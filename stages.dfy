/**
 * The per-example stages of the pipeline, in the order the datasets map
 * them: decode (`_parse_and_decode`, `_parse_and_decode_inference`), resize
 * (`_resize_images`, `_resize_images_inference`), the synchronised random
 * flip (`_preprocess_images`) and the dummy-box formatting (`_format_inputs`).
 */
module Stages {
  import opened Outcomes
  import opened Text
  import opened Resolver
  import opened BoxParser
  import opened Rasters

  /** Decoded file contents by path: what the reads and decoders of the pipeline would return. */
  datatype Files = Files(images: map<string, Image>, labels: map<string, Label>, texts: map<string, string>)

  /** Library routines the pipeline calls without defining them. */
  datatype Library = Library(resizeBilinear: (Image, nat, nat) -> Image, boxUtils: BoxUtils)

  /** What `resize_images` promises of its bilinear result: the requested height and width, the channels kept. */
  ghost predicate ResizesToSize(lib: Library) {
    forall im: Image, h: nat, w: nat :: h > 0 && w > 0 ==>
      && lib.resizeBilinear(im, h, w).pixels.height == h
      && lib.resizeBilinear(im, h, w).pixels.width == w
      && lib.resizeBilinear(im, h, w).channels == im.channels
  }

  /** What `decode_jpeg` yields: a greyscale (one-channel) or an RGB (three-channel) image. */
  predicate RgbDecodes(files: Files) {
    forall path :: path in files.images ==> files.images[path].channels == 1 || files.images[path].channels == 3
  }

  /** One decoded training/evaluation example; classes and weights hold one value per box. */
  datatype Example = Example(image: Image, mask: Label, boxes: seq<Box>, classes: seq<int>, weights: seq<int>)

  /** An example as `_format_inputs` returns it: classes and weights as N x 1 columns, and the box count. */
  datatype Formatted = Formatted(image: Image, mask: Label, boxes: seq<Box>,
                                 classes: seq<seq<int>>, weights: seq<seq<int>>, numBoxes: seq<int>)

  /** An inference example: the normalised image, its path, and the image as decoded. */
  datatype InferenceExample = InferenceExample(image: Image, filename: string, raw: Image)

  // ---------------------------------------------------------------------------
  // Decoding

  /**
   * `_parse_and_decode` (lines 25-62): the identifier is stripped, the image
   * read and brought to RGB, the label read, and the box file parsed with the
   * image's own height and width.
   */
  function ParseAndDecode(filename: string, dir: string, files: Files, utils: BoxUtils): (r: Result<Example>)
    ensures StripIdentifier(filename).Err? ==> r == Err(MalformedIdentifier(filename))
    ensures StripIdentifier(filename).Ok? && ImagePath(dir, filename) !in files.images ==>
      r == Err(FileNotFound(ImagePath(dir, filename)))
    ensures StripIdentifier(filename).Ok? && ImagePath(dir, filename) in files.images &&
            LabelPath(dir, StripIdentifier(filename).value) !in files.labels ==>
      r == Err(FileNotFound(LabelPath(dir, StripIdentifier(filename).value)))
    ensures StripIdentifier(filename).Ok? && ImagePath(dir, filename) in files.images &&
            LabelPath(dir, StripIdentifier(filename).value) in files.labels ==>
      var decoded := files.images[ImagePath(dir, filename)];
      var ann := ParseAndStoreBoxes(filename, dir, decoded.pixels.height, decoded.pixels.width, files.texts, utils);
      ann.Err? ==> r == Err(ann.error)
    ensures r.Ok? <==>
      && StripIdentifier(filename).Ok?
      && ImagePath(dir, filename) in files.images
      && LabelPath(dir, StripIdentifier(filename).value) in files.labels
      && ParseAndStoreBoxes(filename, dir, files.images[ImagePath(dir, filename)].pixels.height,
                            files.images[ImagePath(dir, filename)].pixels.width, files.texts, utils).Ok?
    ensures r.Ok? ==>
      var decoded := files.images[ImagePath(dir, filename)];
      var ann := ParseAndStoreBoxes(filename, dir, decoded.pixels.height, decoded.pixels.width, files.texts, utils).value;
      && r.value.image == GreyscaleToRgb(decoded)
      && r.value.mask == files.labels[LabelPath(dir, StripIdentifier(filename).value)]
      && r.value.boxes == ann.boxes && r.value.classes == ann.classes && r.value.weights == ann.weights
    ensures r.Ok? ==> Consistent(r.value)
  {
    var stripped :- StripIdentifier(filename);
    var imPath := ImagePath(dir, filename);
    if imPath !in files.images then Err(FileNotFound(imPath))
    else
      var image := GreyscaleToRgb(files.images[imPath]);
      var laPath := LabelPath(dir, stripped);
      if laPath !in files.labels then Err(FileNotFound(laPath))
      else
        var ann :- ParseAndStoreBoxes(filename, dir, image.pixels.height, image.pixels.width, files.texts, utils);
        Ok(Example(image, files.labels[laPath], ann.boxes, ann.classes, ann.weights))
  }

  /**
   * `_parse_and_decode_inference` (lines 64-81): only the image is read; the
   * identifier is used whole, so its `_` structure does not matter.
   */
  function ParseAndDecodeInference(filename: string, dir: string, files: Files): (r: Result<InferenceExample>)
    ensures r.Ok? <==> ImagePath(dir, filename) in files.images
    ensures r.Err? ==> r.error == FileNotFound(ImagePath(dir, filename))
    ensures r.Ok? ==>
      && r.value.filename == ImagePath(dir, filename)
      && r.value.raw == files.images[ImagePath(dir, filename)]
      && r.value.image == GreyscaleToRgb(r.value.raw)
  {
    var imPath := ImagePath(dir, filename);
    if imPath !in files.images then Err(FileNotFound(imPath))
    else
      var raw := files.images[imPath];
      Ok(InferenceExample(GreyscaleToRgb(raw), imPath, raw))
  }

  // ---------------------------------------------------------------------------
  // Resizing

  /**
   * `_resize_images` (lines 138-158): bilinear for the image, nearest
   * neighbour for the label; boxes, classes and weights pass untouched, so the
   * boxes stay normalised by the original size.
   */
  function ResizeImages(ex: Example, height: nat, width: nat, lib: Library): (r: Result<Example>)
    ensures r.Ok? <==> height > 0 && width > 0 && ex.mask.height > 0 && ex.mask.width > 0
                       && ex.image.pixels.height > 0 && ex.image.pixels.width > 0
    ensures r.Err? ==> r.error == EmptyResize
    ensures r.Ok? ==>
      && r.value.image == lib.resizeBilinear(ex.image, height, width)
      && r.value.mask == ResizeNearest(ex.mask, height, width)
      && r.value.mask.height == height && r.value.mask.width == width
      && Ids(r.value.mask) <= Ids(ex.mask)
      && r.value.boxes == ex.boxes && r.value.classes == ex.classes && r.value.weights == ex.weights
  {
    if height == 0 || width == 0 || ex.mask.height == 0 || ex.mask.width == 0
       || ex.image.pixels.height == 0 || ex.image.pixels.width == 0 then Err(EmptyResize)
    else
      ResizeNearestKeepsIds(ex.mask, height, width);
      Ok(Example(lib.resizeBilinear(ex.image, height, width), ResizeNearest(ex.mask, height, width),
                 ex.boxes, ex.classes, ex.weights))
  }

  /** `_resize_images_inference` (lines 160-175): the image resized; the path and the raw image kept. */
  function ResizeImagesInference(ex: InferenceExample, height: nat, width: nat, lib: Library): (r: Result<InferenceExample>)
    ensures r.Ok? <==> height > 0 && width > 0 && ex.image.pixels.height > 0 && ex.image.pixels.width > 0
    ensures r.Err? ==> r.error == EmptyResize
    ensures r.Ok? ==> r.value.image == lib.resizeBilinear(ex.image, height, width)
                      && r.value.filename == ex.filename && r.value.raw == ex.raw
  {
    if height == 0 || width == 0 || ex.image.pixels.height == 0 || ex.image.pixels.width == 0 then Err(EmptyResize)
    else Ok(InferenceExample(lib.resizeBilinear(ex.image, height, width), ex.filename, ex.raw))
  }

  // ---------------------------------------------------------------------------
  // The synchronised flip

  /** `flip_normalized_boxes_left_right` applied box by box. */
  function FlipBoxes(boxes: seq<Box>, utils: BoxUtils): (r: seq<Box>)
    ensures |r| == |boxes|
    ensures forall i :: 0 <= i < |boxes| ==> r[i] == utils.flip(boxes[i])
  {
    seq(|boxes|, i requires 0 <= i < |boxes| => utils.flip(boxes[i]))
  }

  /** The decision of lines 106-108: a flip needs the option set and a draw strictly above one half. */
  predicate FlipDrawn(randomFlip: bool, draw: real): (flip: bool)
    ensures !randomFlip ==> !flip
    ensures randomFlip ==> (flip <==> 0.5 < draw)
  {
    randomFlip && draw > 0.5
  }

  /**
   * `_preprocess_images` (lines 105-136) with the uniform draw as a
   * parameter: one draw decides for the image, the label and the boxes
   * together; classes and weights are never touched.
   */
  function PreprocessImages(ex: Example, randomFlip: bool, draw: real, utils: BoxUtils): (r: Example)
    ensures r.classes == ex.classes && r.weights == ex.weights
    ensures FlipDrawn(randomFlip, draw) ==>
      r.image == FlipImage(ex.image) && r.mask == FlipLeftRight(ex.mask) && r.boxes == FlipBoxes(ex.boxes, utils)
    ensures !FlipDrawn(randomFlip, draw) ==> r == ex
  {
    if !randomFlip then ex
    else
      var flip := draw > 0.5;
      Example(if flip then FlipImage(ex.image) else ex.image,
              if flip then FlipLeftRight(ex.mask) else ex.mask,
              if flip then FlipBoxes(ex.boxes, utils) else ex.boxes,
              ex.classes, ex.weights)
  }

  /**
   * With the same draw, preprocessing twice restores the image and the label,
   * and the boxes too when the box flip undoes itself on them.
   */
  lemma PreprocessTwice(ex: Example, randomFlip: bool, draw: real, utils: BoxUtils)
    requires forall i :: 0 <= i < |ex.boxes| ==> utils.flip(utils.flip(ex.boxes[i])) == ex.boxes[i]
    ensures PreprocessImages(PreprocessImages(ex, randomFlip, draw, utils), randomFlip, draw, utils) == ex
  {
    if FlipDrawn(randomFlip, draw) {
      FlipImageTwice(ex.image);
      FlipTwice(ex.mask);
      var twice := FlipBoxes(FlipBoxes(ex.boxes, utils), utils);
      assert twice == ex.boxes;
    }
  }

  /** The flip keeps every label id: the mask is mirrored, not reinterpreted. */
  lemma PreprocessKeepsLabelIds(ex: Example, randomFlip: bool, draw: real, utils: BoxUtils)
    ensures Ids(PreprocessImages(ex, randomFlip, draw, utils).mask) == Ids(ex.mask)
    ensures PreprocessImages(ex, randomFlip, draw, utils).mask.height == ex.mask.height
    ensures PreprocessImages(ex, randomFlip, draw, utils).mask.width == ex.mask.width
  {
    FlipKeepsIds(ex.mask);
  }

  /** Tensor shapes as lists of dimensions. */
  type Shape = seq<nat>

  /** `tf.squeeze` without an axis: every dimension of size 1 removed. */
  function SqueezeAll(shape: Shape): (r: Shape)
    ensures forall i :: 0 <= i < |r| ==> r[i] != 1
    ensures |r| <= |shape|
  {
    if shape == [] then [] else (if shape[0] == 1 then [] else [shape[0]]) + SqueezeAll(shape[1..])
  }

  /** `tf.squeeze(..., axis=k)` of a dimension of size 1. */
  function SqueezeAxis(shape: Shape, axis: nat): (r: Shape)
    requires axis < |shape| && shape[axis] == 1
    ensures |r| == |shape| - 1
    ensures forall i :: 0 <= i < |r| ==> r[i] == (if i < axis then shape[i] else shape[i + 1])
  {
    shape[..axis] + shape[axis + 1..]
  }

  /** Squeezing a concatenation squeezes each part. */
  lemma {:induction false} SqueezeAllAppend(a: Shape, b: Shape)
    ensures SqueezeAll(a + b) == SqueezeAll(a) + SqueezeAll(b)
    decreases |a|
  {
    if a != [] {
      var head := if a[0] == 1 then [] else [a[0]];
      assert (a + b)[0] == a[0] && (a + b)[1..] == a[1..] + b;
      assert SqueezeAll(a + b) == head + SqueezeAll(a[1..] + b);
      SqueezeAllAppend(a[1..], b);
      assert head + (SqueezeAll(a[1..]) + SqueezeAll(b)) == (head + SqueezeAll(a[1..])) + SqueezeAll(b);
    } else {
      assert a + b == b;
    }
  }

  /** A single dimension survives the squeeze exactly when it is not 1. */
  lemma SqueezeAllOne(d: nat)
    ensures SqueezeAll([d]) == if d == 1 then [] else [d]
  {
    assert [d][1..] == [];
  }

  /** The shape `_flip_label_left_right` (lines 113-116) returns, as written: expand, flip, squeeze every unit axis. */
  function FlippedLabelShapeAsWritten(height: nat, width: nat): (s: Shape)
    ensures s == (if height == 1 then [] else [height]) + (if width == 1 then [] else [width])
  {
    SqueezeUnitLast(height, width);
    SqueezeAll([height, width, 1])
  }

  /** The shape intended there: only the channel axis added by `expand_dims` is squeezed again. */
  function FlippedLabelShape(height: nat, width: nat): (s: Shape)
    ensures s == [height, width]
  {
    SqueezeAxis([height, width, 1], 2)
  }

  /** Squeezing [a, b, 1] drops the trailing 1 and each of a and b that is 1. */
  lemma SqueezeUnitLast(a: nat, b: nat)
    ensures SqueezeAll([a, b, 1]) == (if a == 1 then [] else [a]) + (if b == 1 then [] else [b])
  {
    assert [a, b, 1][1..] == [b, 1] && [b, 1][1..] == [1] && [1][1..] == [];
    assert SqueezeAll([1]) == [];
  }

  /** As written, the flipped label keeps its height x width shape exactly when neither is 1. */
  lemma FlippedLabelShapeAsWrittenIff(height: nat, width: nat)
    ensures FlippedLabelShapeAsWritten(height, width) == [height, width] <==> height != 1 && width != 1
  {
    SqueezeUnitLast(height, width);
  }

  /** A one-row training resolution: the flipped label loses its row axis. */
  lemma FlippedLabelShapeOneRow()
    ensures FlippedLabelShapeAsWritten(1, 512) == [512]
  {
    SqueezeUnitLast(1, 512);
  }

  /** The intended squeeze keeps height x width for every size, and the model's label flip has that shape. */
  lemma FlippedLabelShapeKept(g: Label)
    ensures FlippedLabelShape(g.height, g.width) == [g.height, g.width]
    ensures [FlipLeftRight(g).height, FlipLeftRight(g).width] == FlippedLabelShape(g.height, g.width)
  {
    assert [g.height, g.width, 1][..2] == [g.height, g.width];
  }

  // ---------------------------------------------------------------------------
  // Formatting and the dummy box

  /** `_add_dummy_bbox` (lines 203-204): one small box at the origin, inside the unit square. */
  function AddDummyBbox(): (boxes: seq<Box>)
    ensures boxes == [Box(0.0, 0.0, 0.1, 0.1)]
    ensures |boxes| == 1
    ensures 0.0 <= boxes[0].c0 < boxes[0].c2 <= 1.0 && 0.0 <= boxes[0].c1 < boxes[0].c3 <= 1.0
  {
    [Box(0.0, 0.0, 0.1, 0.1)]
  }

  /** `reshape(x, [-1, 1])`: every value its own row. */
  function Column(xs: seq<int>): (col: seq<seq<int>>)
    ensures |col| == |xs|
    ensures forall i :: 0 <= i < |xs| ==> col[i] == [xs[i]]
    ensures Flatten(col) == xs
  {
    if xs == [] then [] else [[xs[0]]] + Column(xs[1..])
  }

  /** Boxes, classes and weights agree in number: true of every decoded example. */
  predicate Consistent(ex: Example) {
    |ex.classes| == |ex.boxes| && |ex.weights| == |ex.boxes|
  }

  /** The shape every formatted example has: N >= 1 boxes, N x 1 classes and weights, count vector [N]. */
  predicate WellFormed(f: Formatted) {
    && |f.boxes| >= 1
    && |f.classes| == |f.boxes| && |f.weights| == |f.boxes|
    && (forall i :: 0 <= i < |f.classes| ==> |f.classes[i]| == 1)
    && (forall i :: 0 <= i < |f.weights| ==> |f.weights[i]| == 1)
    && f.numBoxes == [|f.boxes|]
  }

  /**
   * `_format_inputs` (lines 177-200): an example without boxes gets the dummy
   * box, class -1, weight 0 and count 1; any other keeps its boxes, classes
   * and weights and is counted. Image and label pass untouched.
   */
  function FormatInputs(ex: Example): (f: Formatted)
    ensures f.image == ex.image && f.mask == ex.mask
    ensures |f.boxes| >= 1 && f.numBoxes == [|f.boxes|]
    ensures ex.boxes == [] ==>
      f.boxes == AddDummyBbox() && f.classes == [[-1]] && f.weights == [[0]] && f.numBoxes == [1]
    ensures ex.boxes != [] ==>
      && f.boxes == ex.boxes && f.numBoxes == [|ex.boxes|]
      && |f.classes| == |ex.classes| && Flatten(f.classes) == ex.classes
      && |f.weights| == |ex.weights| && Flatten(f.weights) == ex.weights
      && (forall i :: 0 <= i < |ex.classes| ==> f.classes[i] == [ex.classes[i]])
      && (forall i :: 0 <= i < |ex.weights| ==> f.weights[i] == [ex.weights[i]])
  {
    if |ex.boxes| == 0 then Formatted(ex.image, ex.mask, AddDummyBbox(), Column([-1]), Column([0]), [1])
    else Formatted(ex.image, ex.mask, ex.boxes, Column(ex.classes), Column(ex.weights), [|ex.boxes|])
  }

  /** Formatting a consistent example always produces the batchable shape. */
  lemma FormatInputsWellFormed(ex: Example)
    requires Consistent(ex)
    ensures WellFormed(FormatInputs(ex))
  {
  }
}

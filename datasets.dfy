/**
 * The three datasets (`train_input`, `evaluate_input`, `inference_input`):
 * the file list read line by line, every line mapped through the stages, and
 * the results batched. A line whose stage fails ends the dataset with that
 * error; the items before it are what the dataset yields.
 */
module Datasets {
  import opened Outcomes
  import opened Text
  import opened Resolver
  import opened BoxParser
  import opened Rasters
  import opened Stages

  /** The fields of `params` that the pipeline reads (the seed and the file-list path are left out). */
  datatype Params = Params(datasetDirectory: string, heightInput: nat, widthInput: nat, nb: int, randomFlip: bool)

  /** What iterating a dataset yields: its elements in order, and the error that stopped it, if any. */
  datatype Stream<T> = Stream(items: seq<T>, failure: Option<Error>)

  // ---------------------------------------------------------------------------
  // Mapping the file list

  /**
   * `dataset.map(f)` over the lines from `start` on, where `f` also receives
   * the line's index: the results up to the first error, and that error.
   */
  function MapFrom<T>(lines: seq<string>, start: nat, f: (nat, string) -> Result<T>): (s: Stream<T>)
    requires start <= |lines|
    ensures start + |s.items| <= |lines|
    ensures forall i :: 0 <= i < |s.items| ==> f(start + i, lines[start + i]) == Ok(s.items[i])
    ensures s.failure.None? ==> start + |s.items| == |lines|
    ensures s.failure.Some? ==>
      start + |s.items| < |lines| && f(start + |s.items|, lines[start + |s.items|]) == Err(s.failure.value)
    decreases |lines| - start
  {
    if start == |lines| then Stream([], None)
    else
      match f(start, lines[start])
      case Err(e) => Stream([], Some(e))
      case Ok(x) =>
        var rest := MapFrom(lines, start + 1, f);
        Stream([x] + rest.items, rest.failure)
  }

  function MapLines<T>(lines: seq<string>, f: (nat, string) -> Result<T>): (s: Stream<T>)
    ensures |s.items| <= |lines|
    ensures forall i :: 0 <= i < |s.items| ==> f(i, lines[i]) == Ok(s.items[i])
    ensures s.failure.None? ==> |s.items| == |lines|
    ensures s.failure.Some? ==> |s.items| < |lines| && f(|s.items|, lines[|s.items|]) == Err(s.failure.value)
  {
    MapFrom(lines, 0, f)
  }

  /** When no line fails, the dataset holds one result per line, in order. */
  lemma MapLinesAllOk<T>(lines: seq<string>, f: (nat, string) -> Result<T>)
    requires forall i :: 0 <= i < |lines| ==> f(i, lines[i]).Ok?
    ensures MapLines(lines, f).failure == None
    ensures MapLines(lines, f).items == seq(|lines|, i requires 0 <= i < |lines| => f(i, lines[i]).value)
  {
  }

  /** A failing line ends the dataset there: exactly the lines before it contribute. */
  lemma MapLinesStopsAtFirstFailure<T>(lines: seq<string>, f: (nat, string) -> Result<T>, k: nat)
    requires k < |lines| && f(k, lines[k]).Err?
    requires forall i :: 0 <= i < k ==> f(i, lines[i]).Ok?
    ensures |MapLines(lines, f).items| == k
    ensures MapLines(lines, f).failure == Some(f(k, lines[k]).error)
  {
  }

  // ---------------------------------------------------------------------------
  // Batching

  /** The components of batched examples, each with a leading batch dimension. */
  datatype Batch = Batch(images: seq<Image>, masks: seq<Label>, boxes: seq<seq<Box>>,
                         classes: seq<seq<seq<int>>>, weights: seq<seq<seq<int>>>, numBoxes: seq<seq<int>>)

  /** The value `padded_batch` fills with: zero, shaped like one row of the component. */
  const ZeroBox: Box := Box(0.0, 0.0, 0.0, 0.0)

  /** The longest of the sequences (0 for none): the `None` dimension of a padded shape. */
  function MaxLength<T>(xss: seq<seq<T>>): (m: nat)
    ensures forall k :: 0 <= k < |xss| ==> |xss[k]| <= m
    ensures xss == [] ==> m == 0
    ensures xss != [] ==> exists k :: 0 <= k < |xss| && |xss[k]| == m
  {
    if xss == [] then 0
    else
      var rest := MaxLength(xss[1..]);
      assert forall k :: 1 <= k < |xss| ==> xss[k] == xss[1..][k - 1];
      if |xss[0]| >= rest then |xss[0]| else rest
  }

  /** s extended with `fill` to length n. */
  function PadTo<T>(s: seq<T>, n: nat, fill: T): (r: seq<T>)
    requires |s| <= n
    ensures |r| == n
    ensures forall i :: 0 <= i < |s| ==> r[i] == s[i]
    ensures forall i :: |s| <= i < n ==> r[i] == fill
  {
    if n == |s| then s else PadTo(s, n - 1, fill) + [fill]
  }

  /** Every row padded to length m. */
  function PadRows<T>(xss: seq<seq<T>>, m: nat, fill: T): (r: seq<seq<T>>)
    requires forall k :: 0 <= k < |xss| ==> |xss[k]| <= m
    ensures |r| == |xss|
    ensures forall k :: 0 <= k < |xss| ==> r[k] == PadTo(xss[k], m, fill)
  {
    if xss == [] then [] else [PadTo(xss[0], m, fill)] + PadRows(xss[1..], m, fill)
  }

  /** Every sequence padded to the longest one. */
  function PadAll<T>(xss: seq<seq<T>>, fill: T): (r: seq<seq<T>>)
    ensures |r| == |xss|
    ensures forall k :: 0 <= k < |xss| ==> |xss[k]| <= MaxLength(xss) && r[k] == PadTo(xss[k], MaxLength(xss), fill)
  {
    PadRows(xss, MaxLength(xss), fill)
  }

  function BoxesOf(xs: seq<Formatted>): (r: seq<seq<Box>>)
    ensures |r| == |xs| && forall k :: 0 <= k < |xs| ==> r[k] == xs[k].boxes
  {
    seq(|xs|, k requires 0 <= k < |xs| => xs[k].boxes)
  }

  function ClassesOf(xs: seq<Formatted>): (r: seq<seq<seq<int>>>)
    ensures |r| == |xs| && forall k :: 0 <= k < |xs| ==> r[k] == xs[k].classes
  {
    seq(|xs|, k requires 0 <= k < |xs| => xs[k].classes)
  }

  function WeightsOf(xs: seq<Formatted>): (r: seq<seq<seq<int>>>)
    ensures |r| == |xs| && forall k :: 0 <= k < |xs| ==> r[k] == xs[k].weights
  {
    seq(|xs|, k requires 0 <= k < |xs| => xs[k].weights)
  }

  /** `dataset.batch`: the components stacked, no padding (every element must already agree in shape). */
  function Stack(xs: seq<Formatted>): (b: Batch)
    ensures |b.images| == |xs| && |b.masks| == |xs| && |b.boxes| == |xs|
    ensures |b.classes| == |xs| && |b.weights| == |xs| && |b.numBoxes| == |xs|
    ensures forall k :: 0 <= k < |xs| ==>
      b.images[k] == xs[k].image && b.masks[k] == xs[k].mask && b.boxes[k] == xs[k].boxes
      && b.classes[k] == xs[k].classes && b.weights[k] == xs[k].weights && b.numBoxes[k] == xs[k].numBoxes
  {
    Batch(seq(|xs|, k requires 0 <= k < |xs| => xs[k].image),
          seq(|xs|, k requires 0 <= k < |xs| => xs[k].mask),
          BoxesOf(xs), ClassesOf(xs), WeightsOf(xs),
          seq(|xs|, k requires 0 <= k < |xs| => xs[k].numBoxes))
  }

  /**
   * `padded_batch` with the shapes of lines 244-249: boxes, classes and
   * weights each padded with zeros to the longest in the batch; images,
   * masks and the count vectors stacked as they are.
   */
  function PaddedBatch(xs: seq<Formatted>): (b: Batch)
    ensures |b.images| == |xs| && |b.masks| == |xs| && |b.boxes| == |xs|
    ensures |b.classes| == |xs| && |b.weights| == |xs| && |b.numBoxes| == |xs|
    ensures forall k :: 0 <= k < |xs| ==>
      b.images[k] == xs[k].image && b.masks[k] == xs[k].mask && b.numBoxes[k] == xs[k].numBoxes
    ensures forall k :: 0 <= k < |xs| ==>
      |xs[k].boxes| <= MaxLength(BoxesOf(xs)) && b.boxes[k] == PadTo(xs[k].boxes, MaxLength(BoxesOf(xs)), ZeroBox)
    ensures forall k :: 0 <= k < |xs| ==>
      |xs[k].classes| <= MaxLength(ClassesOf(xs)) && b.classes[k] == PadTo(xs[k].classes, MaxLength(ClassesOf(xs)), [0])
    ensures forall k :: 0 <= k < |xs| ==>
      |xs[k].weights| <= MaxLength(WeightsOf(xs)) && b.weights[k] == PadTo(xs[k].weights, MaxLength(WeightsOf(xs)), [0])
  {
    var s := Stack(xs);
    Batch(s.images, s.masks, PadAll(BoxesOf(xs), ZeroBox), PadAll(ClassesOf(xs), [0]),
          PadAll(WeightsOf(xs), [0]), s.numBoxes)
  }

  /**
   * In a batch of well-formed examples boxes, classes and weights are padded
   * to the same length, the largest box count in the batch, so row i of the
   * three still describes one box.
   */
  lemma PaddedBatchAligned(xs: seq<Formatted>)
    requires forall k :: 0 <= k < |xs| ==> WellFormed(xs[k])
    ensures MaxLength(ClassesOf(xs)) == MaxLength(BoxesOf(xs))
    ensures MaxLength(WeightsOf(xs)) == MaxLength(BoxesOf(xs))
  {
    MaxLengthSame(BoxesOf(xs), ClassesOf(xs));
    MaxLengthSame(BoxesOf(xs), WeightsOf(xs));
  }

  lemma {:induction false} MaxLengthSame<T, U>(a: seq<seq<T>>, b: seq<seq<U>>)
    requires |a| == |b| && forall k :: 0 <= k < |a| ==> |a[k]| == |b[k]|
    ensures MaxLength(a) == MaxLength(b)
  {
    if a != [] {
      MaxLengthSame(a[1..], b[1..]);
    }
  }

  /** A padded batch of one example needs no padding: it is the plain batch. */
  lemma PaddedSingleton(x: Formatted)
    ensures PaddedBatch([x]) == Stack([x])
  {
    var p := PaddedBatch([x]);
    assert MaxLength(BoxesOf([x])) == |x.boxes|;
    assert MaxLength(ClassesOf([x])) == |x.classes|;
    assert MaxLength(WeightsOf([x])) == |x.weights|;
    assert p.boxes[0] == x.boxes;
    assert p.classes[0] == x.classes;
    assert p.weights[0] == x.weights;
  }

  /** Padding a group of one changes nothing. */
  lemma PaddedSingletons()
    ensures forall xs: seq<Formatted> :: |xs| == 1 ==> PaddedBatch(xs) == Stack(xs)
  {
    forall xs: seq<Formatted> | |xs| == 1 ensures PaddedBatch(xs) == Stack(xs) {
      assert xs == [xs[0]];
      PaddedSingleton(xs[0]);
    }
  }

  /** The index of the first element of batch j when batches hold n elements. */
  function Start(j: nat, n: nat): nat {
    if j == 0 then 0 else Start(j - 1, n) + n
  }

  /** Batch j starts j times n elements in. */
  lemma {:induction false} StartIsProduct(j: nat, n: nat)
    ensures Start(j, n) == j * n
  {
    if j > 0 {
      StartIsProduct(j - 1, n);
    }
  }

  /**
   * Consecutive groups of n, the last incomplete group dropped
   * (`padded_batch_and_drop_remainder`): as many groups as fit, and no more.
   */
  function Chunks<T>(xs: seq<T>, n: nat): (r: seq<seq<T>>)
    requires n > 0
    ensures Start(|r|, n) <= |xs| < Start(|r|, n) + n
    decreases |xs|
  {
    if |xs| < n then [] else [xs[..n]] + Chunks(xs[n..], n)
  }

  /** Group j holds elements j * n up to (j + 1) * n, in their order. */
  lemma {:induction false} ChunkAt<T>(xs: seq<T>, n: nat, j: nat)
    requires n > 0 && j < |Chunks(xs, n)|
    ensures Start(j, n) + n <= |xs| && Chunks(xs, n)[j] == xs[Start(j, n)..Start(j, n) + n]
    decreases j
  {
    if j > 0 {
      var rest := xs[n..];
      ChunkAt(rest, n, j - 1);
      assert Chunks(xs, n)[j] == Chunks(rest, n)[j - 1];
      assert Start(j, n) == Start(j - 1, n) + n;
    }
  }

  lemma ChunksAll<T>(xs: seq<T>, n: nat)
    requires n > 0
    ensures forall j :: 0 <= j < |Chunks(xs, n)| ==>
      Start(j, n) + n <= |xs| && Chunks(xs, n)[j] == xs[Start(j, n)..Start(j, n) + n]
  {
    forall j | 0 <= j < |Chunks(xs, n)|
      ensures Start(j, n) + n <= |xs| && Chunks(xs, n)[j] == xs[Start(j, n)..Start(j, n) + n]
    {
      ChunkAt(xs, n, j);
    }
  }

  /** The number of batches is the number of elements divided by n, rounded down. */
  lemma ChunksCount<T>(xs: seq<T>, n: nat)
    requires n > 0
    ensures |Chunks(xs, n)| == |xs| / n
  {
    var c := |Chunks(xs, n)|;
    StartIsProduct(c, n);
    DivUnique(|xs|, n, c);
  }

  /** q is x / n whenever q * n <= x < q * n + n. */
  lemma DivUnique(x: nat, n: nat, q: nat)
    requires n > 0 && q * n <= x < q * n + n
    ensures x / n == q
  {
    var k := x / n;
    assert x == k * n + x % n;
    if k < q {
      MulMono(k + 1, q, n);
    } else if k > q {
      MulMono(q + 1, k, n);
    }
  }

  lemma MulMono(a: nat, b: nat, n: nat)
    requires a <= b
    ensures a * n <= b * n
  {
  }

  // ---------------------------------------------------------------------------
  // Training

  /**
   * One line of `train_input` (lines 222-232): decoded, resized, flipped by
   * its draw, formatted. What the example then holds is `TrainExampleContent`.
   */
  function TrainExample(line: string, p: Params, files: Files, lib: Library, draw: real): (r: Result<Formatted>)
    ensures ParseAndDecode(line, p.datasetDirectory, files, lib.boxUtils).Err? ==>
      r == Err(ParseAndDecode(line, p.datasetDirectory, files, lib.boxUtils).error)
    ensures r.Ok? <==>
      && ParseAndDecode(line, p.datasetDirectory, files, lib.boxUtils).Ok?
      && ResizeImages(ParseAndDecode(line, p.datasetDirectory, files, lib.boxUtils).value,
                      p.heightInput, p.widthInput, lib).Ok?
    ensures r.Ok? ==> WellFormed(r.value) && r.value.mask.height == p.heightInput && r.value.mask.width == p.widthInput
  {
    var ex :- ParseAndDecode(line, p.datasetDirectory, files, lib.boxUtils);
    var resized :- ResizeImages(ex, p.heightInput, p.widthInput, lib);
    var pre := PreprocessImages(resized, p.randomFlip, draw, lib.boxUtils);
    FormatInputsWellFormed(pre);
    Ok(FormatInputs(pre))
  }

  /**
   * A training example is its decoded example resized, flipped as a whole
   * when the draw says so, and given the dummy box when it has none; the
   * mask is the nearest-neighbour resize of the decoded mask, flipped by the
   * same draw, and holds no id the decoded mask did not.
   */
  lemma TrainExampleContent(line: string, p: Params, files: Files, lib: Library, draw: real)
    requires TrainExample(line, p, files, lib, draw).Ok?
    ensures
      var r := TrainExample(line, p, files, lib, draw).value;
      var ex := ParseAndDecode(line, p.datasetDirectory, files, lib.boxUtils).value;
      var resized := lib.resizeBilinear(ex.image, p.heightInput, p.widthInput);
      var flip := FlipDrawn(p.randomFlip, draw);
      && ex.mask.height > 0 && ex.mask.width > 0
      && var m := ResizeNearest(ex.mask, p.heightInput, p.widthInput);
      && r.mask == (if flip then FlipLeftRight(m) else m)
      && Ids(r.mask) <= Ids(ex.mask)
      && r.image == (if flip then FlipImage(resized) else resized)
      && (ex.boxes == [] ==> r.boxes == AddDummyBbox() && r.classes == [[-1]] && r.weights == [[0]] && r.numBoxes == [1])
      && (ex.boxes != [] ==>
            && r.boxes == (if flip then FlipBoxes(ex.boxes, lib.boxUtils) else ex.boxes)
            && Flatten(r.classes) == ex.classes && Flatten(r.weights) == ex.weights
            && r.numBoxes == [|ex.boxes|])
  {
    var ex := ParseAndDecode(line, p.datasetDirectory, files, lib.boxUtils).value;
    var resized := ResizeImages(ex, p.heightInput, p.widthInput, lib).value;
    FlipKeepsIds(resized.mask);
  }

  /** The image shape declared at lines 130 and 155 and fixed by `padded_batch` at line 244. */
  predicate ImageSized(im: Image, height: nat, width: nat) {
    im.pixels.height == height && im.pixels.width == width && im.channels == 3
  }

  /** With a size-respecting resize and an RGB-or-greyscale decoder, a training image is H x W x 3. */
  lemma TrainExampleImageSized(line: string, p: Params, files: Files, lib: Library, draw: real)
    requires ResizesToSize(lib) && RgbDecodes(files)
    requires TrainExample(line, p, files, lib, draw).Ok?
    ensures ImageSized(TrainExample(line, p, files, lib, draw).value.image, p.heightInput, p.widthInput)
  {
    TrainExampleContent(line, p, files, lib, draw);
    DecodedImageIsRgb(files.images[ImagePath(p.datasetDirectory, line)]);
  }

  /** `batch` applied to every n consecutive elements, the remainder dropped; the failure passes through. */
  function Batched<T, U>(s: Stream<T>, n: nat, batch: seq<T> -> U): (r: Stream<U>)
    requires n > 0
    ensures r.failure == s.failure
    ensures Start(|r.items|, n) <= |s.items| < Start(|r.items|, n) + n
    ensures forall j :: 0 <= j < |r.items| ==>
      Start(j, n) + n <= |s.items| && r.items[j] == batch(s.items[Start(j, n)..Start(j, n) + n])
  {
    var groups := Chunks(s.items, n);
    ChunksAll(s.items, n);
    Stream(seq(|groups|, j requires 0 <= j < |groups| => batch(groups[j])), s.failure)
  }

  /** The training stage as the element function of the line map. */
  function TrainElement(p: Params, files: Files, lib: Library, draws: nat -> real): (f: (nat, string) -> Result<Formatted>)
    ensures forall i, line :: f(i, line) == TrainExample(line, p, files, lib, draws(i))
  {
    (i: nat, line: string) => TrainExample(line, p, files, lib, draws(i))
  }

  /** The examples of one training epoch, before batching. */
  function TrainExamples(p: Params, lines: seq<string>, files: Files, lib: Library, draws: nat -> real)
    : (s: Stream<Formatted>)
    ensures |s.items| <= |lines|
    ensures forall i :: 0 <= i < |s.items| ==> TrainExample(lines[i], p, files, lib, draws(i)) == Ok(s.items[i])
    ensures s.failure.None? ==> |s.items| == |lines|
    ensures s.failure.Some? ==> (|s.items| < |lines| &&
      TrainExample(lines[|s.items|], p, files, lib, draws(|s.items|)) == Err(s.failure.value))
  {
    MapLines(lines, TrainElement(p, files, lib, draws))
  }

  /**
   * One epoch of `train_input` (lines 207-254), with `draws(i)` the uniform
   * value drawn for line i: the examples grouped into padded batches of Nb,
   * the last incomplete batch dropped. A batch size below 1 is refused.
   */
  function TrainInput(p: Params, lines: seq<string>, files: Files, lib: Library, draws: nat -> real)
    : (r: Result<Stream<Batch>>)
    ensures r.Ok? <==> p.nb > 0
    ensures r.Err? ==> r.error == InvalidBatchSize
    ensures r.Ok? ==> r.value == Batched(TrainExamples(p, lines, files, lib, draws), p.nb, PaddedBatch)
  {
    if p.nb <= 0 then Err(InvalidBatchSize)
    else Ok(Batched(TrainExamples(p, lines, files, lib, draws), p.nb, PaddedBatch))
  }

  /**
   * A padded batch of well-formed height x width examples: masks keep the
   * shape, rows stay aligned, and every example's count is its own number of
   * boxes, at least one and at most the padded length.
   */
  lemma PaddedBatchShaped(xs: seq<Formatted>, height: nat, width: nat)
    requires forall k :: 0 <= k < |xs| ==> WellFormed(xs[k])
    requires forall k :: 0 <= k < |xs| ==> xs[k].mask.height == height && xs[k].mask.width == width
    ensures |PaddedBatch(xs).images| == |xs|
    ensures forall k :: 0 <= k < |xs| ==>
      PaddedBatch(xs).masks[k].height == height && PaddedBatch(xs).masks[k].width == width
    ensures forall k :: 0 <= k < |xs| ==>
      |PaddedBatch(xs).classes[k]| == |PaddedBatch(xs).boxes[k]| && |PaddedBatch(xs).weights[k]| == |PaddedBatch(xs).boxes[k]|
    ensures forall k :: 0 <= k < |xs| ==>
      PaddedBatch(xs).numBoxes[k] == [|xs[k].boxes|] && 1 <= |xs[k].boxes| <= |PaddedBatch(xs).boxes[k]|
    ensures BatchShaped(PaddedBatch(xs), |xs|, height, width)
  {
    PaddedBatchAligned(xs);
  }

  /**
   * The padded box dimension of a batch of well-formed examples is the
   * largest box count in it: no example has more, and some example has
   * exactly that many.
   */
  lemma PaddedToLargestCount(xs: seq<Formatted>)
    requires xs != [] && forall k :: 0 <= k < |xs| ==> WellFormed(xs[k])
    ensures forall k :: 0 <= k < |xs| ==> |PaddedBatch(xs).boxes[k]| == MaxLength(BoxesOf(xs))
    ensures forall k :: 0 <= k < |xs| ==> |xs[k].boxes| <= MaxLength(BoxesOf(xs))
    ensures exists k :: 0 <= k < |xs| && xs[k].numBoxes == [MaxLength(BoxesOf(xs))]
  {
    var m := MaxLength(BoxesOf(xs));
    var k :| 0 <= k < |xs| && |BoxesOf(xs)[k]| == m;
    assert xs[k].numBoxes == [m];
  }

  /**
   * The shape a training batch promises: `size` examples, height x width
   * masks, boxes, classes and weights padded alike, and a count vector [N]
   * per example with 1 <= N <= the padded length.
   */
  predicate BatchShaped(b: Batch, size: nat, height: nat, width: nat) {
    && |b.images| == size && |b.masks| == size && |b.boxes| == size
    && |b.classes| == size && |b.weights| == size && |b.numBoxes| == size
    && (forall k :: 0 <= k < size ==> b.masks[k].height == height && b.masks[k].width == width)
    && (forall k :: 0 <= k < size ==> |b.classes[k]| == |b.boxes[k]| && |b.weights[k]| == |b.boxes[k]|)
    && (forall k :: 0 <= k < size ==> |b.numBoxes[k]| == 1 && 1 <= b.numBoxes[k][0] <= |b.boxes[k]|)
  }

  /**
   * Every training batch holds Nb examples with height x width masks, and
   * its boxes, classes and weights are padded alike to its largest box count.
   */
  lemma TrainBatchesShaped(p: Params, lines: seq<string>, files: Files, lib: Library, draws: nat -> real, j: nat)
    requires p.nb > 0
    requires j < |TrainInput(p, lines, files, lib, draws).value.items|
    ensures BatchShaped(TrainInput(p, lines, files, lib, draws).value.items[j], p.nb, p.heightInput, p.widthInput)
  {
    var s := TrainExamples(p, lines, files, lib, draws);
    TrainExamplesShaped(p, lines, files, lib, draws);
    BatchedShaped(s, p.nb, p.heightInput, p.widthInput, j);
  }

  /** Padded batches of well-formed height x width examples are shaped batches of n. */
  lemma BatchedShaped(s: Stream<Formatted>, n: nat, height: nat, width: nat, j: nat)
    requires n > 0 && j < |Batched(s, n, PaddedBatch).items|
    requires forall i :: 0 <= i < |s.items| ==>
      WellFormed(s.items[i]) && s.items[i].mask.height == height && s.items[i].mask.width == width
    ensures BatchShaped(Batched(s, n, PaddedBatch).items[j], n, height, width)
  {
    var good, shaped := Fits(height, width), ShapedBatch(n, height, width);
    assert forall i :: 0 <= i < |s.items| ==> good(s.items[i]);
    PaddedBatchesShaped(n, height, width);
    BatchedAll(s, n, PaddedBatch, good, shaped, j);
  }

  /** The test of a well-formed example with a height x width mask. */
  function Fits(height: nat, width: nat): (good: Formatted -> bool)
    ensures forall x :: good(x) == (WellFormed(x) && x.mask.height == height && x.mask.width == width)
  {
    x => WellFormed(x) && x.mask.height == height && x.mask.width == width
  }

  /** The test of a shaped batch of n. */
  function ShapedBatch(n: nat, height: nat, width: nat): (ok: Batch -> bool)
    ensures forall b :: ok(b) == BatchShaped(b, n, height, width)
  {
    b => BatchShaped(b, n, height, width)
  }

  lemma PaddedBatchesShaped(n: nat, height: nat, width: nat)
    ensures forall xs: seq<Formatted> ::
      (|xs| == n && (forall k :: 0 <= k < n ==> Fits(height, width)(xs[k]))) ==> ShapedBatch(n, height, width)(PaddedBatch(xs))
  {
    forall xs: seq<Formatted> | |xs| == n && forall k :: 0 <= k < n ==> Fits(height, width)(xs[k])
      ensures ShapedBatch(n, height, width)(PaddedBatch(xs))
    {
      PaddedBatchShaped(xs, height, width);
    }
  }

  /** When every element is good and `batch` makes every full group of good elements ok, every batch is ok. */
  lemma BatchedAll<T, U>(s: Stream<T>, n: nat, batch: seq<T> -> U, good: T -> bool, ok: U -> bool, j: nat)
    requires n > 0 && j < |Batched(s, n, batch).items|
    requires forall i :: 0 <= i < |s.items| ==> good(s.items[i])
    requires forall xs: seq<T> :: |xs| == n && (forall k :: 0 <= k < n ==> good(xs[k])) ==> ok(batch(xs))
    ensures ok(Batched(s, n, batch).items[j])
  {
    var lo := Start(j, n);
    BatchedAtAny(s, n, batch, j);
    var xs := s.items[lo..lo + n];
    assert forall k :: 0 <= k < n ==> good(xs[k]) by {
      forall k | 0 <= k < n ensures good(xs[k]) {
        assert xs[k] == s.items[lo + k];
      }
    }
  }

  /** Batching by n yields the number of elements divided by n, rounded down. */
  lemma BatchedCount<T, U>(s: Stream<T>, n: nat, batch: seq<T> -> U)
    requires n > 0
    ensures |Batched(s, n, batch).items| == |s.items| / n
  {
    ChunksCount(s.items, n);
  }

  /** Batch j of any batching function is that function applied to the j-th slice of n elements. */
  lemma BatchedAtAny<T, U>(s: Stream<T>, n: nat, batch: seq<T> -> U, j: nat)
    requires n > 0 && j < |Batched(s, n, batch).items|
    ensures Start(j, n) + n <= |s.items|
    ensures Batched(s, n, batch).items[j] == batch(s.items[Start(j, n)..Start(j, n) + n])
  {
  }

  /** Every training example is well formed and has a height x width mask. */
  lemma TrainExamplesShaped(p: Params, lines: seq<string>, files: Files, lib: Library, draws: nat -> real)
    ensures var xs := TrainExamples(p, lines, files, lib, draws).items;
      forall i :: 0 <= i < |xs| ==>
        WellFormed(xs[i]) && xs[i].mask.height == p.heightInput && xs[i].mask.width == p.widthInput
  {
    var xs := TrainExamples(p, lines, files, lib, draws).items;
    forall i | 0 <= i < |xs|
      ensures WellFormed(xs[i]) && xs[i].mask.height == p.heightInput && xs[i].mask.width == p.widthInput
    {
      assert TrainExample(lines[i], p, files, lib, draws(i)) == Ok(xs[i]);
    }
  }
  /** Every training image has the shape that `padded_shapes` fixes at line 244. */
  lemma TrainImagesSized(p: Params, lines: seq<string>, files: Files, lib: Library, draws: nat -> real)
    requires ResizesToSize(lib) && RgbDecodes(files)
    ensures var xs := TrainExamples(p, lines, files, lib, draws).items;
      forall i :: 0 <= i < |xs| ==> ImageSized(xs[i].image, p.heightInput, p.widthInput)
  {
    var xs := TrainExamples(p, lines, files, lib, draws).items;
    forall i | 0 <= i < |xs| ensures ImageSized(xs[i].image, p.heightInput, p.widthInput) {
      assert TrainExample(lines[i], p, files, lib, draws(i)) == Ok(xs[i]);
      TrainExampleImageSized(lines[i], p, files, lib, draws(i));
    }
  }

  function ImageFits(height: nat, width: nat): (good: Formatted -> bool)
    ensures forall x :: good(x) == ImageSized(x.image, height, width)
  {
    (x: Formatted) => ImageSized(x.image, height, width)
  }

  function ImagesSized(n: nat, height: nat, width: nat): (ok: Batch -> bool)
    ensures forall b :: ok(b) == (|b.images| == n && forall k :: 0 <= k < n ==> ImageSized(b.images[k], height, width))
  {
    (b: Batch) => |b.images| == n && forall k :: 0 <= k < n ==> ImageSized(b.images[k], height, width)
  }

  lemma PaddedBatchesImagesSized(n: nat, height: nat, width: nat)
    ensures forall xs: seq<Formatted> ::
      (|xs| == n && (forall k :: 0 <= k < n ==> ImageFits(height, width)(xs[k]))) ==> ImagesSized(n, height, width)(PaddedBatch(xs))
  {
    forall xs: seq<Formatted> | |xs| == n && forall k :: 0 <= k < n ==> ImageFits(height, width)(xs[k])
      ensures ImagesSized(n, height, width)(PaddedBatch(xs))
    {
      assert forall k :: 0 <= k < n ==> PaddedBatch(xs).images[k] == xs[k].image;
    }
  }

  /** Every image of a training batch is H x W x 3, so stacking them matches the padded image shape. */
  lemma TrainBatchImagesSized(p: Params, lines: seq<string>, files: Files, lib: Library, draws: nat -> real, j: nat)
    requires p.nb > 0 && ResizesToSize(lib) && RgbDecodes(files)
    requires j < |TrainInput(p, lines, files, lib, draws).value.items|
    ensures var b := TrainInput(p, lines, files, lib, draws).value.items[j];
      |b.images| == p.nb && forall k :: 0 <= k < p.nb ==> ImageSized(b.images[k], p.heightInput, p.widthInput)
  {
    TrainImagesSized(p, lines, files, lib, draws);
    BatchedImagesSized(TrainExamples(p, lines, files, lib, draws), p.nb, p.heightInput, p.widthInput, j);
  }

  /** Padded batches of H x W x 3 images hold H x W x 3 images. */
  lemma BatchedImagesSized(s: Stream<Formatted>, n: nat, height: nat, width: nat, j: nat)
    requires n > 0 && j < |Batched(s, n, PaddedBatch).items|
    requires forall i :: 0 <= i < |s.items| ==> ImageSized(s.items[i].image, height, width)
    ensures ImagesSized(n, height, width)(Batched(s, n, PaddedBatch).items[j])
  {
    var good, sized := ImageFits(height, width), ImagesSized(n, height, width);
    assert forall i :: 0 <= i < |s.items| ==> good(s.items[i]);
    PaddedBatchesImagesSized(n, height, width);
    BatchedAll(s, n, PaddedBatch, good, sized, j);
  }


  // ---------------------------------------------------------------------------
  // Evaluation

  /** One line of `evaluate_input` (lines 271-278): decoded, resized, formatted; never flipped. */
  function EvaluateExample(line: string, p: Params, files: Files, lib: Library): (r: Result<Formatted>)
    ensures forall draw: real :: r == TrainExample(line, p.(randomFlip := false), files, lib, draw)
  {
    var ex :- ParseAndDecode(line, p.datasetDirectory, files, lib.boxUtils);
    var resized :- ResizeImages(ex, p.heightInput, p.widthInput, lib);
    Ok(FormatInputs(resized))
  }

  function EvaluateElement(p: Params, files: Files, lib: Library): (f: (nat, string) -> Result<Formatted>)
    ensures forall i, line :: f(i, line) == EvaluateExample(line, p, files, lib)
  {
    (i: nat, line: string) => EvaluateExample(line, p, files, lib)
  }

  /** The examples of `evaluate_input`, before batching. */
  function EvaluateExamples(p: Params, lines: seq<string>, files: Files, lib: Library): (s: Stream<Formatted>)
    ensures |s.items| <= |lines|
    ensures forall i :: 0 <= i < |s.items| ==> EvaluateExample(lines[i], p, files, lib) == Ok(s.items[i])
    ensures s.failure.None? ==> |s.items| == |lines|
    ensures s.failure.Some? ==> (|s.items| < |lines| &&
      EvaluateExample(lines[|s.items|], p, files, lib) == Err(s.failure.value))
  {
    MapLines(lines, EvaluateElement(p, files, lib))
  }

  /** `evaluate_input` (lines 256-288): `batch(1)`, one unpadded batch of one per example. */
  function EvaluateInput(p: Params, lines: seq<string>, files: Files, lib: Library): (r: Stream<Batch>)
    ensures r.failure == EvaluateExamples(p, lines, files, lib).failure
    ensures |r.items| == |EvaluateExamples(p, lines, files, lib).items|
    ensures forall j :: 0 <= j < |r.items| ==> r.items[j] == Stack([EvaluateExamples(p, lines, files, lib).items[j]])
  {
    var examples := EvaluateExamples(p, lines, files, lib);
    BatchedOnes(examples, Stack, (x: Formatted) => Stack([x]));
    Batched(examples, 1, Stack)
  }

  /** Two element functions that agree on every line map the file list alike. */
  lemma {:induction false} MapSame<T>(lines: seq<string>, start: nat, f: (nat, string) -> Result<T>, g: (nat, string) -> Result<T>)
    requires start <= |lines|
    requires forall i :: start <= i < |lines| ==> f(i, lines[i]) == g(i, lines[i])
    ensures MapFrom(lines, start, f) == MapFrom(lines, start, g)
    decreases |lines| - start
  {
    if start < |lines| {
      MapSame(lines, start + 1, f, g);
    }
  }

  /** Without the flip, training examples are evaluation examples whatever the draws and the batch size. */
  lemma TrainExamplesUnflipped(p: Params, lines: seq<string>, files: Files, lib: Library, draws: nat -> real)
    ensures TrainExamples(p.(randomFlip := false, nb := 1), lines, files, lib, draws) == EvaluateExamples(p, lines, files, lib)
  {
    var q := p.(randomFlip := false, nb := 1);
    var f, g := TrainElement(q, files, lib, draws), EvaluateElement(p, files, lib);
    forall i | 0 <= i < |lines| ensures f(i, lines[i]) == g(i, lines[i]) {
      assert EvaluateExample(lines[i], p, files, lib) == TrainExample(lines[i], q, files, lib, draws(i));
    }
    MapSame(lines, 0, f, g);
  }

  lemma {:induction false} StartOne(j: nat)
    ensures Start(j, 1) == j
  {
    if j > 0 {
      StartOne(j - 1);
    }
  }

  /** Batches of one are the batching function applied to each element alone. */
  lemma BatchedOnes<T, U>(s: Stream<T>, batch: seq<T> -> U, single: T -> U)
    requires forall x :: batch([x]) == single(x)
    ensures |Batched(s, 1, batch).items| == |s.items|
    ensures forall j :: 0 <= j < |s.items| ==> Batched(s, 1, batch).items[j] == single(s.items[j])
  {
    var t := Batched(s, 1, batch);
    StartOne(|t.items|);
    forall j | 0 <= j < |s.items| ensures t.items[j] == single(s.items[j]) {
      StartOne(j);
      BatchedAtAny(s, 1, batch, j);
      assert s.items[j..j + 1] == [s.items[j]];
    }
  }

  /**
   * Evaluation is training with the flip switched off and a batch size of
   * one: the same batches, in the same order, stopped by the same error.
   */
  lemma EvaluateIsUnflippedTraining(p: Params, lines: seq<string>, files: Files, lib: Library, draws: nat -> real)
    ensures TrainInput(p.(randomFlip := false, nb := 1), lines, files, lib, draws)
         == Ok(EvaluateInput(p, lines, files, lib))
  {
    TrainExamplesUnflipped(p, lines, files, lib, draws);
    PaddedSingletons();
    BatchedSame(EvaluateExamples(p, lines, files, lib), 1, PaddedBatch, Stack);
  }

  /** Two batching functions that agree on every full group batch a stream alike. */
  lemma BatchedSame<T, U>(s: Stream<T>, n: nat, f: seq<T> -> U, g: seq<T> -> U)
    requires n > 0
    requires forall xs: seq<T> :: |xs| == n ==> f(xs) == g(xs)
    ensures Batched(s, n, f) == Batched(s, n, g)
  {
    var a, b := Batched(s, n, f), Batched(s, n, g);
    assert |a.items| == |b.items| == |Chunks(s.items, n)|;
    forall j | 0 <= j < |a.items| ensures a.items[j] == b.items[j] {
      BatchedAtAny(s, n, f, j);
      BatchedAtAny(s, n, g, j);
    }
  }

  // ---------------------------------------------------------------------------
  // Inference

  /** Batched inference examples: normalised images, their paths, and the images as decoded. */
  datatype InferenceBatch = InferenceBatch(images: seq<Image>, filenames: seq<string>, raws: seq<Image>)

  /** One line of `inference_input` (lines 305-310): the image decoded and resized; no annotation is read. */
  function InferenceExampleOf(line: string, p: Params, files: Files, lib: Library): (r: Result<InferenceExample>)
    ensures r.Ok? <==>
      && ImagePath(p.datasetDirectory, line) in files.images
      && p.heightInput > 0 && p.widthInput > 0
      && files.images[ImagePath(p.datasetDirectory, line)].pixels.height > 0
      && files.images[ImagePath(p.datasetDirectory, line)].pixels.width > 0
    ensures r.Ok? ==>
      var raw := files.images[ImagePath(p.datasetDirectory, line)];
      && r.value.filename == ImagePath(p.datasetDirectory, line)
      && r.value.raw == raw
      && r.value.image == lib.resizeBilinear(GreyscaleToRgb(raw), p.heightInput, p.widthInput)
  {
    var ex :- ParseAndDecodeInference(line, p.datasetDirectory, files);
    ResizeImagesInference(ex, p.heightInput, p.widthInput, lib)
  }
  /** An inference image has the shape `set_shape` declares at line 173. */
  lemma InferenceImageSized(line: string, p: Params, files: Files, lib: Library)
    requires ResizesToSize(lib) && RgbDecodes(files)
    requires InferenceExampleOf(line, p, files, lib).Ok?
    ensures ImageSized(InferenceExampleOf(line, p, files, lib).value.image, p.heightInput, p.widthInput)
  {
    DecodedImageIsRgb(files.images[ImagePath(p.datasetDirectory, line)]);
  }


  function InferenceElement(p: Params, files: Files, lib: Library): (f: (nat, string) -> Result<InferenceExample>)
    ensures forall i, line :: f(i, line) == InferenceExampleOf(line, p, files, lib)
  {
    (i: nat, line: string) => InferenceExampleOf(line, p, files, lib)
  }

  /** The examples of `inference_input`, before batching. */
  function InferenceExamples(p: Params, lines: seq<string>, files: Files, lib: Library): (s: Stream<InferenceExample>)
    ensures |s.items| <= |lines|
    ensures forall i :: 0 <= i < |s.items| ==> InferenceExampleOf(lines[i], p, files, lib) == Ok(s.items[i])
    ensures s.failure.None? ==> |s.items| == |lines|
    ensures s.failure.Some? ==> (|s.items| < |lines| &&
      InferenceExampleOf(lines[|s.items|], p, files, lib) == Err(s.failure.value))
  {
    MapLines(lines, InferenceElement(p, files, lib))
  }

  /** `inference_input` (lines 290-315): one batch of one per line. */
  function InferenceInput(p: Params, lines: seq<string>, files: Files, lib: Library): (r: Stream<InferenceBatch>)
    ensures r.failure == InferenceExamples(p, lines, files, lib).failure
    ensures |r.items| == |InferenceExamples(p, lines, files, lib).items|
    ensures forall j :: 0 <= j < |r.items| ==>
      var x := InferenceExamples(p, lines, files, lib).items[j];
      r.items[j] == InferenceBatch([x.image], [x.filename], [x.raw])
  {
    var examples := InferenceExamples(p, lines, files, lib);
    Stream(seq(|examples.items|, j requires 0 <= j < |examples.items| =>
             var x := examples.items[j]; InferenceBatch([x.image], [x.filename], [x.raw])),
           examples.failure)
  }

  /** Inference reads only images: label masks and box files make no difference to it. */
  lemma InferenceIgnoresAnnotations(p: Params, lines: seq<string>, files: Files, other: Files, lib: Library)
    requires other.images == files.images
    ensures InferenceInput(p, lines, files, lib) == InferenceInput(p, lines, other, lib)
  {
    var f, g := InferenceElement(p, files, lib), InferenceElement(p, other, lib);
    forall i | 0 <= i < |lines| ensures f(i, lines[i]) == g(i, lines[i]) {
      assert InferenceExampleOf(lines[i], p, files, lib) == InferenceExampleOf(lines[i], p, other, lib);
    }
    MapSame(lines, 0, f, g);
  }

  /** With every image present and non-empty, inference yields one batch per line of the list. */
  lemma InferenceCoversEveryLine(p: Params, lines: seq<string>, files: Files, lib: Library)
    requires p.heightInput > 0 && p.widthInput > 0
    requires forall i :: 0 <= i < |lines| ==> ImagePath(p.datasetDirectory, lines[i]) in files.images
    requires forall i :: 0 <= i < |lines| ==>
      files.images[ImagePath(p.datasetDirectory, lines[i])].pixels.height > 0
      && files.images[ImagePath(p.datasetDirectory, lines[i])].pixels.width > 0
    ensures InferenceInput(p, lines, files, lib).failure == None
    ensures |InferenceInput(p, lines, files, lib).items| == |lines|
    ensures forall j :: 0 <= j < |lines| ==>
      InferenceInput(p, lines, files, lib).items[j].filenames == [ImagePath(p.datasetDirectory, lines[j])]
  {
  }
}

/**
 * Integer rasters: decoded images (height x width x channels) and label masks
 * (height x width instance/semantic ids), with the per-example transforms the
 * pipeline applies to them: greyscale to RGB, horizontal flip and
 * nearest-neighbour resize.
 */
module Rasters {

  /** Row-major cells; `Valid` says the cells really are height rows of width cells. */
  datatype Raster<T> = Raster(height: nat, width: nat, cells: seq<seq<T>>) {
    predicate Valid() {
      |cells| == height && forall r :: 0 <= r < |cells| ==> |cells[r]| == width
    }
  }

  type Grid<T> = g: Raster<T> | g.Valid() witness Raster(0, 0, [])

  /** A label mask: one id per pixel. */
  type Label = Grid<int>

  /** A decoded image: every pixel a vector of `channels` intensities. */
  datatype ImageRaster = ImageRaster(channels: nat, pixels: Raster<seq<int>>) {
    predicate Valid() {
      && pixels.Valid()
      && forall r, c :: 0 <= r < pixels.height && 0 <= c < pixels.width ==> |pixels.cells[r][c]| == channels
    }
  }

  type Image = im: ImageRaster | im.Valid() witness ImageRaster(0, Raster(0, 0, []))

  /** The values that occur in a grid. */
  ghost function Ids<T>(g: Grid<T>): set<T> {
    set r, c | 0 <= r < g.height && 0 <= c < g.width :: g.cells[r][c]
  }

  /** One channel of an image as a grid. */
  function Channel(im: Image, k: nat): (g: Grid<int>)
    requires k < im.channels
    ensures g.height == im.pixels.height && g.width == im.pixels.width
    ensures forall r, c :: 0 <= r < g.height && 0 <= c < g.width ==> g.cells[r][c] == im.pixels.cells[r][c][k]
  {
    var h, w := im.pixels.height, im.pixels.width;
    Raster(h, w, seq(h, r requires 0 <= r < h => seq(w, c requires 0 <= c < w => im.pixels.cells[r][c][k])))
  }

  // ---------------------------------------------------------------------------
  // Greyscale to RGB (lines 48-52 and 73-76)

  /**
   * A one-channel image becomes three identical channels (`grayscale_to_rgb`);
   * an image with any other channel count is returned as it is.
   */
  function GreyscaleToRgb(im: Image): (out: Image)
    ensures out.pixels.height == im.pixels.height && out.pixels.width == im.pixels.width
    ensures im.channels == 1 ==> out.channels == 3
    ensures im.channels == 1 ==>
      forall r, c, k :: 0 <= r < im.pixels.height && 0 <= c < im.pixels.width && 0 <= k < 3 ==>
        out.pixels.cells[r][c][k] == im.pixels.cells[r][c][0]
    ensures im.channels != 1 ==> out == im
  {
    if im.channels != 1 then im
    else
      var h, w := im.pixels.height, im.pixels.width;
      ImageRaster(3, Raster(h, w, seq(h, r requires 0 <= r < h =>
        seq(w, c requires 0 <= c < w => var v := im.pixels.cells[r][c][0]; [v, v, v]))))
  }

  /** Every channel of a converted greyscale image is the original image's one channel. */
  lemma GreyscaleChannelsEqual(im: Image, k: nat)
    requires im.channels == 1 && k < 3
    ensures GreyscaleToRgb(im).channels == 3
    ensures Channel(GreyscaleToRgb(im), k) == Channel(im, 0)
  {
    var a, b := Channel(GreyscaleToRgb(im), k), Channel(im, 0);
    forall r | 0 <= r < a.height ensures a.cells[r] == b.cells[r] {
    }
  }

  /** Decoders produce one or three channels; after the conversion there are always three. */
  lemma DecodedImageIsRgb(im: Image)
    requires im.channels == 1 || im.channels == 3
    ensures GreyscaleToRgb(im).channels == 3
  {
  }

  /** Converting twice is converting once. */
  lemma GreyscaleIdempotent(im: Image)
    ensures GreyscaleToRgb(GreyscaleToRgb(im)) == GreyscaleToRgb(im)
  {
  }

  // ---------------------------------------------------------------------------
  // Horizontal flip (`flip_left_right`, lines 110-116)

  /** The column order of every row reversed; rows and cell contents untouched. */
  function FlipLeftRight<T>(g: Grid<T>): (f: Grid<T>)
    ensures f.height == g.height && f.width == g.width
    ensures forall r, c :: 0 <= r < g.height && 0 <= c < g.width ==> f.cells[r][c] == g.cells[r][g.width - 1 - c]
  {
    Raster(g.height, g.width, seq(g.height, r requires 0 <= r < g.height =>
      seq(g.width, c requires 0 <= c < g.width => g.cells[r][g.width - 1 - c])))
  }

  /** A sequence back to front. */
  function Reverse<T>(s: seq<T>): (r: seq<T>)
    ensures |r| == |s|
  {
    if s == [] then [] else [s[|s| - 1]] + Reverse(s[..|s| - 1])
  }

  lemma {:induction false} ReverseIndex<T>(s: seq<T>, k: nat)
    requires k < |s|
    ensures Reverse(s)[k] == s[|s| - 1 - k]
    decreases |s|
  {
    if k > 0 {
      ReverseIndex(s[..|s| - 1], k - 1);
    }
  }

  /** Each row of a flipped grid is that row reversed. */
  lemma FlipReversesRows<T>(g: Grid<T>, r: nat)
    requires r < g.height
    ensures FlipLeftRight(g).cells[r] == Reverse(g.cells[r])
  {
    forall c | 0 <= c < g.width ensures FlipLeftRight(g).cells[r][c] == Reverse(g.cells[r])[c] {
      ReverseIndex(g.cells[r], c);
    }
  }

  /** Flipping twice gives the grid back. */
  lemma FlipTwice<T>(g: Grid<T>)
    ensures FlipLeftRight(FlipLeftRight(g)) == g
  {
    var f := FlipLeftRight(FlipLeftRight(g));
    forall r | 0 <= r < g.height ensures f.cells[r] == g.cells[r] {
      forall c | 0 <= c < g.width ensures f.cells[r][c] == g.cells[r][c] {
        assert g.width - 1 - (g.width - 1 - c) == c;
      }
    }
  }

  /** A flip moves ids around but neither creates nor loses any. */
  lemma FlipKeepsIds<T>(g: Grid<T>)
    ensures Ids(FlipLeftRight(g)) == Ids(g)
  {
    var f := FlipLeftRight(g);
    forall v | v in Ids(f) ensures v in Ids(g) {
      var r, c :| 0 <= r < f.height && 0 <= c < f.width && f.cells[r][c] == v;
      assert g.cells[r][g.width - 1 - c] == v;
    }
    forall v | v in Ids(g) ensures v in Ids(f) {
      var r, c :| 0 <= r < g.height && 0 <= c < g.width && g.cells[r][c] == v;
      assert f.cells[r][g.width - 1 - c] == v;
    }
  }

  /** `flip_left_right` of an image: the pixel grid flipped, every pixel's channel vector kept whole. */
  function FlipImage(im: Image): (out: Image)
    ensures out.channels == im.channels
    ensures out.pixels == FlipLeftRight(im.pixels)
  {
    ImageRaster(im.channels, FlipLeftRight(im.pixels))
  }

  /** Each channel of a flipped image is that channel flipped. */
  lemma FlipImageChannels(im: Image, k: nat)
    requires k < im.channels
    ensures Channel(FlipImage(im), k) == FlipLeftRight(Channel(im, k))
  {
    var a, b := Channel(FlipImage(im), k), FlipLeftRight(Channel(im, k));
    forall r | 0 <= r < a.height ensures a.cells[r] == b.cells[r] {
    }
  }

  /** Flipping an image twice gives it back. */
  lemma FlipImageTwice(im: Image)
    ensures FlipImage(FlipImage(im)) == im
  {
    FlipTwice(im.pixels);
  }

  // ---------------------------------------------------------------------------
  // Nearest-neighbour resize (lines 151-153)

  lemma MulLess(a: nat, b: nat, n: nat)
    requires a < b && n > 0
    ensures a * n < b * n
  {
  }

  lemma DivLess(x: nat, d: nat, n: nat)
    requires d > 0 && x < n * d
    ensures x / d < n
  {
    var q := x / d;
    assert q * d <= x;
    if q > n {
      MulLess(n, q, d);
    }
  }

  /**
   * The source row (or column) that output index i reads when `inSize`
   * indices are resized to `outSize`: floor(i * inSize / outSize), the
   * nearest-neighbour rule without corner alignment.
   */
  function SourceIndex(i: nat, inSize: nat, outSize: nat): (j: nat)
    requires i < outSize && inSize > 0
    ensures j < inSize
  {
    MulLess(i, outSize, inSize);
    DivLess(i * inSize, outSize, inSize);
    (i * inSize) / outSize
  }

  /** `resize_images(..., NEAREST_NEIGHBOR)` of a non-empty grid to height x width. */
  function ResizeNearest<T>(g: Grid<T>, height: nat, width: nat): (out: Grid<T>)
    requires g.height > 0 && g.width > 0
    ensures out.height == height && out.width == width
    ensures forall r, c :: 0 <= r < height && 0 <= c < width ==>
      out.cells[r][c] == g.cells[SourceIndex(r, g.height, height)][SourceIndex(c, g.width, width)]
  {
    var cells := seq(height, r requires 0 <= r < height =>
      seq(width, c requires 0 <= c < width => g.cells[SourceIndex(r, g.height, height)][SourceIndex(c, g.width, width)]));
    assert forall r :: 0 <= r < height ==> |cells[r]| == width;
    Raster(height, width, cells)
  }

  /** Nearest-neighbour resizing copies ids, so no id appears that was not in the input. */
  lemma ResizeNearestKeepsIds<T>(g: Grid<T>, height: nat, width: nat)
    requires g.height > 0 && g.width > 0
    ensures Ids(ResizeNearest(g, height, width)) <= Ids(g)
  {
    var out := ResizeNearest(g, height, width);
    forall v | v in Ids(out) ensures v in Ids(g) {
      var r, c :| 0 <= r < height && 0 <= c < width && out.cells[r][c] == v;
      var sr, sc := SourceIndex(r, g.height, height), SourceIndex(c, g.width, width);
      assert g.cells[sr][sc] == v;
    }
  }

  lemma DivExact(q: nat, d: nat)
    requires d > 0
    ensures (q * d) / d == q
  {
    var k := (q * d) / d;
    assert q * d == k * d + (q * d) % d;
    if k < q {
      MulLess(k, q, d);
      assert (k + 1) * d <= q * d by { if k + 1 < q { MulLess(k + 1, q, d); } }
    } else if k > q {
      MulLess(q, k, d);
    }
  }

  lemma SourceIndexSameSize(i: nat, n: nat)
    requires i < n
    ensures SourceIndex(i, n, n) == i
  {
    DivExact(i, n);
  }

  /** Resizing to the grid's own size changes nothing. */
  lemma ResizeNearestSameSize<T>(g: Grid<T>)
    requires g.height > 0 && g.width > 0
    ensures ResizeNearest(g, g.height, g.width) == g
  {
    var out := ResizeNearest(g, g.height, g.width);
    forall r | 0 <= r < g.height ensures out.cells[r] == g.cells[r] {
      forall c | 0 <= c < g.width ensures out.cells[r][c] == g.cells[r][c] {
        SourceIndexSameSize(r, g.height);
        SourceIndexSameSize(c, g.width);
      }
    }
  }
}

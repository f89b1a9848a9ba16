/**
 * Bleed-area detection (src/utils/bleed.ts): either the positions of separately
 * uploaded bleed images, or a scan of the rendered canvas for non-white pixels in
 * the four edge strips one bleed wide.
 */
module BleedCheck {
  import opened Book

  datatype BleedPosition = Top | Bottom | Left | Right

  /** A separately uploaded bleed image; only its position matters here. */
  datatype BleedImage = BleedImage(position: BleedPosition, file: UploadedFile)

  datatype BleedStatus = BleedStatus(top: bool, bottom: bool, left: bool, right: bool)

  /** The flag of `status` for `pos`. */
  function Flag(status: BleedStatus, pos: BleedPosition): bool {
    match pos
    case Top => status.top
    case Bottom => status.bottom
    case Left => status.left
    case Right => status.right
  }

  /** `status[pos] = true`. */
  function SetFlag(status: BleedStatus, pos: BleedPosition): (r: BleedStatus)
    ensures Flag(r, pos)
    ensures forall q :: q != pos ==> Flag(r, q) == Flag(status, q)
  {
    match pos
    case Top => status.(top := true)
    case Bottom => status.(bottom := true)
    case Left => status.(left := true)
    case Right => status.(right := true)
  }

  /** The canvas: `width` x `height` pixels, row-major, four channels (RGBA) per pixel. */
  datatype Raster = Raster(width: int, height: int, data: seq<int>)

  predicate WellFormed(r: Raster) {
    r.width >= 1 && r.height >= 1 && |r.data| == 4 * r.width * r.height
  }

  /** The bleed the scan looks for, in millimetres. */
  const BleedSizeMm: real := 3.0

  /** `Math.ceil`. */
  function Ceil(x: real): (c: int)
    ensures x <= c as real < x + 1.0
  {
    -((-x).Floor)
  }

  /** The strip width in pixels: the 3 mm bleed at the canvas's pixels-per-millimetre, rounded up. */
  function BleedPixels(canvasWidth: int, coverWidth: real): (b: int)
    requires canvasWidth >= 1 && coverWidth > 0.0
    ensures b >= 1
    ensures BleedSizeMm * (canvasWidth as real / coverWidth) <= b as real < BleedSizeMm * (canvasWidth as real / coverWidth) + 1.0
  {
    var scale := canvasWidth as real / coverWidth;
    Ceil(BleedSizeMm * scale)
  }

  lemma {:induction false} MulAtLeast(a: int, w: int)
    requires a >= 1 && w >= 0
    ensures a * w >= w
  {
    if a > 1 {
      MulAtLeast(a - 1, w);
      assert a * w == (a - 1) * w + w;
    }
  }

  lemma {:induction false} MulMono(a: int, b: int, w: int)
    requires a <= b && w >= 0
    ensures a * w <= b * w
  {
    if a < b {
      MulAtLeast(b - a, w);
      assert b * w - a * w == (b - a) * w;
    }
  }

  lemma {:induction false} PixelIndexInRange(w: int, h: int, px: int, py: int)
    requires 0 <= px < w && 0 <= py < h
    ensures 0 <= py * w + px < w * h
  {
    MulMono(0, py, w);
    MulMono(py, h - 1, w);
    assert (h - 1) * w + w == w * h;
  }

  /** Channel `k` of pixel (px, py); outside the canvas `getImageData` yields transparent black. */
  function Channel(r: Raster, px: int, py: int, k: int): int
    requires WellFormed(r) && 0 <= k < 4
  {
    if 0 <= px < r.width && 0 <= py < r.height then
      PixelIndexInRange(r.width, r.height, px, py);
      r.data[4 * (py * r.width + px) + k]
    else 0
  }

  /** `getImageData(x, y, w, h).data`: the region's pixels, row-major, four channels each. */
  function GetImageData(r: Raster, x: int, y: int, w: int, h: int): (data: seq<int>)
    requires WellFormed(r) && w >= 1 && h >= 1
    ensures |data| == 4 * (w * h)
  {
    seq(4 * (w * h), i requires 0 <= i < 4 * (w * h) => Channel(r, x + (i / 4) % w, y + (i / 4) / w, i % 4))
  }

  /** Pixel `p` of an RGBA buffer is not white; alpha is not looked at. */
  predicate NonWhite(data: seq<int>, p: int)
    requires 0 <= p && 4 * p + 3 < |data|
  {
    data[4 * p] != 255 || data[4 * p + 1] != 255 || data[4 * p + 2] != 255
  }

  /** hasContent's loop: steps through the buffer four entries at a time and stops at the first non-white pixel. */
  method HasContent(data: seq<int>) returns (found: bool)
    requires |data| % 4 == 0
    ensures found <==> exists p :: 0 <= p < |data| / 4 && NonWhite(data, p)
  {
    var i := 0;
    while i < |data|
      invariant 0 <= i <= |data| && i % 4 == 0
      invariant forall p :: 0 <= p < i / 4 ==> !NonWhite(data, p)
    {
      if data[i] != 255 || data[i + 1] != 255 || data[i + 2] != 255 {
        assert NonWhite(data, i / 4);
        return true;
      }
      i := i + 4;
    }
    return false;
  }

  /** Pixel (px, py) of the canvas is not white; a pixel outside the canvas reads as black. */
  predicate PixelNonWhite(r: Raster, px: int, py: int)
    requires WellFormed(r)
  {
    Channel(r, px, py, 0) != 255 || Channel(r, px, py, 1) != 255 || Channel(r, px, py, 2) != 255
  }

  /** The pixel at row `row`, column `col` of the region whose corner is (x, y) is not white. */
  predicate RegionPixelNonWhite(r: Raster, x: int, y: int, row: int, col: int)
    requires WellFormed(r)
  {
    PixelNonWhite(r, x + col, y + row)
  }

  /** Some pixel of the `w` x `h` region at (x, y) is not white. */
  ghost predicate RegionHasContent(r: Raster, x: int, y: int, w: int, h: int)
    requires WellFormed(r)
  {
    exists row, col :: 0 <= row < h && 0 <= col < w && RegionPixelNonWhite(r, x, y, row, col)
  }

  /** Division by `w` recovers the row and column of a row-major index. */
  lemma {:induction false} DivModOfRowCol(w: int, h: int, row: int, col: int)
    requires w >= 1 && 0 <= row < h && 0 <= col < w
    ensures 0 <= row * w + col < w * h
    ensures (row * w + col) / w == row && (row * w + col) % w == col
  {
    PixelIndexInRange(w, h, col, row);
    var p := row * w + col;
    var q, m := p / w, p % w;
    assert p == q * w + m && 0 <= m < w;
    assert q * w - row * w == (q - row) * w;
    if q > row {
      MulAtLeast(q - row, w);
      assert false;
    } else if q < row {
      MulAtLeast(row - q, w);
      assert false;
    }
  }

  /** A row-major index below `w * h` lies in row `p / w < h`. */
  lemma {:induction false} RowOfPixel(w: int, h: int, p: int)
    requires w >= 1 && h >= 1 && 0 <= p < w * h
    ensures 0 <= p / w < h && 0 <= p % w < w
  {
    var q := p / w;
    assert p == q * w + p % w;
    assert w * h == h * w;
    if q >= h {
      MulMono(h, q, w);
      assert false;
    }
  }

  /** Scanning the `getImageData` buffer of a region finds content exactly when the region has a non-white pixel. */
  lemma {:induction false} ScanFindsRegionContent(r: Raster, x: int, y: int, w: int, h: int)
    requires WellFormed(r) && w >= 1 && h >= 1
    ensures var data := GetImageData(r, x, y, w, h);
      (exists p :: 0 <= p < |data| / 4 && NonWhite(data, p)) <==> RegionHasContent(r, x, y, w, h)
  {
    var data := GetImageData(r, x, y, w, h);
    assert |data| / 4 == w * h;
    if exists p :: 0 <= p < |data| / 4 && NonWhite(data, p) {
      var p :| 0 <= p < |data| / 4 && NonWhite(data, p);
      RowOfPixel(w, h, p);
      assert (4 * p) / 4 == p && (4 * p + 1) / 4 == p && (4 * p + 2) / 4 == p;
      assert RegionPixelNonWhite(r, x, y, p / w, p % w);
    }
    if RegionHasContent(r, x, y, w, h) {
      var row, col :| 0 <= row < h && 0 <= col < w && RegionPixelNonWhite(r, x, y, row, col);
      DivModOfRowCol(w, h, row, col);
      var p := row * w + col;
      assert (4 * p) / 4 == p && (4 * p + 1) / 4 == p && (4 * p + 2) / 4 == p;
      assert NonWhite(data, p);
    }
  }

  /** hasContent of the source: `getImageData` of the region, then the scan. */
  method RegionScan(r: Raster, x: int, y: int, w: int, h: int) returns (found: bool)
    requires WellFormed(r) && w >= 1 && h >= 1
    ensures found == RegionHasContent(r, x, y, w, h)
  {
    var data := GetImageData(r, x, y, w, h);
    found := HasContent(data);
    ScanFindsRegionContent(r, x, y, w, h);
  }

  /**
   * validateBleed. With bleed images, exactly their positions are flagged and no
   * pixel is looked at. Otherwise each flag says whether its edge strip, one bleed
   * wide, holds a non-white pixel: top is rows [0, b) and bottom rows [h - b, h)
   * across the full width; left is columns [0, b) and right columns [w - b, w)
   * over the full height.
   */
  method ValidateBleed(canvas: Raster, d: Dimensions, bleedImages: seq<BleedImage>) returns (status: BleedStatus)
    requires |bleedImages| == 0 ==> WellFormed(canvas) && d.coverWidth > 0.0
    ensures |bleedImages| > 0 ==>
      forall pos :: Flag(status, pos) <==> exists j :: 0 <= j < |bleedImages| && bleedImages[j].position == pos
    ensures |bleedImages| == 0 ==>
      var b, w, h := BleedPixels(canvas.width, d.coverWidth), canvas.width, canvas.height;
      && status.top == RegionHasContent(canvas, 0, 0, w, b)
      && status.bottom == RegionHasContent(canvas, 0, h - b, w, b)
      && status.left == RegionHasContent(canvas, 0, 0, b, h)
      && status.right == RegionHasContent(canvas, w - b, 0, b, h)
  {
    status := BleedStatus(false, false, false, false);
    if |bleedImages| > 0 {
      var i := 0;
      while i < |bleedImages|
        invariant 0 <= i <= |bleedImages|
        invariant forall pos :: Flag(status, pos) <==> exists j :: 0 <= j < i && bleedImages[j].position == pos
      {
        status := SetFlag(status, bleedImages[i].position);
        i := i + 1;
      }
      return;
    }
    var bleedPixels := BleedPixels(canvas.width, d.coverWidth);
    var top := RegionScan(canvas, 0, 0, canvas.width, bleedPixels);
    var bottom := RegionScan(canvas, 0, canvas.height - bleedPixels, canvas.width, bleedPixels);
    var left := RegionScan(canvas, 0, 0, bleedPixels, canvas.height);
    var right := RegionScan(canvas, canvas.width - bleedPixels, 0, bleedPixels, canvas.height);
    status := status.(top := top, bottom := bottom, left := left, right := right);
  }

  /** An all-white canvas shows no content in any strip. */
  lemma WhiteCanvasHasNoBleed(r: Raster, x: int, y: int, w: int, h: int)
    requires WellFormed(r) && forall i :: 0 <= i < |r.data| ==> r.data[i] == 255
    requires 0 <= x && x + w <= r.width && 0 <= y && y + h <= r.height
    ensures !RegionHasContent(r, x, y, w, h)
  {
    if RegionHasContent(r, x, y, w, h) {
      var row, col :| 0 <= row < h && 0 <= col < w && RegionPixelNonWhite(r, x, y, row, col);
      PixelIndexInRange(r.width, r.height, x + col, y + row);
      assert false;
    }
  }
}

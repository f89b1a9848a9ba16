/**
 * Page sizing of the exported cover PDF (src/utils/pdfExport.ts): millimetres to
 * points, orientation, and the full-bleed placement of the rendered canvas.
 */
module PdfExport {
  import opened Book

  /** Points per millimetre used for the page size. */
  const MmToPt: real := 2.83465

  /** Millimetres per point, as the comment of the exporter and the content-PDF check state it. */
  const PtToMm: real := 0.3528

  datatype Orientation = Portrait | Landscape

  /** The rasterised cover handed to the exporter; only its pixel size is visible here. */
  datatype Canvas = Canvas(pixelWidth: int, pixelHeight: int)

  /** The single page: its size in points, its orientation, and where the canvas image is drawn. */
  datatype PdfPage = PdfPage(
    width: real, height: real, orientation: Orientation,
    imageX: real, imageY: real, imageWidth: real, imageHeight: real, image: Canvas)

  /**
   * generatePDF: the page is the cover sheet converted to points, landscape exactly
   * when it is wider than tall, and the canvas image covers the whole page.
   */
  function GeneratePdf(canvas: Canvas, d: Dimensions): (p: PdfPage)
    ensures p.width / MmToPt == d.coverWidth && p.height / MmToPt == d.coverHeight
    ensures p.orientation == Landscape <==> d.coverWidth > d.coverHeight
    ensures p.imageX == 0.0 && p.imageY == 0.0 && p.imageWidth == p.width && p.imageHeight == p.height
    ensures p.image == canvas
  {
    var width := d.coverWidth * MmToPt;
    var height := d.coverHeight * MmToPt;
    PdfPage(width, height, if width > height then Landscape else Portrait, 0.0, 0.0, width, height, canvas)
  }

  /** The page size and orientation depend on the dimensions only, never on the canvas's pixel size. */
  lemma PageIgnoresCanvas(c1: Canvas, c2: Canvas, d: Dimensions)
    ensures GeneratePdf(c1, d).(image := c2) == GeneratePdf(c2, d)
  {
  }

  /** A square sheet is exported portrait. */
  lemma SquareIsPortrait(c: Canvas, d: Dimensions)
    requires d.coverWidth == d.coverHeight
    ensures GeneratePdf(c, d).orientation == Portrait
  {
  }

  /**
   * Converting a length to points with 2.83465 and back with 0.3528 multiplies it by
   * 1.00006452: the two constants are not reciprocal. On the 460.8 mm wide A4
   * hardcover sheet the round trip adds about 0.0297 mm.
   */
  lemma {:induction false} RoundTripDrift(mm: real)
    ensures mm * MmToPt * PtToMm == mm * 1.00006452
    ensures mm > 0.0 ==> mm * MmToPt * PtToMm > mm
    ensures 0.0297 < 460.8 * MmToPt * PtToMm - 460.8 < 0.0298
  {
    assert MmToPt * PtToMm == 1.00006452;
    assert mm * MmToPt * PtToMm == mm * (MmToPt * PtToMm);
  }
}

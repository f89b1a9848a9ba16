/**
 * The decision logic of the content-PDF check (src/utils/pdfValidation.ts):
 * the page count first, then the first page's size in millimetres against the
 * expected trim size with a 0.5 mm tolerance.
 */
module PdfValidation {
  import opened Wrappers
  import opened Book
  import Calculations

  /** Millimetres per PDF point, as the check uses it. */
  const PtToMm: real := 0.3528
  /** The allowed difference per axis, in millimetres, boundary included. */
  const Tolerance: real := 0.5

  /**
   * What pdf.js reports about the file: it could not be opened, or it has
   * `numPages` pages and a first page of `widthPt` x `heightPt` points.
   */
  datatype PdfProbe = Unreadable | Probed(numPages: int, widthPt: real, heightPt: real)

  /** The three messages the check can produce, with the values they print. */
  datatype ValidationError =
    | WrongPageCount(expected: int, actual: int)
    | WrongSize(expectedWidth: Option<real>, expectedHeight: Option<real>, actualWidth: real, actualHeight: real)
    | ValidationFailed

  datatype ValidationResult = ValidationResult(isValid: bool, error: Option<ValidationError>)

  function Abs(x: real): real {
    if x < 0.0 then -x else x
  }

  /**
   * The expected width and height in millimetres. A custom format with a
   * customFormat gives its fields (`None` for a field that is not set);
   * otherwise A4 gives 210 x 297 and every other format 148 x 210.
   */
  function ExpectedSize(format: Format, customFormat: Option<CustomFormat>): (r: (Option<real>, Option<real>))
    ensures format == Custom && customFormat.Some? ==> r == (customFormat.value.width, customFormat.value.height)
    ensures !(format == Custom && customFormat.Some?) ==> r.0.Some? && r.1.Some? && 0.0 < r.0.value < r.1.value
    ensures format == A4 || format == A5 ==>
      r == (Some(Calculations.TrimOf(format, customFormat).width), Some(Calculations.TrimOf(format, customFormat).height))
  {
    if format == Custom && customFormat.Some? then
      (customFormat.value.width, customFormat.value.height)
    else if format == A4 then
      (Some(210.0), Some(297.0))
    else
      (Some(148.0), Some(210.0))
  }

  /**
   * One axis passes when it is within the tolerance of the expected value; a
   * missing expected value makes the comparison with NaN false, so the axis passes.
   */
  predicate WithinTolerance(actual: real, expected: Option<real>) {
    expected.None? || Abs(actual - expected.value) <= Tolerance
  }

  /** validateContentPDF. */
  function ValidateContentPdf(probe: PdfProbe, expectedPages: int, format: Format, customFormat: Option<CustomFormat>): (r: ValidationResult)
    ensures r.isValid <==> r.error.None?
    ensures r.isValid <==>
      && probe.Probed?
      && probe.numPages == expectedPages
      && probe.numPages >= 1
      && WithinTolerance(probe.widthPt * PtToMm, ExpectedSize(format, customFormat).0)
      && WithinTolerance(probe.heightPt * PtToMm, ExpectedSize(format, customFormat).1)
    ensures probe.Probed? && probe.numPages != expectedPages ==>
      r.error == Some(WrongPageCount(expectedPages, probe.numPages))
    ensures r.error == Some(ValidationFailed) <==> probe.Unreadable? || (probe.numPages == expectedPages && probe.numPages < 1)
    ensures r.error.Some? && r.error.value.WrongSize? ==>
      && probe.Probed?
      && r.error.value.actualWidth == probe.widthPt * PtToMm
      && r.error.value.actualHeight == probe.heightPt * PtToMm
      && (r.error.value.expectedWidth, r.error.value.expectedHeight) == ExpectedSize(format, customFormat)
  {
    match probe
    case Unreadable => ValidationResult(false, Some(ValidationFailed))
    case Probed(numPages, widthPt, heightPt) =>
      if numPages != expectedPages then
        ValidationResult(false, Some(WrongPageCount(expectedPages, numPages)))
      else if numPages < 1 then
        // getPage(1) rejects on a document without pages.
        ValidationResult(false, Some(ValidationFailed))
      else
        var pdfWidth := widthPt * PtToMm;
        var pdfHeight := heightPt * PtToMm;
        var (expectedWidth, expectedHeight) := ExpectedSize(format, customFormat);
        if !WithinTolerance(pdfWidth, expectedWidth) || !WithinTolerance(pdfHeight, expectedHeight) then
          ValidationResult(false, Some(WrongSize(expectedWidth, expectedHeight, pdfWidth, pdfHeight)))
        else
          ValidationResult(true, None)
  }

  /** A page-count mismatch is reported whatever the page size. */
  lemma PageCountCheckedFirst(n: int, expectedPages: int, w1: real, h1: real, w2: real, h2: real, format: Format, cf: Option<CustomFormat>)
    requires n != expectedPages
    ensures ValidateContentPdf(Probed(n, w1, h1), expectedPages, format, cf)
         == ValidateContentPdf(Probed(n, w2, h2), expectedPages, format, cf)
         == ValidationResult(false, Some(WrongPageCount(expectedPages, n)))
  {
  }

  /** The expected size is the calculator's trim size for A4, A5 and a fully specified custom format. */
  lemma ExpectedIsTrimForA4A5AndCustom(format: Format, cf: Option<CustomFormat>)
    requires format == A4 || format == A5 || (format == Custom && cf.Some? && cf.value.width.Some? && cf.value.height.Some?
      && cf.value.width.value != 0.0 && cf.value.height.value != 0.0)
    ensures var t := Calculations.TrimOf(format, cf);
      ExpectedSize(format, cf) == (Some(t.width), Some(t.height))
  {
  }

  /** Every other named format is checked against 148 x 210, which is not its trim size. */
  lemma OtherFormatsCheckedAsA5(format: Format, cf: Option<CustomFormat>)
    requires format != A4 && format != A5 && format != Custom
    ensures ExpectedSize(format, cf) == (Some(148.0), Some(210.0))
    ensures var t := Calculations.TrimOf(format, cf);
      (t.width, t.height) != (148.0, 210.0)
  {
  }

  /** A page exactly half a millimetre off on both axes is still accepted. */
  lemma ToleranceIsInclusive(expectedPages: int)
    requires expectedPages >= 1
    ensures ValidateContentPdf(Probed(expectedPages, 210.5 / PtToMm, 296.5 / PtToMm), expectedPages, A4, None).isValid
  {
  }

  /**
   * An A4 page with a 3 mm bleed on every side (216 x 303 mm) is rejected: the
   * check expects the bare trim size.
   */
  lemma BleedSizedA4Rejected(expectedPages: int)
    requires expectedPages >= 1
    ensures ValidateContentPdf(Probed(expectedPages, 216.0 / PtToMm, 303.0 / PtToMm), expectedPages, A4, None)
         == ValidationResult(false, Some(WrongSize(Some(210.0), Some(297.0), 216.0, 303.0)))
  {
  }

  /** A custom format whose width is not set has only its height checked. */
  lemma UnsetCustomWidthPasses(expectedPages: int, w: real, h: real)
    requires expectedPages >= 1
    ensures ValidateContentPdf(Probed(expectedPages, w, h), expectedPages, Custom,
              Some(CustomFormat(None, Some(h * PtToMm)))).isValid
  {
  }
}

/**
 * The preview step's geometry (src/components/steps/PreviewStep.tsx): where the
 * back, spine and front panels are placed on the cover sheet, which page of a
 * PDF source each panel uses, the order in which the panel list is built, and
 * the effect that pushes the scale sliders into the panel list.
 */
module Preview {
  import opened Wrappers
  import opened Book
  import opened Calculations

  datatype PanelKind = BackPanel | SpinePanel | FrontPanel

  /** The two slider values `coverScales`; the spine has no slider. */
  datatype CoverScales = CoverScales(front: real, back: real)

  /** A placed rectangle in sheet millimetres. */
  datatype Rect = Rect(x: real, y: real, width: real, height: real)

  /** A `CoverElement`: its identity equals its kind; `file` is the upload its image came from. */
  datatype CoverElement = CoverElement(id: PanelKind, kind: PanelKind, x: real, y: real, width: real, height: real, scale: real, file: UploadedFile)

  /** The scale applied to a panel: the front or back slider, 1 for the spine. */
  function ScaleFor(kind: PanelKind, scales: CoverScales): real {
    match kind
    case FrontPanel => scales.front
    case BackPanel => scales.back
    case SpinePanel => 1.0
  }

  /** The unscaled width of each side panel: what is left of the sheet after both bleeds and the spine, halved. */
  function SideWidth(d: Dimensions, b: BleedMeasurement): real {
    ((d.coverWidth - 2.0 * b.horizontal) - d.spineWidth) / 2.0
  }

  /** The height of every panel slot: the sheet less both vertical bleeds. */
  function SafeHeight(d: Dimensions, b: BleedMeasurement): real {
    d.coverHeight - 2.0 * b.vertical
  }

  /**
   * The placement arithmetic of the image `onload` handler. The spine is fixed in
   * its slot; the back panel keeps its right edge on the spine's left edge and the
   * front panel its left edge on the spine's right edge, whatever the scale; every
   * panel stays vertically centred on its slot.
   */
  function PlacePanel(d: Dimensions, b: BleedMeasurement, kind: PanelKind, scales: CoverScales): (r: Rect)
    ensures kind == SpinePanel ==> r == Rect(b.horizontal + SideWidth(d, b), b.vertical, d.spineWidth, SafeHeight(d, b))
    ensures kind == BackPanel ==> r.x + r.width == b.horizontal + SideWidth(d, b)
    ensures kind == FrontPanel ==> r.x == b.horizontal + SideWidth(d, b) + d.spineWidth
    ensures kind != SpinePanel ==> r.width == SideWidth(d, b) * ScaleFor(kind, scales)
    ensures kind != SpinePanel ==> r.height == SafeHeight(d, b) * ScaleFor(kind, scales)
    ensures r.y + r.height / 2.0 == b.vertical + SafeHeight(d, b) / 2.0
  {
    var safeWidth := d.coverWidth - 2.0 * b.horizontal;
    var safeHeight := d.coverHeight - 2.0 * b.vertical;
    var spineWidth := d.spineWidth;
    var sideWidth := (safeWidth - spineWidth) / 2.0;
    var width := sideWidth;
    var height := safeHeight;
    var scale := ScaleFor(kind, scales);
    var scaledWidth := width * scale;
    var scaledHeight := height * scale;
    var verticalOffset := (scaledHeight - height) / 2.0;
    var y := b.vertical - verticalOffset;
    match kind
    case BackPanel => Rect(b.horizontal + sideWidth - scaledWidth, y, scaledWidth, scaledHeight)
    case SpinePanel => Rect(b.horizontal + sideWidth, y, spineWidth, height)
    case FrontPanel => Rect(b.horizontal + sideWidth + spineWidth, y, scaledWidth, scaledHeight)
  }

  /** The x positions of the two spine guide lines drawn by the canvas helper: sheet centre minus and plus half the spine. */
  function SpineGuides(d: Dimensions): (real, real) {
    (d.coverWidth / 2.0 - d.spineWidth / 2.0, d.coverWidth / 2.0 + d.spineWidth / 2.0)
  }

  /**
   * With the bleed that belongs to the binding, the side panel is exactly the trim
   * width and the slot height exactly the trim height.
   */
  lemma SlotsAreTrimSize(c: BookConfig)
    ensures var d := CalculateDimensions(c); var b := GetBleedMeasurements(c.bindingType == Hardcover);
      && SideWidth(d, b) == TrimOf(c.format, c.customFormat).width
      && SafeHeight(d, b) == TrimOf(c.format, c.customFormat).height
  {
  }

  /**
   * Moving either slider never moves the spine, keeps both side panels flush
   * against it, and never moves the front panel's x.
   */
  lemma ScalesKeepSpineFlush(d: Dimensions, b: BleedMeasurement, s1: CoverScales, s2: CoverScales)
    ensures PlacePanel(d, b, SpinePanel, s1) == PlacePanel(d, b, SpinePanel, s2)
    ensures var back := PlacePanel(d, b, BackPanel, s1); back.x + back.width == PlacePanel(d, b, SpinePanel, s2).x
    ensures PlacePanel(d, b, FrontPanel, s1).x == PlacePanel(d, b, SpinePanel, s2).x + d.spineWidth
    ensures PlacePanel(d, b, FrontPanel, s1).x == PlacePanel(d, b, FrontPanel, s2).x
  {
  }

  /**
   * At scale 1 the three panels tile the sheet between the horizontal bleeds with
   * no gap and no overlap, and the spine's edges are where the guide lines are drawn.
   */
  lemma UnitScaleTiles(d: Dimensions, b: BleedMeasurement)
    ensures var s := CoverScales(1.0, 1.0);
            var back := PlacePanel(d, b, BackPanel, s);
            var spine := PlacePanel(d, b, SpinePanel, s);
            var front := PlacePanel(d, b, FrontPanel, s);
      && back.x == b.horizontal
      && back.x + back.width == spine.x
      && spine.x + spine.width == front.x
      && front.x + front.width == d.coverWidth - b.horizontal
      && (spine.x, spine.x + spine.width) == SpineGuides(d)
      && back.y == spine.y == front.y == b.vertical
  {
  }

  // ---------------------------------------------------------------- loading

  /** The fixed page convention of a combined PDF: back is page 1, spine page 2, front page 3. */
  function PdfPageFor(kind: PanelKind): (page: int)
    ensures 1 <= page <= 3
    ensures PanelOrder[page - 1] == kind
  {
    match kind
    case FrontPanel => 3
    case SpinePanel => 2
    case BackPanel => 1
  }

  /** The slot of `config.files` a panel is loaded from. */
  function SlotOf(kind: PanelKind): Slot {
    match kind
    case BackPanel => BackCover
    case SpinePanel => Spine
    case FrontPanel => FrontCover
  }

  const PdfMime := "application/pdf"

  datatype LoadError =
    | PdfOpenFailed(kind: PanelKind)
    | PageOutOfRange(kind: PanelKind, numPages: int, requested: int)
    | DecodeFailed(kind: PanelKind)

  /**
   * loadImage: a PDF source uses the page of its panel and fails when that page is
   * past the document's end; any failure of the foreign decoders rejects; otherwise
   * the element is placed by `PlacePanel` with the panel's scale.
   */
  function LoadImage(file: UploadedFile, kind: PanelKind, d: Dimensions, b: BleedMeasurement, scales: CoverScales): (r: Result<CoverElement, LoadError>)
    ensures r.Ok? <==>
      file.decodeOk && (file.mimeType == PdfMime ==> file.pdfPages.Some? && PdfPageFor(kind) <= file.pdfPages.value)
    ensures r.Ok? ==>
      var rect := PlacePanel(d, b, kind, scales);
      r.value == CoverElement(kind, kind, rect.x, rect.y, rect.width, rect.height, ScaleFor(kind, scales), file)
    ensures r.Err? && r.error.PageOutOfRange? ==>
      file.pdfPages.Some? && r.error == PageOutOfRange(kind, file.pdfPages.value, PdfPageFor(kind)) && file.pdfPages.value < PdfPageFor(kind)
    ensures file.mimeType == PdfMime && file.pdfPages.None? ==> r == Err(PdfOpenFailed(kind))
    ensures file.mimeType == PdfMime && file.pdfPages.Some? && file.pdfPages.value < PdfPageFor(kind) ==>
      r == Err(PageOutOfRange(kind, file.pdfPages.value, PdfPageFor(kind)))
    ensures !file.decodeOk && (file.mimeType == PdfMime ==> file.pdfPages.Some? && PdfPageFor(kind) <= file.pdfPages.value) ==>
      r == Err(DecodeFailed(kind))
  {
    if file.mimeType == PdfMime && file.pdfPages.None? then Err(PdfOpenFailed(kind))
    else if file.mimeType == PdfMime && PdfPageFor(kind) > file.pdfPages.value then
      Err(PageOutOfRange(kind, file.pdfPages.value, PdfPageFor(kind)))
    else if !file.decodeOk then Err(DecodeFailed(kind))
    else
      var rect := PlacePanel(d, b, kind, scales);
      Ok(CoverElement(kind, kind, rect.x, rect.y, rect.width, rect.height, ScaleFor(kind, scales), file))
  }

  /** A single-page PDF that decodes loads for the back panel only. */
  lemma SinglePagePdfLoadsOnlyBack(file: UploadedFile, kind: PanelKind, d: Dimensions, b: BleedMeasurement, scales: CoverScales)
    requires file.mimeType == PdfMime && file.pdfPages == Some(1) && file.decodeOk
    ensures LoadImage(file, kind, d, b, scales).Ok? <==> kind == BackPanel
  {
  }

  /** The element a panel contributes: its placed element when its slot holds a file that loads, otherwise none. */
  function Loaded(files: Files, kind: PanelKind, d: Dimensions, b: BleedMeasurement, scales: CoverScales): seq<CoverElement> {
    if SlotOf(kind) in files && LoadImage(files[SlotOf(kind)], kind, d, b, scales).Ok?
    then [LoadImage(files[SlotOf(kind)], kind, d, b, scales).value]
    else []
  }

  /** What the loop over `kinds` has pushed. */
  function LoadedAll(kinds: seq<PanelKind>, files: Files, d: Dimensions, b: BleedMeasurement, scales: CoverScales): seq<CoverElement> {
    if kinds == [] then []
    else LoadedAll(kinds[..|kinds| - 1], files, d, b, scales) + Loaded(files, kinds[|kinds| - 1], d, b, scales)
  }

  const PanelOrder := [BackPanel, SpinePanel, FrontPanel]

  /** Some element of `els` is of `kind`. */
  predicate HasPanel(els: seq<CoverElement>, kind: PanelKind) {
    exists i :: 0 <= i < |els| && els[i].kind == kind
  }

  /**
   * initElements: visits back, spine, front in that order and pushes each panel
   * whose file is present and loads; a missing file or a failed load leaves out
   * that panel only. The list is therefore in PDF page order, one element per kind.
   */
  method InitElements(files: Files, d: Dimensions, b: BleedMeasurement, scales: CoverScales) returns (els: seq<CoverElement>)
    ensures |els| <= 3
    ensures forall i, j :: 0 <= i < j < |els| ==> PdfPageFor(els[i].kind) < PdfPageFor(els[j].kind)
    ensures forall k: PanelKind :: HasPanel(els, k) <==>
      SlotOf(k) in files && LoadImage(files[SlotOf(k)], k, d, b, scales).Ok?
    ensures forall i :: 0 <= i < |els| ==>
      SlotOf(els[i].kind) in files && LoadImage(files[SlotOf(els[i].kind)], els[i].kind, d, b, scales) == Ok(els[i])
  {
    els := [];
    var i := 0;
    while i < |PanelOrder|
      invariant 0 <= i <= |PanelOrder|
      invariant els == LoadedAll(PanelOrder[..i], files, d, b, scales)
    {
      assert PanelOrder[..i + 1][..i] == PanelOrder[..i];
      var kind := PanelOrder[i];
      var slot := SlotOf(kind);
      if slot in files {
        var r := LoadImage(files[slot], kind, d, b, scales);
        if r.Ok? {
          els := els + [r.value];
        }
      }
      i := i + 1;
    }
    assert PanelOrder[..3] == PanelOrder;
    LoadedOrder(files, d, b, scales);
  }

  /** The three-step unrolling of `LoadedAll` over the panel order, and what follows from it. */
  lemma LoadedOrder(files: Files, d: Dimensions, b: BleedMeasurement, scales: CoverScales)
    ensures var els := LoadedAll(PanelOrder, files, d, b, scales);
      && |els| <= 3
      && (forall i, j :: 0 <= i < j < |els| ==> PdfPageFor(els[i].kind) < PdfPageFor(els[j].kind))
      && (forall k: PanelKind :: HasPanel(els, k) <==>
           SlotOf(k) in files && LoadImage(files[SlotOf(k)], k, d, b, scales).Ok?)
      && (forall i :: 0 <= i < |els| ==>
           SlotOf(els[i].kind) in files && LoadImage(files[SlotOf(els[i].kind)], els[i].kind, d, b, scales) == Ok(els[i]))
  {
    var l1, l2, l3 := Loaded(files, BackPanel, d, b, scales), Loaded(files, SpinePanel, d, b, scales), Loaded(files, FrontPanel, d, b, scales);
    assert PanelOrder[..2] == [BackPanel, SpinePanel];
    assert [BackPanel, SpinePanel][..1] == [BackPanel];
    assert [BackPanel][..0] == [];
    assert LoadedAll([BackPanel], files, d, b, scales) == l1;
    assert LoadedAll([BackPanel, SpinePanel], files, d, b, scales) == l1 + l2;
    var els := LoadedAll(PanelOrder, files, d, b, scales);
    assert els == l1 + l2 + l3;
    forall k: PanelKind
      ensures HasPanel(els, k) <==> SlotOf(k) in files && LoadImage(files[SlotOf(k)], k, d, b, scales).Ok?
    {
      if SlotOf(k) in files && LoadImage(files[SlotOf(k)], k, d, b, scales).Ok? {
        var i := match k case BackPanel => 0 case SpinePanel => |l1| case FrontPanel => |l1| + |l2|;
        assert els[i].kind == k;
      }
    }
  }

  /**
   * The `coverScales` effect: front and back elements take the new slider value as
   * their `scale`; nothing else changes, and spine elements are untouched.
   */
  function ApplyScales(els: seq<CoverElement>, scales: CoverScales): (r: seq<CoverElement>)
    ensures |r| == |els|
    ensures forall i :: 0 <= i < |els| ==> r[i].(scale := els[i].scale) == els[i]
    ensures forall i :: 0 <= i < |els| && els[i].kind == SpinePanel ==> r[i] == els[i]
    ensures forall i :: 0 <= i < |els| && els[i].kind != SpinePanel ==> r[i].scale == ScaleFor(els[i].kind, scales)
  {
    seq(|els|, i requires 0 <= i < |els| =>
      if els[i].kind == FrontPanel || els[i].kind == BackPanel
      then els[i].(scale := if els[i].kind == FrontPanel then scales.front else scales.back)
      else els[i])
  }

  /** Applying the effect with the scales the panels were loaded with changes nothing. */
  lemma ApplyScalesAfterLoad(files: Files, d: Dimensions, b: BleedMeasurement, scales: CoverScales)
    ensures ApplyScales(LoadedAll(PanelOrder, files, d, b, scales), scales) == LoadedAll(PanelOrder, files, d, b, scales)
  {
    var els := LoadedAll(PanelOrder, files, d, b, scales);
    LoadedOrder(files, d, b, scales);
    var r := ApplyScales(els, scales);
    forall i | 0 <= i < |els| ensures r[i] == els[i] {
      assert els[i].scale == ScaleFor(els[i].kind, scales);
    }
  }
}

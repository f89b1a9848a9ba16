/**
 * The cover-file upload step (src/components/steps/FileUploadStep.tsx): setting and
 * deleting single slots of `config.files`, splitting a combined three-page PDF into
 * the back, spine and front slots, and switching to cover-files mode. Each handler
 * produces the partial update it passes to `updateConfig`.
 */
module FileUpload {
  import opened Wrappers
  import opened Book
  import opened Text
  import opened Calculations
  import opened Preview

  /** The slots a user uploads into one at a time; the content PDF has its own step. */
  predicate IsUploadSlot(s: Slot) {
    s != ContentPdf
  }

  /** handleFileUpload: `files` with exactly `slot` set to `file`. */
  function HandleFileUpload(files: Files, slot: Slot, file: UploadedFile): (u: ConfigUpdate)
    requires IsUploadSlot(slot)
    ensures u == NoUpdate.(files := u.files) && u.files.Some?
    ensures slot in u.files.value && u.files.value[slot] == file
    ensures forall s :: s != slot ==> (s in u.files.value <==> s in files)
    ensures forall s :: s != slot && s in files ==> u.files.value[s] == files[s]
  {
    FilesUpdate(files[slot := file])
  }

  /** handleFileDelete: a copy of `files` without `slot`. */
  function HandleFileDelete(files: Files, slot: Slot): (u: ConfigUpdate)
    requires IsUploadSlot(slot)
    ensures u == NoUpdate.(files := u.files) && u.files.Some?
    ensures slot !in u.files.value
    ensures forall s :: s != slot ==> (s in u.files.value <==> s in files)
    ensures forall s :: s != slot && s in files ==> u.files.value[s] == files[s]
  {
    FilesUpdate(files - {slot})
  }

  /** Deleting what was just uploaded leaves the files as they were without that slot. */
  lemma UploadThenDelete(files: Files, slot: Slot, file: UploadedFile)
    requires IsUploadSlot(slot)
    ensures HandleFileDelete(HandleFileUpload(files, slot, file).files.value, slot) == HandleFileDelete(files, slot)
  {
    assert files[slot := file] - {slot} == files - {slot};
  }

  /** The PNG file rendered from page `n` of a combined PDF. */
  function RenderedPage(n: nat): (f: UploadedFile)
    ensures f.mimeType == "image/png" && f.decodeOk && f.pdfPages.None?
  {
    UploadedFile("page-" + NatToString(n) + ".png", "image/png", None, true)
  }

  /** The files map an accepted combined PDF produces: page 1 to the back cover, 2 to the spine, 3 to the front cover. */
  function CombinedFiles(): (files: Files)
    ensures files.Keys == {BackCover, Spine, FrontCover}
  {
    map[BackCover := RenderedPage(1), Spine := RenderedPage(2), FrontCover := RenderedPage(3)]
  }

  /**
   * The combined upload and the preview agree on the page convention: the slot each
   * panel loads from holds the page that panel would read from a PDF, and every
   * panel of a combined upload loads.
   */
  lemma CombinedMatchesPreviewPages(d: Dimensions, b: BleedMeasurement, scales: CoverScales)
    ensures forall k: PanelKind :: SlotOf(k) in CombinedFiles() && CombinedFiles()[SlotOf(k)] == RenderedPage(PdfPageFor(k))
    ensures forall k: PanelKind :: LoadImage(CombinedFiles()[SlotOf(k)], k, d, b, scales).Ok?
  {
  }

  /** Distinct pages give distinct files, so the three slots of a combined upload hold three different pages. */
  lemma RenderedPagesDistinct(m: nat, n: nat)
    requires m != n
    ensures RenderedPage(m) != RenderedPage(n)
  {
    var sm, sn := NatToString(m), NatToString(n);
    var a, b := "page-" + sm + ".png", "page-" + sn + ".png";
    assert a[5..5 + |sm|] == sm;
    assert b[5..5 + |sn|] == sn;
    assert a != b;
  }

  datatype PdfError = NoPdfError | WrongPageCount | ProcessingFailed

  /** The upload step's own state: the error shown under the combined-PDF box. */
  class FileUploadStep {
    var pdfError: PdfError

    constructor ()
      ensures pdfError == NoPdfError
    {
      pdfError := NoPdfError;
    }

    /**
     * handlePDFUpload: clears the error; a document pdf.js cannot open or whose pages
     * fail to render sets the processing error; a page count other than 3 sets the
     * page-count error; in those cases no update is made. An accepted PDF replaces the
     * whole files map with the three rendered pages, which drops a professional cover
     * and a content PDF.
     */
    method HandlePdfUpload(file: UploadedFile) returns (update: Option<ConfigUpdate>)
      modifies this
      ensures file.pdfPages.None? ==> pdfError == ProcessingFailed && update.None?
      ensures file.pdfPages.Some? && file.pdfPages.value != 3 ==> pdfError == WrongPageCount && update.None?
      ensures file.pdfPages == Some(3) && !file.decodeOk ==> pdfError == ProcessingFailed && update.None?
      ensures file.pdfPages == Some(3) && file.decodeOk ==>
        pdfError == NoPdfError && update == Some(FilesUpdate(CombinedFiles()))
      ensures update.Some? ==> ProfessionalCover !in update.value.files.value && ContentPdf !in update.value.files.value
    {
      pdfError := NoPdfError;
      if file.pdfPages.None? {
        pdfError := ProcessingFailed;
        return None;
      }
      if file.pdfPages.value != 3 {
        pdfError := WrongPageCount;
        return None;
      }
      if !file.decodeOk {
        pdfError := ProcessingFailed;
        return None;
      }
      var pages := [RenderedPage(1), RenderedPage(2), RenderedPage(3)];
      update := Some(FilesUpdate(map[BackCover := pages[0], Spine := pages[1], FrontCover := pages[2]]));
    }
  }

  /** The "cover files" button: leaves professional mode and clears its file, keeping the other slots. */
  function CoverFilesMode(files: Files): (u: ConfigUpdate)
    ensures u.isProfessionalCover == Some(false) && u.isPreTested == Some(false)
    ensures u.designService.Some? && !u.designService.value.enabled
    ensures u.files.Some? && ProfessionalCover !in u.files.value
    ensures forall s :: s != ProfessionalCover ==> (s in u.files.value <==> s in files)
    ensures forall s :: s != ProfessionalCover && s in files ==> u.files.value[s] == files[s]
  {
    NoUpdate.(
      isProfessionalCover := Some(false),
      isPreTested := Some(false),
      designService := Some(DesignService(false, None, None, None)),
      files := Some(files - {ProfessionalCover}))
  }

  /**
   * After switching to cover-files mode the design service no longer costs
   * anything, its contact fields are gone (the whole object is replaced), and the
   * format, binding and individual cover slots are as before.
   */
  lemma CoverFilesModeEffect(c: BookConfig)
    ensures var r := Merge(c, CoverFilesMode(c.files));
      && DesignCharge(r) == 0.0
      && r.designService == DesignService(false, None, None, None)
      && r.format == c.format && r.bindingType == c.bindingType
      && r.files == c.files - {ProfessionalCover}
  {
  }
}

/** The book configuration record that the wizard edits, and the spread merge `{ ...prev, ...updates }` that applies a partial update to it. */
module Book {
  import opened Wrappers

  datatype Binding = Hardcover | Softcover

  /** The named trim formats; the numeric ones are given in centimetres. */
  datatype Format =
    | A4 | A5 | A6 | A4Landscape | A5Landscape
    | Cm17x24 | Cm15_5x22 | Cm21x21 | Cm21x28 | Cm13x19
    | Custom

  datatype PaperType =
    | Recycling80 | Offset80 | Offset100 | Offset120 | Offset160
    | Volume80_1_5 | Volume90_1_8
    | ArtMatt100 | ArtGloss100 | ArtMatt135 | ArtGloss135 | ArtMatt170 | ArtGloss170

  datatype SpineType = Straight | Curved

  datatype CoverFinish = Matte | Glossy

  /** A custom trim size in millimetres; a field may be missing (`undefined`). */
  datatype CustomFormat = CustomFormat(width: Option<real>, height: Option<real>)

  /** The keys of the `files` record. */
  datatype Slot = FrontCover | Spine | BackCover | ProfessionalCover | ContentPdf

  /**
   * An uploaded file. Besides its name and MIME type it carries the outcomes of the
   * browser's foreign decoders: `pdfPages` is the page count pdf.js reports (None when
   * pdf.js cannot open it), `decodeOk` whether rasterising or reading it succeeds.
   */
  datatype UploadedFile = UploadedFile(name: string, mimeType: string, pdfPages: Option<int>, decodeOk: bool)

  type Files = map<Slot, UploadedFile>

  /** `designService`; the strings may be missing after the cover-mode reset replaces the whole object. */
  datatype DesignService = DesignService(enabled: bool, email: Option<string>, phone: Option<string>, brief: Option<string>)

  datatype HardcoverOptions = HardcoverOptions(frontPaperColor: string, headbandColor: string, ribbonColor: Option<string>)

  datatype BookConfig = BookConfig(
    bindingType: Binding,
    paperType: PaperType,
    pageCount: int,
    format: Format,
    customFormat: Option<CustomFormat>,
    isColorPages: bool,
    spineType: SpineType,
    quantity: int,
    coverFinish: CoverFinish,
    files: Files,
    isProfessionalCover: bool,
    isPreTested: bool,
    contentPdfValidated: bool,
    backgroundColor: Option<string>,
    designService: DesignService,
    hardcoverOptions: HardcoverOptions,
    comments: Option<string>)

  /** The derived cover geometry in millimetres. */
  datatype Dimensions = Dimensions(spineWidth: real, coverWidth: real, coverHeight: real)

  /** Bleed margins in millimetres. */
  datatype BleedMeasurement = BleedMeasurement(horizontal: real, vertical: real)

  /** JavaScript truthiness of an optional string: present and non-empty. */
  predicate Truthy(s: Option<string>) {
    s.Some? && s.value != ""
  }

  /**
   * `Partial<BookConfig>`: None means the key is absent from the update object.
   * For an optional field, `Some(None)` is the key present with value `undefined`.
   */
  datatype ConfigUpdate = ConfigUpdate(
    bindingType: Option<Binding>,
    paperType: Option<PaperType>,
    pageCount: Option<int>,
    format: Option<Format>,
    customFormat: Option<Option<CustomFormat>>,
    isColorPages: Option<bool>,
    spineType: Option<SpineType>,
    quantity: Option<int>,
    coverFinish: Option<CoverFinish>,
    files: Option<Files>,
    isProfessionalCover: Option<bool>,
    isPreTested: Option<bool>,
    contentPdfValidated: Option<bool>,
    backgroundColor: Option<Option<string>>,
    designService: Option<DesignService>,
    hardcoverOptions: Option<HardcoverOptions>,
    comments: Option<Option<string>>)

  /** The update with no keys. */
  const NoUpdate := ConfigUpdate(None, None, None, None, None, None, None, None, None, None, None, None, None, None, None, None, None)

  /** `{ ...c, ...u }`: every key present in `u` overwrites, every other key keeps its value. */
  function Merge(c: BookConfig, u: ConfigUpdate): (r: BookConfig)
    ensures u.bindingType.None? ==> r.bindingType == c.bindingType
    ensures u.bindingType.Some? ==> r.bindingType == u.bindingType.value
    ensures u.paperType.None? ==> r.paperType == c.paperType
    ensures u.paperType.Some? ==> r.paperType == u.paperType.value
    ensures u.pageCount.None? ==> r.pageCount == c.pageCount
    ensures u.pageCount.Some? ==> r.pageCount == u.pageCount.value
    ensures u.format.None? ==> r.format == c.format
    ensures u.format.Some? ==> r.format == u.format.value
    ensures u.customFormat.None? ==> r.customFormat == c.customFormat
    ensures u.customFormat.Some? ==> r.customFormat == u.customFormat.value
    ensures u.isColorPages.None? ==> r.isColorPages == c.isColorPages
    ensures u.isColorPages.Some? ==> r.isColorPages == u.isColorPages.value
    ensures u.spineType.None? ==> r.spineType == c.spineType
    ensures u.spineType.Some? ==> r.spineType == u.spineType.value
    ensures u.quantity.None? ==> r.quantity == c.quantity
    ensures u.quantity.Some? ==> r.quantity == u.quantity.value
    ensures u.coverFinish.None? ==> r.coverFinish == c.coverFinish
    ensures u.coverFinish.Some? ==> r.coverFinish == u.coverFinish.value
    ensures u.files.None? ==> r.files == c.files
    ensures u.files.Some? ==> r.files == u.files.value
    ensures u.isProfessionalCover.None? ==> r.isProfessionalCover == c.isProfessionalCover
    ensures u.isProfessionalCover.Some? ==> r.isProfessionalCover == u.isProfessionalCover.value
    ensures u.isPreTested.None? ==> r.isPreTested == c.isPreTested
    ensures u.isPreTested.Some? ==> r.isPreTested == u.isPreTested.value
    ensures u.contentPdfValidated.None? ==> r.contentPdfValidated == c.contentPdfValidated
    ensures u.contentPdfValidated.Some? ==> r.contentPdfValidated == u.contentPdfValidated.value
    ensures u.backgroundColor.None? ==> r.backgroundColor == c.backgroundColor
    ensures u.backgroundColor.Some? ==> r.backgroundColor == u.backgroundColor.value
    ensures u.designService.None? ==> r.designService == c.designService
    ensures u.designService.Some? ==> r.designService == u.designService.value
    ensures u.hardcoverOptions.None? ==> r.hardcoverOptions == c.hardcoverOptions
    ensures u.hardcoverOptions.Some? ==> r.hardcoverOptions == u.hardcoverOptions.value
    ensures u.comments.None? ==> r.comments == c.comments
    ensures u.comments.Some? ==> r.comments == u.comments.value
    ensures u == NoUpdate ==> r == c
  {
    BookConfig(
      u.bindingType.GetOr(c.bindingType),
      u.paperType.GetOr(c.paperType),
      u.pageCount.GetOr(c.pageCount),
      u.format.GetOr(c.format),
      u.customFormat.GetOr(c.customFormat),
      u.isColorPages.GetOr(c.isColorPages),
      u.spineType.GetOr(c.spineType),
      u.quantity.GetOr(c.quantity),
      u.coverFinish.GetOr(c.coverFinish),
      u.files.GetOr(c.files),
      u.isProfessionalCover.GetOr(c.isProfessionalCover),
      u.isPreTested.GetOr(c.isPreTested),
      u.contentPdfValidated.GetOr(c.contentPdfValidated),
      u.backgroundColor.GetOr(c.backgroundColor),
      u.designService.GetOr(c.designService),
      u.hardcoverOptions.GetOr(c.hardcoverOptions),
      u.comments.GetOr(c.comments))
  }

  /** The update that sets only `files`. */
  function FilesUpdate(files: Files): (u: ConfigUpdate)
    ensures u.files == Some(files)
  {
    NoUpdate.(files := Some(files))
  }

  /** Merging an update that sets only `files` changes nothing but `files`. */
  lemma MergeFilesOnly(c: BookConfig, files: Files)
    ensures Merge(c, FilesUpdate(files)) == c.(files := files)
  {
  }

  /** Applying the same update twice is the same as applying it once. */
  lemma MergeIdempotent(c: BookConfig, u: ConfigUpdate)
    ensures Merge(Merge(c, u), u) == Merge(c, u)
  {
  }
}

# Cover-mounting web application: verified model of its core

This project models, in Dafny, the logic at the heart of a browser application
that lets a customer configure a printed book (binding, paper, format, page
count, quantity, options), upload cover artwork, preview the mounted cover and
order it. What is modelled:

- **Dimensions and price** (`calculations.dfy`): the format and paper tables,
  spine width and cover-sheet size, the bleed per binding, and the price with
  its tiered bulk discount.
- **Cover preview placement** (`preview.dfy`): where the back, spine and front
  panels go on the cover sheet at a given front/back scale, which PDF page
  feeds which panel, the order in which panels are built and the scale update.
- **PDF page sizing** (`pdf_export.dfy`): the page size in points and the
  orientation of the exported cover PDF.
- **Upload slots** (`file_upload.dfy`): setting and deleting cover files, the
  combined three-page cover PDF, and the switch back to separate cover files.
- **Wizard** (`configurator.dfy`): the four-step configurator, its initial
  configuration, the "can proceed" rule and the back/next/finish navigation.
- **Bleed detection** (`bleed.dfy`): the scan of the rendered canvas for
  non-white pixels in the four edge strips one bleed wide.
- **Content-PDF check** (`pdf_validation.dfy`): page count, then page size
  against the expected trim size with a 0.5 mm tolerance.
- **Saved configurations** (`auth_store.dfy`): the signed-in user and the list
  of saved configurations with append, delete and update by id, and logout.
- **Cookie consent** (`cookies.dfy`): consent-gated reads and writes of the
  settings, the configuration and the consent flag in the cookie jar.
- **Device detection** (`device.dfy`): the user-agent keyword predicates.

Shared pieces: `wrappers.dfy` (Option, Result), `text.dfy` (decimal rendering
of naturals) and `book.dfy` (the configuration record and the
`{ ...config, ...updates }` merge).

All lengths are millimetre values of type `real`; IEEE rounding is not
modelled. Where outside code produces a value (pdf.js, image decoding, the
clock, the paper price table, JSON) it is a parameter or a field of an input
record.

Where the code and the written description of the application disagree, the
model follows the code:
- a custom format without a `customFormat` object gets the table's 0 x 0
  placeholder, not A4; the initial configuration has no `customFormat`
  (src/components/BookConfigurator.tsx:39), so choosing custom there gives a
  0 x 0 trim (`Configurator.CustomWithoutSizeHasNoTrim`);
- the combined cover PDF maps page 1 to the back, 2 to the spine and 3 to the
  front, as the code and the label at src/components/steps/FileUploadStep.tsx:207
  do; the help text at line 244 lists another order;
- the content-PDF check expects the bare trim size, although the upload screen
  (src/components/ContentPDFUpload.tsx:106) asks for the size with bleed
  (`PdfValidation.BleedSizedA4Rejected`), and checks every named format other
  than A4 against 148 x 210 mm (`PdfValidation.OtherFormatsCheckedAsA5`).

## Model

| member | source | states |
|---|---|---|
| Text.NatToString | src/store/authStore.ts:39-40 | the decimal text of a number has digits only, no leading zero, and reads back as the number |
| Book.Merge | src/components/BookConfigurator.tsx:55-57 | spread merge, key by key for all seventeen keys: a key present in the update takes the update's value, an absent key keeps the configuration's; the empty update changes nothing |
| Book.FilesUpdate | src/components/steps/FileUploadStep.tsx:21 | the update that carries only a new files map |
| Book.MergeFilesOnly | src/components/steps/FileUploadStep.tsx:21 | merging a files-only update changes nothing but `files` |
| Book.MergeIdempotent | src/components/BookConfigurator.tsx:55-57 | applying the same update twice equals applying it once |
| Calculations.PaperThickness | src/utils/calculations.ts:19-33 | every paper's thickness per page is strictly between 0 and 0.1 mm |
| Calculations.GetBleedMeasurements | src/utils/calculations.ts:154-159 | the bleed is positive; wider than tall for hardcover (14.5 / 13), equal for softcover (3 / 3) |
| Calculations.CalculateDimensions | src/utils/calculations.ts:58-91 | the spine is pages times thickness plus the binding's extra; the cover less twice the bleed is two trim widths plus the spine wide and one trim height tall |
| Calculations.TrimResolution | src/utils/calculations.ts:4-16 | named formats come from the table; custom with a customFormat falls back to 210 / 297 per missing or zero field; custom without one gets 0 x 0 |
| Calculations.CoverAllowances | src/utils/calculations.ts:78-84 | the cover adds 29 / 26 mm (hardcover) or 6 / 6 mm (softcover) around the trim, which is twice the bleed |
| Calculations.SpineGrowsPerPage | src/utils/calculations.ts:73-75 | one more page widens the spine by exactly one paper thickness |
| Calculations.HardcoverA4Example | src/utils/calculations.ts:29 | hardcover A4 on 135 g art matt with 100 pages gives spine 11.8 and cover 460.8 x 323 |
| Calculations.SoftcoverA5Example | src/utils/calculations.ts:58-91 | softcover A5 on 80 g offset with 40 pages gives spine 2.2 and cover 304.2 x 216 |
| Calculations.DiscountRate | src/utils/calculations.ts:131-140 | the tier rate lies between 0 and 20% |
| Calculations.DiscountRateMonotone | src/utils/calculations.ts:131-140 | a larger quantity never gets a smaller discount rate |
| Calculations.TieredTotal | src/utils/calculations.ts:128-143 | one copy plus `q - 1` copies is `q` copies, and the total is `1 - rate` of that |
| Calculations.Totals | src/utils/calculations.ts:128-143 | the quantity, discount and total steps satisfy `PricedFor`: sum for all copies, tier rate of it, and the remainder |
| Calculations.CalculatePrice | src/utils/calculations.ts:93-152 | base and options are the source's accumulators; the breakdown is priced for the quantity: discount = rate x per-copy x quantity, total = (1 - rate) x per-copy x quantity |
| Calculations.TotalWithinDiscountRange | src/utils/calculations.ts:131-143 | for at least one copy and a non-negative per-copy price, the total lies between 80% and 100% of the undiscounted sum |
| Calculations.BindingSurcharge | src/utils/calculations.ts:95-100 | hardcover adds 15 and softcover 5 to pages x paper price x format multiplier |
| Calculations.ColourSurcharge | src/utils/calculations.ts:110-113 | colour pages add 0.15 per page |
| Calculations.GlossySurcharge | src/utils/calculations.ts:115-118 | a glossy finish adds 2 |
| Calculations.RibbonSurcharge | src/utils/calculations.ts:120-125 | a non-empty ribbon colour adds 3 on a hardcover and nothing on a softcover |
| Calculations.DesignServiceSurcharge | src/utils/calculations.ts:105-108 | the design service adds 50 only with a professional cover |
| Preview.PlacePanel | src/components/steps/PreviewStep.tsx:109-155 | the spine is unscaled at the centre slot; the back's right edge and the front's left edge touch the spine; side panels are scaled in both axes; every panel stays vertically centred on the safe area |
| Preview.SlotsAreTrimSize | src/components/steps/PreviewStep.tsx:110-113 | with the calculator's dimensions, the side width is the trim width and the safe height the trim height |
| Preview.ScalesKeepSpineFlush | src/components/steps/PreviewStep.tsx:127-142 | for any two scale settings the spine is the same, the back stays flush against it and the front's x does not move |
| Preview.UnitScaleTiles | src/components/steps/PreviewStep.tsx:127-142 | at scale 1 back, spine and front tile the area between the horizontal bleeds, and the spine edges are the guide lines of src/utils/canvas.ts:55-60 |
| Preview.PdfPageFor | src/components/steps/PreviewStep.tsx:72 | a panel reads the PDF page numbered by its 1-based position in the back, spine, front loading order |
| Preview.LoadImage | src/components/steps/PreviewStep.tsx:57-171 | a panel loads exactly when its file decodes and, for a PDF, its page exists; the element is then the placed panel; an unreadable PDF fails to open; a page past the end always reports the page count and the requested page; a decode failure otherwise reports that |
| Preview.SinglePagePdfLoadsOnlyBack | src/components/steps/PreviewStep.tsx:72-77 | a one-page PDF loads for the back panel and for no other |
| Preview.InitElements | src/components/steps/PreviewStep.tsx:174-201 | at most three elements in back, spine, front order; a panel is present exactly when its file is there and loads; each is its loaded element |
| Preview.LoadedOrder | src/components/steps/PreviewStep.tsx:177-194 | the built list is the concatenation of the three panels' outcomes in order, each missing or failing one left out alone |
| Preview.ApplyScales | src/components/steps/PreviewStep.tsx:204-217 | the scale effect changes only `scale`, and only on front and back elements |
| Preview.ApplyScalesAfterLoad | src/components/steps/PreviewStep.tsx:204-217 | applying the same scales to freshly loaded elements changes nothing |
| PdfExport.GeneratePdf | src/utils/pdfExport.ts:4-24 | the page is the cover size in points, landscape exactly when wider than tall, and the image fills it from (0, 0) |
| PdfExport.PageIgnoresCanvas | src/utils/pdfExport.ts:6-15 | the page size does not depend on the canvas |
| PdfExport.SquareIsPortrait | src/utils/pdfExport.ts:12 | a square cover gives a portrait page |
| PdfExport.RoundTripDrift | src/utils/pdfExport.ts:5-8 | converting mm to pt and back with the repository's two constants scales by 1.00006452, about 0.03 mm on a 460.8 mm cover |
| FileUpload.HandleFileUpload | src/components/steps/FileUploadStep.tsx:15-22 | the update sets only `files`: the slot holds the new file, every other slot is unchanged |
| FileUpload.HandleFileDelete | src/components/steps/FileUploadStep.tsx:24-28 | the update sets only `files`: the slot is gone, every other slot is unchanged |
| FileUpload.UploadThenDelete | src/components/steps/FileUploadStep.tsx:15-28 | deleting right after an upload is the same as deleting |
| FileUpload.CombinedFiles | src/components/steps/FileUploadStep.tsx:69-75 | a combined PDF fills exactly the back, spine and front slots |
| FileUpload.CombinedMatchesPreviewPages | src/components/steps/FileUploadStep.tsx:69-75 | the combined PDF puts in each slot the page the preview reads for that panel, and all three load |
| FileUpload.RenderedPagesDistinct | src/components/steps/FileUploadStep.tsx:61 | different pages render to different files |
| FileUpload.FileUploadStep.HandlePdfUpload | src/components/steps/FileUploadStep.tsx:30-80 | an unreadable PDF or failed render is a processing error, a page count other than 3 a page-count error; otherwise no error and the combined files |
| FileUpload.CoverFilesMode | src/components/steps/FileUploadStep.tsx:150-158 | switching to separate cover files clears the professional and pre-tested flags, disables the design service and drops only the professional cover file |
| FileUpload.CoverFilesModeEffect | src/components/steps/FileUploadStep.tsx:150-158 | after the switch the configuration keeps its cover files and has no professional cover |
| Configurator.InitialConfig | src/components/BookConfigurator.tsx:14-41 | the initial configuration has no files and no professional cover, so the upload step starts blocked; one copy, a positive page count and no custom size |
| Configurator.CanProceed | src/components/BookConfigurator.tsx:64-80 | only step 2 can block: a professional cover needs its file and the pre-test, otherwise front, spine and back must all be there |
| Configurator.BookConfigurator.constructor | src/components/BookConfigurator.tsx:51-53 | the wizard starts on the welcome screen with the initial configuration |
| Configurator.BookConfigurator.UpdateConfig | src/components/BookConfigurator.tsx:55-57 | the configuration becomes the merge; the step does not change |
| Configurator.BookConfigurator.HandleStart | src/components/BookConfigurator.tsx:59-62 | leaving the welcome screen goes to step 1 |
| Configurator.BookConfigurator.HandleFinish | src/components/BookConfigurator.tsx:82-93 | finishing resets to the welcome screen and the initial configuration |
| Configurator.BookConfigurator.ClickBack | src/components/BookConfigurator.tsx:166-172 | back goes one step down and never below step 1; the step always stays within 0..3 |
| Configurator.BookConfigurator.ClickNext | src/components/BookConfigurator.tsx:178 | next is blocked unless the step can proceed; from the last step it finishes, otherwise it moves one step up |
| Configurator.CustomWithoutSizeHasNoTrim | src/utils/calculations.ts:63-70 | choosing custom in the initial configuration gives a 0 x 0 trim |
| Configurator.InitialDimensions | src/components/BookConfigurator.tsx:14-41 | the initial configuration's cover is 460.8 x 323 with an 11.8 mm spine |
| Configurator.CombinedUploadUnblocks | src/components/BookConfigurator.tsx:64-80 | after the cover-files switch and a combined PDF, step 2 can proceed |
| BleedCheck.SetFlag | src/utils/bleed.ts:17-22 | marking a position sets its flag and leaves the others |
| BleedCheck.Ceil | src/utils/bleed.ts:26 | `Math.ceil`: the least integer not below its argument |
| BleedCheck.BleedPixels | src/utils/bleed.ts:8-26 | the strip is the least whole number of pixels covering 3 mm at canvas width / cover width pixels per mm, and at least 1 |
| BleedCheck.GetImageData | src/utils/bleed.ts:33-35 | the region buffer has four entries per pixel |
| BleedCheck.HasContent | src/utils/bleed.ts:33-44 | the scan finds content exactly when some pixel has red, green or blue other than 255; alpha is ignored |
| BleedCheck.ScanFindsRegionContent | src/utils/bleed.ts:33-44 | scanning the region's buffer finds content exactly when the region has a non-white pixel |
| BleedCheck.RegionScan | src/utils/bleed.ts:33-44 | hasContent of a region is the region's content |
| BleedCheck.ValidateBleed | src/utils/bleed.ts:1-59 | with bleed images, whatever the canvas and cover width, exactly their positions are flagged; otherwise each flag is the content of its strip (top and bottom rows, left and right columns, one bleed wide) |
| BleedCheck.WhiteCanvasHasNoBleed | src/utils/bleed.ts:33-44 | an all-white canvas has no content in any region inside it |
| PdfValidation.ExpectedSize | src/utils/pdfValidation.ts:39-49 | custom with a custom size gives its fields; otherwise both sides are set and portrait, and for A4 and A5 they are the calculator's trim |
| PdfValidation.WithinTolerance | src/utils/pdfValidation.ts:51-56 | an axis passes within 0.5 mm, boundary included, or when no value is expected |
| PdfValidation.ValidateContentPdf | src/utils/pdfValidation.ts:12-71 | valid exactly when readable, the page count matches, there is a page and both axes (points x 0.3528) are within tolerance; valid carries no error; a count mismatch reports the counts; a failure reports the generic error |
| PdfValidation.PageCountCheckedFirst | src/utils/pdfValidation.ts:24-29 | a page-count mismatch is reported whatever the page size |
| PdfValidation.ExpectedIsTrimForA4A5AndCustom | src/utils/pdfValidation.ts:43-49 | for A4, A5 and a fully given custom size, the expected size is the calculator's trim size |
| PdfValidation.OtherFormatsCheckedAsA5 | src/utils/pdfValidation.ts:47-48 | every other named format is checked against 148 x 210, which is not its trim size |
| PdfValidation.ToleranceIsInclusive | src/utils/pdfValidation.ts:51-61 | a page exactly 0.5 mm off on both axes is accepted |
| PdfValidation.BleedSizedA4Rejected | src/utils/pdfValidation.ts:43-61 | an A4 page of 216 x 303 mm is rejected with the expected and actual sizes |
| PdfValidation.UnsetCustomWidthPasses | src/utils/pdfValidation.ts:43-56 | a custom format without a width checks only the height |
| AuthStore.ApplyUpdate | src/store/authStore.ts:53 | each field present in the update overrides the entry's |
| AuthStore.EntryName | src/store/authStore.ts:40 | a non-empty given name is used as is; otherwise "Book " followed by the new entry's position |
| AuthStore.DefaultNamesDistinct | src/store/authStore.ts:40 | default names of lists of different lengths differ |
| AuthStore.WithoutId | src/store/authStore.ts:48-50 | no entry with the id is left and nothing is added |
| AuthStore.WithoutIdConcat | src/store/authStore.ts:48-50 | deleting from a concatenation deletes from each part, so order is kept |
| AuthStore.WithoutIdCounts | src/store/authStore.ts:48-50 | every entry with another id keeps its multiplicity; entries with the id are all removed |
| AuthStore.WithoutAbsentId | src/store/authStore.ts:48-50 | deleting an id that is not there changes nothing |
| AuthStore.MergedById | src/store/authStore.ts:51-55 | the length is kept; entries with the id get the update, others are identical |
| AuthStore.UpdateThenDelete | src/store/authStore.ts:48-55 | updating entries without changing their id, then deleting that id, is deleting it |
| AuthStore.SaveThenDelete | src/store/authStore.ts:37-50 | deleting the id of a newly saved entry gives back the old list |
| AuthStore.AuthState.Persisted | src/store/authStore.ts:92-98 | only the user, the saved list and the authenticated flag are persisted |
| AuthStore.AuthState.constructor | src/store/authStore.ts:28-33 | no user, not authenticated, loading, modals closed, empty list |
| AuthStore.AuthState.SetUser | src/store/authStore.ts:34 | authenticated exactly when a user is set; nothing else changes |
| AuthStore.AuthState.SetShowAuthModal | src/store/authStore.ts:35 | sets the flag; the persisted state is unchanged; the authenticated flag still tells whether there is a user |
| AuthStore.AuthState.SetShowProfileModal | src/store/authStore.ts:36 | sets the flag; the persisted state is unchanged; the authenticated flag still tells whether there is a user |
| AuthStore.AuthState.SaveConfig | src/store/authStore.ts:37-47 | appends exactly one entry at the end (clock-based id, given or default name); the prefix is unchanged; the authenticated flag still tells whether there is a user |
| AuthStore.AuthState.DeleteConfig | src/store/authStore.ts:48-50 | the list becomes the filtered list; the authenticated flag still tells whether there is a user |
| AuthStore.AuthState.UpdateConfig | src/store/authStore.ts:51-55 | the list becomes the merged-by-id list; the authenticated flag still tells whether there is a user |
| AuthStore.AuthState.Logout | src/store/authStore.ts:56-63 | no user, not authenticated, empty list, modals closed, not loading |
| Cookies.Stored | src/utils/cookies.ts:38-39 | a cookie counts as saved exactly when it is set and not empty |
| Cookies.LoadCookieSettings | src/utils/cookies.ts:36-46 | no saved settings cookie, or one that does not parse: the defaults (only necessary on); a parsed patch: each flag it carries overrides the default, each flag it lacks keeps the default |
| Cookies.ForcedNecessary | src/utils/cookies.ts:26 | the written settings have necessary on and the other flags as given |
| Cookies.SettingsRoundTrip | src/utils/cookies.ts:24-46 | when the codec parses the written settings back, loading after saving gives the saved settings with necessary on |
| Cookies.SettingsCodecExists | src/utils/cookies.ts:24-46 | a codec that parses every written settings value back exists, so the round-trip condition can be met for all settings |
| Cookies.WithoutFiles | src/utils/cookies.ts:75-76 | the written config has no `files` key and is otherwise the given one |
| Cookies.LoadConfigFromCookies | src/utils/cookies.ts:89-101 | nothing without the preferences consent or a saved config |
| Cookies.ConfigRoundTrip | src/utils/cookies.ts:72-101 | with the preferences consent, and when the codec parses the written config back, a saved config loads back without its files |
| Cookies.GetConsentStatus | src/utils/cookies.ts:111-113 | consent is given exactly when the stored consent is the text written for true; a missing cookie or "false" is no consent |
| Cookies.ConsentRoundTrip | src/utils/cookies.ts:103-113 | reading the consent after setting it gives the value set; no consent cookie reads as false |
| Cookies.CookieJar.constructor | src/utils/cookies.ts:1-9 | the jar and the JSON codecs, with no condition on the codecs |
| Cookies.CookieJar.SaveCookieSettings | src/utils/cookies.ts:24-34 | writes the encoded settings with necessary on and nothing else; when the codec parses that value back, they load back |
| Cookies.CookieJar.SaveConfigToCookies | src/utils/cookies.ts:72-87 | without the preferences consent the jar is unchanged; with it the encoded config without files is written and nothing else, and it loads back when the codec parses it back |
| Cookies.CookieJar.SetConsentStatus | src/utils/cookies.ts:103-109 | writes "true" or "false", which reads back as the value set |
| Cookies.CookieJar.ClearAllCookies | src/utils/cookies.ts:115-120 | removes every cookie, leaving the jar empty |
| Device.ToLower | src/utils/device.ts:2 | same length, each letter A-Z lowered and every other character kept |
| Device.IncludesIff | src/utils/device.ts:5 | `includes` is true exactly when the keyword occurs at some index |
| Device.AnyIncluded | src/utils/device.ts:5 | `some` is true exactly when some keyword is included |
| Device.AnyIncludedIff | src/utils/device.ts:5 | some keyword is included exactly when some keyword occurs at some index |
| Device.IsMobileDevice | src/utils/device.ts:1-6 | mobile exactly when one of iphone, ipod, android, mobile, phone, tablet occurs in the lowered agent |
| Device.IsSafariMobile | src/utils/device.ts:8-11 | Safari-mobile exactly when iphone, ipod or ipad occurs in the lowered agent |
| Device.CaseInsensitive | src/utils/device.ts:2-9 | lower-casing the agent first changes neither predicate |
| Device.IphoneIsBoth | src/utils/device.ts:3-10 | an iphone or ipod agent is both mobile and Safari-mobile |
| Device.SafariOnlyIffIpad | src/utils/device.ts:3-10 | for every agent: Safari-mobile but not mobile exactly when the lowered agent contains ipad and no mobile keyword |
| Device.IpadAloneIsNotMobile | src/utils/device.ts:3-10 | the bare "iPad" agent is Safari-mobile but not mobile, so such agents exist |
| Device.EmptyAgent | src/utils/device.ts:1-11 | an empty agent is neither |

## Left out

- Firebase authentication, Firestore orders, Stripe payments, the auth-state
  listener and the persist middleware's storage: network and foreign SDK calls.
  Only what the middleware persists (`AuthStore.AuthState.Persisted`) is modelled.
- pdf.js, canvas rasterisation, `toDataURL`/`toBlob`, FileReader and image
  decoding: their outcomes are inputs (page count, a decode flag, the page size
  in points, the canvas pixel buffer). A `toBlob` that never calls back is not
  modelled.
- Image resizing (src/utils/fileProcessing.ts, src/utils/imageProcessing.ts)
  and the drawing calls of src/utils/canvas.ts: pixel output only; only the
  spine-guide positions are used.
- React components, effects scheduling and the interleaving of asynchronous
  loads: each operation is modelled as one atomic step.
- `savePreferences` and `loadPreferences`: not among the modelled operations;
  the preferences cookie name is declared.
- Cookie options (expiry, SameSite, Secure) and `js-cookie` exceptions: the
  jar is a map; a write cannot fail.
- `JSON.stringify`/`JSON.parse`: an encode/decode pair given as a parameter;
  parsing arbitrary text is whatever the pair does.
- Cookies.ConfigRoundTrip: keys set to `undefined` vanish in JSON; the codec
  requirement assumes the written config decodes to itself.
- Error messages are structured values carrying the numbers they print, not
  formatted strings (`toFixed(1)` is not modelled).
- IEEE floating point: all arithmetic is exact on `real`; `NaN` from a missing
  custom size is modelled only where the source compares it (an axis with no
  expected value passes).
- Calculations.CalculatePrice: the per-page paper price table is referenced but
  never declared in src/utils/calculations.ts, so it is a parameter.
- AuthStore.AuthState.SaveConfig: `Date.now()` is read twice; the two readings
  are parameters.
- Device.ToLower: only ASCII A-Z are lowered, not the full Unicode mapping.
- FileUpload.CoverFilesMode: the source sets `professionalCover` to
  `undefined` in the files spread; the model removes the key, which every
  reader of the map treats the same.
- Configurator.BookConfigurator.HandleFinish: the click on the export button
  found by a DOM query (src/components/BookConfigurator.tsx:83-87), which
  starts the PDF export before the reset, is not modelled; only the reset is.
- BleedCheck.BleedPixels and BleedCheck.ValidateBleed: a cover width of zero or
  less, for which the source computes an infinite or negative strip width, is
  excluded by their preconditions when no bleed images are given; with bleed
  images the width and the canvas are not read and nothing is required.
- BleedCheck.GetImageData and BleedCheck.ValidateBleed: a canvas or strip of
  zero width or height, for which `getImageData` throws `IndexSizeError`, is
  excluded by their preconditions (at least one pixel each way) rather than
  modelled as an error.
- Cookies.CookieJar.SaveCookieSettings, Cookies.CookieJar.SaveConfigToCookies:
  that the written value loads back is promised only for a codec that parses
  that value back to itself, as `JSON.parse` does for `JSON.stringify`.

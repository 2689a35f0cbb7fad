# resumeio-to-pdf: verified model of the downloader core

This project models the core of `ResumeioDownloader`. The downloader turns a
resume.io identifier into a PDF. It checks and normalises the identifier, lists
one image address per page of the resume's metadata, and lays the pages out in
one of two ways:

- **plain mode** stretches each page image over the first page's viewport and
  places link rectangles with a vertical flip;
- **searchable mode** scales an OCR page into that viewport and places link
  corner rectangles without the flip.

Modules, one per concern:

- `Wrappers` (`wrappers.dfy`): `Option` and `Result`.
- `Decimal` (`decimal.dfy`): the decimal text that `str.format` writes for an
  `int`, and its inverse.
- `ResumeId` (`resume_id.dfy`): the two identifier regular expressions, written
  as hand-made matchers with Python `re` semantics, and `Normalise`.
- `ImageUrls` (`image_urls.dfy`): the `IMAGE_URL` template and the list of page
  addresses.
- `Layout` (`layout.dfy`): the data the generators use. This covers the
  viewport, link, metadata page, annotation and planned page, plus the link
  placement in both modes, the scale factor, and the pure plans
  `PlainPlan` / `SearchablePlan`.
- `Downloader` (`downloader.dfy`): the class `ResumeioDownloader`. Its fields
  are the dataclass's instance data: the resume id, the image format and size,
  the cache date, the image address list, the metadata and the buffer. The two
  URL templates are fixed constants here (see "Left out"). Its methods are `PostInit` (`__post_init__`),
  `FormatImagesUrls`, `GeneratePdfSearchable`, `GeneratePdf` and `Run`. Each
  loop method is proved against the plan functions in `Layout` and
  `ImageUrls`.

The model follows the code as written:

- Plain mode sizes every page to the FIRST metadata page's viewport. It also
  flips every link against that viewport's height. It does not use each page's
  own viewport (`app/services/resumeio.py:153-166`).
- An empty metadata list makes `metadata[0]` fail. The model reports this as
  `GenError.NoPages`, in both modes.
- An image address without a matching metadata entry makes `metadata[i]` fail.
  This can happen when `images_urls` was passed in non-empty. The model reports
  it as `MissingPageMetadata(i)`.
- An OCR page with a zero side makes the division fail. The model reports it as
  `ZeroOcrDimension(i)`. On a page, the division comes before the metadata
  lookup.
- The identifier pattern's `$` also matches just before one final newline. So
  `"abc123XYZ\n"` is accepted and kept with its newline.
- The unescaped `.` in `resume.io/r/` matches any character except a newline.

## Model

| member | source | states |
|---|---|---|
| `Decimal.NatToString` | app/services/resumeio.py:89-96 | the page number is written as at least one decimal digit with no leading zero |
| `Decimal.DecimalRoundTrip` | app/services/resumeio.py:89-96 | reading the written page number back as decimal gives the number again |
| `Decimal.NatToStringInjective` | app/services/resumeio.py:89-96 | two page numbers have the same text exactly when they are equal |
| `ResumeId.FindUrlMatch` | app/services/resumeio.py:50 | the URL search returns the leftmost position where `resume?io/r/` is followed by 9 letters/digits, and None exactly when no position matches |
| `ResumeId.BareIdKept` | app/services/resumeio.py:49-53 | an input of exactly 9 ASCII letters/digits is accepted and kept unchanged |
| `ResumeId.UrlIdExtracted` | app/services/resumeio.py:50-56 | any other input becomes exactly the first 9-character run that follows `resume?io/r/`; later characters are dropped |
| `ResumeId.InvalidIdRejected` | app/services/resumeio.py:58-59 | the input is rejected exactly when neither pattern matches, with status 400 and a detail that ends with the input |
| `ResumeId.Normalise` | app/services/resumeio.py:47-59 | what it keeps always matches the token pattern; a refusal is exactly `HttpError(400, "Invalid resume id: " + input)`. BareIdKept, UrlIdExtracted and InvalidIdRejected say which case applies |
| `ResumeId.NormaliseIdempotent` | app/services/resumeio.py:47-59 | an accepted identifier normalises to itself |
| `ResumeId.ShareUrlGivesToken` | app/services/resumeio.py:50-56 | for every 9-character token and any trailing text, `https://resume.io/r/` + token + trailing text normalises to the token |
| `ResumeId.ShareUrlExample` | app/services/resumeio.py:50-56 | `https://resume.io/r/abc123XYZ/edit` normalises to `abc123XYZ` |
| `ResumeId.TrailingNewlineExample` | app/services/resumeio.py:49-53 | `abc123XYZ` followed by a newline is accepted as it is, because `$` matches before a final newline |
| `ResumeId.AnySeparatorExample` | app/services/resumeio.py:50-56 | `resume-io/r/abc123XYZ0` gives `abc123XYZ`: the unescaped dot matches any character, and the tenth character is dropped |
| `ResumeId.RejectedExample` | app/services/resumeio.py:58-59 | `abc123` is refused with `Invalid resume id: abc123` and status 400 |
| `ImageUrls.ImageUrl` | app/services/resumeio.py:42-44 | fills in the `IMAGE_URL` template. Its properties are stated by OnlyPageIdVaries, PageIdRoundTrip and ImageUrlInjective |
| `ImageUrls.PageUrls` | app/services/resumeio.py:89-96 | the addresses of pages 1..N: exactly N entries. PageUrlsAscending states their order and distinctness |
| `ImageUrls.OnlyPageIdVaries` | app/services/resumeio.py:43 | every page address is one fixed head (resume id) and one fixed tail (extension, cache date, size) around the page number |
| `ImageUrls.PageIdRoundTrip` | app/services/resumeio.py:43 | the page number can be read back from the address built for it |
| `ImageUrls.ImageUrlInjective` | app/services/resumeio.py:43 | two page numbers give the same address exactly when they are equal |
| `ImageUrls.PageUrlsAscending` | app/services/resumeio.py:89-97 | the listed addresses are N long, entry k reads back as page k+1, and no two entries are the same |
| `Downloader.ResumeioDownloader.constructor` | app/services/resumeio.py:34-40 | the dataclass fields hold the given values; there is no metadata yet and no buffer |
| `Downloader.ResumeioDownloader.PostInit` | app/services/resumeio.py:47-59 | the result is the normalisation of the old identifier; the field takes the accepted token and is left unchanged on error |
| `Downloader.New` | app/services/resumeio.py:34-59 | construction (image format `png` and size 1800 unless given) fails exactly when normalisation fails, with the same error; otherwise the new object holds the normalised id and the given parameters |
| `Downloader.ResumeioDownloader.FormatImagesUrls` | app/services/resumeio.py:87-97 | appends the addresses of pages 1..N, in order, after the existing entries, which stay unchanged |
| `Layout.PlainAnnotation` | app/services/resumeio.py:162-166 | a plain link is a box whose y lies as far below the page height as the link's top lies below the top edge. PlainAnnotationRoundTrip states that the flip can be undone |
| `Layout.PlainAnnotationRoundTrip` | app/services/resumeio.py:162-166 | a plain link is placed at (left, h - top, width, height); unflipping against the same h gives the link back |
| `Layout.PlainAnnotationExample` | app/services/resumeio.py:162-166 | a link 20 from the top of an 800-high page gets vertical origin 780 |
| `Layout.PlainPlan` | app/services/resumeio.py:151-167 | on success, one page per image address. It fails with NoPages exactly when the metadata is empty; otherwise it fails only with MissingPageMetadata(N) when there are more images than the N metadata pages. PlainPlanPages states the pages |
| `Layout.PlainPlanPages` | app/services/resumeio.py:153-166 | the plain plan succeeds exactly when there is a first page and every image has metadata; it then plans one page per image, each sized to the first viewport, with exactly that page's links in order, flipped against the first viewport's height |
| `Downloader.ResumeioDownloader.GeneratePdf` | app/services/resumeio.py:151-167 | the loops produce the plain plan; the buffer is set to it on success and left as it was on failure |
| `Layout.CornerAnnotation` | app/services/resumeio.py:132-141 | a searchable link is a corner rectangle at the link's top, with no flip, spanning exactly the link's width and height. CornerAnnotationProperties adds ordering and the inverse |
| `Layout.CornerAnnotationProperties` | app/services/resumeio.py:132-141 | a searchable link is the corner rectangle (left, top, left+width, top+height) with no flip; it is ordered when width and height are not negative, and the link can be read back from it |
| `Layout.ModesDisagreeVertically` | app/services/resumeio.py:132-166 | the vertical origins of the two modes are mirror images: plain y + searchable y0 = page height |
| `Layout.ScaleFactor` | app/services/resumeio.py:119-121 | the factor is at most both ratios target_h/h and target_w/w and equals one of them. ScaledPageFits, ScaleFactorIsLargestFit and ExactOnBothAxes state what that means for the page |
| `Layout.ScaledPageFits` | app/services/resumeio.py:119-123 | for positive sizes, the factor min(target_h/h, target_w/w) is positive; the scaled page fits inside the target and equals it on at least one axis |
| `Layout.ScaleFactorIsLargestFit` | app/services/resumeio.py:119-123 | every uniform factor that fits both axes is at most the computed factor |
| `Layout.ExactOnBothAxes` | app/services/resumeio.py:119-123 | the scaled page equals the target exactly when the two aspect ratios agree |
| `Layout.ScaleFactorExample` | app/services/resumeio.py:119-123 | a 612x792 OCR page in a 500x700 viewport is scaled by 500/612: 500 wide and less than 700 high |
| `Layout.FirstDegenerate` | app/services/resumeio.py:119-121 | returns the first OCR page with a zero side, the first where the division fails, or the page count if there is none |
| `Layout.SearchablePlan` | app/services/resumeio.py:100-147 | on success, one page per image address. It fails with NoPages exactly when the metadata is empty. ZeroOcrDimension(i) names the first OCR page with a zero side, which is at most the metadata length. MissingPageMetadata(N) happens only when every OCR page up to index N has both sides non-zero |
| `Layout.SearchablePlanPages` | app/services/resumeio.py:101-141 | the searchable plan succeeds exactly when there is a first page, every image has metadata and no OCR side is zero. Page i is then OCR page i scaled by min(target_h/h, target_w/w), both in size and content, carrying exactly metadata[i]'s links as corner rectangles in order |
| `Layout.SearchablePagesFit` | app/services/resumeio.py:101-123 | with positive sizes, every planned searchable page lies inside the first viewport and reaches it on at least one axis |
| `Downloader.ResumeioDownloader.GeneratePdfSearchable` | app/services/resumeio.py:100-147 | the loops produce the searchable plan, including which page fails first; the buffer is set on success and left as it was on failure |
| `Downloader.ResumeioDownloader.Run` | app/services/resumeio.py:61-78 | stores the metadata, appends the page addresses, and returns the plan of the selected mode (searchable by default); the buffer holds it on success |
| `Downloader.PlainRunPages` | app/services/resumeio.py:70-76 | a fresh plain run over N > 0 pages plans N pages; page i shows the image of page i+1 and has page i's link count |

## Left out

- Fetching the metadata and the images over HTTP is not modelled, and neither is
  decoding the JSON (`app/services/resumeio.py:80-85`, 104). The metadata is
  given to `Run` as a `seq<Page>`, and the metadata address template is not
  modelled. A missing `pages` key and network failures are not modelled.
- OCR is not modelled. Only the size of each OCR page is given, as `ocrSizes`,
  one entry per image address. `GeneratePdfSearchable` and `Run` require that
  lengths match, because the OCR step answers once per image.
- The PDF writers are replaced by the list of planned pages (`PdfWriter`,
  `page.scale_by`, `AnnotationBuilder`, `FPDF` and the serialisation to bytes).
  The buffer holds that list, not bytes.
- Writing and removing the temporary file `/files/file.png` is not modelled.
  This includes the removal after the loop failing when no page was processed.
- The `cache_date` default is taken from the clock once, when the class is
  defined. In the model, `cache_date` is a plain string parameter of `New`,
  with no default.
- `IMAGE_URL` and `METADATA_URL` are annotated class attributes, so the
  dataclass turns them into instance fields that a caller may override. The
  model fixes the image template as the constant form in `ImageUrls.ImageUrl`,
  and a caller-supplied template is not modelled. Modelling it would need a
  general `str.format` engine.
- A caller-supplied `images_urls` list is appended to in place, so the caller's
  list object changes too (`app/services/resumeio.py:40`, 97). The model keeps a
  `seq` value in the field. It captures the contents and order of the list, but
  not the aliasing between the caller's list and the downloader's.
- Floating-point arithmetic is not modelled: sizes and coordinates are `real`,
  and the scale factor is exact. A negative OCR page side is not ruled out; the
  fit lemmas assume positive sizes.
- The viewport is a record {width, height}. The model does not depend on the
  order of the JSON keys that `.values()` unpacks.

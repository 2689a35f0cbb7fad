/**
 * Page and annotation layout planned by the two PDF generators. The PDF
 * writers are replaced by a list of planned pages: each has a size, what
 * fills it, and the link annotations placed on it.
 */
module Layout {
  import opened Wrappers

  /** A width and a height; the viewport of a metadata page or an OCR page's media box. */
  datatype Size = Size(width: real, height: real)

  /** A link hotspot in metadata coordinates: top-left origin, y growing downward. */
  datatype Link = Link(left: real, top: real, width: real, height: real, url: string)

  /** One entry of the metadata's `pages` list. */
  datatype Page = Page(viewport: Size, links: seq<Link>)

  /** A link annotation as handed to the PDF writer. */
  datatype Annotation =
    | Box(x: real, y: real, w: real, h: real, url: string)            // FPDF.link(x, y, w, h)
    | Corners(x0: real, y0: real, x1: real, y1: real, url: string)   // AnnotationBuilder.link(rect=…)

  /** What fills a planned page. */
  datatype Content =
    | StretchedImage(imageUrl: string)                               // the raster drawn at page size
    | ScaledOcrPage(imageUrl: string, ocrSize: Size, scale: real)     // the OCR page scaled uniformly

  datatype PlannedPage = PlannedPage(size: Size, content: Content, annotations: seq<Annotation>)

  /** The planned document, in page order. */
  type Document = seq<PlannedPage>

  /** The exceptions the generators raise, with the 0-based page index where it applies. */
  datatype GenError =
    | NoPages                          // `metadata[0]` on an empty page list
    | MissingPageMetadata(index: nat)  // `metadata[i]` for an image with no metadata entry
    | ZeroOcrDimension(index: nat)     // division by a zero side of the OCR page

  // ---------------------------------------------------------------- plain mode

  /**
   * A link placed by the plain generator: y is flipped against the page
   * height, so the link's distance from the top becomes its distance below h.
   */
  function PlainAnnotation(link: Link, pageHeight: real): (a: Annotation)
    ensures a.Box? && pageHeight - a.y == link.top
  {
    Box(link.left, pageHeight - link.top, link.width, link.height, link.url)
  }

  /** Reads a plain annotation back into metadata coordinates. */
  function UnflipBox(a: Annotation, pageHeight: real): Link
    requires a.Box?
  {
    Link(a.x, pageHeight - a.y, a.w, a.h, a.url)
  }

  /** The flip loses nothing: unflipping against the same height gives the link back. */
  lemma PlainAnnotationRoundTrip(link: Link, pageHeight: real)
    ensures PlainAnnotation(link, pageHeight).Box?
    ensures UnflipBox(PlainAnnotation(link, pageHeight), pageHeight) == link
  {
  }

  /** A link 20 from the top of an 800-high page has its annotation origin at 780. */
  lemma PlainAnnotationExample()
    ensures PlainAnnotation(Link(10.0, 20.0, 100.0, 50.0, "u"), 800.0) == Box(10.0, 780.0, 100.0, 50.0, "u")
  {
  }

  function PlainAnnotations(links: seq<Link>, pageHeight: real): seq<Annotation>
  {
    seq(|links|, j requires 0 <= j < |links| => PlainAnnotation(links[j], pageHeight))
  }

  /** A plain page: the image stretched over the viewport, with the flipped links. */
  function PlainPage(viewport: Size, imageUrl: string, links: seq<Link>): PlannedPage
  {
    PlannedPage(viewport, StretchedImage(imageUrl), PlainAnnotations(links, viewport.height))
  }

  /**
   * What the plain generator produces for the given metadata and image
   * addresses: every page takes the FIRST metadata page's viewport, both as
   * its size and as the height the links are flipped against.
   */
  function PlainPlan(metadata: seq<Page>, imageUrls: seq<string>): (r: Result<Document, GenError>)
    ensures r.Ok? ==> |r.value| == |imageUrls|
    ensures r == Err(NoPages) <==> |metadata| == 0
    ensures r.Err? && |metadata| > 0 ==> r.error == MissingPageMetadata(|metadata|) && |imageUrls| > |metadata|
  {
    if |metadata| == 0 then Err(NoPages)
    else if |imageUrls| > |metadata| then Err(MissingPageMetadata(|metadata|))
    else
      var viewport := metadata[0].viewport;
      Ok(seq(|imageUrls|, i requires 0 <= i < |imageUrls| => PlainPage(viewport, imageUrls[i], metadata[i].links)))
  }

  /**
   * The plain plan succeeds exactly when there is a first page and every
   * image has its metadata entry; then it has one page per image, each of the
   * first viewport's size, holding exactly that page's links, in order, each
   * flipped against the first viewport's height.
   */
  lemma PlainPlanPages(metadata: seq<Page>, imageUrls: seq<string>)
    ensures PlainPlan(metadata, imageUrls).Ok? <==> 0 < |metadata| && |imageUrls| <= |metadata|
    ensures PlainPlan(metadata, imageUrls).Ok? ==>
      var pages := PlainPlan(metadata, imageUrls).value;
      var viewport := metadata[0].viewport;
      && |pages| == |imageUrls|
      && forall i :: 0 <= i < |pages| ==>
        && pages[i].size == viewport
        && pages[i].content == StretchedImage(imageUrls[i])
        && |pages[i].annotations| == |metadata[i].links|
        && forall j :: 0 <= j < |metadata[i].links| ==>
          var link := metadata[i].links[j];
          pages[i].annotations[j] == Box(link.left, viewport.height - link.top, link.width, link.height, link.url)
  {
  }

  // ----------------------------------------------------------- searchable mode

  /**
   * A link placed by the searchable generator: corner rectangle, no flip;
   * the rectangle spans the link's width and height.
   */
  function CornerAnnotation(link: Link): (a: Annotation)
    ensures a.Corners? && a.y0 == link.top
    ensures a.x1 - a.x0 == link.width && a.y1 - a.y0 == link.height
  {
    Corners(link.left, link.top, link.left + link.width, link.top + link.height, link.url)
  }

  /** Reads a corner rectangle back into a link. */
  function FromCorners(a: Annotation): Link
    requires a.Corners?
  {
    Link(a.x0, a.y0, a.x1 - a.x0, a.y1 - a.y0, a.url)
  }

  /**
   * The corner rectangle keeps the metadata's top edge (no flip), is ordered
   * when the link's width and height are not negative, and gives the link back.
   */
  lemma CornerAnnotationProperties(link: Link)
    ensures CornerAnnotation(link).Corners? && CornerAnnotation(link).y0 == link.top
    ensures link.width >= 0.0 && link.height >= 0.0 ==>
      CornerAnnotation(link).x0 <= CornerAnnotation(link).x1 && CornerAnnotation(link).y0 <= CornerAnnotation(link).y1
    ensures FromCorners(CornerAnnotation(link)) == link
  {
  }

  /** The two generators place a link's vertical origin at mirror positions about half the page height. */
  lemma ModesDisagreeVertically(link: Link, pageHeight: real)
    ensures PlainAnnotation(link, pageHeight).y + CornerAnnotation(link).y0 == pageHeight
  {
  }

  function Min(a: real, b: real): real { if a <= b then a else b }

  predicate PositiveSize(s: Size) { s.width > 0.0 && s.height > 0.0 }

  /** `min(target_h / h, target_w / w)`: the factor the OCR page is scaled by. */
  function ScaleFactor(target: Size, source: Size): (s: real)
    requires source.width != 0.0 && source.height != 0.0
    ensures s <= target.height / source.height && s <= target.width / source.width
    ensures s == target.height / source.height || s == target.width / source.width
  {
    Min(target.height / source.height, target.width / source.width)
  }

  /** The source page scaled uniformly by s. */
  function Scaled(source: Size, s: real): Size
  {
    Size(source.width * s, source.height * s)
  }

  /**
   * For positive sizes the scaled OCR page fits inside the target on both
   * axes and touches it on at least one.
   */
  lemma ScaledPageFits(target: Size, source: Size)
    requires PositiveSize(target) && PositiveSize(source)
    ensures var s := ScaleFactor(target, source);
      var scaled := Scaled(source, s);
      && s > 0.0
      && scaled.width <= target.width && scaled.height <= target.height
      && (scaled.width == target.width || scaled.height == target.height)
  {
  }

  /** No larger uniform factor fits: the scale factor is the largest one that does. */
  lemma ScaleFactorIsLargestFit(target: Size, source: Size, t: real)
    requires PositiveSize(target) && PositiveSize(source)
    requires t * source.width <= target.width && t * source.height <= target.height
    ensures t <= ScaleFactor(target, source)
  {
  }

  /** The scaled page fills the target on both axes exactly when the aspect ratios agree. */
  lemma ExactOnBothAxes(target: Size, source: Size)
    requires PositiveSize(target) && PositiveSize(source)
    ensures var scaled := Scaled(source, ScaleFactor(target, source));
      scaled == target <==> target.width * source.height == target.height * source.width
  {
  }

  /** A 612×792 OCR page in a 500×700 viewport is scaled by 500/612 and is 500 wide. */
  lemma ScaleFactorExample()
    ensures ScaleFactor(Size(500.0, 700.0), Size(612.0, 792.0)) == 500.0 / 612.0
    ensures Scaled(Size(612.0, 792.0), 500.0 / 612.0).width == 500.0
    ensures Scaled(Size(612.0, 792.0), 500.0 / 612.0).height < 700.0
  {
  }

  function CornerAnnotations(links: seq<Link>): seq<Annotation>
  {
    seq(|links|, j requires 0 <= j < |links| => CornerAnnotation(links[j]))
  }

  /** A searchable page: the OCR page scaled into the target, with the unflipped links. */
  function SearchablePage(target: Size, imageUrl: string, ocrSize: Size, links: seq<Link>): PlannedPage
    requires ocrSize.width != 0.0 && ocrSize.height != 0.0
  {
    var s := ScaleFactor(target, ocrSize);
    PlannedPage(Scaled(ocrSize, s), ScaledOcrPage(imageUrl, ocrSize, s), CornerAnnotations(links))
  }

  predicate Degenerate(s: Size) { s.width == 0.0 || s.height == 0.0 }

  /** The first OCR page at or after `from` with a zero side, or |sizes| if there is none. */
  function FirstDegenerate(sizes: seq<Size>, from: nat): (k: nat)
    requires from <= |sizes|
    ensures from <= k <= |sizes|
    ensures k < |sizes| ==> Degenerate(sizes[k])
    ensures forall i :: from <= i < k ==> !Degenerate(sizes[i])
    decreases |sizes| - from
  {
    if from == |sizes| then from
    else if Degenerate(sizes[from]) then from
    else FirstDegenerate(sizes, from + 1)
  }

  /**
   * What the searchable generator produces, given the size of the OCR page
   * obtained for each image. Pages are processed in order and the first
   * failure wins; on page i the division by the OCR sides comes before the
   * lookup of metadata[i].
   */
  function SearchablePlan(metadata: seq<Page>, imageUrls: seq<string>, ocrSizes: seq<Size>): (r: Result<Document, GenError>)
    requires |ocrSizes| == |imageUrls|
    ensures r.Ok? ==> |r.value| == |imageUrls|
    ensures r == Err(NoPages) <==> |metadata| == 0
    ensures r.Err? && r.error.ZeroOcrDimension? ==>
      var i := r.error.index;
      && i < |imageUrls| && i <= |metadata| && Degenerate(ocrSizes[i])
      && forall k :: 0 <= k < i ==> !Degenerate(ocrSizes[k])
    ensures r.Err? && r.error.MissingPageMetadata? ==>
      && r.error.index == |metadata| < |imageUrls|
      && forall k :: 0 <= k <= |metadata| ==> !Degenerate(ocrSizes[k])
  {
    if |metadata| == 0 then Err(NoPages)
    else
      var z := FirstDegenerate(ocrSizes, 0);
      if z < |imageUrls| && z <= |metadata| then Err(ZeroOcrDimension(z))
      else if |imageUrls| > |metadata| then Err(MissingPageMetadata(|metadata|))
      else
        var target := metadata[0].viewport;
        Ok(seq(|imageUrls|, i requires 0 <= i < |imageUrls| =>
          SearchablePage(target, imageUrls[i], ocrSizes[i], metadata[i].links)))
  }

  /**
   * The searchable plan succeeds exactly when there is a first page, every
   * image has its metadata entry and no OCR page has a zero side; then page i
   * is the i-th OCR page fitted inside the first viewport and carries exactly
   * the corner rectangles of metadata[i]'s links, in order.
   */
  lemma SearchablePlanPages(metadata: seq<Page>, imageUrls: seq<string>, ocrSizes: seq<Size>)
    requires |ocrSizes| == |imageUrls|
    ensures SearchablePlan(metadata, imageUrls, ocrSizes).Ok? <==>
      0 < |metadata| && |imageUrls| <= |metadata| && forall i :: 0 <= i < |ocrSizes| ==> !Degenerate(ocrSizes[i])
    ensures SearchablePlan(metadata, imageUrls, ocrSizes).Ok? ==>
      var pages := SearchablePlan(metadata, imageUrls, ocrSizes).value;
      && |pages| == |imageUrls|
      && forall i :: 0 <= i < |pages| ==>
        && pages[i].size == Scaled(ocrSizes[i], ScaleFactor(metadata[0].viewport, ocrSizes[i]))
        && pages[i].content == ScaledOcrPage(imageUrls[i], ocrSizes[i], ScaleFactor(metadata[0].viewport, ocrSizes[i]))
        && |pages[i].annotations| == |metadata[i].links|
        && forall j :: 0 <= j < |metadata[i].links| ==>
          var link := metadata[i].links[j];
          pages[i].annotations[j] == Corners(link.left, link.top, link.left + link.width, link.top + link.height, link.url)
  {
  }

  /**
   * With positive sizes every searchable page lies inside the first viewport
   * and reaches it on at least one axis.
   */
  lemma SearchablePagesFit(metadata: seq<Page>, imageUrls: seq<string>, ocrSizes: seq<Size>)
    requires |ocrSizes| == |imageUrls|
    requires 0 < |metadata| && PositiveSize(metadata[0].viewport)
    requires forall i :: 0 <= i < |ocrSizes| ==> PositiveSize(ocrSizes[i])
    requires SearchablePlan(metadata, imageUrls, ocrSizes).Ok?
    ensures forall i :: 0 <= i < |imageUrls| ==>
      var size := SearchablePlan(metadata, imageUrls, ocrSizes).value[i].size;
      && size.width <= metadata[0].viewport.width && size.height <= metadata[0].viewport.height
      && (size.width == metadata[0].viewport.width || size.height == metadata[0].viewport.height)
  {
    forall i | 0 <= i < |imageUrls|
      ensures var size := SearchablePlan(metadata, imageUrls, ocrSizes).value[i].size;
        && size.width <= metadata[0].viewport.width && size.height <= metadata[0].viewport.height
        && (size.width == metadata[0].viewport.width || size.height == metadata[0].viewport.height)
    {
      ScaledPageFits(metadata[0].viewport, ocrSizes[i]);
    }
  }
}

/**
 * The downloader object: its fields, the identifier check done at
 * construction, the loop that lists the page image addresses, and the two
 * generators that lay out the pages. Fetching the metadata and the images,
 * running OCR and writing PDF bytes are done by collaborators outside this
 * model; the generators take their results as parameters.
 */
module Downloader {
  import opened Wrappers
  import opened ResumeId
  import opened ImageUrls
  import opened Layout

  class ResumeioDownloader {
    var resumeId: string
    var extension: string
    var imageSize: int
    var cacheDate: string
    var imagesUrls: seq<string>
    var metadata: seq<Page>
    /** The generated document; None until a generator has finished. */
    var buffer: Option<Document>

    /** The dataclass's field initialisation, before the identifier check. */
    constructor (resumeId: string, extension: string, imageSize: int, cacheDate: string, imagesUrls: seq<string>)
      ensures this.resumeId == resumeId && this.extension == extension && this.imageSize == imageSize
      ensures this.cacheDate == cacheDate && this.imagesUrls == imagesUrls
      ensures metadata == [] && buffer == None
    {
      this.resumeId := resumeId;
      this.extension := extension;
      this.imageSize := imageSize;
      this.cacheDate := cacheDate;
      this.imagesUrls := imagesUrls;
      metadata := [];
      buffer := None;
    }

    /**
     * Checks the identifier: keeps a bare token, replaces a share URL by its
     * token, and otherwise fails with the 400 error, leaving the field as it was.
     */
    method PostInit() returns (r: Result<string, HttpError>)
      modifies this`resumeId
      ensures r == Normalise(old(resumeId))
      ensures resumeId == if r.Ok? then r.value else old(resumeId)
    {
      r := Normalise(resumeId);
      if r.Ok? {
        resumeId := r.value;
      }
    }

    /** Appends the address of each metadata page, pages 1..N in order, to `imagesUrls`. */
    method FormatImagesUrls()
      modifies this`imagesUrls
      ensures imagesUrls == old(imagesUrls) + PageUrls(resumeId, |metadata|, extension, cacheDate, imageSize)
    {
      var pageId := 1;
      while pageId < 1 + |metadata|
        invariant 1 <= pageId <= 1 + |metadata|
        invariant imagesUrls == old(imagesUrls) + PageUrls(resumeId, pageId - 1, extension, cacheDate, imageSize)
      {
        var downloadUrl := ImageUrl(resumeId, pageId, extension, cacheDate, imageSize);
        imagesUrls := imagesUrls + [downloadUrl];
        pageId := pageId + 1;
      }
    }

    /**
     * Searchable mode: each image's OCR page (given by its size) is scaled
     * into the first viewport, and the links of the matching metadata page are
     * added as corner rectangles. The buffer is set only when every page succeeds.
     */
    method GeneratePdfSearchable(ocrSizes: seq<Size>) returns (r: Result<Document, GenError>)
      requires |ocrSizes| == |imagesUrls|
      modifies this`buffer
      ensures r == SearchablePlan(metadata, imagesUrls, ocrSizes)
      ensures buffer == if r.Ok? then Some(r.value) else old(buffer)
    {
      if |metadata| == 0 {
        return Err(NoPages);
      }
      var target := metadata[0].viewport;
      var writer: Document := [];
      var i := 0;
      while i < |imagesUrls|
        invariant 0 <= i <= |imagesUrls| && i <= |metadata|
        invariant forall k :: 0 <= k < i ==> !Degenerate(ocrSizes[k])
        invariant |writer| == i
        invariant forall k :: 0 <= k < i ==>
          writer[k] == SearchablePage(target, imagesUrls[k], ocrSizes[k], metadata[k].links)
      {
        var ocr := ocrSizes[i];
        if ocr.height == 0.0 || ocr.width == 0.0 {
          FirstDegenerateAt(ocrSizes, i);
          return Err(ZeroOcrDimension(i));
        }
        var scaleFactor := ScaleFactor(target, ocr);
        if i == |metadata| {
          assert FirstDegenerate(ocrSizes, 0) > i;
          return Err(MissingPageMetadata(i));
        }
        var links := metadata[i].links;
        var annotations: seq<Annotation> := [];
        var j := 0;
        while j < |links|
          invariant 0 <= j <= |links|
          invariant annotations == CornerAnnotations(links[..j])
        {
          var link := links[j];
          annotations := annotations + [Corners(link.left, link.top, link.left + link.width, link.top + link.height, link.url)];
          j := j + 1;
        }
        assert links[..j] == links;
        writer := writer + [PlannedPage(Scaled(ocr, scaleFactor), ScaledOcrPage(imagesUrls[i], ocr, scaleFactor), annotations)];
        i := i + 1;
      }
      assert FirstDegenerate(ocrSizes, 0) == |ocrSizes|;
      ghost var urls, pages := imagesUrls, metadata;
      assert writer == seq(|urls|, k requires 0 <= k < |urls| =>
        SearchablePage(target, urls[k], ocrSizes[k], pages[k].links));
      buffer := Some(writer);
      r := Ok(writer);
    }

    /**
     * Plain mode: each image is stretched over the first viewport, and the
     * links of the matching metadata page are placed with y flipped against
     * that viewport's height. The buffer is set only when every page succeeds.
     */
    method GeneratePdf() returns (r: Result<Document, GenError>)
      modifies this`buffer
      ensures r == PlainPlan(metadata, imagesUrls)
      ensures buffer == if r.Ok? then Some(r.value) else old(buffer)
    {
      if |metadata| == 0 {
        return Err(NoPages);
      }
      var viewport := metadata[0].viewport;
      var w, h := viewport.width, viewport.height;
      var pdf: Document := [];
      var i := 0;
      while i < |imagesUrls|
        invariant 0 <= i <= |imagesUrls| && i <= |metadata|
        invariant |pdf| == i
        invariant forall k :: 0 <= k < i ==> pdf[k] == PlainPage(viewport, imagesUrls[k], metadata[k].links)
      {
        if i == |metadata| {
          return Err(MissingPageMetadata(i));
        }
        var links := metadata[i].links;
        var annotations: seq<Annotation> := [];
        var j := 0;
        while j < |links|
          invariant 0 <= j <= |links|
          invariant annotations == PlainAnnotations(links[..j], h)
        {
          var link := links[j];
          annotations := annotations + [Box(link.left, h - link.top, link.width, link.height, link.url)];
          j := j + 1;
        }
        assert links[..j] == links;
        pdf := pdf + [PlannedPage(Size(w, h), StretchedImage(imagesUrls[i]), annotations)];
        i := i + 1;
      }
      ghost var urls, pages := imagesUrls, metadata;
      assert pdf == seq(|urls|, k requires 0 <= k < |urls| => PlainPage(viewport, urls[k], pages[k].links));
      buffer := Some(pdf);
      r := Ok(pdf);
    }

    /**
     * Takes the fetched metadata, lists the image addresses and runs the
     * generator the flag selects (searchable unless told otherwise). In searchable mode `ocrSizes` gives the OCR
     * page obtained for each address in `imagesUrls` after the listing.
     */
    method Run(searchable: bool := true, pages: seq<Page>, ocrSizes: seq<Size>) returns (r: Result<Document, GenError>)
      requires searchable ==> |ocrSizes| == |imagesUrls| + |pages|
      modifies this`metadata, this`imagesUrls, this`buffer
      ensures metadata == pages
      ensures imagesUrls == old(imagesUrls) + PageUrls(resumeId, |pages|, extension, cacheDate, imageSize)
      ensures r == if searchable then SearchablePlan(pages, imagesUrls, ocrSizes) else PlainPlan(pages, imagesUrls)
      ensures buffer == if r.Ok? then Some(r.value) else old(buffer)
    {
      metadata := pages;
      FormatImagesUrls();
      if searchable {
        r := GeneratePdfSearchable(ocrSizes);
      } else {
        r := GeneratePdf();
      }
    }
  }

  /**
   * Builds a downloader: the field initialisation, with the class's default
   * image format and size, followed by the identifier check. On an invalid identifier the 400 error is returned instead.
   */
  method New(resumeId: string, extension: string := DefaultExtension, imageSize: int := DefaultImageSize,
             cacheDate: string, imagesUrls: seq<string> := [])
    returns (r: Result<ResumeioDownloader, HttpError>)
    ensures Normalise(resumeId).Err? <==> r.Err?
    ensures r.Err? ==> r.error == Normalise(resumeId).error
    ensures r.Ok? ==> fresh(r.value) && r.value.resumeId == Normalise(resumeId).value
    ensures r.Ok? ==> r.value.extension == extension && r.value.imageSize == imageSize
    ensures r.Ok? ==> r.value.cacheDate == cacheDate && r.value.imagesUrls == imagesUrls
    ensures r.Ok? ==> r.value.metadata == [] && r.value.buffer == None
  {
    var d := new ResumeioDownloader(resumeId, extension, imageSize, cacheDate, imagesUrls);
    var checked := d.PostInit();
    match checked {
      case Ok(_) => r := Ok(d);
      case Err(e) => r := Err(e);
    }
  }

  /** The first OCR page with a zero side is the one the loop stops at. */
  lemma FirstDegenerateAt(sizes: seq<Size>, i: nat)
    requires i < |sizes| && Degenerate(sizes[i])
    requires forall k :: 0 <= k < i ==> !Degenerate(sizes[k])
    ensures FirstDegenerate(sizes, 0) == i
  {
  }

  /**
   * A fresh plain run over N > 0 metadata pages plans N pages; page i shows
   * the image of page i + 1 and is the size of the first viewport.
   */
  lemma PlainRunPages(resumeId: string, pages: seq<Page>, extension: string, cacheDate: string, imageSize: int)
    requires 0 < |pages|
    ensures var urls := PageUrls(resumeId, |pages|, extension, cacheDate, imageSize);
      var plan := PlainPlan(pages, urls);
      && plan.Ok? && |plan.value| == |pages|
      && forall i :: 0 <= i < |pages| ==>
        && plan.value[i].size == pages[0].viewport
        && plan.value[i].content.imageUrl == ImageUrl(resumeId, i + 1, extension, cacheDate, imageSize)
        && |plan.value[i].annotations| == |pages[i].links|
  {
  }
}

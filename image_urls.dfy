/**
 * The per-page image address: the `IMAGE_URL` template filled in with the
 * resume id, the 1-based page number, the image format, the cache date and
 * the image size.
 */
module ImageUrls {
  import opened Wrappers
  import opened Decimal

  const ImageUrlHost := "https://ssr.resume.tools/to-image/ssid-"

  /** Default image format of a downloader. */
  const DefaultExtension := "png"

  /** Default image size of a downloader. */
  const DefaultImageSize := 1800

  /** The template up to the page-number placeholder. */
  function UrlHead(resumeId: string): string
  {
    ImageUrlHost + resumeId + "-"
  }

  /** The template after the page-number placeholder. */
  function UrlTail(extension: string, cacheDate: string, imageSize: int): string
  {
    "." + extension + "?cache=" + cacheDate + "&size=" + IntToString(imageSize)
  }

  /** `IMAGE_URL.format(resume_id=…, page_id=…, extension=…, cache_date=…, image_size=…)`. */
  function ImageUrl(resumeId: string, pageId: nat, extension: string, cacheDate: string, imageSize: int): string
  {
    ImageUrlHost + resumeId + "-" + NatToString(pageId) + "." + extension +
    "?cache=" + cacheDate + "&size=" + IntToString(imageSize)
  }

  /**
   * The page number written into an address built from these parameters:
   * the digits between the fixed head and tail, if the address has that shape.
   */
  function PageIdOf(url: string, resumeId: string, extension: string, cacheDate: string, imageSize: int): Option<nat>
  {
    var head, tail := UrlHead(resumeId), UrlTail(extension, cacheDate, imageSize);
    if |head| + |tail| < |url| && url[..|head|] == head && url[|url| - |tail| ..] == tail
       && AllDigits(url[|head| .. |url| - |tail|])
    then Some(DecimalValue(url[|head| .. |url| - |tail|]))
    else None
  }

  /** Every address is the same head and tail around the page number: only the page varies. */
  lemma OnlyPageIdVaries(resumeId: string, pageId: nat, extension: string, cacheDate: string, imageSize: int)
    ensures ImageUrl(resumeId, pageId, extension, cacheDate, imageSize)
         == UrlHead(resumeId) + NatToString(pageId) + UrlTail(extension, cacheDate, imageSize)
  {
  }

  /** The page number can be read back from the address. */
  lemma PageIdRoundTrip(resumeId: string, pageId: nat, extension: string, cacheDate: string, imageSize: int)
    ensures PageIdOf(ImageUrl(resumeId, pageId, extension, cacheDate, imageSize),
                     resumeId, extension, cacheDate, imageSize) == Some(pageId)
  {
    var head, digits, tail := UrlHead(resumeId), NatToString(pageId), UrlTail(extension, cacheDate, imageSize);
    var url := ImageUrl(resumeId, pageId, extension, cacheDate, imageSize);
    OnlyPageIdVaries(resumeId, pageId, extension, cacheDate, imageSize);
    assert url == head + digits + tail;
    assert url[..|head|] == head;
    assert url[|url| - |tail| ..] == tail;
    assert url[|head| .. |url| - |tail|] == digits;
    DecimalRoundTrip(pageId);
  }

  /** Two pages of one run never share an address. */
  lemma ImageUrlInjective(resumeId: string, j: nat, k: nat, extension: string, cacheDate: string, imageSize: int)
    ensures ImageUrl(resumeId, j, extension, cacheDate, imageSize) == ImageUrl(resumeId, k, extension, cacheDate, imageSize)
        <==> j == k
  {
    PageIdRoundTrip(resumeId, j, extension, cacheDate, imageSize);
    PageIdRoundTrip(resumeId, k, extension, cacheDate, imageSize);
  }

  /** The addresses of pages 1..count, in ascending page order. */
  function PageUrls(resumeId: string, count: nat, extension: string, cacheDate: string, imageSize: int): (urls: seq<string>)
    ensures |urls| == count
  {
    seq(count, k requires 0 <= k < count => ImageUrl(resumeId, k + 1, extension, cacheDate, imageSize))
  }

  /**
   * Entry k of the list reads back as page k + 1, so the list runs through
   * pages 1..count in ascending order and no address repeats.
   */
  lemma PageUrlsAscending(resumeId: string, count: nat, extension: string, cacheDate: string, imageSize: int)
    ensures |PageUrls(resumeId, count, extension, cacheDate, imageSize)| == count
    ensures forall k :: 0 <= k < count ==>
      PageIdOf(PageUrls(resumeId, count, extension, cacheDate, imageSize)[k],
               resumeId, extension, cacheDate, imageSize) == Some(k + 1)
    ensures forall j, k :: 0 <= j < k < count ==>
      PageUrls(resumeId, count, extension, cacheDate, imageSize)[j]
      != PageUrls(resumeId, count, extension, cacheDate, imageSize)[k]
  {
    var urls := PageUrls(resumeId, count, extension, cacheDate, imageSize);
    forall k | 0 <= k < count
      ensures PageIdOf(urls[k], resumeId, extension, cacheDate, imageSize) == Some(k + 1)
    {
      PageIdRoundTrip(resumeId, k + 1, extension, cacheDate, imageSize);
    }
    forall j, k | 0 <= j < k < count ensures urls[j] != urls[k] {
      ImageUrlInjective(resumeId, j + 1, k + 1, extension, cacheDate, imageSize);
    }
  }
}

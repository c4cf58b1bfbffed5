/**
 * The text-overlay server: no key gate and no field rules, only the two
 * missing-parameter checks; links with defaults 90 / png / 960; images fetched
 * at the highest-fidelity transform and given a fixed 48 px
 * `YOUR WATERMARK` label unless `watermark=false`.
 */
module TextOverlayServer {
  import opened Wrappers
  import opened Http
  import opened Json
  import opened Extractor
  import opened Links
  import opened Upstream
  import opened Imaging
  import opened TextWatermark
  import opened Replies

  function LinkTransform(q: Query, u: string): Transform {
    Transform(u, ParamOr(q, "quality", "90"), ParamOr(q, "format", "png"), ParamOr(q, "width", "960"))
  }

  function QcImages(q: Query, baseUrl: string, fetch: string -> Outcome<Json>): Reply {
    var id := Param(q, "id");
    if Falsy(id) then MissingParameter("id")
    else
      var storePlatform := ParamOr(q, "storePlatform", "WEIDIAN");
      match fetch(ProductMetadataUrl(id.value, storePlatform))
      case Received(body, _) =>
        Package(id.value, storePlatform, ImageUrls(body), u => LocalImageUrl(baseUrl, LinkTransform(q, u)))
      case Rejected(e) => BasicProductFailure(e)
  }

  function Image(q: Query, fetch: string -> Outcome<Bytes>, sharp: Sharp): Reply {
    var url := Param(q, "url");
    if Falsy(url) then MissingParameter("url")
    else
      var format := ParamOr(q, "format", "png");
      match fetch(FixedUpstreamImageUrl(url.value))
      case Rejected(e) => BasicImageFailure(e)
      case Received(bytes, contentType) =>
        var imageBuffer := if WatermarkWanted(ParamOr(q, "watermark", "true")) then TextWatermarked(bytes, Fixed, sharp) else bytes;
        ImageBytes(ContentType(contentType, format), CacheControl, false, imageBuffer)
  }

  /** Without an id the answer is 400, whatever upstream would have said. */
  lemma MissingIdIsRejectedFirst(q: Query, baseUrl: string, fetch1: string -> Outcome<Json>, fetch2: string -> Outcome<Json>)
    requires Falsy(Param(q, "id"))
    ensures QcImages(q, baseUrl, fetch1) == QcImages(q, baseUrl, fetch2) == Failure(400, "Missing required parameter: id", None)
  {
  }

  /** Without a URL the answer is 400, before anything is fetched or drawn. */
  lemma MissingUrlIsRejectedFirst(q: Query, fetch1: string -> Outcome<Bytes>, fetch2: string -> Outcome<Bytes>, sharp1: Sharp, sharp2: Sharp)
    requires Falsy(Param(q, "url"))
    ensures Image(q, fetch1, sharp1) == Image(q, fetch2, sharp2) == Failure(400, "Missing required parameter: url", None)
  {
  }

  /**
   * A product answer: 404 exactly when nothing was found, else one pair per
   * reference in pre-order, each link built from the reference with the
   * caller's parameters or the defaults 90 / png / 960, and read back as such
   * by the image route when those parameters are plain.
   */
  lemma QcImagesAnswer(q: Query, baseUrl: string, fetch: string -> Outcome<Json>, body: Json, ct: Option<string>)
    requires !Falsy(Param(q, "id"))
    requires fetch(ProductMetadataUrl(q["id"], ParamOr(q, "storePlatform", "WEIDIAN"))) == Received(body, ct)
    ensures var r := QcImages(q, baseUrl, fetch);
      (r.Status() == 404 <==> ImageUrls(body) == [])
      && (r.ProductImages? ==>
            Originals(r.images) == ImagesOf(DataNodes(body)) && r.totalImages == CountWithImage(DataNodes(body))
            && (forall i :: 0 <= i < |r.images| ==>
                  r.images[i].watermarked == LocalImageUrl(baseUrl, LinkTransform(q, r.images[i].original)))
            && forall i :: 0 <= i < |r.images| && PlainParameters(LinkTransform(q, r.images[i].original)) ==>
                 ReadTransform(r.images[i].watermarked, baseUrl + "/api/image?") == Some(LinkTransform(q, r.images[i].original)))
  {
    ImageUrlsAreImagesOfPreOrder(body);
    var r := QcImages(q, baseUrl, fetch);
    var urls := ImageUrls(body);
    assert r == Package(q["id"], ParamOr(q, "storePlatform", "WEIDIAN"), urls, u => LocalImageUrl(baseUrl, LinkTransform(q, u)));
    if r.ProductImages? {
      forall i | 0 <= i < |r.images|
        ensures r.images[i].watermarked == LocalImageUrl(baseUrl, LinkTransform(q, r.images[i].original))
      {
        assert r.images[i].original == Originals(r.images)[i] == urls[i];
      }
      forall i | 0 <= i < |r.images| && PlainParameters(LinkTransform(q, r.images[i].original))
        ensures ReadTransform(r.images[i].watermarked, baseUrl + "/api/image?") == Some(LinkTransform(q, r.images[i].original))
      {
        LocalImageUrlRoundTrip(baseUrl, LinkTransform(q, r.images[i].original));
      }
    }
  }

  /** Without a parameter in the query, a link carries that parameter's default. */
  lemma DefaultLinkTransform(q: Query, u: string)
    requires "quality" !in q && "format" !in q && "width" !in q
    ensures LinkTransform(q, u) == Transform(u, "90", "png", "960")
  {
  }

  /**
   * A fetched image is sent with its bytes untouched when `watermark=false`,
   * and otherwise as the overlay step leaves them: untouched or composited
   * with the one fixed label: 48 px,
   * `YOUR WATERMARK`, opacity 0.5, as large as the image.
   */
  lemma ImageAnswer(q: Query, fetch: string -> Outcome<Bytes>, sharp: Sharp, bytes: Bytes, ct: Option<string>)
    requires !Falsy(Param(q, "url"))
    requires fetch(FixedUpstreamImageUrl(q["url"])) == Received(bytes, ct)
    ensures var r := Image(q, fetch, sharp);
      r.ImageBytes? && r.contentType == ContentType(ct, ParamOr(q, "format", "png")) && r.cacheControl == CacheControl
      && (Param(q, "watermark") == Some("false") ==> r.bytes == bytes)
      && (Param(q, "watermark") != Some("false") ==> r.bytes == TextWatermarked(bytes, Fixed, sharp))
      && (r.bytes == bytes
          || (sharp.metadata(bytes).Some?
              && sharp.composite(bytes, [Centered(TextOverlay(sharp.metadata(bytes).value.width, sharp.metadata(bytes).value.height,
                                                             48.0, "YOUR WATERMARK", 0.5))]) == Some(r.bytes)))
  {
    WatermarkDefault(q);
    OriginalOrOneOverlay(bytes, Fixed, sharp);
  }

  /** A failed image call is answered with the upstream status or 500; there is no timeout branch, so a call without a response is 500. */
  lemma ImageFailureStatus(q: Query, fetch: string -> Outcome<Bytes>, sharp: Sharp, e: ClientError)
    requires !Falsy(Param(q, "url"))
    requires fetch(FixedUpstreamImageUrl(q["url"])) == Rejected(e)
    ensures var r := Image(q, fetch, sharp);
      r.Status() == ImageFailure(e).Status() && (e.response.None? ==> r.Status() == 500)
  {
  }
}

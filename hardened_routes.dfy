/**
 * The two routes as the hardened servers (the production server and the
 * serverless variant) run them: `/api/qc-images` behind the API-key gate and
 * the field rules, `/api/image` behind the field rules only. The image route
 * always asks upstream for quality 100, png, width 5000 and overlays a text
 * label unless `watermark=false`. The servers differ only in how they build
 * the watermarked link and in their defaults for `NODE_ENV`; each passes those
 * in.
 */
module HardenedRoutes {
  import opened Wrappers
  import opened JsString
  import opened Http
  import opened Json
  import opened Extractor
  import opened Links
  import opened Upstream
  import opened Imaging
  import opened TextWatermark
  import opened Validator
  import opened Auth
  import opened Replies

  /** The transform of a watermarked link, with the defaults 90 / png / 960. */
  function LinkTransform(q: Query, u: string): Transform {
    Transform(u, ParamOr(q, "quality", "90"), ParamOr(q, "format", "png"), ParamOr(q, "width", "960"))
  }

  /** The handler behind the gates. */
  function QcImagesHandler(q: Query, link: Transform -> string, fetch: string -> Outcome<Json>): Reply {
    var id := ParamOr(q, "id", "");
    var storePlatform := ParamOr(q, "storePlatform", "WEIDIAN");
    match fetch(ProductMetadataUrl(id, storePlatform))
    case Received(body, _) => Package(id, storePlatform, ImageUrls(body), u => link(LinkTransform(q, u)))
    case Rejected(e) => HardenedProductFailure(e)
  }

  /** `/api/qc-images`: the key gate, then the field rules, then the handler. */
  function QcImages(q: Query, headerKey: Option<string>, apiKeys: Option<string>, nodeEnv: Option<string>,
                    link: Transform -> string, fetch: string -> Outcome<Json>): Reply {
    match ValidateApiKey(headerKey, Param(q, "apiKey"), apiKeys, nodeEnv)
    case Stop(r) => r
    case Next =>
      match HandleValidationErrors(RunChains(QcImagesRules, q))
      case Stop(r) => r
      case Next => QcImagesHandler(q, link, fetch)
  }

  /** The handler behind the field rules. */
  function ImageHandler(q: Query, style: Style, fetch: string -> Outcome<Bytes>, sharp: Sharp): Reply {
    var url := ParamOr(q, "url", "");
    var format := ParamOr(q, "format", "png");
    match fetch(FixedUpstreamImageUrl(url))
    case Rejected(e) => HardenedImageFailure(e)
    case Received(bytes, contentType) =>
      var imageBuffer := if WatermarkWanted(ParamOr(q, "watermark", "true")) then TextWatermarked(bytes, style, sharp) else bytes;
      ImageBytes(ContentType(contentType, format), CacheControl, true, imageBuffer)
  }

  /** `/api/image`: the field rules, then the handler. No API key is asked for. */
  function Image(q: Query, style: Style, fetch: string -> Outcome<Bytes>, sharp: Sharp): Reply {
    match HandleValidationErrors(RunChains(ImageRules, q))
    case Stop(r) => r
    case Next => ImageHandler(q, style, fetch, sharp)
  }

  /**
   * The stages of `/api/qc-images`: a refused key is the answer whatever the
   * query and upstream; an accepted key with an unacceptable query gets the
   * 400 listing every failed rule; only an accepted key and query reach the
   * handler.
   */
  lemma QcImagesStages(q: Query, headerKey: Option<string>, apiKeys: Option<string>, nodeEnv: Option<string>,
                       link: Transform -> string, fetch: string -> Outcome<Json>)
    ensures var g, r := ValidateApiKey(headerKey, Param(q, "apiKey"), apiKeys, nodeEnv), QcImages(q, headerKey, apiKeys, nodeEnv, link, fetch);
      (g.Stop? ==> r == g.reply && r.Status() in {401, 403})
      && (g == Next && !QcImagesAcceptable(q) ==>
            r == Invalid(RunChains(QcImagesRules, q)) && r.details != [] && r.Status() == 400)
      && (g == Next && QcImagesAcceptable(q) ==> r == QcImagesHandler(q, link, fetch))
  {
    Decision(headerKey, Param(q, "apiKey"), apiKeys, nodeEnv);
    QcImagesGate(q);
  }

  /**
   * A product answer from upstream to an admitted request: 404 exactly when it
   * holds no image, else one pair per image reference in pre-order, each link
   * built from the reference and the caller's parameters.
   */
  lemma QcImagesAnswer(q: Query, link: Transform -> string, fetch: string -> Outcome<Json>, body: Json, ct: Option<string>)
    requires QcImagesAcceptable(q)
    requires fetch(ProductMetadataUrl(q["id"], ParamOr(q, "storePlatform", "WEIDIAN"))) == Received(body, ct)
    ensures var r := QcImagesHandler(q, link, fetch);
      (r.Status() == 404 <==> ImageUrls(body) == [])
      && (r.ProductImages? ==>
            r.productId == q["id"] && Originals(r.images) == ImagesOf(DataNodes(body))
            && r.totalImages == CountWithImage(DataNodes(body))
            && forall i :: 0 <= i < |r.images| ==> r.images[i].watermarked == link(LinkTransform(q, r.images[i].original)))
  {
    ImageUrlsAreImagesOfPreOrder(body);
    var storePlatform := ParamOr(q, "storePlatform", "WEIDIAN");
    var urls := ImageUrls(body);
    var r := QcImagesHandler(q, link, fetch);
    assert ParamOr(q, "id", "") == q["id"];
    assert r == Package(q["id"], storePlatform, urls, u => link(LinkTransform(q, u)));
    if r.ProductImages? {
      forall i | 0 <= i < |r.images|
        ensures r.images[i].watermarked == link(LinkTransform(q, r.images[i].original))
      {
        assert r.images[i].original == Originals(r.images)[i] == urls[i];
      }
    }
  }

  /** Every link of a product answer is the link of its own reference and the caller's parameters. */
  lemma QcImagesLinks(q: Query, headerKey: Option<string>, apiKeys: Option<string>, nodeEnv: Option<string>,
                      link: Transform -> string, fetch: string -> Outcome<Json>)
    ensures var r := QcImages(q, headerKey, apiKeys, nodeEnv, link, fetch);
      r.ProductImages? ==>
        forall i :: 0 <= i < |r.images| ==> r.images[i].watermarked == link(LinkTransform(q, r.images[i].original))
  {
    var r := QcImages(q, headerKey, apiKeys, nodeEnv, link, fetch);
    QcImagesStages(q, headerKey, apiKeys, nodeEnv, link, fetch);
    if r.ProductImages? {
      var id := ParamOr(q, "id", "");
      var storePlatform := ParamOr(q, "storePlatform", "WEIDIAN");
      var body := fetch(ProductMetadataUrl(id, storePlatform)).body;
      var urls := ImageUrls(body);
      assert r == Package(id, storePlatform, urls, u => link(LinkTransform(q, u)));
      forall i | 0 <= i < |r.images|
        ensures r.images[i].watermarked == link(LinkTransform(q, r.images[i].original))
      {
        assert r.images[i].original == Originals(r.images)[i] == urls[i];
      }
    }
  }

  lemma QcImagesFailure(q: Query, link: Transform -> string, fetch: string -> Outcome<Json>, e: ClientError)
    requires "id" in q
    requires fetch(ProductMetadataUrl(q["id"], ParamOr(q, "storePlatform", "WEIDIAN"))) == Rejected(e)
    ensures QcImagesHandler(q, link, fetch).Status() == ProductFailure(e).Status()
  {
  }

  /** `/api/image` answers 400 exactly for an unacceptable query, before anything is fetched. */
  lemma ImageStages(q: Query, style: Style, fetch: string -> Outcome<Bytes>, sharp: Sharp)
    ensures var r := Image(q, style, fetch, sharp);
      (!ImageAcceptable(q) ==> r == Invalid(RunChains(ImageRules, q)) && r.details != [] && r.Status() == 400)
      && (ImageAcceptable(q) ==> r == ImageHandler(q, style, fetch, sharp))
  {
    ImageGate(q);
  }

  /**
   * The only upstream request is for the highest-fidelity transform of the
   * caller's URL, whatever quality, format or width were asked for.
   */
  lemma ImageAsksForFixedTransform(q: Query, style: Style, fetch1: string -> Outcome<Bytes>, fetch2: string -> Outcome<Bytes>, sharp: Sharp)
    requires fetch1(FixedUpstreamImageUrl(ParamOr(q, "url", ""))) == fetch2(FixedUpstreamImageUrl(ParamOr(q, "url", "")))
    ensures ImageHandler(q, style, fetch1, sharp) == ImageHandler(q, style, fetch2, sharp)
    ensures ReadTransform(FixedUpstreamImageUrl(ParamOr(q, "url", "")), UpstreamHost + "/img?")
      == Some(Transform(ParamOr(q, "url", ""), "100", "png", "5000"))
  {
    FixedUpstreamImageUrlRoundTrip(ParamOr(q, "url", ""));
  }

  /**
   * A fetched image is sent with the upstream content type (else one named
   * after the format), a day's caching and `nosniff`; its bytes are the
   * fetched ones when `watermark=false`, and otherwise what the overlay step
   * makes of them: either the fetched ones
   * or the composite of one overlay as large as the image with a font inside
   * [24, 72].
   */
  lemma ImageAnswer(q: Query, style: Style, fetch: string -> Outcome<Bytes>, sharp: Sharp, bytes: Bytes, ct: Option<string>)
    requires fetch(FixedUpstreamImageUrl(ParamOr(q, "url", ""))) == Received(bytes, ct)
    ensures var r := ImageHandler(q, style, fetch, sharp);
      r.ImageBytes? && r.Status() == 200 && r.nosniff
      && r.contentType == ContentType(ct, ParamOr(q, "format", "png")) && r.cacheControl == "public, max-age=86400"
      && (Param(q, "watermark") == Some("false") ==> r.bytes == bytes)
      && (Param(q, "watermark") != Some("false") ==> r.bytes == TextWatermarked(bytes, style, sharp))
      && (r.bytes == bytes
          || (sharp.metadata(bytes).Some?
              && sharp.composite(bytes, [Centered(Overlay(style, sharp.metadata(bytes).value))]) == Some(r.bytes)
              && MinFontSize <= Overlay(style, sharp.metadata(bytes).value).fontSize <= MaxFontSize))
  {
    WatermarkDefault(q);
    OriginalOrOneOverlay(bytes, style, sharp);
  }

  /** A failed image call is answered with the timeout-aware classifier's status. */
  lemma ImageFailureStatus(q: Query, style: Style, fetch: string -> Outcome<Bytes>, sharp: Sharp, e: ClientError)
    requires fetch(FixedUpstreamImageUrl(ParamOr(q, "url", ""))) == Rejected(e)
    ensures var r := ImageHandler(q, style, fetch, sharp);
      r.Status() == ImageFailureWithTimeout(e).Status()
      && (e.response.None? && e.code == "ECONNABORTED" ==> r == Failure(504, "Request timeout", Some("Image request took too long")))
  {
  }
}

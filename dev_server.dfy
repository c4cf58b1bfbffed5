/**
 * The first server's two routes: `/api/qc-images` checks only that an id is
 * given and links each image to this server's `/api/image`, with defaults
 * 60 / webp / 960; `/api/image` fetches the caller's own transform upstream
 * and, unless `watermark=false`, overlays the watermark files.
 */
module DevServer {
  import opened Wrappers
  import opened JsString
  import opened Http
  import opened Json
  import opened Extractor
  import opened Links
  import opened Upstream
  import opened Imaging
  import opened FileWatermark
  import opened Replies

  /** The transform a watermarked link of this server carries, with its defaults. */
  function LinkTransform(q: Query, u: string): Transform {
    Transform(u, ParamOr(q, "quality", "60"), ParamOr(q, "format", "webp"), ParamOr(q, "width", "960"))
  }

  /** `/api/qc-images`; `fetch` is the upstream call. */
  function QcImages(q: Query, baseUrl: string, fetch: string -> Outcome<Json>): Reply {
    var id := Param(q, "id");
    if Falsy(id) then MissingParameter("id")
    else
      var storePlatform := ParamOr(q, "storePlatform", "WEIDIAN");
      match fetch(ProductMetadataUrl(id.value, storePlatform))
      case Received(body, _) =>
        Package(id.value, storePlatform, ImageUrls(body), u => LocalImageUrl(baseUrl, LinkTransform(q, u)))
      case Rejected(e) => BasicProductFailure(e)
  }

  /** `/api/image`; `fetch` is the upstream call, `fs` and `sharp` what the watermark step sees. */
  function Image(q: Query, fetch: string -> Outcome<Bytes>, cwd: string, dirname: string, fs: FileSystem, sharp: Sharp): Reply {
    var url := Param(q, "url");
    if Falsy(url) then MissingParameter("url")
    else
      var t := LinkTransform(q, url.value);
      match fetch(CallerUpstreamImageUrl(t))
      case Rejected(e) => BasicImageFailure(e)
      case Received(bytes, contentType) =>
        var imageBuffer := if Param(q, "watermark") != Some("false") then Watermarked(bytes, cwd, dirname, fs, sharp) else bytes;
        ImageBytes(ContentType(contentType, t.format), CacheControl, false, imageBuffer)
  }

  /** Without an id the answer is 400, whatever upstream would have said. */
  lemma MissingIdIsRejectedFirst(q: Query, baseUrl: string, fetch1: string -> Outcome<Json>, fetch2: string -> Outcome<Json>)
    requires Falsy(Param(q, "id"))
    ensures QcImages(q, baseUrl, fetch1) == QcImages(q, baseUrl, fetch2)
    ensures QcImages(q, baseUrl, fetch1).Status() == 400
  {
  }

  /**
   * A product answer from upstream: 404 exactly when it holds no image, else
   * one pair per image reference in document pre-order, each link naming the
   * reference and the caller's parameters as the image route reads them back.
   */
  lemma QcImagesAnswer(q: Query, baseUrl: string, fetch: string -> Outcome<Json>, body: Json, ct: Option<string>)
    requires !Falsy(Param(q, "id"))
    requires fetch(ProductMetadataUrl(q["id"], ParamOr(q, "storePlatform", "WEIDIAN"))) == Received(body, ct)
    ensures var r := QcImages(q, baseUrl, fetch);
      (r.Status() == 404 <==> ImageUrls(body) == [])
      && (r.ProductImages? ==>
            Originals(r.images) == ImagesOf(DataNodes(body))
            && r.totalImages == CountWithImage(DataNodes(body))
            && forall i :: 0 <= i < |r.images| && PlainParameters(LinkTransform(q, r.images[i].original)) ==>
                 ReadTransform(r.images[i].watermarked, baseUrl + "/api/image?") == Some(LinkTransform(q, r.images[i].original)))
  {
    ImageUrlsAreImagesOfPreOrder(body);
    var r := QcImages(q, baseUrl, fetch);
    if r.ProductImages? {
      forall i | 0 <= i < |r.images| && PlainParameters(LinkTransform(q, r.images[i].original))
        ensures ReadTransform(r.images[i].watermarked, baseUrl + "/api/image?") == Some(LinkTransform(q, r.images[i].original))
      {
        LocalImageUrlRoundTrip(baseUrl, LinkTransform(q, r.images[i].original));
      }
    }
  }

  /** A failed metadata call is answered with the product classifier's status. */
  lemma QcImagesFailure(q: Query, baseUrl: string, fetch: string -> Outcome<Json>, e: ClientError)
    requires !Falsy(Param(q, "id"))
    requires fetch(ProductMetadataUrl(q["id"], ParamOr(q, "storePlatform", "WEIDIAN"))) == Rejected(e)
    ensures QcImages(q, baseUrl, fetch).Status() == ProductFailure(e).Status()
  {
  }

  /** Without a URL the answer is 400, before anything is fetched or drawn. */
  lemma MissingUrlIsRejectedFirst(q: Query, fetch1: string -> Outcome<Bytes>, fetch2: string -> Outcome<Bytes>,
                                  cwd: string, dirname: string, fs: FileSystem, sharp1: Sharp, sharp2: Sharp)
    requires Falsy(Param(q, "url"))
    ensures Image(q, fetch1, cwd, dirname, fs, sharp1) == Image(q, fetch2, cwd, dirname, fs, sharp2)
    ensures Image(q, fetch1, cwd, dirname, fs, sharp1).Status() == 400
  {
  }

  /**
   * The only upstream request is for the caller's own transform, which the
   * upstream reads back intact when the parameters are plain.
   */
  lemma ImageAsksForCallerTransform(q: Query, fetch1: string -> Outcome<Bytes>, fetch2: string -> Outcome<Bytes>,
                                    cwd: string, dirname: string, fs: FileSystem, sharp: Sharp)
    requires !Falsy(Param(q, "url"))
    requires fetch1(CallerUpstreamImageUrl(LinkTransform(q, q["url"]))) == fetch2(CallerUpstreamImageUrl(LinkTransform(q, q["url"])))
    ensures Image(q, fetch1, cwd, dirname, fs, sharp) == Image(q, fetch2, cwd, dirname, fs, sharp)
    ensures PlainParameters(LinkTransform(q, q["url"])) ==>
      ReadTransform(CallerUpstreamImageUrl(LinkTransform(q, q["url"])), UpstreamHost + "/img?") == Some(LinkTransform(q, q["url"]))
  {
    if PlainParameters(LinkTransform(q, q["url"])) {
      CallerUpstreamImageUrlRoundTrip(LinkTransform(q, q["url"]));
    }
  }

  /**
   * A fetched image is sent with the upstream content type (else one named
   * after the format) and a day's caching; its bytes are the fetched ones when
   * `watermark=false` or when no `watermarks` directory exists, and otherwise
   * what the watermark step makes of them.
   */
  lemma ImageAnswer(q: Query, fetch: string -> Outcome<Bytes>, cwd: string, dirname: string, fs: FileSystem, sharp: Sharp,
                    bytes: Bytes, ct: Option<string>)
    requires !Falsy(Param(q, "url"))
    requires fetch(CallerUpstreamImageUrl(LinkTransform(q, q["url"]))) == Received(bytes, ct)
    ensures var r := Image(q, fetch, cwd, dirname, fs, sharp);
      r.ImageBytes? && r.Status() == 200
      && r.contentType == ContentType(ct, ParamOr(q, "format", "webp")) && r.cacheControl == "public, max-age=86400"
      && (Param(q, "watermark") == Some("false") ==> r.bytes == bytes)
      && (Param(q, "watermark") != Some("false") ==> r.bytes == Watermarked(bytes, cwd, dirname, fs, sharp))
      && ((forall base :: base in PossiblePaths(cwd, dirname, fs) ==> !HasWatermarks(base, fs)) ==> r.bytes == bytes)
  {
    if forall base :: base in PossiblePaths(cwd, dirname, fs) ==> !HasWatermarks(base, fs) {
      NoDirectoryKeepsOriginal(bytes, cwd, dirname, fs, sharp);
    }
  }

  /** A failed image call is answered with the image classifier's status; there is no timeout branch, so a call without a response is 500. */
  lemma ImageFailureStatus(q: Query, fetch: string -> Outcome<Bytes>, cwd: string, dirname: string, fs: FileSystem, sharp: Sharp,
                           e: ClientError)
    requires !Falsy(Param(q, "url"))
    requires fetch(CallerUpstreamImageUrl(LinkTransform(q, q["url"]))) == Rejected(e)
    ensures var r := Image(q, fetch, cwd, dirname, fs, sharp);
      r.Status() == ImageFailure(e).Status() && (e.response.None? ==> r.Status() == 500)
  {
  }
}

/**
 * The production server: the hardened routes with links on `BASE_URL`
 * (default `http://localhost:` and the port), the label text from
 * `WATERMARK_TEXT`, and `NODE_ENV` defaulting to `development` for its own
 * error handler.
 */
module ProductionServer {
  import opened Wrappers
  import opened JsString
  import opened Http
  import opened Json
  import opened Links
  import opened Upstream
  import opened Imaging
  import opened TextWatermark
  import opened Auth
  import opened HardenedRoutes

  /** The environment variables the server reads, each possibly unset. */
  datatype Env = Env(port: Option<string>, baseUrl: Option<string>, nodeEnv: Option<string>,
                     apiKeys: Option<string>, watermarkText: Option<string>)

  /** `process.env.BASE_URL || \`http://localhost:${PORT}\`` with `PORT` defaulting to 3000. */
  function BaseUrl(env: Env): string {
    OrElse(env.baseUrl, "http://localhost:" + OrElse(env.port, "3000"))
  }

  function QcImages(q: Query, headerKey: Option<string>, env: Env, fetch: string -> Outcome<Json>): Reply {
    HardenedRoutes.QcImages(q, headerKey, env.apiKeys, env.nodeEnv, t => LocalImageUrl(BaseUrl(env), t), fetch)
  }

  /** `/api/image`; the opacity is `parseFloat(WATERMARK_OPACITY || '0.5')`, taken as given. */
  function Image(q: Query, env: Env, opacity: real, fetch: string -> Outcome<Bytes>, sharp: Sharp): Reply {
    HardenedRoutes.Image(q, Responsive(LabelText(env.watermarkText), opacity), fetch, sharp)
  }

  /** The global error handler, with `NODE_ENV` defaulting to `development`. */
  function Unhandled(env: Env, errorMessage: string): (r: Reply)
    ensures r.Status() == 500
    ensures env.nodeEnv.None? || env.nodeEnv == Some("") ==> r.message == Some(errorMessage)
  {
    UnhandledError(NodeEnv(env.nodeEnv, "development"), errorMessage)
  }

  /**
   * Every watermarked link of an answer is on the base URL and reads back as
   * the reference and the caller's parameters (when those are plain).
   */
  lemma LinksReadBack(q: Query, headerKey: Option<string>, env: Env, fetch: string -> Outcome<Json>)
    ensures var r := QcImages(q, headerKey, env, fetch);
      r.ProductImages? ==>
        forall i :: 0 <= i < |r.images| && PlainParameters(LinkTransform(q, r.images[i].original)) ==>
          ReadTransform(r.images[i].watermarked, BaseUrl(env) + "/api/image?") == Some(LinkTransform(q, r.images[i].original))
  {
    var r := QcImages(q, headerKey, env, fetch);
    QcImagesLinks(q, headerKey, env.apiKeys, env.nodeEnv, t => LocalImageUrl(BaseUrl(env), t), fetch);
    if r.ProductImages? {
      forall i | 0 <= i < |r.images| && PlainParameters(LinkTransform(q, r.images[i].original))
        ensures ReadTransform(r.images[i].watermarked, BaseUrl(env) + "/api/image?") == Some(LinkTransform(q, r.images[i].original))
      {
        LocalImageUrlRoundTrip(BaseUrl(env), LinkTransform(q, r.images[i].original));
      }
    }
  }

  /** In production with no keys configured, `/api/qc-images` refuses every request with 401 or 403. */
  lemma NoKeysInProductionRejects(q: Query, headerKey: Option<string>, env: Env, fetch: string -> Outcome<Json>)
    requires env.nodeEnv == Some("production") && (env.apiKeys.None? || env.apiKeys == Some(""))
    ensures QcImages(q, headerKey, env, fetch).Status() in {401, 403}
  {
    ProductionWithoutKeysRejects(headerKey, Param(q, "apiKey"), env.apiKeys);
  }

  /** With `WATERMARK_TEXT` unset or empty the label reads `WATERMARK`. */
  lemma DefaultLabel(env: Env, opacity: real, image: Dims)
    requires env.watermarkText.None? || env.watermarkText == Some("")
    ensures Overlay(Responsive(LabelText(env.watermarkText), opacity), image).text == "WATERMARK"
  {
  }
}

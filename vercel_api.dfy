/**
 * The serverless variant: the hardened routes with links on a base URL
 * taken from `BASE_URL`, else `VERCEL_URL`, else `http://localhost:3000`,
 * given `https://` when it lacks a scheme; `NODE_ENV` defaults to
 * `production` for its own error handler.
 */
module VercelApi {
  import opened Wrappers
  import opened JsString
  import opened Http
  import opened Json
  import opened Links
  import opened Upstream
  import opened Imaging
  import opened TextWatermark
  import opened Auth
  import opened HardenedRoutes

  datatype Env = Env(baseUrl: Option<string>, vercelUrl: Option<string>, nodeEnv: Option<string>,
                     apiKeys: Option<string>, watermarkText: Option<string>)

  /** `process.env.BASE_URL || process.env.VERCEL_URL || 'http://localhost:3000'`. */
  function BaseUrl(env: Env): string {
    OrElse(env.baseUrl, OrElse(env.vercelUrl, "http://localhost:3000"))
  }

  function QcImages(q: Query, headerKey: Option<string>, env: Env, fetch: string -> Outcome<Json>): Reply {
    HardenedRoutes.QcImages(q, headerKey, env.apiKeys, env.nodeEnv, t => NormalizedLocalImageUrl(BaseUrl(env), t), fetch)
  }

  function Image(q: Query, env: Env, opacity: real, fetch: string -> Outcome<Bytes>, sharp: Sharp): Reply {
    HardenedRoutes.Image(q, Responsive(LabelText(env.watermarkText), opacity), fetch, sharp)
  }

  /** The global error handler, with `NODE_ENV` defaulting to `production`. */
  function Unhandled(env: Env, errorMessage: string): (r: Reply)
    ensures r.Status() == 500
    ensures env.nodeEnv.None? ==> r.message == Some(GenericMessage)
  {
    UnhandledError(NodeEnv(env.nodeEnv, "production"), errorMessage)
  }

  /**
   * Every watermarked link of an answer is absolute (starts with `http`) and
   * reads back as the reference and the caller's parameters (when those are
   * plain), whether or not the configured base carried a scheme.
   */
  lemma LinksAreAbsolute(q: Query, headerKey: Option<string>, env: Env, fetch: string -> Outcome<Json>)
    ensures var r := QcImages(q, headerKey, env, fetch);
      r.ProductImages? ==>
        forall i :: 0 <= i < |r.images| ==>
          StartsWith(r.images[i].watermarked, "http")
          && (PlainParameters(LinkTransform(q, r.images[i].original)) ==>
                ReadTransform(r.images[i].watermarked, NormalizeBaseUrl(BaseUrl(env)) + "/api/image?")
                  == Some(LinkTransform(q, r.images[i].original)))
  {
    var r := QcImages(q, headerKey, env, fetch);
    QcImagesLinks(q, headerKey, env.apiKeys, env.nodeEnv, t => NormalizedLocalImageUrl(BaseUrl(env), t), fetch);
    if r.ProductImages? {
      forall i | 0 <= i < |r.images|
        ensures StartsWith(r.images[i].watermarked, "http")
        ensures PlainParameters(LinkTransform(q, r.images[i].original)) ==>
          ReadTransform(r.images[i].watermarked, NormalizeBaseUrl(BaseUrl(env)) + "/api/image?") == Some(LinkTransform(q, r.images[i].original))
      {
        var t := LinkTransform(q, r.images[i].original);
        NormalizedLocalImageUrlIsAbsolute(BaseUrl(env), t);
        if PlainParameters(t) {
          NormalizedLocalImageUrlRoundTrip(BaseUrl(env), t);
        }
      }
    }
  }

  /**
   * An unset `NODE_ENV` counts as production for the error handler, which then
   * hides error messages, but not for the key gate, which with no keys
   * configured lets every request through.
   */
  lemma UnsetNodeEnvIsTreatedTwoWays(q: Query, headerKey: Option<string>, env: Env, errorMessage: string)
    requires env.nodeEnv.None? && env.apiKeys.None?
    ensures Unhandled(env, errorMessage).message == Some(GenericMessage)
    ensures ValidateApiKey(headerKey, Param(q, "apiKey"), env.apiKeys, env.nodeEnv) == Next
  {
  }
}

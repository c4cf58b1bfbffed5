/**
 * What a handler answers, stripped of Express: a JSON failure with its
 * status, a validation failure, the product-images body, or image bytes with
 * their headers. Middleware answers `Next` (call the next handler) or stops
 * the request with a reply.
 */
module Http {
  import opened Wrappers

  newtype byte = x: int | 0 <= x < 256
  type Bytes = seq<byte>

  /** A request's query string, one value per parameter. */
  type Query = map<string, string>

  /** `req.query[name]`, undefined when absent. */
  function Param(q: Query, name: string): Option<string> {
    if name in q then Some(q[name]) else None
  }

  /** `const { name = d } = req.query`: the default replaces only an absent value. */
  function ParamOr(q: Query, name: string, d: string): string {
    Param(q, name).GetOr(d)
  }

  datatype FieldError = FieldError(field: string, message: string)

  datatype ImagePair = ImagePair(original: string, watermarked: string)

  const CacheControl: string := "public, max-age=86400"

  datatype Reply =
    | Failure(status: int, error: string, message: Option<string>)
    | Invalid(details: seq<FieldError>)
    | ProductImages(productId: string, storePlatform: string, totalImages: int, images: seq<ImagePair>)
    | ImageBytes(contentType: string, cacheControl: string, nosniff: bool, bytes: Bytes)
  {
    function Status(): int {
      match this
      case Failure(s, _, _) => s
      case Invalid(_) => 400
      case _ => 200
    }
  }

  datatype Gate = Next | Stop(reply: Reply)

  /**
   * `response.headers['content-type'] || \`image/${format}\``: the upstream
   * content type when it is set and non-empty, else one named after the
   * requested format.
   */
  function ContentType(upstream: Option<string>, format: string): (r: string)
    ensures upstream.Some? && upstream.value != "" ==> r == upstream.value
    ensures (upstream.None? || upstream.value == "") ==> r == "image/" + format
    ensures r != ""
  {
    if upstream.Some? && upstream.value != "" then upstream.value else "image/" + format
  }
}

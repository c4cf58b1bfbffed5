/**
 * What the route handlers answer: the product-images body built from the
 * extracted URLs, and the failure replies each family of servers sends for a
 * failed upstream call. The first server and the text-overlay server share one
 * set of failure texts; the two hardened servers share another.
 */
module Replies {
  import opened Wrappers
  import opened Http
  import opened Upstream

  const NoImages: Reply := Failure(404, "No images found in the response", None)

  /** The `original` of every pair, in order. */
  function Originals(pairs: seq<ImagePair>): (r: seq<string>)
    ensures |r| == |pairs|
    ensures forall i :: 0 <= i < |pairs| ==> r[i] == pairs[i].original
  {
    if pairs == [] then [] else Originals(pairs[..|pairs| - 1]) + [pairs[|pairs| - 1].original]
  }

  /** `imageUrls.map(url => ({ original: url, watermarked: link(url) }))`. */
  function PairUp(urls: seq<string>, link: string -> string): (r: seq<ImagePair>)
    ensures |r| == |urls|
    ensures forall i :: 0 <= i < |urls| ==> r[i].watermarked == link(urls[i])
  {
    if urls == [] then [] else PairUp(urls[..|urls| - 1], link) + [ImagePair(urls[|urls| - 1], link(urls[|urls| - 1]))]
  }

  /** Pairing up keeps the URLs, in order: the originals are the input list. */
  lemma {:induction false} OriginalsOfPairUp(urls: seq<string>, link: string -> string)
    ensures Originals(PairUp(urls, link)) == urls
  {
    if urls != [] {
      OriginalsOfPairUp(urls[..|urls| - 1], link);
      assert urls[..|urls| - 1] + [urls[|urls| - 1]] == urls;
    }
  }

  /**
   * The product-images answer: 404 exactly when nothing was extracted,
   * otherwise one pair per URL in extraction order and a count equal to the
   * number of pairs.
   */
  function Package(productId: string, storePlatform: string, urls: seq<string>, link: string -> string): (r: Reply)
    ensures r.Status() == 404 <==> urls == []
    ensures urls == [] ==> r == NoImages
    ensures urls != [] ==>
      r.ProductImages? && r.productId == productId && r.storePlatform == storePlatform
      && r.totalImages == |r.images| == |urls| && Originals(r.images) == urls
      && forall i :: 0 <= i < |urls| ==> r.images[i].watermarked == link(urls[i])
  {
    if |urls| == 0 then NoImages
    else
      var transformedImages := PairUp(urls, link);
      OriginalsOfPairUp(urls, link);
      ProductImages(productId, storePlatform, |transformedImages|, transformedImages)
  }

  /**
   * The product-route failure replies of the first and the text-overlay
   * servers: the upstream's own status with the fetching error, else 503 when
   * a request went out, else 500.
   */
  function BasicProductFailure(e: ClientError): (r: Reply)
    ensures r.Failure? && r.Status() == ProductFailure(e).Status() && r.message.None?
    ensures e.response.Some? ==> r.Status() == e.response.value && r.error == "Error fetching data from Doppel API"
    ensures e.response.None? && e.requestSent ==> r.Status() == 503 && r.error == "No response received from Doppel API"
    ensures e.response.None? && !e.requestSent ==> r.Status() == 500 && r.error == "Internal server error"
  {
    match ProductFailure(e)
    case Mirrored(s) => Failure(s, "Error fetching data from Doppel API", None)
    case Unavailable => Failure(503, "No response received from Doppel API", None)
    case _ => Failure(500, "Internal server error", None)
  }

  /** The product-route failure replies of the hardened servers. */
  function HardenedProductFailure(e: ClientError): (r: Reply)
    ensures r.Failure? && r.Status() == ProductFailure(e).Status()
    ensures e.response.Some? ==>
      r == Failure(e.response.value, "Error fetching data from Doppel API", Some("Unable to retrieve product data"))
    ensures e.response.None? && e.requestSent ==>
      r == Failure(503, "Service temporarily unavailable", Some("No response received from external API"))
    ensures e.response.None? && !e.requestSent ==> r == Failure(500, "Internal server error", None)
  {
    match ProductFailure(e)
    case Mirrored(s) => Failure(s, "Error fetching data from Doppel API", Some("Unable to retrieve product data"))
    case Unavailable => Failure(503, "Service temporarily unavailable", Some("No response received from external API"))
    case _ => Failure(500, "Internal server error", None)
  }

  /**
   * The image-route failure replies of the first and the text-overlay servers.
   * There is no timeout branch: a call without a response is 500, and a 504
   * comes only from an upstream that answered 504.
   */
  function BasicImageFailure(e: ClientError): (r: Reply)
    ensures r.Failure? && r.Status() == ImageFailure(e).Status() && r.message.None?
    ensures e.response.Some? ==> r.Status() == e.response.value && r.error == "Error fetching image from source"
    ensures e.response.None? ==> r.Status() == 500 && r.error == "Internal server error"
    ensures r.Status() == 504 <==> e.response == Some(504)
  {
    match ImageFailure(e)
    case Mirrored(s) => Failure(s, "Error fetching image from source", None)
    case _ => Failure(500, "Internal server error", None)
  }

  /** The image-route failure replies of the hardened servers, with the timeout branch. */
  function HardenedImageFailure(e: ClientError): (r: Reply)
    ensures r.Failure? && r.Status() == ImageFailureWithTimeout(e).Status()
    ensures e.response.Some? ==> r == Failure(e.response.value, "Error fetching image from source", None)
    ensures e.response.None? && e.code == Aborted ==> r == Failure(504, "Request timeout", Some("Image request took too long"))
    ensures e.response.None? && e.code != Aborted ==> r == Failure(500, "Internal server error", None)
  {
    match ImageFailureWithTimeout(e)
    case Mirrored(s) => Failure(s, "Error fetching image from source", None)
    case TimedOut => Failure(504, "Request timeout", Some("Image request took too long"))
    case _ => Failure(500, "Internal server error", None)
  }

  /** `res.status(400)` for a missing or empty required parameter. */
  function MissingParameter(name: string): Reply {
    Failure(400, "Missing required parameter: " + name, None)
  }

  /** `!value` for a query value: absent or empty. */
  predicate Falsy(v: Option<string>) {
    v.None? || v.value == ""
  }

  /** `watermark !== 'false'`. */
  predicate WatermarkWanted(v: string) {
    v != "false"
  }

  /**
   * Whether the query asks for the watermark: with or without the `'true'`
   * default, only an explicit `false` turns it off.
   */
  lemma WatermarkDefault(q: Query)
    ensures WatermarkWanted(ParamOr(q, "watermark", "true")) <==> Param(q, "watermark") != Some("false")
  {
  }
}

/**
 * The URLs the servers build: the "watermarked" link handed back to clients
 * (`createLocalImageUrl`), its base-URL normalisation in the serverless
 * variant, and the two upstream URLs (product metadata and image bytes).
 */
module Links {
  import opened Wrappers
  import opened JsString
  import opened UriComponent

  /** The transform a link describes: the original image URL and the three parameters. */
  datatype Transform = Transform(url: string, quality: string, format: string, width: string)

  const UpstreamHost: string := "https://doppel.fit"

  /** `${base}/api/image?url=${encodeURIComponent(u)}&quality=${q}&format=${f}&width=${w}`. */
  function LocalImageUrl(base: string, t: Transform): string {
    base + "/api/image?url=" + Encode(t.url) + "&quality=" + t.quality + "&format=" + t.format + "&width=" + t.width
  }

  /** The serverless variant's base: used as it is when it starts with `http`, else given `https://`. */
  function NormalizeBaseUrl(base: string): (r: string)
    ensures StartsWith(r, "http")
    ensures r == base <==> StartsWith(base, "http")
    ensures |base| <= |r| && r[|r| - |base|..] == base
    ensures !StartsWith(base, "http") ==> r == "https://" + base
  {
    if StartsWith(base, "http") then base else "https://" + base
  }

  /** Normalising a normalised base changes nothing. */
  lemma NormalizeBaseUrlIdempotent(base: string)
    ensures NormalizeBaseUrl(NormalizeBaseUrl(base)) == NormalizeBaseUrl(base)
  {
  }

  /** The serverless variant's `createLocalImageUrl`. */
  function NormalizedLocalImageUrl(base: string, t: Transform): string {
    LocalImageUrl(NormalizeBaseUrl(base), t)
  }

  /** The upstream product-metadata URL; `id` and `storePlatform` are inserted unencoded. */
  function ProductMetadataUrl(id: string, storePlatform: string): string {
    UpstreamHost + "/api/v1/products/qcMedia?id=" + id + "&storePlatform=" + storePlatform
  }

  /** The upstream image URL built from the caller's own parameters (the first server). */
  function CallerUpstreamImageUrl(t: Transform): string {
    UpstreamHost + "/img?url=" + Encode(t.url) + "&quality=" + t.quality + "&format=" + t.format + "&width=" + t.width
  }

  /** The upstream image URL of the other variants: always the highest-fidelity transform. */
  function FixedUpstreamImageUrl(url: string): string {
    UpstreamHost + "/img?url=" + Encode(url) + "&quality=100&format=png&width=5000"
  }

  // ----- Reading a link back -----

  /** The value of a `name=value` pair, percent-decoded. */
  function Field(pair: string, name: string): Option<string> {
    if StartsWith(pair, name + "=") then Decode(pair[|name| + 1..]) else None
  }

  /**
   * The transform in a link `prefix + "url=…&quality=…&format=…&width=…"`:
   * the query is split at `&` and each value percent-decoded, as the receiving
   * route reads it.
   */
  function ReadTransform(link: string, prefix: string): Option<Transform> {
    if !StartsWith(link, prefix) then None
    else
      var pairs := Split(link[|prefix|..], '&');
      if |pairs| != 4 then None
      else
        match (Field(pairs[0], "url"), Field(pairs[1], "quality"), Field(pairs[2], "format"), Field(pairs[3], "width"))
        case (Some(u), Some(q), Some(f), Some(w)) => Some(Transform(u, q, f, w))
        case _ => None
  }

  predicate AllUnreserved(s: string) {
    forall i :: 0 <= i < |s| ==> Unreserved(s[i])
  }

  /** The parameters a link can carry verbatim: made of unreserved characters only. */
  predicate PlainParameters(t: Transform) {
    AllUnreserved(t.quality) && AllUnreserved(t.format) && AllUnreserved(t.width)
  }

  lemma DecodePlain(s: string)
    requires AllUnreserved(s)
    ensures Decode(s) == Some(s) && NoChar(s, '&')
  {
    EncodeIdentity(s);
    DecodeEncode(s);
  }

  lemma PlainHasNoAmpersand(s: string)
    requires AllUnreserved(s)
    ensures NoChar(s, '&')
  {
  }

  lemma NameValue(name: string, value: string, raw: string)
    requires Decode(raw) == Some(value)
    ensures Field(name + "=" + raw, name) == Some(value)
  {
    var pair := name + "=" + raw;
    assert pair[..|name + "="|] == name + "=";
    assert pair[|name| + 1..] == raw;
  }

  lemma NoCharAppend(a: string, b: string, c: char)
    requires NoChar(a, c) && NoChar(b, c)
    ensures NoChar(a + b, c)
  {
    assert forall i :: |a| <= i < |a + b| ==> (a + b)[i] == b[i - |a|];
  }

  /** The query of a link: its four `name=value` pairs joined with `&`. */
  function Query(e: string, t: Transform): string {
    ("url=" + e) + "&" + (("quality=" + t.quality) + "&" + (("format=" + t.format) + "&" + ("width=" + t.width)))
  }

  lemma {:induction false} QueryPairs(e: string, t: Transform)
    requires NoChar(e, '&') && PlainParameters(t)
    ensures Split(Query(e, t), '&') == ["url=" + e, "quality=" + t.quality, "format=" + t.format, "width=" + t.width]
  {
    PlainHasNoAmpersand(t.quality);
    PlainHasNoAmpersand(t.format);
    PlainHasNoAmpersand(t.width);
    var p0, p1, p2, p3 := "url=" + e, "quality=" + t.quality, "format=" + t.format, "width=" + t.width;
    var parts := [p0, p1, p2, p3];
    NoCharAppend("url=", e, '&');
    NoCharAppend("quality=", t.quality, '&');
    NoCharAppend("format=", t.format, '&');
    NoCharAppend("width=", t.width, '&');
    assert parts[1..] == [p1, p2, p3];
    assert parts[1..][1..] == [p2, p3];
    assert parts[1..][1..][1..] == [p3];
    assert Join([p3], '&') == p3;
    assert Join([p2, p3], '&') == p2 + "&" + p3;
    assert Join([p1, p2, p3], '&') == p1 + "&" + (p2 + "&" + p3);
    assert Join(parts, '&') == Query(e, t);
    SplitJoin(parts, '&');
  }

  /** Reading the query back yields the transform. */
  lemma ReadQuery(prefix: string, e: string, t: Transform)
    requires NoChar(e, '&') && PlainParameters(t)
    requires Decode(e) == Some(t.url)
    ensures ReadTransform(prefix + Query(e, t), prefix) == Some(t)
  {
    var link := prefix + Query(e, t);
    assert link[..|prefix|] == prefix && link[|prefix|..] == Query(e, t);
    QueryPairs(e, t);
    DecodePlain(t.quality);
    DecodePlain(t.format);
    DecodePlain(t.width);
    NameValue("url", t.url, e);
    NameValue("quality", t.quality, t.quality);
    NameValue("format", t.format, t.format);
    NameValue("width", t.width, t.width);
  }

  lemma EncodedComponent(u: string)
    ensures NoChar(Encode(u), '&') && Decode(Encode(u)) == Some(u)
  {
    EncodeChars(u);
    DecodeEncode(u);
  }

  /** The source's template, regrouped as a prefix and the query. */
  lemma TemplateIsQuery(head: string, e: string, t: Transform)
    ensures head + "url=" + e + "&quality=" + t.quality + "&format=" + t.format + "&width=" + t.width
      == head + Query(e, t)
  {
    assert "&quality=" == "&" + "quality=";
    assert "&format=" == "&" + "format=";
    assert "&width=" == "&" + "width=";
  }

  /** The image route reads back, from a watermarked link, exactly the URL and parameters it was built from. */
  lemma LocalImageUrlRoundTrip(base: string, t: Transform)
    requires PlainParameters(t)
    ensures ReadTransform(LocalImageUrl(base, t), base + "/api/image?") == Some(t)
  {
    var e := Encode(t.url);
    EncodedComponent(t.url);
    ReadQuery(base + "/api/image?", e, t);
    TemplateIsQuery(base + "/api/image?", e, t);
    assert base + "/api/image?url=" == base + "/api/image?" + "url=";
  }

  /** A link of the serverless variant starts with its normalised base, hence with `http`. */
  lemma NormalizedLocalImageUrlIsAbsolute(base: string, t: Transform)
    ensures StartsWith(NormalizedLocalImageUrl(base, t), "http")
  {
    var b := NormalizeBaseUrl(base);
    assert NormalizedLocalImageUrl(base, t)[..4] == b[..4];
  }

  /** Every link of the serverless variant is absolute and carries the original URL. */
  lemma NormalizedLocalImageUrlRoundTrip(base: string, t: Transform)
    requires PlainParameters(t)
    ensures StartsWith(NormalizedLocalImageUrl(base, t), "http")
    ensures ReadTransform(NormalizedLocalImageUrl(base, t), NormalizeBaseUrl(base) + "/api/image?") == Some(t)
  {
    NormalizedLocalImageUrlIsAbsolute(base, t);
    var b := NormalizeBaseUrl(base);
    LocalImageUrlRoundTrip(b, t);
    assert NormalizedLocalImageUrl(base, t) == LocalImageUrl(b, t);
  }

  /** The first server asks upstream for the caller's own transform. */
  lemma CallerUpstreamImageUrlRoundTrip(t: Transform)
    requires PlainParameters(t)
    ensures ReadTransform(CallerUpstreamImageUrl(t), UpstreamHost + "/img?") == Some(t)
  {
    var e := Encode(t.url);
    EncodedComponent(t.url);
    ReadQuery(UpstreamHost + "/img?", e, t);
    TemplateIsQuery(UpstreamHost + "/img?", e, t);
    assert UpstreamHost + "/img?url=" == UpstreamHost + "/img?" + "url=";
  }

  lemma FixedIsHighestFidelity(url: string)
    ensures FixedUpstreamImageUrl(url) == CallerUpstreamImageUrl(Transform(url, "100", "png", "5000"))
  {
    FixedSuffix();
    Regroup(UpstreamHost + "/img?url=" + Encode(url), "&quality=", "100", "&format=", "png", "&width=", "5000");
  }

  lemma FixedSuffix()
    ensures "&quality=100&format=png&width=5000" == "&quality=" + "100" + "&format=" + "png" + "&width=" + "5000"
  {
  }

  lemma Regroup(x: string, a: string, b: string, c: string, d: string, e: string, f: string)
    ensures x + (a + b + c + d + e + f) == x + a + b + c + d + e + f
  {
  }

  /** The other variants ask upstream for quality 100, png, width 5000, whatever the caller asked for. */
  lemma FixedUpstreamImageUrlRoundTrip(url: string)
    ensures ReadTransform(FixedUpstreamImageUrl(url), UpstreamHost + "/img?") == Some(Transform(url, "100", "png", "5000"))
  {
    var t := Transform(url, "100", "png", "5000");
    assert PlainParameters(t);
    FixedIsHighestFidelity(url);
    CallerUpstreamImageUrlRoundTrip(t);
  }
}

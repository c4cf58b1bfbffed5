/**
 * The text-overlay watermark of the hardened servers and of the text-overlay
 * server: a centred SVG label as large as the image, composited once. The
 * SVG text itself and its rendering are not modelled; the overlay records
 * what the SVG is built from.
 */
module TextWatermark {
  import opened Wrappers
  import opened JsString
  import opened Http
  import opened Imaging

  const MinFontSize: real := 24.0
  const MaxFontSize: real := 72.0

  /**
   * `Math.max(24, Math.min(72, width / 15))`, on exact reals: a fifteenth of
   * the width, clamped to [24, 72].
   */
  function FontSize(width: real): (r: real)
    ensures MinFontSize <= r <= MaxFontSize
    ensures 360.0 <= width <= 1080.0 ==> r == width / 15.0
    ensures width <= 360.0 ==> r == MinFontSize
    ensures width >= 1080.0 ==> r == MaxFontSize
  {
    var scaled := width / 15.0;
    var capped := if MaxFontSize < scaled then MaxFontSize else scaled;
    if MinFontSize < capped then capped else MinFontSize
  }

  /** `process.env.WATERMARK_TEXT || 'WATERMARK'`. */
  function LabelText(env: Option<string>): string {
    OrElse(env, "WATERMARK")
  }

  /**
   * How the label is styled: the hardened servers size the font from the
   * image and take text and opacity from the environment; the text-overlay
   * server uses a fixed label.
   */
  datatype Style = Responsive(text: string, opacity: real) | Fixed

  const FixedText: string := "YOUR WATERMARK"
  const FixedFontSize: real := 48.0
  const FixedOpacity: real := 0.5

  /** The overlay drawn on an image of the given size. */
  function Overlay(style: Style, image: Dims): (r: TextOverlay)
    ensures r.width == image.width && r.height == image.height
    ensures MinFontSize <= r.fontSize <= MaxFontSize
    ensures style.Responsive? ==>
      r.fontSize == FontSize(image.width as real) && r.text == style.text && r.opacity == style.opacity
    ensures style.Fixed? ==> r.fontSize == 48.0 && r.text == "YOUR WATERMARK" && r.opacity == 0.5
  {
    match style
    case Responsive(text, opacity) => TextOverlay(image.width, image.height, FontSize(image.width as real), text, opacity)
    case Fixed => TextOverlay(image.width, image.height, FixedFontSize, FixedText, FixedOpacity)
  }

  /**
   * The bytes the overlay step leaves in `imageBuffer`: the composite with the
   * one centred overlay, or the fetched bytes when reading the size or
   * compositing fails.
   */
  function TextWatermarked(imageBuffer: Bytes, style: Style, sharp: Sharp): Bytes {
    match sharp.metadata(imageBuffer)
    case None => imageBuffer
    case Some(image) => sharp.composite(imageBuffer, [Centered(Overlay(style, image))]).GetOr(imageBuffer)
  }

  /**
   * The overlay block: `imageBuffer` reassigned only after the composite
   * succeeds; a throw (an early return here) leaves it as fetched.
   */
  method AddTextWatermark(fetched: Bytes, style: Style, sharp: Sharp) returns (imageBuffer: Bytes)
    ensures imageBuffer == TextWatermarked(fetched, style, sharp)
  {
    imageBuffer := fetched;
    var metadata := sharp.metadata(imageBuffer);
    if metadata.None? {
      return;
    }
    var overlay := Overlay(style, metadata.value);
    var composited := sharp.composite(imageBuffer, [Centered(overlay)]);
    if composited.None? {
      return;
    }
    imageBuffer := composited.value;
  }

  /**
   * The step sends either the bytes as fetched or the composite of exactly one
   * centred overlay as large as the image, with a font inside [24, 72]; when
   * the size is read and the composite succeeds, it sends that composite, and
   * when either fails, the bytes as fetched.
   */
  lemma OriginalOrOneOverlay(imageBuffer: Bytes, style: Style, sharp: Sharp)
    ensures var r := TextWatermarked(imageBuffer, style, sharp);
      r == imageBuffer
      || (sharp.metadata(imageBuffer).Some?
          && sharp.composite(imageBuffer, [Centered(Overlay(style, sharp.metadata(imageBuffer).value))]) == Some(r)
          && MinFontSize <= Overlay(style, sharp.metadata(imageBuffer).value).fontSize <= MaxFontSize)
    ensures (sharp.metadata(imageBuffer).Some?
      && sharp.composite(imageBuffer, [Centered(Overlay(style, sharp.metadata(imageBuffer).value))]).Some?) ==>
        TextWatermarked(imageBuffer, style, sharp)
          == sharp.composite(imageBuffer, [Centered(Overlay(style, sharp.metadata(imageBuffer).value))]).value
    ensures (sharp.metadata(imageBuffer).None?
      || sharp.composite(imageBuffer, [Centered(Overlay(style, sharp.metadata(imageBuffer).value))]).None?) ==>
        TextWatermarked(imageBuffer, style, sharp) == imageBuffer
  {
    if sharp.metadata(imageBuffer).Some? {
      var o := Overlay(style, sharp.metadata(imageBuffer).value);
      assert o.fontSize == FontSize(o.width as real) || o.fontSize == FixedFontSize;
    }
  }

  /** The clamp never decreases as the image gets wider. */
  lemma FontSizeMonotonic(w1: real, w2: real)
    requires w1 <= w2
    ensures FontSize(w1) <= FontSize(w2)
  {
  }
}

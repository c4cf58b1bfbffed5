/**
 * The image library as an oracle. Decoding, resizing, rendering and
 * compositing are not modelled; each call is a function of its inputs that may
 * fail (`None`, where the library throws).
 */
module Imaging {
  import opened Wrappers
  import opened Http

  datatype Dims = Dims(width: int, height: int)

  /** The centred text label of the text-overlay servers, as the SVG describes it. */
  datatype TextOverlay = TextOverlay(width: int, height: int, fontSize: real, text: string, opacity: real)

  /** One entry of a `composite([...])` call. */
  datatype Layer =
    | Placed(input: Bytes, top: int, left: int)
    | Centered(overlay: TextOverlay)

  datatype Sharp = Sharp(
    /** `sharp(buffer).metadata()`. */
    metadata: Bytes -> Option<Dims>,
    /** `sharp(path).resize({ width }).toBuffer()`. */
    resize: (string, int) -> Option<Bytes>,
    /** `sharp(buffer).composite(layers).toBuffer()`. */
    composite: (Bytes, seq<Layer>) -> Option<Bytes>)

  /** The filesystem as far as `fs.existsSync` and `path.join` show it. */
  datatype FileSystem = FileSystem(existing: set<string>, join: (string, string) -> string)
}

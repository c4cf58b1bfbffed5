# QC-API in Dafny

QC-API is a small HTTP service in front of an upstream product-image host. It
has two routes.

- `/api/qc-images?id=…` fetches a product's metadata document upstream and
  pulls out every image reference in it. For each one it returns a
  "watermarked" link pointing back at this service.
- `/api/image?url=…` fetches one image upstream, optionally draws a watermark
  on it, and sends the bytes.

The repository ships four server variants sharing that logic:

- the first server (`server.js`): file watermarks, no authentication, light
  checks;
- the text-overlay server (`server-with-watermark.js`): a fixed text label;
- the production server (`production-server.js`): API keys, field
  validation, a responsive text label;
- the serverless variant (`api/index.js`): the production routes with a
  normalised base URL.

It also ships two middleware files: `middleware/auth.js` for the API-key gate
and `middleware/validator.js` for the field rules and the 400 reply.

This project models that core and proves what it does.

- A route is a function from the query (and, for the hardened routes, the
  key header and environment) to a `Reply`.
- The upstream call, the file system and the image library are parameters:
  `string -> Outcome<T>`, a `FileSystem` record, and a `Sharp` record of
  partial functions. So every answer is stated for every possible upstream
  behaviour.
- The two places where the source mutates state step by step are imperative
  Dafny:
  - the `imageUrls` array that `searchForImages` pushes to is the class
    `Extractor.ImageCollector`;
  - `let imageBuffer` and `watermarkComposites` in the watermark block are
    `FileWatermark.AddWatermarks` and `TextWatermark.AddTextWatermark`.
  Each method is proved equal to a specification function, and the
  properties are proved about those functions.

Module layout, following the program:

| module | models |
|---|---|
| `Wrappers`, `JsString`, `Json`, `Http` | `Option`; `startsWith`, `split`, `join`, `trim`, `a \|\| b`; the response document; the reply shapes |
| `UriComponent` | `encodeURIComponent` and the percent-decoding that reads a query value back |
| `Extractor` | `extractImageUrls` (identical in all four servers) |
| `Links` | `createLocalImageUrl` (both forms) and the two upstream URLs |
| `Upstream`, `Replies` | the error classifiers, the failure replies and the product-images answer |
| `FileWatermark` | the first server's directory search and three corner watermarks |
| `TextWatermark` | the centred SVG label of the other servers |
| `Validator`, `Auth` | `middleware/validator.js`, `middleware/auth.js` |
| `DevServer`, `TextOverlayServer`, `HardenedRoutes`, `ProductionServer`, `VercelApi` | the routes of each server |
| `Scenarios` | worked examples on concrete documents and sizes |

Semantics chosen where JavaScript or a library decides:

- **express-validator**:
  - a chain does not stop at its first failing check, so every failing
    check of a field adds one error (a missing `id` gives three);
  - `optional()` skips a field only when it is absent;
  - an absent field is checked as the empty string;
  - `isLength` counts code points, leaving out the variation selectors
    U+FE0E and U+FE0F;
  - `isInt` accepts `^[-+]?[0-9]+$` and then compares the value with `min`
    and `max`;
  - `isIn` is exact membership.
- **Query values**:
  - a destructuring default replaces only an absent value (`Http.ParamOr`);
  - `!x` holds for an absent or empty value (`Replies.Falsy`).
- **`encodeURIComponent`**: over Unicode scalar values, UTF-8 bytes and
  upper-case hex.

Behaviour worth knowing:

- **A failing watermark asset.** In `server.js` (lines 155-253) any throw
  leaves the whole watermark block, and the bytes are sent as fetched: one
  failing asset cancels all three (`FileWatermark.AllOrNothing`).
- **No timeout status on `/api/qc-images`.** The product classifier has only
  the mirrored status, 503 and 500: a metadata call that timed out after the
  request went out is 503, and a 504 there is only an upstream's own 504
  passed on (`Upstream.ProductTimeoutIsUnavailable`).
- **Four watermark directory candidates.** `server.js` (lines 167-172)
  searches exactly four paths for a `watermarks` directory
  (`FileWatermark.FirstWatermarksDir`).
- **Unencoded parameters in links.** Every link builder pastes quality,
  format and width into the query string as they are; only the image URL
  is percent-encoded (`server.js` lines 50 and 138, `production-server.js`
  line 93). On `server.js`, which has no field rules, `format=png%26url%3Dx`
  arrives as `png&url=x` and yields a link carrying a second `url`
  parameter. The read-back lemmas therefore hold when those three values
  are plain, that is, made of unreserved characters only
  (`Links.PlainParameters`).
- **The upstream image URL.** In `server.js` (line 138) it uses the caller's
  quality, format and width (defaults 60, webp, 960). The other three servers
  fix it at 100, png, 5000 (`Links.FixedIsHighestFidelity`).

## Model

| member | source | states |
|---|---|---|
| `JsString.OrElse` | production-server.js:19-21 | `v \|\| d` is `d` exactly when `v` is unset, empty or `d` itself, and `v`'s value otherwise |
| `JsString.Split` | middleware/auth.js:11 | `split(',')` yields at least one piece and no piece contains the separator |
| `JsString.JoinSplit` | middleware/auth.js:11 | joining the pieces of a split gives the string back |
| `JsString.SplitJoin` | middleware/auth.js:11 | splitting a join of separator-free pieces gives the pieces back |
| `JsString.Trim` | middleware/auth.js:29 | `trim()` is an infix of the string, with only trimmable characters cut, and has no trimmable character at either end |
| `JsString.TrimIdempotent` | middleware/auth.js:29 | trimming twice is trimming once |
| `JsString.TrimFixedPoint` | middleware/auth.js:29 | a string is its own trim exactly when it is empty or neither end is trimmable |
| `JsString.TrimBlank` | middleware/auth.js:29 | a string of whitespace only trims to the empty string |
| `Json.Lookup` | server.js:17 | a property is absent exactly when no member has that key, and otherwise the result is the value of a member with that key |
| `Http.ContentType` | server.js:257 | the header sent is never empty: the upstream content type when it is set and non-empty, else `image/<format>` |
| `UriComponent.EncodeChars` | server.js:50 | every character of `encodeURIComponent(u)` is unreserved, `%` or a hex digit, so never `&` |
| `UriComponent.EncodeIdentity` | server.js:50 | a string is encoded as itself exactly when all its characters are unreserved |
| `UriComponent.EncodeAppend` | server.js:50 | encoding distributes over concatenation |
| `UriComponent.EncodeLength` | server.js:50 | the encoding is never shorter than the input |
| `UriComponent.DecodeEncode` | server.js:128 | decoding a query value that was encoded gives back the original string |
| `Extractor.ImagesOf` | server.js:28-30 | one image per node that has a non-empty string `image` |
| `Extractor.VisitIsSearch` | server.js:35-39 | the array branch and the object branch of the property loop find the same images |
| `Extractor.SearchIsImagesOfPreOrder` | server.js:22-42 | the search returns exactly the images of the object nodes in pre-order |
| `Extractor.MembersAreImagesOfPreOrder` | server.js:33-41 | the property loop returns the images of the properties' nodes in pre-order |
| `Extractor.ElemsAreImagesOfPreOrder` | server.js:36 | the walk over an array returns the images of its elements' nodes in order |
| `Extractor.SearchInOrder` | server.js:28-41 | an object's own image comes before everything found under its members, member by member |
| `Extractor.SearchEachAppend` | server.js:36 | searching two arrays one after the other is searching their concatenation |
| `Extractor.ImagesOfMembership` | server.js:28-30 | a URL is among the images exactly when some listed node carries it |
| `Extractor.ImageUrlsAreImagesOfPreOrder` | server.js:14-46 | nothing without a `data` member or when `data.data` is not an object or array, otherwise the images under `data.data` in pre-order, duplicates kept, one per node with an image |
| `Extractor.ImageUrlsMembership` | server.js:14-46 | a URL is extracted exactly when some object node under `data.data` has it as its `image` |
| `Extractor.ImageCollector.SearchForImages` | server.js:22-42 | `searchForImages(obj)` appends to the shared array exactly what the search of `obj` finds |
| `Extractor.ImageCollector.VisitAllMembers` | server.js:33-41 | the property loop appends exactly what the property visits find |
| `Extractor.ImageCollector.VisitAllElems` | server.js:36 | the `forEach` appends the element searches in order |
| `Extractor.ImageCollector.VisitProperty` | server.js:34-40 | one loop iteration appends what that property holds |
| `Extractor.ExtractImageUrls` | server.js:14-46 | the array the closure fills equals `ImageUrls(data)` |
| `Links.NormalizeBaseUrl` | api/index.js:92 | the normalised base starts with `http`; it is the base unchanged exactly when the base already does, and otherwise `https://` followed by the base |
| `Links.NormalizeBaseUrlIdempotent` | api/index.js:92 | normalising a normalised base changes nothing |
| `Links.LocalImageUrlRoundTrip` | server.js:49-51 | when quality, format and width are plain (unreserved characters only), the image route reading a watermarked link gets back the original URL and the three parameters |
| `Links.NormalizedLocalImageUrlIsAbsolute` | api/index.js:91-94 | every link of the serverless variant starts with `http` |
| `Links.NormalizedLocalImageUrlRoundTrip` | api/index.js:91-94 | every serverless link is absolute; when quality, format and width are plain (unreserved characters only), it reads back as its URL and parameters |
| `Links.CallerUpstreamImageUrlRoundTrip` | server.js:138 | when quality, format and width are plain (unreserved characters only), the upstream reads back from the first server's request exactly the caller's URL and parameters |
| `Links.FixedIsHighestFidelity` | production-server.js:196 | the hardened servers' upstream URL is the caller-transform URL with quality 100, png, width 5000 |
| `Links.FixedUpstreamImageUrlRoundTrip` | production-server.js:196 | the upstream reads back the caller's URL and 100 / png / 5000, whatever the query asked |
| `Upstream.ResponseTakesPrecedence` | server.js:100-107 | when the upstream answered, every classifier returns its status |
| `Upstream.TimeoutBranchOnly` | production-server.js:265-281 | the two image classifiers differ only for a timed-out call with no response, which is 504 in one and 500 in the other |
| `Upstream.ProductTimeoutIsUnavailable` | production-server.js:164-181 | a metadata call that timed out after the request went out is 503, not 504 |
| `Upstream.FailureIsNeverSuccess` | server.js:100-121 | no rejected call is answered 2xx, and a product failure is 503, 500 or the upstream's own status |
| `Upstream.UnhandledError` | production-server.js:306-313 | always 500, with the error's own message only in `development` |
| `Replies.Originals` | server.js:83-86 | the `original` of every pair, in order |
| `Replies.PairUp` | server.js:83-86 | one pair per URL, each link built from its URL |
| `Replies.OriginalsOfPairUp` | server.js:83-86 | pairing keeps the URLs in order |
| `Replies.Package` | server.js:75-95 | 404 exactly when nothing was extracted; otherwise the id, the platform, one pair per URL in order and a count equal to the number of pairs |
| `Replies.BasicProductFailure` | server.js:100-121 | the upstream's own status with `Error fetching data from Doppel API`; else 503 with `No response received from Doppel API` when a request went out; else 500 with `Internal server error`; never a message |
| `Replies.HardenedProductFailure` | production-server.js:163-180 | the upstream's own status with `Error fetching data from Doppel API` / `Unable to retrieve product data`; else 503 `Service temporarily unavailable` / `No response received from external API` when a request went out; else 500 `Internal server error` with no message |
| `Replies.BasicImageFailure` | server.js:267-278 | the upstream's own status with `Error fetching image from source`, else 500 with `Internal server error`; there is no timeout branch, so a 504 comes only from an upstream that answered 504 |
| `Replies.HardenedImageFailure` | production-server.js:264-281 | the upstream's own status with `Error fetching image from source`; else 504 `Request timeout` / `Image request took too long` for `ECONNABORTED`; else 500 `Internal server error`; the status is the timeout-aware classifier's |
| `Replies.WatermarkDefault` | production-server.js:193 | with or without the `'true'` default, only an explicit `false` turns the watermark off |
| `FileWatermark.TargetWidth` | server.js:190 | an asset is resized to 15% of the image width, rounded down |
| `FileWatermark.FirstWatermarksDir` | server.js:174-182 | the first candidate base with a `watermarks` entry; none exactly when no candidate has one |
| `FileWatermark.FindWatermarksDir` | server.js:166-182 | the loop with `break` finds the same directory as `FirstWatermarksDir` |
| `FileWatermark.SlotStep` | server.js:185-234 | an asset is skipped exactly when its file is missing; a layer is the resized asset, placed 10 pixels from the image's edges in its corner |
| `FileWatermark.PresentSlots` | server.js:185-234 | exactly the slots whose file is present: every kept slot is present, every present slot is kept, each as often as it is given |
| `FileWatermark.PresentSlotsAppend` | server.js:185-234 | the slots are kept in their order: the present slots of two runs are those of the first run followed by those of the second |
| `FileWatermark.AddWatermarks` | server.js:150-254 | the bytes left in `imageBuffer` after the watermark block equal `Watermarked` |
| `FileWatermark.PlanShape` | server.js:185-234 | a successful plan has one layer per present asset, in slot order |
| `FileWatermark.PlanFailsIffSlotThrows` | server.js:185-250 | the plan fails exactly when some present asset cannot be resized or measured |
| `FileWatermark.AllOrNothing` | server.js:239-253 | the result is the fetched bytes or the composite of the full plan of 1 to 3 layers; a plan of at least one layer whose composite succeeds sends that composite; a throw or no present asset sends the fetched bytes |
| `FileWatermark.NoDirectoryKeepsOriginal` | server.js:235-237 | without a `watermarks` directory the fetched bytes are sent |
| `TextWatermark.FontSize` | production-server.js:222 | the font is within [24, 72]; it is a fifteenth of the width between 360 and 1080, 24 below and 72 above |
| `TextWatermark.Overlay` | production-server.js:225-237 | the overlay is as large as the image and its font lies in [24, 72] for either style; the responsive style takes the clamped font and the configured text and opacity, the fixed one 48 / `YOUR WATERMARK` / 0.5 |
| `TextWatermark.AddTextWatermark` | production-server.js:210-251 | the bytes left in `imageBuffer` equal `TextWatermarked` |
| `TextWatermark.OriginalOrOneOverlay` | production-server.js:239-250 | when the size is read and the composite of the one centred overlay succeeds, that composite is sent; when either fails, the fetched bytes; the font lies in [24, 72] |
| `TextWatermark.FontSizeMonotonic` | production-server.js:222 | the font never shrinks as the image widens |
| `Validator.Length` | middleware/validator.js:12 | the measured length is the number of code points less the number of U+FE0E and U+FE0F in the string |
| `Validator.LengthAppend` | middleware/validator.js:12 | the measured length of a concatenation is the sum of the two lengths |
| `Validator.Failures` | middleware/validator.js:9-15 | at most one error per check, each naming the field |
| `Validator.ChainErrors` | middleware/validator.js:17-20 | every error of a chain names the chain's field |
| `Validator.FailuresEmptyIff` | middleware/validator.js:9-15 | a chain adds no error exactly when every check passes |
| `Validator.RunChainsEmptyIff` | middleware/validator.js:8-36 | the rules produce no error exactly when every chain passes |
| `Validator.RunChainsFields` | middleware/validator.js:8-36 | every error names the field of one of the rules |
| `Validator.IdRuleIff` | middleware/validator.js:9-15 | the `id` chain passes exactly for 1 to 50 letters, digits, `_` or `-` |
| `Validator.OptionalRuleIff` | middleware/validator.js:17-20 | an optional chain passes exactly when the field is absent or its check passes |
| `Validator.UrlRuleIff` | middleware/validator.js:40-44 | the `url` chain passes exactly for a non-empty value of length 1 to 500 |
| `Validator.FiveChainsEmptyIff` | middleware/validator.js:8-36 | five chains produce no error exactly when each of them passes |
| `Validator.StorePlatformRuleIff` | middleware/validator.js:17-20 | the platform is absent or one of WEIDIAN, TAOBAO, 1688, TMALL |
| `Validator.QualityRuleIff` | middleware/validator.js:22-25 | the quality is absent or an integer from 1 to 100 |
| `Validator.FormatRuleIff` | middleware/validator.js:27-30 | the format is absent or one of webp, jpeg, jpg, png |
| `Validator.WidthRuleIff` | middleware/validator.js:32-35 | the width is absent or an integer from 100 to 2000 |
| `Validator.WatermarkRuleIff` | middleware/validator.js:61-64 | the watermark flag is absent, `true` or `false` |
| `Validator.QcImagesRulesIff` | middleware/validator.js:8-36 | the product rules produce no error exactly when the query is acceptable |
| `Validator.ImageRulesIff` | middleware/validator.js:39-65 | the image rules produce no error exactly when the query is acceptable |
| `Validator.MissingIdErrors` | middleware/validator.js:9-15 | a query without `id` gets exactly three `id` errors, with the three messages |
| `Validator.QcImagesGate` | middleware/validator.js:68-83 | the product request goes on exactly when acceptable; otherwise 400 with a non-empty list of field errors |
| `Validator.ImageGate` | middleware/validator.js:68-83 | the image request goes on exactly when acceptable; otherwise 400 with a non-empty list of field errors |
| `Auth.PresentedKey` | middleware/auth.js:8 | the header when it is set and non-empty, else the query value; a non-empty key results exactly when the header or the query presents one |
| `Auth.AllowedKeys` | middleware/auth.js:11 | no keys exactly when the variable is unset or empty; otherwise untrimmed comma-free pieces that join back to it |
| `Auth.Decision` | middleware/auth.js:6-39 | through exactly in open mode or when the trimmed key is on the list; 401 exactly when no key is presented; 403 exactly when the trimmed key is not on the list |
| `Auth.ProductionWithoutKeysRejects` | middleware/auth.js:14-35 | in production with no keys configured, every request is refused with 401 or 403 |
| `Auth.AdmittedKeys` | middleware/auth.js:29 | a configured list admits a key exactly when the trimmed key is one of the pieces |
| `Auth.PaddedEntryNeverMatches` | middleware/auth.js:11 | an entry with whitespace at either end is never matched by any key |
| `Auth.BlankKeyMatchesEmptyEntry` | middleware/auth.js:20-35 | when the list has an empty entry, a key made only of whitespace is let through |
| `Auth.TrailingCommaAddsEmptyEntry` | middleware/auth.js:11 | `k,` is the list of `k` and an empty entry |
| `DevServer.MissingIdIsRejectedFirst` | server.js:59-64 | without an id the answer is 400, whatever the upstream would say |
| `DevServer.QcImagesAnswer` | server.js:54-95 | 404 exactly when the document has no image; otherwise one pair per image in pre-order, each link reading back as its reference and the caller's parameters when quality, format and width are plain (unreserved characters only) |
| `DevServer.QcImagesFailure` | server.js:97-121 | a failed metadata call gets the product classifier's status |
| `DevServer.MissingUrlIsRejectedFirst` | server.js:130-135 | without a URL the answer is 400, before anything is fetched or drawn |
| `DevServer.ImageAsksForCallerTransform` | server.js:128-148 | the only upstream request is for the caller's own transform, which upstream reads back intact when quality, format and width are plain (unreserved characters only) |
| `DevServer.ImageAnswer` | server.js:150-262 | the fetched content type (or `image/<format>`) and a day's caching; unless `watermark=false` the bytes are what the file-watermark step makes of the fetched ones, and they are the fetched ones when `watermark=false` or no directory exists |
| `DevServer.ImageFailureStatus` | server.js:264-278 | a failed image call gets the two-way classifier's status: 500 without a response |
| `TextOverlayServer.MissingIdIsRejectedFirst` | server-with-watermark.js:60-65 | without an id the answer is the 400 `Missing required parameter: id` |
| `TextOverlayServer.MissingUrlIsRejectedFirst` | server-with-watermark.js:131-136 | without a URL the answer is the 400 `Missing required parameter: url` |
| `TextOverlayServer.QcImagesAnswer` | server-with-watermark.js:55-96 | 404 exactly when no image; otherwise one pair per image in pre-order, each link the local link of its reference with the caller's parameters (defaults 90 / png / 960), reading back as such when quality, format and width are plain (unreserved characters only) |
| `TextOverlayServer.DefaultLinkTransform` | server-with-watermark.js:57 | a query without quality, format or width gives links with 90 / png / 960 |
| `TextOverlayServer.ImageAnswer` | server-with-watermark.js:139-197 | unless `watermark=false` the bytes are what the overlay step makes of the fetched ones with the fixed label, which is the fetched bytes or one centred overlay of 48 px, `YOUR WATERMARK`, opacity 0.5 |
| `TextOverlayServer.ImageFailureStatus` | server-with-watermark.js:199-213 | a failed image call gets the two-way classifier's status |
| `HardenedRoutes.QcImagesStages` | production-server.js:116-121 | a refused key is the answer (401 or 403); then an unacceptable query gets 400 with every failed rule; only then the handler runs |
| `HardenedRoutes.QcImagesAnswer` | production-server.js:122-159 | 404 exactly when no image; otherwise the id, one pair per image in pre-order, each link built from its reference and the caller's parameters |
| `HardenedRoutes.QcImagesLinks` | production-server.js:146-150 | every watermarked link of an answer is the link of its own reference and the caller's parameters |
| `HardenedRoutes.QcImagesFailure` | production-server.js:161-181 | a failed metadata call gets the product classifier's status |
| `HardenedRoutes.ImageStages` | production-server.js:187-190 | the image route answers 400 exactly for an unacceptable query, and no API key is asked for |
| `HardenedRoutes.ImageAsksForFixedTransform` | production-server.js:193-208 | the only upstream request is for quality 100, png, width 5000 of the caller's URL |
| `HardenedRoutes.ImageAnswer` | production-server.js:210-260 | content type, caching and `nosniff`; the bytes are the fetched ones when `watermark=false`, else what the overlay step makes of them: the fetched ones or one overlay with a font in [24, 72] |
| `HardenedRoutes.ImageFailureStatus` | production-server.js:262-282 | a failed image call gets the timeout-aware status; a timeout is the 504 `Request timeout` |
| `ProductionServer.Unhandled` | production-server.js:21 | unhandled errors are 500; with `NODE_ENV` unset or empty the error's own message is shown |
| `ProductionServer.LinksReadBack` | production-server.js:92-94 | every link is on the base URL and, when quality, format and width are plain (unreserved characters only), reads back as its reference and parameters |
| `ProductionServer.NoKeysInProductionRejects` | production-server.js:116-117 | in production with no keys, the product route refuses every request with 401 or 403 |
| `ProductionServer.DefaultLabel` | production-server.js:215 | with `WATERMARK_TEXT` unset or empty the label reads `WATERMARK` |
| `VercelApi.Unhandled` | api/index.js:20 | unhandled errors are 500; with `NODE_ENV` unset the fixed text is shown |
| `VercelApi.LinksAreAbsolute` | api/index.js:144-147 | every link is absolute and, when quality, format and width are plain (unreserved characters only), reads back as its reference and parameters on the normalised base |
| `VercelApi.UnsetNodeEnvIsTreatedTwoWays` | api/index.js:293-300 | with `NODE_ENV` unset, the error handler hides messages as in production, while the key gate without keys lets every request through |
| `Scenarios.NestedDocumentOrder` | server.js:22-42 | a nested document yields its images in pre-order: own image, then object member, then array element |
| `Scenarios.EncodeColon` | server.js:50 | `:` is encoded as `%3A` |
| `Scenarios.EncodeSlash` | server.js:50 | `/` is encoded as `%2F` |
| `Scenarios.SingleImageAnswer` | production-server.js:137-159 | a document with one image gives one pair whose link carries that image and the defaults 90 / png / 960 |
| `Scenarios.WideImagePlacement` | test-watermark.js:24-64 | on a 1600 x 900 image the assets are 240 wide and the right-hand ones sit at left 1350 |

## Left out

- HTTP plumbing is not modelled: Express routing, helmet, CORS (including
  `ALLOWED_ORIGINS`), compression, request logging, trust-proxy, the
  catch-all 404 handler, and the bodies of `/` and `/health`.
- The rate limiters (`middleware/rateLimiter.js`) are not part of this model:
  they depend on time and on per-client counters.
- The upstream client is a parameter. Its timeouts (10, 15 and 30 seconds) are
  represented only by the error code a timed-out call carries.
- The image library is a parameter: pixel decoding, resizing, compositing and
  SVG text rendering are not modelled. The SVG is recorded as the values it
  is built from.
- `parseFloat(WATERMARK_OPACITY || '0.5')` is taken as a real-valued
  parameter; parsing the number is not modelled.
- `FileWatermark.TargetWidth`: `Math.floor(width * 0.15)` on doubles is
  modelled as the exact `(15 * width) / 100`. The two agree for every integer
  width up to 2,000,000, since the representation error of `0.15` stays
  below half an ulp there; the model does not prove this about doubles.
- `TextWatermark.FontSize`: computed on exact reals, not on doubles.
- JavaScript object details are not modelled:
  - an object is a sequence of members in enumeration order, so the
    integer-key ordering of `for...in` is not reproduced;
  - `hasOwnProperty` shadowing and `__proto__` members are left out;
  - duplicate keys are left out.
- A query value is one string: repeated parameters that Express turns into
  arrays are not modelled.
- `UriComponent`: strings are sequences of Unicode scalar values, so the
  URIError `encodeURIComponent` throws on a lone surrogate cannot arise.
- The `details` fields of the failure replies (`error.response.data`,
  `error.message`) are not modelled. `Replies.BasicProductFailure` and
  `Replies.BasicImageFailure` state status, error text and absent message.
- `metadata.width` or `metadata.height` being undefined is not modelled:
  image metadata is either read (both dimensions known) or it fails.
- The SIGTERM handler, the startup messages and the warning printed in open
  mode are I/O and are not modelled.
- `Buffer.from(response.data)` is the identity on bytes here.
- A `require` that fails inside the watermark block is covered only as one
  more way for the block to throw.

## Notes

No source defect is claimed. Three behaviours are proved as lemmas in the
model rather than logged as bugs:

- a trailing comma in `API_KEYS` admits any whitespace-only key
  (`Auth.BlankKeyMatchesEmptyEntry`, `Auth.TrailingCommaAddsEmptyEntry`);
- padded list entries can never match (`Auth.PaddedEntryNeverMatches`);
- the serverless variant treats an unset `NODE_ENV` as production for error
  messages but not for the key gate (`VercelApi.UnsetNodeEnvIsTreatedTwoWays`).

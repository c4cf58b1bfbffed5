/**
 * The request-validation middleware: two lists of field rules, each a chain
 * of validators over one query parameter, and the handler that turns the
 * collected errors into a 400 reply or lets the request through.
 *
 * Semantics of the validation library, as this model takes them: a chain
 * runs every one of its validators (no chain stops at its first failure) and
 * each failing validator contributes one error carrying its own message; an
 * `optional()` chain is skipped when the parameter is absent; a chain over an
 * absent parameter sees the empty string.
 */
module Validator {
  import opened Wrappers
  import opened Http

  /** A character of `/^[a-zA-Z0-9_-]+$/`. */
  predicate IdChar(c: char) {
    ('a' <= c <= 'z') || ('A' <= c <= 'Z') || ('0' <= c <= '9') || c == '_' || c == '-'
  }

  predicate IsDigit(c: char) {
    '0' <= c <= '9'
  }

  /** U+FE0E and U+FE0F, which the length check does not count. */
  predicate IsVariationSelector(c: char) {
    c as int == 0xFE0E || c as int == 0xFE0F
  }

  /** The length `isLength` measures: code points, less variation selectors. */
  function Length(s: string): (r: nat)
    ensures r <= |s|
    ensures (forall i :: 0 <= i < |s| ==> !IsVariationSelector(s[i])) ==> r == |s|
    ensures r == |s| - multiset(s)[0xFE0E as char] - multiset(s)[0xFE0F as char]
  {
    if s == [] then 0
    else
      assert s == s[..|s| - 1] + [s[|s| - 1]];
      (if IsVariationSelector(s[|s| - 1]) then 0 else 1) + Length(s[..|s| - 1])
  }

  /** The measured length of a concatenation is the sum of the lengths. */
  lemma {:induction false} LengthAppend(a: string, b: string)
    ensures Length(a + b) == Length(a) + Length(b)
  {
    assert multiset(a + b) == multiset(a) + multiset(b);
  }

  /** `/^[-+]?[0-9]+$/`: an optional sign, then at least one digit. */
  predicate IntText(s: string) {
    var digits := if s != [] && (s[0] == '+' || s[0] == '-') then s[1..] else s;
    digits != [] && forall i :: 0 <= i < |digits| ==> IsDigit(digits[i])
  }

  /** The decimal value of a string of digits. */
  function DigitsValue(ds: string): int {
    if ds == [] then 0 else 10 * DigitsValue(ds[..|ds| - 1]) + (ds[|ds| - 1] as int - '0' as int)
  }

  /** The number an integer text denotes, sign included. */
  function IntValue(s: string): int {
    if s != [] && s[0] == '-' then -DigitsValue(s[1..])
    else if s != [] && s[0] == '+' then DigitsValue(s[1..])
    else DigitsValue(s)
  }

  datatype Rule =
    | NotEmpty
    | LengthBetween(min: nat, max: nat)
    | MatchesIdPattern
    | IntBetween(lo: int, hi: int)
    | OneOf(options: seq<string>)

  /** Whether a value passes one validator. */
  predicate Passes(rule: Rule, s: string) {
    match rule
    case NotEmpty => s != ""
    case LengthBetween(min, max) => min <= Length(s) <= max
    case MatchesIdPattern => s != [] && forall i :: 0 <= i < |s| ==> IdChar(s[i])
    case IntBetween(lo, hi) => IntText(s) && lo <= IntValue(s) <= hi
    case OneOf(options) => s in options
  }

  /** A validator with the message `withMessage` attaches to it. */
  datatype Check = Check(rule: Rule, message: string)

  /** `query(field)` with its validators, and whether it is `optional()`. */
  datatype Chain = Chain(field: string, optional: bool, checks: seq<Check>)

  /** One error per failing check, in the order the checks are declared. */
  function Failures(field: string, checks: seq<Check>, s: string): (r: seq<FieldError>)
    ensures |r| <= |checks|
    ensures forall k :: 0 <= k < |r| ==> r[k].field == field
  {
    if checks == [] then []
    else
      (if Passes(checks[0].rule, s) then [] else [FieldError(field, checks[0].message)])
      + Failures(field, checks[1..], s)
  }

  function ChainErrors(c: Chain, q: Query): (r: seq<FieldError>)
    ensures forall k :: 0 <= k < |r| ==> r[k].field == c.field
  {
    if c.optional && c.field !in q then []
    else Failures(c.field, c.checks, ParamOr(q, c.field, ""))
  }

  /** The errors of a list of chains, chain by chain. */
  function RunChains(chains: seq<Chain>, q: Query): seq<FieldError> {
    if chains == [] then [] else ChainErrors(chains[0], q) + RunChains(chains[1..], q)
  }

  const IdRule: Chain := Chain("id", false, [
    Check(NotEmpty, "Product ID is required"),
    Check(LengthBetween(1, 50), "Product ID must be between 1 and 50 characters"),
    Check(MatchesIdPattern, "Product ID contains invalid characters")])

  const Platforms: seq<string> := ["WEIDIAN", "TAOBAO", "1688", "TMALL"]
  const Formats: seq<string> := ["webp", "jpeg", "jpg", "png"]

  const StorePlatformRule: Chain := Chain("storePlatform", true, [Check(OneOf(Platforms), "Invalid store platform")])
  const QualityRule: Chain := Chain("quality", true, [Check(IntBetween(1, 100), "Quality must be between 1 and 100")])
  const FormatRule: Chain := Chain("format", true, [Check(OneOf(Formats), "Invalid image format")])
  const WidthRule: Chain := Chain("width", true, [Check(IntBetween(100, 2000), "Width must be between 100 and 2000 pixels")])

  const UrlRule: Chain := Chain("url", false, [
    Check(NotEmpty, "Image URL is required"),
    Check(LengthBetween(1, 500), "URL is too long")])

  const WatermarkRule: Chain := Chain("watermark", true, [Check(OneOf(["true", "false"]), "Watermark must be true or false")])

  /** `validateQcImagesRequest`, in declaration order. */
  const QcImagesRules: seq<Chain> := [IdRule, StorePlatformRule, QualityRule, FormatRule, WidthRule]

  /** `validateImageRequest`, in declaration order. */
  const ImageRules: seq<Chain> := [UrlRule, QualityRule, FormatRule, WidthRule, WatermarkRule]

  /**
   * `handleValidationErrors`: through when nothing failed, otherwise a 400
   * listing every error as `{field, message}` in the order collected.
   */
  function HandleValidationErrors(errors: seq<FieldError>): (r: Gate)
    ensures r == Next <==> errors == []
    ensures r.Stop? ==> r.reply == Invalid(errors) && r.reply.Status() == 400
  {
    if errors == [] then Next else Stop(Invalid(errors))
  }

  // ---------------------------------------------------------------------------
  // What each field accepts, stated directly.

  /** A product id: 1 to 50 characters, each a letter, digit, `_` or `-`. */
  predicate ValidId(s: string) {
    1 <= |s| <= 50 && forall i :: 0 <= i < |s| ==> IdChar(s[i])
  }

  /** An integer text whose value lies in [lo, hi]. */
  predicate IntIn(s: string, lo: int, hi: int) {
    IntText(s) && lo <= IntValue(s) <= hi
  }

  /** An image URL: non-empty and at most 500 characters long as measured. */
  predicate ValidUrl(s: string) {
    s != "" && 1 <= Length(s) <= 500
  }

  predicate QcImagesAcceptable(q: Query) {
    "id" in q && ValidId(q["id"])
    && ("storePlatform" in q ==> q["storePlatform"] in Platforms)
    && ("quality" in q ==> IntIn(q["quality"], 1, 100))
    && ("format" in q ==> q["format"] in Formats)
    && ("width" in q ==> IntIn(q["width"], 100, 2000))
  }

  predicate ImageAcceptable(q: Query) {
    "url" in q && ValidUrl(q["url"])
    && ("quality" in q ==> IntIn(q["quality"], 1, 100))
    && ("format" in q ==> q["format"] in Formats)
    && ("width" in q ==> IntIn(q["width"], 100, 2000))
    && ("watermark" in q ==> q["watermark"] == "true" || q["watermark"] == "false")
  }

  // ---------------------------------------------------------------------------
  // Lemmas

  /** A chain's checks produce no error exactly when the value passes every one. */
  lemma {:induction false} FailuresEmptyIff(field: string, checks: seq<Check>, s: string)
    ensures Failures(field, checks, s) == [] <==> forall k :: 0 <= k < |checks| ==> Passes(checks[k].rule, s)
  {
    if checks != [] {
      FailuresEmptyIff(field, checks[1..], s);
      assert forall k :: 1 <= k < |checks| ==> checks[k] == checks[1..][k - 1];
    }
  }

  /** A list of chains produces no error exactly when no chain does. */
  lemma {:induction false} RunChainsEmptyIff(chains: seq<Chain>, q: Query)
    ensures RunChains(chains, q) == [] <==> forall k :: 0 <= k < |chains| ==> ChainErrors(chains[k], q) == []
  {
    if chains != [] {
      RunChainsEmptyIff(chains[1..], q);
      assert forall k :: 1 <= k < |chains| ==> chains[k] == chains[1..][k - 1];
    }
  }

  /** The fields the chains check, in order. */
  function Fields(chains: seq<Chain>): (r: seq<string>)
    ensures |r| == |chains| && forall k :: 0 <= k < |chains| ==> r[k] == chains[k].field
  {
    if chains == [] then [] else [chains[0].field] + Fields(chains[1..])
  }

  /** Every collected error names the field of one of the chains. */
  lemma {:induction false} RunChainsFields(chains: seq<Chain>, q: Query)
    ensures forall e :: e in RunChains(chains, q) ==> e.field in Fields(chains)
  {
    if chains != [] {
      RunChainsFields(chains[1..], q);
      assert Fields(chains) == [chains[0].field] + Fields(chains[1..]);
      forall e | e in ChainErrors(chains[0], q)
        ensures e.field == chains[0].field
      {
        var i :| 0 <= i < |ChainErrors(chains[0], q)| && ChainErrors(chains[0], q)[i] == e;
      }
    }
  }

  /** The errors of a chain in front of others come first. */
  lemma RunChainsCons(c: Chain, cs: seq<Chain>, q: Query)
    ensures RunChains([c] + cs, q) == ChainErrors(c, q) + RunChains(cs, q)
  {
    assert ([c] + cs)[1..] == cs;
  }

  /** The id chain accepts exactly the ids described above. */
  lemma IdRuleIff(q: Query)
    ensures ChainErrors(IdRule, q) == [] <==> "id" in q && ValidId(q["id"])
  {
    var s := ParamOr(q, "id", "");
    FailuresEmptyIff("id", IdRule.checks, s);
    assert IdRule.checks[0].rule == NotEmpty && IdRule.checks[1].rule == LengthBetween(1, 50)
      && IdRule.checks[2].rule == MatchesIdPattern && |IdRule.checks| == 3;
    if forall i :: 0 <= i < |s| ==> IdChar(s[i]) {
      assert forall i :: 0 <= i < |s| ==> !IsVariationSelector(s[i]) by {
        forall i | 0 <= i < |s| ensures !IsVariationSelector(s[i]) {
          assert IdChar(s[i]);
        }
      }
      assert Length(s) == |s|;
    }
    assert "id" !in q ==> s == "";
  }

  /** An optional single-check chain accepts an absent value or one that passes. */
  lemma OptionalRuleIff(c: Chain, q: Query)
    requires c.optional && |c.checks| == 1
    ensures ChainErrors(c, q) == [] <==> (c.field in q ==> Passes(c.checks[0].rule, q[c.field]))
  {
    FailuresEmptyIff(c.field, c.checks, ParamOr(q, c.field, ""));
  }

  /** The URL chain accepts exactly the URLs described above. */
  lemma UrlRuleIff(q: Query)
    ensures ChainErrors(UrlRule, q) == [] <==> "url" in q && ValidUrl(q["url"])
  {
    FailuresEmptyIff("url", UrlRule.checks, ParamOr(q, "url", ""));
  }

  /** Five chains produce no error exactly when none of them does. */
  lemma FiveChainsEmptyIff(c0: Chain, c1: Chain, c2: Chain, c3: Chain, c4: Chain, q: Query)
    ensures RunChains([c0, c1, c2, c3, c4], q) == [] <==>
      ChainErrors(c0, q) == [] && ChainErrors(c1, q) == [] && ChainErrors(c2, q) == []
      && ChainErrors(c3, q) == [] && ChainErrors(c4, q) == []
  {
    RunChainsCons(c4, [], q);
    RunChainsCons(c3, [c4], q);
    RunChainsCons(c2, [c3, c4], q);
    RunChainsCons(c1, [c2, c3, c4], q);
    RunChainsCons(c0, [c1, c2, c3, c4], q);
    assert [c4] + [] == [c4];
    assert [c3] + [c4] == [c3, c4];
    assert [c2] + [c3, c4] == [c2, c3, c4];
    assert [c1] + [c2, c3, c4] == [c1, c2, c3, c4];
    assert [c0] + [c1, c2, c3, c4] == [c0, c1, c2, c3, c4];
  }

  lemma StorePlatformRuleIff(q: Query)
    ensures ChainErrors(StorePlatformRule, q) == [] <==> ("storePlatform" in q ==> q["storePlatform"] in Platforms)
  {
    OptionalRuleIff(StorePlatformRule, q);
  }

  lemma QualityRuleIff(q: Query)
    ensures ChainErrors(QualityRule, q) == [] <==> ("quality" in q ==> IntIn(q["quality"], 1, 100))
  {
    OptionalRuleIff(QualityRule, q);
  }

  lemma FormatRuleIff(q: Query)
    ensures ChainErrors(FormatRule, q) == [] <==> ("format" in q ==> q["format"] in Formats)
  {
    OptionalRuleIff(FormatRule, q);
  }

  lemma WidthRuleIff(q: Query)
    ensures ChainErrors(WidthRule, q) == [] <==> ("width" in q ==> IntIn(q["width"], 100, 2000))
  {
    OptionalRuleIff(WidthRule, q);
  }

  lemma WatermarkRuleIff(q: Query)
    ensures ChainErrors(WatermarkRule, q) == [] <==>
      ("watermark" in q ==> q["watermark"] == "true" || q["watermark"] == "false")
  {
    OptionalRuleIff(WatermarkRule, q);
  }

  /** `validateQcImagesRequest` yields no error exactly when every field is acceptable. */
  lemma QcImagesRulesIff(q: Query)
    ensures RunChains(QcImagesRules, q) == [] <==> QcImagesAcceptable(q)
  {
    FiveChainsEmptyIff(IdRule, StorePlatformRule, QualityRule, FormatRule, WidthRule, q);
    IdRuleIff(q);
    StorePlatformRuleIff(q);
    QualityRuleIff(q);
    FormatRuleIff(q);
    WidthRuleIff(q);
  }

  /** `validateImageRequest` yields no error exactly when every field is acceptable. */
  lemma ImageRulesIff(q: Query)
    ensures RunChains(ImageRules, q) == [] <==> ImageAcceptable(q)
  {
    FiveChainsEmptyIff(UrlRule, QualityRule, FormatRule, WidthRule, WatermarkRule, q);
    UrlRuleIff(q);
    QualityRuleIff(q);
    FormatRuleIff(q);
    WidthRuleIff(q);
    WatermarkRuleIff(q);
  }

  /** A request without an id fails all three id checks, each with its own message. */
  lemma MissingIdErrors(q: Query)
    requires "id" !in q
    ensures ChainErrors(IdRule, q) == [
      FieldError("id", "Product ID is required"),
      FieldError("id", "Product ID must be between 1 and 50 characters"),
      FieldError("id", "Product ID contains invalid characters")]
  {
    assert ParamOr(q, "id", "") == "";
    assert IdRule.checks[1..][1..][1..] == [];
  }

  /**
   * The gate in front of a handler: the request reaches the handler exactly
   * when every field is acceptable, and is otherwise answered with a 400
   * whose details are non-empty and all name a field of the endpoint.
   */
  lemma QcImagesGate(q: Query)
    ensures HandleValidationErrors(RunChains(QcImagesRules, q)) == Next <==> QcImagesAcceptable(q)
    ensures var g := HandleValidationErrors(RunChains(QcImagesRules, q));
      g.Stop? ==>
        g.reply.Status() == 400 && g.reply.Invalid? && g.reply.details != []
        && forall e :: e in g.reply.details ==> e.field in ["id", "storePlatform", "quality", "format", "width"]
  {
    QcImagesRulesIff(q);
    RunChainsFields(QcImagesRules, q);
    assert Fields(QcImagesRules) == ["id", "storePlatform", "quality", "format", "width"];
  }

  lemma ImageGate(q: Query)
    ensures HandleValidationErrors(RunChains(ImageRules, q)) == Next <==> ImageAcceptable(q)
    ensures var g := HandleValidationErrors(RunChains(ImageRules, q));
      g.Stop? ==>
        g.reply.Status() == 400 && g.reply.Invalid? && g.reply.details != []
        && forall e :: e in g.reply.details ==> e.field in ["url", "quality", "format", "width", "watermark"]
  {
    ImageRulesIff(q);
    RunChainsFields(ImageRules, q);
    assert Fields(ImageRules) == ["url", "quality", "format", "width", "watermark"];
  }
}

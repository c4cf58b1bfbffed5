/**
 * Worked examples: concrete documents, queries and image sizes run through
 * the model.
 */
module Scenarios {
  import opened Wrappers
  import opened Http
  import opened Json
  import opened Extractor
  import opened UriComponent
  import opened Links
  import opened Upstream
  import opened Imaging
  import opened FileWatermark
  import opened HardenedRoutes

  /** `{data: {image: "a", child: {image: "b"}, list: [{image: "c"}]}}`. */
  const NestedDocument: Json :=
    Obj([Member("data", Obj([
      Member("image", Str("a")),
      Member("child", Obj([Member("image", Str("b"))])),
      Member("list", Arr([Obj([Member("image", Str("c"))])]))]))])

  /** A node's own image comes first, then those of its members in order. */
  lemma NestedDocumentOrder()
    ensures ImageUrls(NestedDocument) == ["a", "b", "c"]
  {
    var d := Get(NestedDocument, "data").value;
    var child := Obj([Member("image", Str("b"))]);
    var item := Obj([Member("image", Str("c"))]);
    var ms := d.members;
    assert Search(child) == ["b"] by {
      assert VisitMembers(child.members) == VisitMembers([]) + Visit(Str("b"));
    }
    assert Search(item) == ["c"] by {
      assert VisitMembers(item.members) == VisitMembers([]) + Visit(Str("c"));
    }
    assert SearchEach([item]) == SearchEach([]) + Search(item);
    assert ms[..2][..1] == [ms[0]] && ms[..2][1] == ms[1] && ms[2] == Member("list", Arr([item]));
    assert VisitMembers([ms[0]]) == VisitMembers([]) + Visit(Str("a")) == [];
    assert VisitMembers(ms[..2]) == VisitMembers([ms[0]]) + Visit(child) == ["b"];
    assert VisitMembers(ms) == VisitMembers(ms[..2]) + Visit(Arr([item])) == ["b", "c"];
    assert OwnImage(d) == ["a"];
  }

  /** `encodeURIComponent(":")` is `%3A`: the octet in upper-case hex. */
  lemma EncodeColon()
    ensures Encode(":") == "%3A"
  {
    assert Utf8(':') == [0x3A];
    assert EscapeAll([0x3A]) == Escape(0x3A) + EscapeAll([]);
  }

  /** `encodeURIComponent("/")` is `%2F`: a path separator is escaped too. */
  lemma EncodeSlash()
    ensures Encode("/") == "%2F"
  {
    assert Utf8('/') == [0x2F];
    assert EscapeAll([0x2F]) == Escape(0x2F) + EscapeAll([]);
  }

  /**
   * A product whose document holds a single image: one pair, its link on the
   * base URL carrying that reference and the defaults 90 / png / 960.
   */
  lemma SingleImageAnswer(base: string, fetch: string -> Outcome<Json>)
    requires fetch(ProductMetadataUrl("7494645791", "WEIDIAN")) == Received(Obj([Member("data", Obj([Member("image", Str("http://x/1.png"))]))]), None)
    ensures var r := QcImagesHandler(map["id" := "7494645791"], t => LocalImageUrl(base, t), fetch);
      r.ProductImages? && r.totalImages == 1 && r.images[0].original == "http://x/1.png"
      && r.images[0].watermarked == LocalImageUrl(base, Transform("http://x/1.png", "90", "png", "960"))
  {
    var q := map["id" := "7494645791"];
    var body := Obj([Member("data", Obj([Member("image", Str("http://x/1.png"))]))]);
    var inner := Obj([Member("image", Str("http://x/1.png"))]);
    assert VisitMembers(inner.members) == [];
    assert ImageUrls(body) == ["http://x/1.png"];
    assert ParamOr(q, "storePlatform", "WEIDIAN") == "WEIDIAN";
    assert LinkTransform(q, "http://x/1.png") == Transform("http://x/1.png", "90", "png", "960");
  }

  /**
   * A 1600 x 900 image: each asset is resized to 240 px wide, and one of that
   * width sits at left 1350 on the right-hand side.
   */
  lemma WideImagePlacement(scaledHeight: int)
    ensures TargetWidth(1600) == 240
    ensures Offset(TopRight, Dims(1600, 900), Dims(240, scaledHeight)) == (10, 1350)
    ensures Offset(BottomRight, Dims(1600, 900), Dims(240, scaledHeight)) == (890 - scaledHeight, 1350)
  {
  }
}

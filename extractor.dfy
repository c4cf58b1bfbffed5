/**
 * `extractImageUrls`: collect, from a product document, the value of every
 * `image` property that is a non-empty string, walking the document
 * depth-first in pre-order.
 *
 * The functions below follow the two nested walks of the source: a
 * `searchForImages` call on a value, and, inside it, the `for...in` body that
 * recurses into each property (an array property is walked with `forEach`,
 * any other property of object type, null included, is searched directly).
 */
module Extractor {
  import opened Wrappers
  import opened Json

  /** The URL an object contributes itself: its `image`, when that is a non-empty string. */
  function OwnImage(v: Json): seq<string> {
    if v.Obj? then
      match Lookup(v.members, "image")
      case Some(Str(s)) => if s != "" then [s] else []
      case _ => []
    else []
  }

  /** `searchForImages(v)`. */
  function Search(v: Json): seq<string>
    decreases v, 0
  {
    match v
    case Obj(ms) => OwnImage(v) + VisitMembers(ms)
    case Arr(xs) => VisitElems(xs)
    case _ => []
  }

  /** The body of the `for...in` loop for one property value `v`. */
  function Visit(v: Json): seq<string>
    decreases v, 1
  {
    if v.Arr? then SearchEach(v.elems)
    else if IsObjectType(v) then Search(v)
    else []
  }

  /** The `for...in` loop over an object's members. */
  function VisitMembers(ms: seq<Member>): seq<string>
    decreases ms, 0
  {
    if ms == [] then [] else VisitMembers(ms[..|ms| - 1]) + Visit(ms[|ms| - 1].value)
  }

  /** The `for...in` loop over an array's indices. */
  function VisitElems(xs: seq<Json>): seq<string>
    decreases xs, 0
  {
    if xs == [] then [] else VisitElems(xs[..|xs| - 1]) + Visit(xs[|xs| - 1])
  }

  /** `forEach(item => searchForImages(item))` over an array property. */
  function SearchEach(xs: seq<Json>): seq<string>
    decreases xs, 0
  {
    if xs == [] then [] else SearchEach(xs[..|xs| - 1]) + Search(xs[|xs| - 1])
  }

  /**
   * `extractImageUrls(data)`: nothing unless `data` and `data.data` are
   * truthy; otherwise the search of `data.data`.
   */
  function ImageUrls(data: Json): seq<string> {
    if !Truthy(data) then []
    else
      match Get(data, "data")
      case None => []
      case Some(d) => if !Truthy(d) then [] else Search(d)
  }

  // ----- A reference definition: the object nodes in pre-order -----

  /** Every object node of `v`, each before its descendants, children in order. */
  function PreOrder(v: Json): seq<Json>
    decreases v, 1
  {
    match v
    case Obj(ms) => [v] + PreOrderMembers(ms)
    case Arr(xs) => PreOrderAll(xs)
    case _ => []
  }

  function PreOrderMembers(ms: seq<Member>): seq<Json>
    decreases ms, 0
  {
    if ms == [] then [] else PreOrderMembers(ms[..|ms| - 1]) + PreOrder(ms[|ms| - 1].value)
  }

  function PreOrderAll(xs: seq<Json>): seq<Json>
    decreases xs, 0
  {
    if xs == [] then [] else PreOrderAll(xs[..|xs| - 1]) + PreOrder(xs[|xs| - 1])
  }

  /** An object node with a non-empty string `image`. */
  predicate HasImage(o: Json) {
    OwnImage(o) != []
  }

  /** The images of a sequence of nodes, in order. */
  function ImagesOf(nodes: seq<Json>): (r: seq<string>)
    ensures |r| == CountWithImage(nodes)
  {
    if nodes == [] then [] else ImagesOf(nodes[..|nodes| - 1]) + OwnImage(nodes[|nodes| - 1])
  }

  function CountWithImage(nodes: seq<Json>): nat {
    if nodes == [] then 0
    else CountWithImage(nodes[..|nodes| - 1]) + (if HasImage(nodes[|nodes| - 1]) then 1 else 0)
  }

  lemma {:induction false} ImagesOfAppend(a: seq<Json>, b: seq<Json>)
    ensures ImagesOf(a + b) == ImagesOf(a) + ImagesOf(b)
    decreases |b|
  {
    if b == [] {
      assert a + b == a;
    } else {
      var b' := b[..|b| - 1];
      assert (a + b)[..|a + b| - 1] == a + b';
      assert (a + b)[|a + b| - 1] == b[|b| - 1];
      ImagesOfAppend(a, b');
    }
  }

  /** The array branch and the object branch of the `for...in` body agree. */
  lemma {:induction false} VisitIsSearch(v: Json)
    ensures Visit(v) == Search(v)
    decreases v, 1
  {
    match v
    case Arr(xs) => SearchEachIsVisitElems(xs);
    case _ =>
  }

  lemma {:induction false} SearchEachIsVisitElems(xs: seq<Json>)
    ensures SearchEach(xs) == VisitElems(xs)
    decreases xs, 0
  {
    if xs != [] {
      SearchEachIsVisitElems(xs[..|xs| - 1]);
      VisitIsSearch(xs[|xs| - 1]);
    }
  }

  /** The search yields exactly the images of the object nodes, in pre-order. */
  lemma {:induction false} SearchIsImagesOfPreOrder(v: Json)
    ensures Search(v) == ImagesOf(PreOrder(v))
    decreases v, 1
  {
    match v
    case Obj(ms) =>
      MembersAreImagesOfPreOrder(ms);
      ImagesOfAppend([v], PreOrderMembers(ms));
      assert ImagesOf([v]) == OwnImage(v) by {
        assert [v][..0] == [];
      }
    case Arr(xs) =>
      ElemsAreImagesOfPreOrder(xs);
    case _ =>
  }

  lemma {:induction false} MembersAreImagesOfPreOrder(ms: seq<Member>)
    ensures VisitMembers(ms) == ImagesOf(PreOrderMembers(ms))
    decreases ms, 0
  {
    if ms != [] {
      var last := ms[|ms| - 1].value;
      MembersAreImagesOfPreOrder(ms[..|ms| - 1]);
      VisitIsSearch(last);
      SearchIsImagesOfPreOrder(last);
      ImagesOfAppend(PreOrderMembers(ms[..|ms| - 1]), PreOrder(last));
    }
  }

  lemma {:induction false} ElemsAreImagesOfPreOrder(xs: seq<Json>)
    ensures VisitElems(xs) == ImagesOf(PreOrderAll(xs))
    decreases xs, 0
  {
    if xs != [] {
      var last := xs[|xs| - 1];
      ElemsAreImagesOfPreOrder(xs[..|xs| - 1]);
      VisitIsSearch(last);
      SearchIsImagesOfPreOrder(last);
      ImagesOfAppend(PreOrderAll(xs[..|xs| - 1]), PreOrder(last));
    }
  }

  /** The values of an object's members, in enumeration order. */
  function Values(ms: seq<Member>): (r: seq<Json>)
    ensures |r| == |ms| && forall i :: 0 <= i < |ms| ==> r[i] == ms[i].value
  {
    if ms == [] then [] else Values(ms[..|ms| - 1]) + [ms[|ms| - 1].value]
  }

  /**
   * Pre-order, children in order: an object's own image comes first, then
   * whatever is found under each of its members, member by member; an array
   * contributes what is found under each element, element by element.
   */
  lemma {:induction false} SearchInOrder(v: Json)
    ensures v.Obj? ==> Search(v) == OwnImage(v) + SearchEach(Values(v.members))
    ensures v.Arr? ==> Search(v) == SearchEach(v.elems)
  {
    match v
    case Obj(ms) => MembersInOrder(ms);
    case Arr(xs) => SearchEachIsVisitElems(xs);
    case _ =>
  }

  lemma {:induction false} MembersInOrder(ms: seq<Member>)
    ensures VisitMembers(ms) == SearchEach(Values(ms))
  {
    if ms != [] {
      MembersInOrder(ms[..|ms| - 1]);
      VisitIsSearch(ms[|ms| - 1].value);
      var vs := Values(ms);
      assert vs[..|vs| - 1] == Values(ms[..|ms| - 1]);
    }
  }

  /** Searching the concatenation of two arrays searches one after the other. */
  lemma {:induction false} SearchEachAppend(xs: seq<Json>, ys: seq<Json>)
    ensures SearchEach(xs + ys) == SearchEach(xs) + SearchEach(ys)
    decreases |ys|
  {
    if ys == [] {
      assert xs + ys == xs;
    } else {
      var ys' := ys[..|ys| - 1];
      assert (xs + ys)[..|xs + ys| - 1] == xs + ys';
      assert (xs + ys)[|xs + ys| - 1] == ys[|ys| - 1];
      SearchEachAppend(xs, ys');
    }
  }

  /** A URL occurs in the result exactly when some listed node carries it as `image`. */
  lemma {:induction false} ImagesOfMembership(nodes: seq<Json>, u: string)
    ensures u in ImagesOf(nodes) <==> exists i :: 0 <= i < |nodes| && OwnImage(nodes[i]) == [u]
  {
    if nodes != [] {
      var init := nodes[..|nodes| - 1];
      ImagesOfMembership(init, u);
      assert forall i :: 0 <= i < |init| ==> init[i] == nodes[i];
      var own := OwnImage(nodes[|nodes| - 1]);
      assert u in own <==> own == [u];
    }
  }

  /** The object nodes under `data.data`, in pre-order; none when there is no `data` member. */
  function DataNodes(data: Json): seq<Json> {
    match Get(data, "data")
    case Some(d) => PreOrder(d)
    case None => []
  }

  /**
   * What `extractImageUrls` returns: nothing when `data` is not an object
   * with a `data` member, or when `data.data` is not an object or an array;
   * otherwise the images of the object nodes under `data.data`, in pre-order,
   * duplicates kept, one per node that has a non-empty string `image`.
   */
  lemma ImageUrlsAreImagesOfPreOrder(data: Json)
    ensures Get(data, "data").None? ==> ImageUrls(data) == []
    ensures Get(data, "data").Some? && !Get(data, "data").value.Obj? && !Get(data, "data").value.Arr?
      ==> ImageUrls(data) == []
    ensures ImageUrls(data) == ImagesOf(DataNodes(data))
    ensures |ImageUrls(data)| == CountWithImage(DataNodes(data))
  {
    match Get(data, "data")
    case Some(d) => SearchIsImagesOfPreOrder(d);
    case None =>
  }

  /** A URL is extracted exactly when some object node under `data.data` has it as its `image`. */
  lemma ImageUrlsMembership(data: Json, u: string)
    ensures u in ImageUrls(data) <==>
      exists i :: 0 <= i < |DataNodes(data)| && OwnImage(DataNodes(data)[i]) == [u]
  {
    ImageUrlsAreImagesOfPreOrder(data);
    ImagesOfMembership(DataNodes(data), u);
  }

  // ----- The imperative original: one shared array, appended to from the recursion -----

  /** The closure of `extractImageUrls`: the `imageUrls` array its inner function pushes to. */
  class ImageCollector {
    var imageUrls: seq<string>

    constructor ()
      ensures imageUrls == []
    {
      imageUrls := [];
    }

    /** `searchForImages(obj)`: appends what the search of `obj` finds. */
    method SearchForImages(obj: Json)
      modifies this
      ensures imageUrls == old(imageUrls) + Search(obj)
      decreases obj, 0
    {
      match obj
      case Obj(ms) =>
        var image := Get(obj, "image");
        if image.Some? && image.value.Str? && image.value.s != "" {
          imageUrls := imageUrls + [image.value.s];
        }
        VisitAllMembers(ms);
      case Arr(xs) =>
        VisitAllElems(xs);
      case _ =>
    }

    /** The `for...in` loop over an object's members. */
    method VisitAllMembers(ms: seq<Member>)
      modifies this
      ensures imageUrls == old(imageUrls) + VisitMembers(ms)
      decreases ms, 2
    {
      var i := 0;
      while i < |ms|
        invariant 0 <= i <= |ms|
        invariant imageUrls == old(imageUrls) + VisitMembers(ms[..i])
      {
        assert ms[..i + 1][..i] == ms[..i];
        VisitProperty(ms[i].value);
        i := i + 1;
      }
      assert ms[..i] == ms;
    }

    /** The `for...in` loop over an array's indices. */
    method VisitAllElems(xs: seq<Json>)
      modifies this
      ensures imageUrls == old(imageUrls) + VisitElems(xs)
      decreases xs, 2
    {
      var i := 0;
      while i < |xs|
        invariant 0 <= i <= |xs|
        invariant imageUrls == old(imageUrls) + VisitElems(xs[..i])
      {
        assert xs[..i + 1][..i] == xs[..i];
        VisitProperty(xs[i]);
        i := i + 1;
      }
      assert xs[..i] == xs;
    }

    /** One pass of the `for...in` body, for the property value `v`. */
    method VisitProperty(v: Json)
      modifies this
      ensures imageUrls == old(imageUrls) + Visit(v)
      decreases v, 1
    {
      if v.Arr? {
        var j := 0;
        while j < |v.elems|
          invariant 0 <= j <= |v.elems|
          invariant imageUrls == old(imageUrls) + SearchEach(v.elems[..j])
        {
          assert v.elems[..j + 1][..j] == v.elems[..j];
          SearchForImages(v.elems[j]);
          j := j + 1;
        }
        assert v.elems[..j] == v.elems;
      } else if IsObjectType(v) {
        SearchForImages(v);
      }
    }
  }

  /** `extractImageUrls(data)`, run on a fresh collector. */
  method ExtractImageUrls(data: Json) returns (imageUrls: seq<string>)
    ensures imageUrls == ImageUrls(data)
  {
    var collector := new ImageCollector();
    var d := Get(data, "data");
    if !Truthy(data) || d.None? || !Truthy(d.value) {
      return collector.imageUrls;
    }
    collector.SearchForImages(d.value);
    imageUrls := collector.imageUrls;
  }
}

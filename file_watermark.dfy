/**
 * The file-backed watermark step of the first server's image route: find a
 * `watermarks` directory on a search path, plan one layer per watermark file
 * present (top-left, top-right, bottom-right, each resized to 15% of the
 * image width and kept 10 px from the edges), and composite them. Any failure
 * inside the step leaves the fetched bytes as they were.
 */
module FileWatermark {
  import opened Wrappers
  import opened Http
  import opened Imaging

  datatype Slot = TopLeft | TopRight | BottomRight

  const SlotOrder: seq<Slot> := [TopLeft, TopRight, BottomRight]

  function AssetName(slot: Slot): string {
    match slot
    case TopLeft => "image1.png"
    case TopRight => "image2.png"
    case BottomRight => "image3.png"
  }

  const Margin: int := 10

  /**
   * `Math.floor(width * 0.15)`, on exact arithmetic: the largest integer not
   * above fifteen hundredths of the width.
   */
  function TargetWidth(width: int): (r: int)
    ensures 100 * r <= 15 * width < 100 * (r + 1)
  {
    (15 * width) / 100
  }

  /** The `{top, left}` of a slot's layer, from the image's and the resized asset's sizes. */
  function Offset(slot: Slot, image: Dims, scaled: Dims): (int, int) {
    match slot
    case TopLeft => (Margin, Margin)
    case TopRight => (Margin, image.width - scaled.width - Margin)
    case BottomRight => (image.height - scaled.height - Margin, image.width - scaled.width - Margin)
  }

  /** The candidate directories, in the order they are tried. */
  function PossiblePaths(cwd: string, dirname: string, fs: FileSystem): seq<string> {
    [cwd, fs.join(cwd, ".."), dirname, fs.join(dirname, "..")]
  }

  /** `path.join(base, 'watermarks')` exists. */
  predicate HasWatermarks(base: string, fs: FileSystem) {
    fs.join(base, "watermarks") in fs.existing
  }

  /** Candidate `i` is the first with a `watermarks` child. */
  predicate FirstHit(paths: seq<string>, fs: FileSystem, i: int) {
    0 <= i < |paths| && HasWatermarks(paths[i], fs)
    && forall k :: 0 <= k < i ==> !HasWatermarks(paths[k], fs)
  }

  /** The `watermarks` child of the first candidate that has one. */
  function FirstWatermarksDir(paths: seq<string>, fs: FileSystem): (r: Option<string>)
    ensures r.None? <==> forall k :: 0 <= k < |paths| ==> !HasWatermarks(paths[k], fs)
    ensures r.Some? ==> exists i :: FirstHit(paths, fs, i) && r.value == fs.join(paths[i], "watermarks")
  {
    if paths == [] then None
    else if HasWatermarks(paths[0], fs) then Some(fs.join(paths[0], "watermarks"))
    else
      var r := FirstWatermarksDir(paths[1..], fs);
      assert forall k :: 1 <= k < |paths| ==> paths[k] == paths[1..][k - 1];
      assert forall i :: FirstHit(paths[1..], fs, i) ==> FirstHit(paths, fs, i + 1);
      r
  }

  /** The `for ... of` loop over the candidates, with its `break`. */
  method FindWatermarksDir(possiblePaths: seq<string>, fs: FileSystem) returns (watermarksDir: Option<string>)
    ensures watermarksDir == FirstWatermarksDir(possiblePaths, fs)
  {
    watermarksDir := None;
    for i := 0 to |possiblePaths|
      invariant watermarksDir.None?
      invariant FirstWatermarksDir(possiblePaths, fs) == FirstWatermarksDir(possiblePaths[i..], fs)
    {
      var testPath := fs.join(possiblePaths[i], "watermarks");
      if testPath in fs.existing {
        watermarksDir := Some(testPath);
        break;
      }
      assert possiblePaths[i..][1..] == possiblePaths[i + 1..];
    }
  }

  /** What one slot's block does: skip a missing file, throw, or yield a layer. */
  datatype SlotOutcome = Missing | Threw | Layered(layer: Layer)

  predicate AssetPresent(dir: string, slot: Slot, fs: FileSystem) {
    fs.join(dir, AssetName(slot)) in fs.existing
  }

  /**
   * Where a resized asset sits: 10 px from the top and left edges, from the
   * top and right edges, or from the bottom and right edges.
   */
  predicate KeptFromEdges(slot: Slot, image: Dims, scaled: Dims, top: int, left: int) {
    match slot
    case TopLeft => top == Margin && left == Margin
    case TopRight => top == Margin && left + scaled.width + Margin == image.width
    case BottomRight => top + scaled.height + Margin == image.height && left + scaled.width + Margin == image.width
  }

  /**
   * One slot's block: skipped exactly when its file is absent; otherwise the
   * asset resized to `TargetWidth` of the image, placed by its resized size.
   */
  function SlotStep(dir: string, slot: Slot, image: Dims, fs: FileSystem, sharp: Sharp): (r: SlotOutcome)
    ensures r.Missing? <==> !AssetPresent(dir, slot, fs)
    ensures r.Layered? ==>
      r.layer.Placed?
      && sharp.resize(fs.join(dir, AssetName(slot)), TargetWidth(image.width)) == Some(r.layer.input)
      && sharp.metadata(r.layer.input).Some?
      && KeptFromEdges(slot, image, sharp.metadata(r.layer.input).value, r.layer.top, r.layer.left)
  {
    var path := fs.join(dir, AssetName(slot));
    if path !in fs.existing then Missing
    else
      match sharp.resize(path, TargetWidth(image.width))
      case None => Threw
      case Some(buffer) =>
        match sharp.metadata(buffer)
        case None => Threw
        case Some(scaled) =>
          var (top, left) := Offset(slot, image, scaled);
          Layered(Placed(buffer, top, left))
  }

  /** One slot's outcome followed by the plan of the later slots. */
  function Then(step: SlotOutcome, later: Option<seq<Layer>>): Option<seq<Layer>> {
    match step
    case Threw => None
    case Missing => later
    case Layered(l) =>
      match later
      case None => None
      case Some(ls) => Some([l] + ls)
  }

  /** The layers already pushed, followed by those of a later plan. */
  ghost function Prepend(pushed: seq<Layer>, later: Option<seq<Layer>>): Option<seq<Layer>> {
    match later
    case None => None
    case Some(ls) => Some(pushed + ls)
  }

  lemma PrependThen(pushed: seq<Layer>, step: SlotOutcome, later: Option<seq<Layer>>)
    ensures step.Threw? ==> Prepend(pushed, Then(step, later)) == None
    ensures step.Missing? ==> Prepend(pushed, Then(step, later)) == Prepend(pushed, later)
    ensures step.Layered? ==> Prepend(pushed, Then(step, later)) == Prepend(pushed + [step.layer], later)
  {
    if step.Layered? && later.Some? {
      assert pushed + ([step.layer] + later.value) == pushed + [step.layer] + later.value;
    }
  }

  lemma PrependNothing(later: Option<seq<Layer>>)
    ensures Prepend([], later) == later
  {
    if later.Some? {
      assert [] + later.value == later.value;
    }
  }

  /** The layers of the given slots, in order; none when a present slot's block throws. */
  function Plan(dir: string, slots: seq<Slot>, image: Dims, fs: FileSystem, sharp: Sharp): Option<seq<Layer>> {
    if slots == [] then Some([])
    else Then(SlotStep(dir, slots[0], image, fs, sharp), Plan(dir, slots[1..], image, fs, sharp))
  }

  /** The slots whose file is present, in order. */
  function PresentSlots(dir: string, slots: seq<Slot>, fs: FileSystem): (r: seq<Slot>)
    ensures |r| <= |slots|
    ensures forall k :: 0 <= k < |r| ==> r[k] in slots && AssetPresent(dir, r[k], fs)
    ensures forall s :: s in slots && AssetPresent(dir, s, fs) ==> s in r
    ensures forall s :: AssetPresent(dir, s, fs) ==> multiset(r)[s] == multiset(slots)[s]
  {
    if slots == [] then []
    else
      assert slots == [slots[0]] + slots[1..];
      if AssetPresent(dir, slots[0], fs) then [slots[0]] + PresentSlots(dir, slots[1..], fs)
      else PresentSlots(dir, slots[1..], fs)
  }

  /**
   * Filtering keeps the order: the present slots of two runs of slots are
   * those of the first run followed by those of the second.
   */
  lemma {:induction false} PresentSlotsAppend(dir: string, a: seq<Slot>, b: seq<Slot>, fs: FileSystem)
    ensures PresentSlots(dir, a + b, fs) == PresentSlots(dir, a, fs) + PresentSlots(dir, b, fs)
  {
    if a == [] {
      assert a + b == b;
    } else {
      var rest := a[1..];
      assert (a + b)[0] == a[0] && (a + b)[1..] == rest + b;
      PresentSlotsAppend(dir, rest, b, fs);
      var pr, pb := PresentSlots(dir, rest, fs), PresentSlots(dir, b, fs);
      assert [a[0]] + (pr + pb) == [a[0]] + pr + pb;
    }
  }

  /**
   * The bytes the step leaves in `imageBuffer`: the composite when there were
   * layers and every call succeeded, otherwise the fetched bytes.
   */
  function Watermarked(imageBuffer: Bytes, cwd: string, dirname: string, fs: FileSystem, sharp: Sharp): Bytes {
    match sharp.metadata(imageBuffer)
    case None => imageBuffer
    case Some(image) =>
      match FirstWatermarksDir(PossiblePaths(cwd, dirname, fs), fs)
      case None => imageBuffer
      case Some(dir) =>
        match Plan(dir, SlotOrder, image, fs, sharp)
        case None => imageBuffer
        case Some(layers) =>
          if layers == [] then imageBuffer
          else sharp.composite(imageBuffer, layers).GetOr(imageBuffer)
  }

  /**
   * The watermark block of the image route: local `watermarkComposites`
   * appended to slot by slot, `imageBuffer` reassigned only after a successful
   * composite; a throw (an early return here) leaves it untouched.
   */
  method AddWatermarks(fetched: Bytes, cwd: string, dirname: string, fs: FileSystem, sharp: Sharp)
    returns (imageBuffer: Bytes)
    ensures imageBuffer == Watermarked(fetched, cwd, dirname, fs, sharp)
  {
    imageBuffer := fetched;
    var metadata := sharp.metadata(imageBuffer);
    if metadata.None? {
      return;
    }
    var watermarkComposites: seq<Layer> := [];
    var watermarksDir := FindWatermarksDir(PossiblePaths(cwd, dirname, fs), fs);
    if watermarksDir.Some? {
      var dir, image := watermarksDir.value, metadata.value;
      ghost var rest3 := Plan(dir, [], image, fs, sharp);
      ghost var rest2 := Plan(dir, [BottomRight], image, fs, sharp);
      ghost var rest1 := Plan(dir, [TopRight, BottomRight], image, fs, sharp);
      assert [TopRight, BottomRight][1..] == [BottomRight] && [BottomRight][1..] == [];
      assert SlotOrder[0] == TopLeft && SlotOrder[1..] == [TopRight, BottomRight];
      var step1 := SlotStep(dir, TopLeft, image, fs, sharp);
      assert Plan(dir, SlotOrder, image, fs, sharp)
          == Then(SlotStep(dir, SlotOrder[0], image, fs, sharp), Plan(dir, SlotOrder[1..], image, fs, sharp));
      PrependNothing(Then(step1, rest1));
      assert rest1 == Then(SlotStep(dir, TopRight, image, fs, sharp), rest2);
      assert rest2 == Then(SlotStep(dir, BottomRight, image, fs, sharp), rest3);
      assert rest3 == Some([]);
      PrependThen([], step1, rest1);
      if step1.Threw? {
        return;
      }
      if step1.Layered? {
        watermarkComposites := watermarkComposites + [step1.layer];
      }
      assert Plan(dir, SlotOrder, image, fs, sharp) == Prepend(watermarkComposites, rest1);
      var step2 := SlotStep(dir, TopRight, image, fs, sharp);
      PrependThen(watermarkComposites, step2, rest2);
      if step2.Threw? {
        return;
      }
      if step2.Layered? {
        watermarkComposites := watermarkComposites + [step2.layer];
      }
      assert Plan(dir, SlotOrder, image, fs, sharp) == Prepend(watermarkComposites, rest2);
      var step3 := SlotStep(dir, BottomRight, image, fs, sharp);
      PrependThen(watermarkComposites, step3, rest3);
      if step3.Threw? {
        return;
      }
      if step3.Layered? {
        watermarkComposites := watermarkComposites + [step3.layer];
      }
      assert watermarkComposites + [] == watermarkComposites;
      assert Plan(dir, SlotOrder, image, fs, sharp) == Some(watermarkComposites);
    }
    if |watermarkComposites| > 0 {
      var composited := sharp.composite(imageBuffer, watermarkComposites);
      if composited.None? {
        assert composited.GetOr(imageBuffer) == fetched;
        return;
      }
      imageBuffer := composited.value;
    }
  }

  /**
   * A successful plan holds one layer per present asset, in slot order, each
   * the outcome of that asset's block.
   */
  lemma {:induction false} PlanShape(dir: string, slots: seq<Slot>, image: Dims, fs: FileSystem, sharp: Sharp)
    requires Plan(dir, slots, image, fs, sharp).Some?
    ensures var layers, present := Plan(dir, slots, image, fs, sharp).value, PresentSlots(dir, slots, fs);
      |layers| == |present|
      && forall k :: 0 <= k < |layers| ==> SlotStep(dir, present[k], image, fs, sharp) == Layered(layers[k])
  {
    if slots != [] {
      PlanShape(dir, slots[1..], image, fs, sharp);
    }
  }

  /** The plan fails exactly when some slot's block throws. */
  lemma {:induction false} PlanFailsIffSlotThrows(dir: string, slots: seq<Slot>, image: Dims, fs: FileSystem, sharp: Sharp)
    ensures Plan(dir, slots, image, fs, sharp).None?
      <==> exists k :: 0 <= k < |slots| && SlotStep(dir, slots[k], image, fs, sharp).Threw?
  {
    if slots != [] {
      PlanFailsIffSlotThrows(dir, slots[1..], image, fs, sharp);
      assert forall k :: 1 <= k < |slots| ==> slots[k] == slots[1..][k - 1];
      if SlotStep(dir, slots[0], image, fs, sharp).Threw? {
        assert exists k :: 0 <= k < |slots| && SlotStep(dir, slots[k], image, fs, sharp).Threw? by {
          assert SlotStep(dir, slots[0], image, fs, sharp).Threw?;
        }
      }
      if exists k :: 0 <= k < |slots[1..]| && SlotStep(dir, slots[1..][k], image, fs, sharp).Threw? {
        var k :| 0 <= k < |slots[1..]| && SlotStep(dir, slots[1..][k], image, fs, sharp).Threw?;
        assert SlotStep(dir, slots[k + 1], image, fs, sharp).Threw?;
      }
    }
  }

  /**
   * With the image readable and a `watermarks` directory found, the step
   * either leaves the bytes as fetched or returns the composite of the whole
   * plan, one layer per present asset; a throw in any slot, or no asset at
   * all, leaves the bytes as fetched; a plan of at least one layer whose
   * composite succeeds sends that composite.
   */
  lemma AllOrNothing(imageBuffer: Bytes, cwd: string, dirname: string, fs: FileSystem, sharp: Sharp, image: Dims, dir: string)
    requires sharp.metadata(imageBuffer) == Some(image)
    requires FirstWatermarksDir(PossiblePaths(cwd, dirname, fs), fs) == Some(dir)
    ensures var r := Watermarked(imageBuffer, cwd, dirname, fs, sharp);
      r == imageBuffer
      || (Plan(dir, SlotOrder, image, fs, sharp).Some?
          && 1 <= |Plan(dir, SlotOrder, image, fs, sharp).value| == |PresentSlots(dir, SlotOrder, fs)| <= 3
          && sharp.composite(imageBuffer, Plan(dir, SlotOrder, image, fs, sharp).value) == Some(r))
    ensures (exists k :: 0 <= k < |SlotOrder| && SlotStep(dir, SlotOrder[k], image, fs, sharp).Threw?)
      ==> Watermarked(imageBuffer, cwd, dirname, fs, sharp) == imageBuffer
    ensures PresentSlots(dir, SlotOrder, fs) == [] ==> Watermarked(imageBuffer, cwd, dirname, fs, sharp) == imageBuffer
    ensures var plan := Plan(dir, SlotOrder, image, fs, sharp);
      plan.Some? && plan.value != [] && sharp.composite(imageBuffer, plan.value).Some? ==>
        Watermarked(imageBuffer, cwd, dirname, fs, sharp) == sharp.composite(imageBuffer, plan.value).value
  {
    PlanFailsIffSlotThrows(dir, SlotOrder, image, fs, sharp);
    if Plan(dir, SlotOrder, image, fs, sharp).Some? {
      PlanShape(dir, SlotOrder, image, fs, sharp);
    }
  }

  /**
   * When no candidate has a `watermarks` child, the bytes are left as fetched,
   * whatever the image library would have done.
   */
  lemma NoDirectoryKeepsOriginal(imageBuffer: Bytes, cwd: string, dirname: string, fs: FileSystem, sharp: Sharp)
    requires forall base :: base in PossiblePaths(cwd, dirname, fs) ==> !HasWatermarks(base, fs)
    ensures Watermarked(imageBuffer, cwd, dirname, fs, sharp) == imageBuffer
  {
    var paths := PossiblePaths(cwd, dirname, fs);
    assert forall k :: 0 <= k < |paths| ==> paths[k] in paths;
  }
}

/**
 * The character-details page (character-details.js): the equip compositor that
 * places an item's shapes on a character, the version and slot bookkeeping of
 * equipping and unequipping, version-0 seeding and the overall stat grade.
 * `cos`/`sin` of the transform's rotation are inputs, as are timestamps and the
 * user's answer to the unequip confirmation.
 */
module CharacterDetails {
  import opened Wrappers
  import opened Shapes
  import opened ItemModel
  import opened CharacterModel

  // ------------------------------------------------------------ compositor

  /**
   * The `transform` object of the compositor's reply. `cos` and `sin` are
   * `Math.cos`/`Math.sin` of `rotation * Math.PI / 180`.
   */
  datatype Transform = Transform(
    centerX: Option<real>,
    centerY: Option<real>,
    xOffset: Option<real>,
    yOffset: Option<real>,
    scale: real,
    cos: real,
    sin: real,
    zIndex: Option<real>)

  datatype Point = Point(x: real, y: real)

  /** One axis of the offset form: the grid's center plus the offset in grid units. */
  function OffsetToCenter(offset: real, gridSize: int): real {
    gridSize as real / 2.0 + offset * gridSize as real
  }

  /**
   * The center the item is placed at: an absolute center when both coordinates
   * are given, else one derived from both offsets, else none.
   */
  function ResolveCenter(t: Transform, gridSize: int): (c: Option<Point>)
    ensures t.centerX.Some? && t.centerY.Some? ==> c == Some(Point(t.centerX.value, t.centerY.value))
    ensures !(t.centerX.Some? && t.centerY.Some?) && t.xOffset.Some? && t.yOffset.Some? ==>
      c == Some(Point(OffsetToCenter(t.xOffset.value, gridSize), OffsetToCenter(t.yOffset.value, gridSize)))
    ensures c.None? <==> !(t.centerX.Some? && t.centerY.Some?) && !(t.xOffset.Some? && t.yOffset.Some?)
  {
    if t.centerX.Some? && t.centerY.Some? then Some(Point(t.centerX.value, t.centerY.value))
    else if t.xOffset.Some? && t.yOffset.Some? then
      Some(Point(OffsetToCenter(t.xOffset.value, gridSize), OffsetToCenter(t.yOffset.value, gridSize)))
    else None
  }

  /** A zero offset is the grid's center; one grid unit of offset moves the center by the grid size. */
  lemma OffsetToCenterMeaning(offset: real, gridSize: int)
    ensures OffsetToCenter(0.0, gridSize) * 2.0 == gridSize as real
    ensures OffsetToCenter(offset + 1.0, gridSize) == OffsetToCenter(offset, gridSize) + gridSize as real
  {
  }

  /** The running bounding box; `Empty` stands for the initial infinities. */
  datatype Extent = Empty | Box(minX: real, minY: real, maxX: real, maxY: real)

  function Min(a: real, b: real): real { if a <= b then a else b }
  function Max(a: real, b: real): real { if a >= b then a else b }

  function Extend(e: Extent, s: Shape): Extent {
    match e
    case Empty => Box(s.x, s.y, s.x + s.width, s.y + s.height)
    case Box(x0, y0, x1, y1) =>
      Box(Min(x0, s.x), Min(y0, s.y), Max(x1, s.x + s.width), Max(y1, s.y + s.height))
  }

  /** The box accumulated over the shapes in list order. */
  function BoundingBox(shapes: seq<Shape>): (e: Extent)
    ensures e.Box? <==> |shapes| > 0
  {
    if |shapes| == 0 then Empty
    else Extend(BoundingBox(shapes[..|shapes| - 1]), shapes[|shapes| - 1])
  }

  predicate Inside(s: Shape, e: Extent)
    requires e.Box?
  {
    e.minX <= s.x && e.minY <= s.y && s.x + s.width <= e.maxX && s.y + s.height <= e.maxY
  }

  /** The box holds every shape and each of its four edges is some shape's edge. */
  lemma {:induction false} BoundingBoxIsTight(shapes: seq<Shape>)
    requires |shapes| > 0
    ensures forall i :: 0 <= i < |shapes| ==> Inside(shapes[i], BoundingBox(shapes))
    ensures exists i :: 0 <= i < |shapes| && shapes[i].x == BoundingBox(shapes).minX
    ensures exists i :: 0 <= i < |shapes| && shapes[i].y == BoundingBox(shapes).minY
    ensures exists i :: 0 <= i < |shapes| && shapes[i].x + shapes[i].width == BoundingBox(shapes).maxX
    ensures exists i :: 0 <= i < |shapes| && shapes[i].y + shapes[i].height == BoundingBox(shapes).maxY
  {
    var n := |shapes|;
    var last := shapes[n - 1];
    var box := BoundingBox(shapes);
    if n == 1 {
      assert shapes[0] == last;
      assert Inside(shapes[0], box);
    } else {
      var init := shapes[..n - 1];
      BoundingBoxIsTight(init);
      var b := BoundingBox(init);
      assert box == Extend(b, last);
      forall i | 0 <= i < n ensures Inside(shapes[i], box) {
        if i < n - 1 {
          assert shapes[i] == init[i];
        }
      }
      var ix :| 0 <= ix < n - 1 && init[ix].x == b.minX;
      if box.minX == b.minX { assert shapes[ix].x == box.minX; } else { assert last.x == box.minX; }
      var iy :| 0 <= iy < n - 1 && init[iy].y == b.minY;
      if box.minY == b.minY { assert shapes[iy].y == box.minY; } else { assert last.y == box.minY; }
      var jx :| 0 <= jx < n - 1 && init[jx].x + init[jx].width == b.maxX;
      if box.maxX == b.maxX {
        assert shapes[jx].x + shapes[jx].width == box.maxX;
      } else {
        assert last.x + last.width == box.maxX;
      }
      var jy :| 0 <= jy < n - 1 && init[jy].y + init[jy].height == b.maxY;
      if box.maxY == b.maxY {
        assert shapes[jy].y + shapes[jy].height == box.maxY;
      } else {
        assert last.y + last.height == box.maxY;
      }
    }
  }

  /** `character.gridSize / 128`: the item is always taken to be drawn on a 128 grid. */
  function GridScale(gridSize: int): real {
    gridSize as real / 128.0
  }

  /** The transform's scale combined with the grid conversion. */
  function Factor(t: Transform, gridSize: int): real {
    t.scale * GridScale(gridSize)
  }

  /** `v * scale * gridScale`, the scaling applied to every length and offset. */
  function Scaled(v: real, scale: real, gridScale: real): (r: real)
    ensures r == v * (scale * gridScale)
  {
    v * scale * gridScale
  }

  /**
   * One coordinate before rounding: the scaled item's top-left corner, plus the
   * scaled rotated offset, plus half the scaled item size. The two half-size
   * terms cancel, so the result is the offset added to the requested center.
   */
  function Placed(center: real, itemSize: real, rotated: real, scale: real, gridScale: real): (p: real)
    ensures p == center + rotated * (scale * gridScale)
  {
    var scaledSize := Scaled(itemSize, scale, gridScale);
    var scaledTopLeft := center - scaledSize / 2.0;
    scaledTopLeft + Scaled(rotated, scale, gridScale) + scaledSize / 2.0
  }

  /** The shape's offset from the item's center, rotated by (cos, sin). */
  function Rotate(s: Shape, box: Extent, t: Transform): Point
    requires box.Box?
  {
    var relativeX := s.x - (box.minX + box.maxX) / 2.0;
    var relativeY := s.y - (box.minY + box.maxY) / 2.0;
    Point(relativeX * t.cos - relativeY * t.sin, relativeX * t.sin + relativeY * t.cos)
  }

  /**
   * One shape of the `map` in `applyTransformation`: its offset from the item's
   * center is rotated by (cos, sin), scaled and placed about `center`, its
   * size is scaled, all four are rounded, and it is stamped with the
   * transform's scale and z-index.
   */
  function TransformShape(s: Shape, box: Extent, center: Point, t: Transform, gridSize: int): (r: Shape)
    requires box.Box?
    ensures r == s.(x := r.x, y := r.y, width := r.width, height := r.height, scale := r.scale, zIndex := r.zIndex)
    ensures r.scale == Some(t.scale) && r.zIndex == t.zIndex
    ensures IntegerGeometry(r)
    ensures r.x - 0.5 <= center.x + Rotate(s, box, t).x * Factor(t, gridSize) < r.x + 0.5
    ensures r.y - 0.5 <= center.y + Rotate(s, box, t).y * Factor(t, gridSize) < r.y + 0.5
    ensures r.width - 0.5 <= s.width * Factor(t, gridSize) < r.width + 0.5
    ensures r.height - 0.5 <= s.height * Factor(t, gridSize) < r.height + 0.5
  {
    var gridScale := GridScale(gridSize);
    var rotated := Rotate(s, box, t);
    s.(x := Round(Placed(center.x, box.maxX - box.minX, rotated.x, t.scale, gridScale)),
       y := Round(Placed(center.y, box.maxY - box.minY, rotated.y, t.scale, gridScale)),
       width := Round(Scaled(s.width, t.scale, gridScale)),
       height := Round(Scaled(s.height, t.scale, gridScale)),
       scale := Some(t.scale),
       zIndex := t.zIndex)
  }

  /** The `map` of `applyTransformation` under a given box and center. */
  function TransformAll(shapes: seq<Shape>, box: Extent, center: Point, t: Transform, gridSize: int): (r: seq<Shape>)
    requires box.Box?
    ensures |r| == |shapes|
    ensures forall i :: 0 <= i < |shapes| ==> r[i] == TransformShape(shapes[i], box, center, t, gridSize)
  {
    seq(|shapes|, i requires 0 <= i < |shapes| => TransformShape(shapes[i], box, center, t, gridSize))
  }

  /** What `applyTransformation(shapes, transform)` returns for a character of the given grid size. */
  function Transformed(shapes: seq<Shape>, t: Transform, gridSize: int): (r: seq<Shape>)
    ensures |r| == |shapes|
  {
    if |shapes| == 0 then shapes
    else match ResolveCenter(t, gridSize)
      case None => shapes
      case Some(center) => TransformAll(shapes, BoundingBox(shapes), center, t, gridSize)
  }

  /**
   * `applyTransformation`: without a usable center the input comes back
   * unchanged; otherwise the bounding box is accumulated shape by shape and
   * every shape is mapped.
   */
  method ApplyTransformation(shapes: seq<Shape>, t: Transform, gridSize: int) returns (r: seq<Shape>)
    ensures r == Transformed(shapes, t, gridSize)
  {
    var center: Point;
    if t.centerX.Some? && t.centerY.Some? {
      center := Point(t.centerX.value, t.centerY.value);
    } else if t.xOffset.Some? && t.yOffset.Some? {
      var gridCenter := gridSize as real / 2.0;
      center := Point(gridCenter + t.xOffset.value * gridSize as real,
                      gridCenter + t.yOffset.value * gridSize as real);
    } else {
      return shapes;
    }
    assert ResolveCenter(t, gridSize) == Some(center);
    var box := Empty;
    for i := 0 to |shapes|
      invariant box == BoundingBox(shapes[..i])
    {
      box := Extend(box, shapes[i]);
      assert shapes[..i + 1][..i] == shapes[..i];
    }
    assert shapes[..|shapes|] == shapes;
    if |shapes| == 0 {
      return [];
    }
    r := TransformAll(shapes, box, center, t, gridSize);
  }

  /**
   * With a usable center, the output has the input's length and order: shape
   * i becomes `TransformShape` of shape i under the whole list's bounding box.
   * Otherwise the input is returned as it is.
   */
  lemma TransformedShapewise(shapes: seq<Shape>, t: Transform, gridSize: int)
    ensures ResolveCenter(t, gridSize).None? ==> Transformed(shapes, t, gridSize) == shapes
    ensures ResolveCenter(t, gridSize).Some? ==> forall i :: 0 <= i < |shapes| ==>
      Transformed(shapes, t, gridSize)[i] ==
        TransformShape(shapes[i], BoundingBox(shapes), ResolveCenter(t, gridSize).value, t, gridSize)
  {
  }

  /**
   * At 0° (cos 1, sin 0) and with a non-negative factor, a shape inside the
   * item's box lands inside the scaled box centered on the requested center,
   * up to the rounding of its edges, on both axes.
   */
  lemma ZeroRotationShapeInScaledBox(s: Shape, box: Extent, center: Point, t: Transform, gridSize: int)
    requires box.Box? && Inside(s, box)
    requires t.cos == 1.0 && t.sin == 0.0 && Factor(t, gridSize) >= 0.0
    ensures
      var r := TransformShape(s, box, center, t, gridSize);
      var half := (box.maxX - box.minX) * Factor(t, gridSize) / 2.0;
      center.x - half - 0.5 <= r.x && r.x + r.width <= center.x + half + 1.0
    ensures
      var r := TransformShape(s, box, center, t, gridSize);
      var half := (box.maxY - box.minY) * Factor(t, gridSize) / 2.0;
      center.y - half - 0.5 <= r.y && r.y + r.height <= center.y + half + 1.0
  {
    ZeroRotationX(s, box, center, t, gridSize);
    ZeroRotationY(s, box, center, t, gridSize);
  }

  lemma ZeroRotationX(s: Shape, box: Extent, center: Point, t: Transform, gridSize: int)
    requires box.Box? && Inside(s, box)
    requires t.cos == 1.0 && t.sin == 0.0 && Factor(t, gridSize) >= 0.0
    ensures
      var r := TransformShape(s, box, center, t, gridSize);
      var half := (box.maxX - box.minX) * Factor(t, gridSize) / 2.0;
      center.x - half - 0.5 <= r.x && r.x + r.width <= center.x + half + 1.0
  {
    var r := TransformShape(s, box, center, t, gridSize);
    AxisInScaledSpan(r.x, r.width, center.x, Rotate(s, box, t).x, s.x, s.width, box.minX, box.maxX, Factor(t, gridSize));
  }

  lemma ZeroRotationY(s: Shape, box: Extent, center: Point, t: Transform, gridSize: int)
    requires box.Box? && Inside(s, box)
    requires t.cos == 1.0 && t.sin == 0.0 && Factor(t, gridSize) >= 0.0
    ensures
      var r := TransformShape(s, box, center, t, gridSize);
      var half := (box.maxY - box.minY) * Factor(t, gridSize) / 2.0;
      center.y - half - 0.5 <= r.y && r.y + r.height <= center.y + half + 1.0
  {
    var r := TransformShape(s, box, center, t, gridSize);
    AxisInScaledSpan(r.y, r.height, center.y, Rotate(s, box, t).y, s.y, s.height, box.minY, box.maxY, Factor(t, gridSize));
  }

  /**
   * One axis of the lemma above: a segment [pos, pos + size] of the item's
   * span [lo, hi], at `offset` from the span's middle, scaled by k and rounded.
   */
  lemma AxisInScaledSpan(x: real, width: real, c: real, offset: real, pos: real, size: real, lo: real, hi: real, k: real)
    requires lo <= pos && pos + size <= hi && k >= 0.0 && offset == pos - (lo + hi) / 2.0
    requires x - 0.5 <= c + offset * k < x + 0.5
    requires width - 0.5 <= size * k < width + 0.5
    ensures c - (hi - lo) * k / 2.0 - 0.5 <= x && x + width <= c + (hi - lo) * k / 2.0 + 1.0
  {
    EdgeBounds(offset, size, hi - lo, k);
    RoundedEdges(x, width, c, offset * k, size * k, (hi - lo) * k / 2.0);
  }

  /** Two rounded edges of a segment inside [c - half, c + half] stay within half a unit outside it. */
  lemma RoundedEdges(x: real, width: real, c: real, offset: real, exactWidth: real, half: real)
    requires x - 0.5 <= c + offset < x + 0.5 && width - 0.5 <= exactWidth < width + 0.5
    requires -half <= offset && offset + exactWidth <= half
    ensures c - half - 0.5 <= x && x + width <= c + half + 1.0
  {
  }

  /** Scaling by a non-negative factor keeps an offset and width inside a centered span inside the scaled span. */
  lemma EdgeBounds(offset: real, width: real, span: real, k: real)
    requires -span / 2.0 <= offset && offset + width <= span / 2.0 && k >= 0.0
    ensures -(span * k / 2.0) <= offset * k && offset * k + width * k <= span * k / 2.0
  {
    assert (offset + span / 2.0) * k >= 0.0;
    assert (span / 2.0 - offset - width) * k >= 0.0;
  }

  // ------------------------------------------------------------ merge

  /**
   * `generateCombinedImage`: the version-0 shapes followed by the transformed
   * item shapes. No version 0, a failed call or a reply without a `transform`
   * all raise inside the `try` and yield null.
   */
  function CombinedImage(versions: seq<ImageVersion>, gridSize: int, itemShapes: seq<Shape>,
                         reply: Result<Option<Transform>>): (r: Option<seq<Shape>>)
    ensures r.Some? <==> |versions| > 0 && reply.Success? && reply.value.Some?
    ensures r.Some? ==>
      |r.value| == |versions[0].shapes| + |itemShapes| && r.value[..|versions[0].shapes|] == versions[0].shapes
  {
    if |versions| == 0 then None
    else match reply
      case Failure(_) => None
      case Success(None) => None
      case Success(Some(t)) => Some(versions[0].shapes + Transformed(itemShapes, t, gridSize))
  }

  method GenerateCombinedImage(ch: Character, item: Item, reply: Result<Option<Transform>>)
    returns (r: Option<seq<Shape>>)
    ensures r == CombinedImage(ch.imageVersions, ch.gridSize, item.shapes, reply)
  {
    if |ch.imageVersions| == 0 {
      return None;
    }
    var baseCharacterShapes := ch.imageVersions[0].shapes;
    if reply.Failure? || reply.value.None? {
      return None;
    }
    var transformed := ApplyTransformation(item.shapes, reply.value.value, ch.gridSize);
    r := Some(baseCharacterShapes + transformed);
  }

  /**
   * A full-grid base shape and an item spanning 40..88 on both axes, scaled by
   * 0.2 to the center (64, 30) at 0° with z-index 80: the item becomes a 10×10
   * shape at (59, 25), centered on (64, 30), behind nothing, and the merged
   * list has two shapes.
   */
  lemma EquipScenario()
    ensures
      var base := Shape("a", Rectangle, 0.0, 0.0, 128.0, 128.0, "#fff", Some(0.0), None);
      var item := Shape("i", Rectangle, 40.0, 40.0, 48.0, 48.0, "#f00", None, None);
      var t := Transform(Some(64.0), Some(30.0), None, None, 0.2, 1.0, 0.0, Some(80.0));
      CombinedImage([ImageVersion([base], "t0")], 128, [item], Success(Some(t))) ==
        Some([base, item.(x := 59.0, y := 25.0, width := 10.0, height := 10.0,
                          scale := Some(0.2), zIndex := Some(80.0))])
  {
    var base := Shape("a", Rectangle, 0.0, 0.0, 128.0, 128.0, "#fff", Some(0.0), None);
    var item := Shape("i", Rectangle, 40.0, 40.0, 48.0, 48.0, "#f00", None, None);
    var t := Transform(Some(64.0), Some(30.0), None, None, 0.2, 1.0, 0.0, Some(80.0));
    var box := Box(40.0, 40.0, 88.0, 88.0);
    var c := Point(64.0, 30.0);
    assert BoundingBox([item]) == box;
    assert ResolveCenter(t, 128) == Some(c);
    assert Rotate(item, box, t) == Point(-24.0, -24.0);
    assert Factor(t, 128) == 0.2;
    var r := TransformShape(item, box, c, t, 128);
    assert r.x == 59.0 && r.y == 25.0 && r.width == 10.0 && r.height == 10.0;
    assert Transformed([item], t, 128) == [r];
    assert r == item.(x := 59.0, y := 25.0, width := 10.0, height := 10.0, scale := Some(0.2), zIndex := Some(80.0));
    assert CombinedImage([ImageVersion([base], "t0")], 128, [item], Success(Some(t))) == Some([base] + [r]);
    assert [base] + [r] == [base, r];
  }

  // ------------------------------------------------------------ equipment slots

  /** `equipmentSlots.findIndex(slot => slot.id === slotId)`. */
  function IndexOfSlot(slots: seq<EquipmentSlot>, slotId: string): (k: int)
    ensures -1 <= k < |slots|
    ensures k == -1 <==> forall j :: 0 <= j < |slots| ==> slots[j].id != slotId
    ensures k >= 0 ==> slots[k].id == slotId && forall j :: 0 <= j < k ==> slots[j].id != slotId
  {
    if |slots| == 0 then -1
    else if slots[0].id == slotId then 0
    else var k := IndexOfSlot(slots[1..], slotId); if k == -1 then -1 else k + 1
  }

  /** The first slot with the id gets `equipment`; an unknown id changes nothing. */
  function SetSlotEquipment(slots: seq<EquipmentSlot>, slotId: string, equipment: Option<EquipmentRef>)
    : (r: seq<EquipmentSlot>)
    ensures |r| == |slots|
    ensures IndexOfSlot(slots, slotId) == -1 ==> r == slots
    ensures forall j :: 0 <= j < |slots| ==>
      r[j] == if j == IndexOfSlot(slots, slotId) then slots[j].(equipment := equipment) else slots[j]
  {
    var k := IndexOfSlot(slots, slotId);
    if k == -1 then slots else slots[k := slots[k].(equipment := equipment)]
  }

  /** Filling and then clearing a slot leaves the slot list as it was, if the slot was empty. */
  lemma EquipThenClearSlot(slots: seq<EquipmentSlot>, slotId: string, e: EquipmentRef)
    requires IndexOfSlot(slots, slotId) != -1 ==> slots[IndexOfSlot(slots, slotId)].equipment == None
    ensures SetSlotEquipment(SetSlotEquipment(slots, slotId, Some(e)), slotId, None) == slots
  {
    var once := SetSlotEquipment(slots, slotId, Some(e));
    var k := IndexOfSlot(slots, slotId);
    assert forall j :: 0 <= j < |once| ==> once[j].id == slots[j].id;
    assert IndexOfSlot(once, slotId) == k;
  }

  /** What the equipment slot records about an item. */
  function RefOf(item: Item): EquipmentRef {
    EquipmentRef(item.id, item.name, item.metadata)
  }

  // ------------------------------------------------------------ equip / unequip

  /**
   * `loadCharacter`'s seeding: a character without history gets its current
   * shapes as version 0.
   */
  method SeedInitialVersion(ch: Character, timestamp: string)
    modifies ch
    ensures old(|ch.imageVersions|) == 0 ==>
      ch.State() == old(ch.State()).(imageVersions := [ImageVersion(ch.shapes, timestamp)], currentVersion := 0)
    ensures old(|ch.imageVersions|) > 0 ==> ch.State() == old(ch.State())
    ensures |ch.imageVersions| > 0
  {
    if |ch.imageVersions| == 0 {
      ch.AddVersion(ch.shapes, timestamp);
    }
  }

  /**
   * `confirmImageSelection`: the shapes shown before the equip are appended to
   * the history, the chosen image becomes the current shapes, and the slot with
   * the given id records the item. Without metadata the slot lookup raises
   * after the first two steps, which stay done.
   */
  method ConfirmImageSelection(ch: Character, shapes: seq<Shape>, slotId: string, item: Item, timestamp: string)
    returns (r: Result<()>)
    modifies ch
    ensures ch.imageVersions == old(ch.imageVersions) + [ImageVersion(old(ch.shapes), timestamp)]
    ensures ch.currentVersion == |ch.imageVersions| - 1 && ch.shapes == shapes
    ensures old(ch.metadata).None? ==> r.Failure? && r.error.TypeError? && ch.metadata == None
    ensures old(ch.metadata).Some? ==>
      r == Success(()) &&
      ch.metadata == Some(old(ch.metadata).value.(equipmentSlots :=
        SetSlotEquipment(old(ch.metadata).value.equipmentSlots, slotId, Some(RefOf(item)))))
    ensures ch.State() == old(ch.State()).(shapes := ch.shapes, imageVersions := ch.imageVersions,
                                           currentVersion := ch.currentVersion, metadata := ch.metadata)
  {
    ch.AddVersion(ch.shapes, timestamp);
    ch.shapes := shapes;
    if ch.metadata.None? {
      return Failure(TypeError("Cannot read properties of null (reading 'equipmentSlots')"));
    }
    var metadata := ch.metadata.value;
    var slotIndex := IndexOfSlot(metadata.equipmentSlots, slotId);
    if slotIndex != -1 {
      ch.metadata := Some(metadata.(equipmentSlots := SetSlotEquipment(metadata.equipmentSlots, slotId, Some(RefOf(item)))));
    }
    r := Success(());
  }

  /** How `unequipItem` ends. */
  datatype UnequipOutcome =
    | Cancelled                       // the user declined the confirmation
    | NoSuchSlot
    | SlotEmpty
    | NoPreviousVersion               // `currentVersion - 1` is outside the history
    | Unequipped(item: EquipmentRef)
    | Crashed(error: Error)           // the character has no metadata

  /**
   * `unequipItem`: after the user confirms (`confirmed`), the slot must exist
   * and hold an item and `currentVersion - 1` must index the history; then the
   * character reverts to that version and the slot is cleared. Every other
   * outcome changes nothing. The history is never shortened.
   */
  method UnequipItem(ch: Character, slotId: string, confirmed: bool) returns (outcome: UnequipOutcome)
    modifies ch
    ensures ch.imageVersions == old(ch.imageVersions)
    ensures !outcome.Unequipped? ==> ch.State() == old(ch.State())
    ensures !confirmed ==> outcome == Cancelled
    ensures confirmed && old(ch.metadata).None? ==> outcome.Crashed?
    ensures confirmed && old(ch.metadata).Some? ==>
      var slots := old(ch.metadata).value.equipmentSlots;
      var k := IndexOfSlot(slots, slotId);
      var previous := old(ch.currentVersion) - 1;
      && (k == -1 ==> outcome == NoSuchSlot)
      && (k != -1 && slots[k].equipment.None? ==> outcome == SlotEmpty)
      && (k != -1 && slots[k].equipment.Some? && !(0 <= previous < |ch.imageVersions|) ==>
            outcome == NoPreviousVersion)
      && (k != -1 && slots[k].equipment.Some? && 0 <= previous < |ch.imageVersions| ==>
            outcome == Unequipped(slots[k].equipment.value) &&
            ch.State() == old(ch.State()).(
              shapes := ch.imageVersions[previous].shapes,
              currentVersion := previous,
              metadata := Some(old(ch.metadata).value.(equipmentSlots := SetSlotEquipment(slots, slotId, None)))))
  {
    if !confirmed {
      return Cancelled;
    }
    if ch.metadata.None? {
      return Crashed(TypeError("Cannot read properties of null (reading 'equipmentSlots')"));
    }
    var metadata := ch.metadata.value;
    var slotIndex := IndexOfSlot(metadata.equipmentSlots, slotId);
    if slotIndex == -1 {
      return NoSuchSlot;
    }
    var item := metadata.equipmentSlots[slotIndex].equipment;
    if item.None? {
      return SlotEmpty;
    }
    var previousVersion := ch.currentVersion - 1;
    if previousVersion < 0 || previousVersion >= |ch.imageVersions| {
      return NoPreviousVersion;
    }
    ch.RevertToVersion(previousVersion);
    ch.metadata := Some(metadata.(equipmentSlots := SetSlotEquipment(metadata.equipmentSlots, slotId, None)));
    outcome := Unequipped(item.value);
  }

  /**
   * On a freshly seeded character (one version holding its shapes), equipping
   * one item and unequipping it restores the original shapes and empties the
   * slot, and the history keeps both snapshots.
   */
  method EquipThenUnequipOnSeeded(ch: Character, combined: seq<Shape>, slotId: string, item: Item,
                                  t1: string, t2: string)
    returns (outcome: UnequipOutcome)
    requires ch.imageVersions == [ImageVersion(ch.shapes, t1)] && ch.currentVersion == 0
    requires ch.metadata.Some? && IndexOfSlot(ch.metadata.value.equipmentSlots, slotId) != -1
    requires ch.metadata.value.equipmentSlots[IndexOfSlot(ch.metadata.value.equipmentSlots, slotId)].equipment.None?
    modifies ch
    ensures outcome == Unequipped(RefOf(item))
    ensures ch.shapes == old(ch.shapes) && ch.metadata == old(ch.metadata)
    ensures |ch.imageVersions| == 2 && ch.currentVersion == 0
  {
    var slots := ch.metadata.value.equipmentSlots;
    var _ := ConfirmImageSelection(ch, combined, slotId, item, t2);
    EquipThenClearSlot(slots, slotId, RefOf(item));
    outcome := UnequipItem(ch, slotId, true);
  }

  /**
   * Because the version appended on equip is the pre-equip snapshot and unequip
   * goes one further back, equipping two items and unequipping the second
   * reverts to the shapes from before the FIRST equip, although the first
   * item's slot still records it.
   */
  method SecondUnequipDropsFirstItemImage(ch: Character, first: seq<Shape>, second: seq<Shape>,
                                          slotA: string, slotB: string, itemA: Item, itemB: Item,
                                          t1: string, t2: string, t3: string)
    returns (outcome: UnequipOutcome)
    requires ch.imageVersions == [ImageVersion(ch.shapes, t1)] && ch.currentVersion == 0
    requires ch.metadata.Some? && slotA != slotB
    requires IndexOfSlot(ch.metadata.value.equipmentSlots, slotA) != -1
    requires IndexOfSlot(ch.metadata.value.equipmentSlots, slotB) != -1
    modifies ch
    ensures outcome == Unequipped(RefOf(itemB))
    ensures ch.shapes == old(ch.shapes)
    ensures ch.metadata.Some?
    ensures var slots := ch.metadata.value.equipmentSlots;
      IndexOfSlot(slots, slotA) != -1 && slots[IndexOfSlot(slots, slotA)].equipment == Some(RefOf(itemA))
  {
    var meta := ch.metadata.value;
    SecondSlotSurvivesClear(meta.equipmentSlots, slotA, slotB, RefOf(itemA), RefOf(itemB));
    EquipTwoItems(ch, first, second, slotA, slotB, itemA, itemB, t1, t2, t3);
    outcome := UnequipItem(ch, slotB, true);
  }

  /**
   * The unequip that the save-then-revert comments of `confirmImageSelection`
   * and `unequipItem` describe: the version appended on equip, at index
   * `currentVersion`, is the pre-equip snapshot, so reverting to that index
   * undoes the equip. The checks and the other outcomes are those of
   * `UnequipItem`.
   */
  method UnequipItemToSnapshot(ch: Character, slotId: string, confirmed: bool) returns (outcome: UnequipOutcome)
    modifies ch
    ensures ch.imageVersions == old(ch.imageVersions)
    ensures !outcome.Unequipped? ==> ch.State() == old(ch.State())
    ensures !confirmed ==> outcome == Cancelled
    ensures confirmed && old(ch.metadata).None? ==> outcome.Crashed?
    ensures confirmed && old(ch.metadata).Some? ==>
      var slots := old(ch.metadata).value.equipmentSlots;
      var k := IndexOfSlot(slots, slotId);
      var snapshot := old(ch.currentVersion);
      && (k == -1 ==> outcome == NoSuchSlot)
      && (k != -1 && slots[k].equipment.None? ==> outcome == SlotEmpty)
      && (k != -1 && slots[k].equipment.Some? && !(0 <= snapshot < |ch.imageVersions|) ==>
            outcome == NoPreviousVersion)
      && (k != -1 && slots[k].equipment.Some? && 0 <= snapshot < |ch.imageVersions| ==>
            outcome == Unequipped(slots[k].equipment.value) &&
            ch.State() == old(ch.State()).(
              shapes := ch.imageVersions[snapshot].shapes,
              currentVersion := snapshot,
              metadata := Some(old(ch.metadata).value.(equipmentSlots := SetSlotEquipment(slots, slotId, None)))))
  {
    if !confirmed {
      return Cancelled;
    }
    if ch.metadata.None? {
      return Crashed(TypeError("Cannot read properties of null (reading 'equipmentSlots')"));
    }
    var metadata := ch.metadata.value;
    var slotIndex := IndexOfSlot(metadata.equipmentSlots, slotId);
    if slotIndex == -1 {
      return NoSuchSlot;
    }
    var item := metadata.equipmentSlots[slotIndex].equipment;
    if item.None? {
      return SlotEmpty;
    }
    var snapshot := ch.currentVersion;
    if snapshot < 0 || snapshot >= |ch.imageVersions| {
      return NoPreviousVersion;
    }
    ch.RevertToVersion(snapshot);
    ch.metadata := Some(metadata.(equipmentSlots := SetSlotEquipment(metadata.equipmentSlots, slotId, None)));
    outcome := Unequipped(item.value);
  }

  /**
   * With the corrected unequip, equipping an item on any history and
   * unequipping it restores the pre-equip shapes and clears the slot; the
   * history keeps the snapshot.
   */
  method EquipThenUnequipRestores(ch: Character, combined: seq<Shape>, slotId: string, item: Item, timestamp: string)
    returns (outcome: UnequipOutcome)
    requires ch.metadata.Some? && IndexOfSlot(ch.metadata.value.equipmentSlots, slotId) != -1
    modifies ch
    ensures outcome == Unequipped(RefOf(item))
    ensures ch.shapes == old(ch.shapes)
    ensures ch.imageVersions == old(ch.imageVersions) + [ImageVersion(old(ch.shapes), timestamp)]
    ensures ch.metadata == Some(old(ch.metadata).value.(equipmentSlots :=
      SetSlotEquipment(old(ch.metadata).value.equipmentSlots, slotId, None)))
    ensures old(ch.metadata).value.equipmentSlots[IndexOfSlot(old(ch.metadata).value.equipmentSlots, slotId)].equipment.None? ==>
      ch.metadata == old(ch.metadata)
  {
    var slots := ch.metadata.value.equipmentSlots;
    var k := IndexOfSlot(slots, slotId);
    var _ := ConfirmImageSelection(ch, combined, slotId, item, timestamp);
    SlotIdsKept(slots, slotId, Some(RefOf(item)));
    var once := SetSlotEquipment(slots, slotId, Some(RefOf(item)));
    assert once[k].equipment == Some(RefOf(item));
    outcome := UnequipItemToSnapshot(ch, slotId, true);
    SlotIdsKept(once, slotId, None);
    assert SetSlotEquipment(once, slotId, None) == SetSlotEquipment(slots, slotId, None);
    if slots[k].equipment.None? {
      assert SetSlotEquipment(slots, slotId, None) == slots;
    }
  }

  /**
   * With the corrected unequip, equipping two items on any history and
   * unequipping the second gives back the image with the first item, whose
   * slot still records it.
   */
  method SecondUnequipKeepsFirstItemImage(ch: Character, first: seq<Shape>, second: seq<Shape>,
                                          slotA: string, slotB: string, itemA: Item, itemB: Item,
                                          t2: string, t3: string)
    returns (outcome: UnequipOutcome)
    requires ch.metadata.Some? && slotA != slotB
    requires IndexOfSlot(ch.metadata.value.equipmentSlots, slotA) != -1
    requires IndexOfSlot(ch.metadata.value.equipmentSlots, slotB) != -1
    modifies ch
    ensures outcome == Unequipped(RefOf(itemB))
    ensures ch.shapes == first
    ensures ch.metadata.Some?
    ensures var slots := ch.metadata.value.equipmentSlots;
      IndexOfSlot(slots, slotA) != -1 && slots[IndexOfSlot(slots, slotA)].equipment == Some(RefOf(itemA))
  {
    var slots := ch.metadata.value.equipmentSlots;
    var kA := IndexOfSlot(slots, slotA);
    var kB := IndexOfSlot(slots, slotB);
    var _ := ConfirmImageSelection(ch, first, slotA, itemA, t2);
    var once := SetSlotEquipment(slots, slotA, Some(RefOf(itemA)));
    SlotIdsKept(slots, slotA, Some(RefOf(itemA)));
    outcome := EquipThenUnequipRestores(ch, second, slotB, itemB, t3);
    SlotIdsKept(once, slotB, None);
    var cleared := SetSlotEquipment(once, slotB, None);
    assert kA != kB;
    assert cleared[kA] == once[kA];
  }

  /** The two equips of the scenario above, from a seeded character. */
  method EquipTwoItems(ch: Character, first: seq<Shape>, second: seq<Shape>,
                       slotA: string, slotB: string, itemA: Item, itemB: Item,
                       t1: string, t2: string, t3: string)
    requires ch.imageVersions == [ImageVersion(ch.shapes, t1)] && ch.currentVersion == 0 && ch.metadata.Some?
    modifies ch
    ensures ch.shapes == second && ch.currentVersion == 2
    ensures ch.imageVersions == [ImageVersion(old(ch.shapes), t1), ImageVersion(old(ch.shapes), t2), ImageVersion(first, t3)]
    ensures ch.metadata == Some(old(ch.metadata).value.(equipmentSlots :=
      SetSlotEquipment(SetSlotEquipment(old(ch.metadata).value.equipmentSlots, slotA, Some(RefOf(itemA))),
                       slotB, Some(RefOf(itemB)))))
  {
    var _ := ConfirmImageSelection(ch, first, slotA, itemA, t2);
    var _ := ConfirmImageSelection(ch, second, slotB, itemB, t3);
  }

  /** The slot bookkeeping behind the scenario above: clearing slot B leaves slot A's record. */
  lemma SecondSlotSurvivesClear(slots: seq<EquipmentSlot>, slotA: string, slotB: string, a: EquipmentRef, b: EquipmentRef)
    requires slotA != slotB && IndexOfSlot(slots, slotA) != -1 && IndexOfSlot(slots, slotB) != -1
    ensures var twice := SetSlotEquipment(SetSlotEquipment(slots, slotA, Some(a)), slotB, Some(b));
      && IndexOfSlot(twice, slotB) == IndexOfSlot(slots, slotB)
      && twice[IndexOfSlot(slots, slotB)].equipment == Some(b)
      && var cleared := SetSlotEquipment(twice, slotB, None);
      IndexOfSlot(cleared, slotA) == IndexOfSlot(slots, slotA) &&
      cleared[IndexOfSlot(slots, slotA)].equipment == Some(a)
  {
    var once := SetSlotEquipment(slots, slotA, Some(a));
    var twice := SetSlotEquipment(once, slotB, Some(b));
    var cleared := SetSlotEquipment(twice, slotB, None);
    SlotIdsKept(slots, slotA, Some(a));
    SlotIdsKept(once, slotB, Some(b));
    SlotIdsKept(twice, slotB, None);
  }

  /** Setting a slot's equipment never moves slot ids, so every lookup finds the same index. */
  lemma SlotIdsKept(slots: seq<EquipmentSlot>, slotId: string, equipment: Option<EquipmentRef>)
    ensures forall id :: IndexOfSlot(SetSlotEquipment(slots, slotId, equipment), id) == IndexOfSlot(slots, id)
  {
    var r := SetSlotEquipment(slots, slotId, equipment);
    forall id ensures IndexOfSlot(r, id) == IndexOfSlot(slots, id) {
      assert forall j :: 0 <= j < |r| ==> r[j].id == slots[j].id;
    }
  }

  // ------------------------------------------------------------ grading

  datatype Grade = A | B | C | D | F

  /** Letter position, best first. */
  function GradeRank(g: Grade): nat {
    match g
    case A => 0
    case B => 1
    case C => 2
    case D => 3
    case F => 4
  }

  /** `getGrade(average)`. */
  function GetGrade(average: real): (g: Grade)
    ensures g == A <==> 80.0 <= average
    ensures g == B <==> 60.0 <= average < 80.0
    ensures g == C <==> 40.0 <= average < 60.0
    ensures g == D <==> 20.0 <= average < 40.0
    ensures g == F <==> average < 20.0
  {
    if average >= 80.0 then A
    else if average >= 60.0 then B
    else if average >= 40.0 then C
    else if average >= 20.0 then D
    else F
  }

  /** A higher average never gets a worse grade. */
  lemma GradeMonotone(a: real, b: real)
    requires a <= b
    ensures GradeRank(GetGrade(b)) <= GradeRank(GetGrade(a))
  {
  }

  function Sum(values: seq<real>): real {
    if |values| == 0 then 0.0 else Sum(values[..|values| - 1]) + values[|values| - 1]
  }

  function StatValuesOf(stats: seq<StatEntry>): seq<real> {
    seq(|stats|, i requires 0 <= i < |stats| => stats[i].value)
  }

  /**
   * The rounded mean of the stat values shown beside the grade; with no stats
   * the division gives NaN, modelled as `None`.
   */
  function Average(values: seq<real>): Option<int> {
    if |values| == 0 then None else Some(JsRound(Sum(values) / |values| as real))
  }

  /** The grade shown for the stats: NaN fails every comparison and grades F. */
  function OverallGrade(stats: seq<StatEntry>): (g: Grade)
    ensures |stats| == 0 ==> g == F
    ensures |stats| > 0 ==> g == GetGrade(Average(StatValuesOf(stats)).value as real)
  {
    match Average(StatValuesOf(stats))
    case None => F
    case Some(avg) => GetGrade(avg as real)
  }

  lemma {:induction false} SumBounds(values: seq<real>, lo: real, hi: real)
    requires forall i :: 0 <= i < |values| ==> lo <= values[i] <= hi
    ensures |values| as real * lo <= Sum(values) <= |values| as real * hi
  {
    if |values| > 0 {
      SumBounds(values[..|values| - 1], lo, hi);
    }
  }

  /** When every stat lies in [lo, hi] for integers lo and hi, so does the rounded average. */
  lemma AverageWithinBounds(values: seq<real>, lo: int, hi: int)
    requires |values| > 0
    requires forall i :: 0 <= i < |values| ==> lo as real <= values[i] <= hi as real
    ensures Average(values).Some? && lo <= Average(values).value <= hi
  {
    SumBounds(values, lo as real, hi as real);
    MeanAtLeast(Sum(values), |values| as real, lo as real);
    MeanAtMost(Sum(values), |values| as real, hi as real);
  }

  /** A total of at least n * lo over n > 0 items averages at least lo. */
  lemma MeanAtLeast(total: real, n: real, lo: real)
    requires n > 0.0 && n * lo <= total
    ensures lo <= total / n
  {
    assert total / n - lo == (total - n * lo) / n;
  }

  /** A total of at most n * hi over n > 0 items averages at most hi. */
  lemma MeanAtMost(total: real, n: real, hi: real)
    requires n > 0.0 && total <= n * hi
    ensures total / n <= hi
  {
    assert hi - total / n == (n * hi - total) / n;
  }

  lemma {:induction false} SumAtLeast(values: seq<real>, lo: real)
    requires forall i :: 0 <= i < |values| ==> lo <= values[i]
    ensures |values| as real * lo <= Sum(values)
  {
    if |values| > 0 {
      SumAtLeast(values[..|values| - 1], lo);
    }
  }

  /** When every stat is at least the integer lo, so is the rounded average. */
  lemma AverageAtLeast(values: seq<real>, lo: int)
    requires |values| > 0
    requires forall i :: 0 <= i < |values| ==> lo as real <= values[i]
    ensures Average(values).Some? && lo <= Average(values).value
  {
    SumAtLeast(values, lo as real);
    MeanAtLeast(Sum(values), |values| as real, lo as real);
  }

  /** Stats that are all at least lo grade no worse than lo itself would. */
  lemma OverallGradeAtLeast(stats: seq<StatEntry>, lo: int)
    requires |stats| > 0
    requires forall i :: 0 <= i < |stats| ==> lo as real <= stats[i].value
    ensures GradeRank(OverallGrade(stats)) <= GradeRank(GetGrade(lo as real))
  {
    var values := StatValuesOf(stats);
    AverageAtLeast(values, lo);
    GradeMonotone(lo as real, Average(values).value as real);
  }

  /** Every stat at 80 or above gives an A. */
  lemma AllHighStatsGradeA(stats: seq<StatEntry>)
    requires |stats| > 0
    requires forall i :: 0 <= i < |stats| ==> 80.0 <= stats[i].value
    ensures OverallGrade(stats) == A
  {
    OverallGradeAtLeast(stats, 80);
  }
}

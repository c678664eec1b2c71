/**
 * Characters (character.js): the entity whose shape list and version history
 * are updated in place, its JSON form, grid rescaling and the draw order used
 * by `render`.
 */
module CharacterModel {
  import opened Wrappers
  import opened Shapes
  import opened ItemModel

  /** A snapshot in the version history; `timestamp` is an ISO date string. */
  datatype ImageVersion = ImageVersion(shapes: seq<Shape>, timestamp: string)

  /** What an equipment slot records about the item in it. */
  datatype EquipmentRef = EquipmentRef(id: string, name: string, metadata: Option<ItemMetadata>)

  datatype EquipmentSlot = EquipmentSlot(
    id: string,
    name: string,
    description: string,
    equipment: Option<EquipmentRef>)

  /** The metadata written when a character is saved. */
  datatype CharacterMetadata = CharacterMetadata(
    stats: seq<StatEntry>,
    equipmentSlots: seq<EquipmentSlot>,
    description: string,
    generationPrompt: string)

  /** Every field of a character object, as one value. */
  datatype CharacterState = CharacterState(
    id: string,
    shapes: seq<Shape>,
    name: string,
    gridSize: int,
    generationPrompt: string,
    variationPrompt: string,
    metadata: Option<CharacterMetadata>,
    imageVersions: seq<ImageVersion>,
    currentVersion: int,
    parents: Option<seq<string>>,
    interactionType: Option<string>)

  /**
   * Stored character data. A field that is `None` was `undefined` (or, for
   * `parents`, null); `shapes` and `id` are always present.
   */
  datatype CharacterJson = CharacterJson(
    id: string,
    shapes: seq<Shape>,
    name: Option<string>,
    gridSize: Option<int>,
    metadata: Option<CharacterMetadata>,
    generationPrompt: Option<string>,
    variationPrompt: Option<string>,
    imageVersions: Option<seq<ImageVersion>>,
    currentVersion: Option<int>,
    parents: Option<seq<string>>)

  /**
   * `Character.fromJSON`: the constructor's defaults fill undefined arguments,
   * then id and metadata are copied and a missing history, version index or
   * parent list falls back to `[]`, `0` and null. `interactionType` is not
   * stored, so it comes back null.
   */
  function DecodeCharacter(data: CharacterJson): (c: CharacterState)
    ensures c.id == data.id && c.shapes == data.shapes && c.metadata == data.metadata
    ensures c.imageVersions == data.imageVersions.GetOr([])
    ensures c.currentVersion == data.currentVersion.GetOr(0)
    ensures c.parents == data.parents
    ensures c.interactionType == None
  {
    CharacterState(
      data.id, data.shapes, data.name.GetOr(""), data.gridSize.GetOr(128),
      data.generationPrompt.GetOr(""), data.variationPrompt.GetOr(""),
      data.metadata, data.imageVersions.GetOr([]), data.currentVersion.GetOr(0),
      data.parents, None)
  }

  /** Sort key of `render`: `z_index`, with a missing value read as 0. */
  function ZKey(s: Shape): real {
    s.zIndex.GetOr(0.0)
  }

  predicate SortedByZ(shapes: seq<Shape>) {
    forall i, j :: 0 <= i < j < |shapes| ==> ZKey(shapes[i]) <= ZKey(shapes[j])
  }

  /** The shapes of `shapes` whose sort key is `k`, in their original order. */
  function WithKey(shapes: seq<Shape>, k: real): seq<Shape> {
    if |shapes| == 0 then []
    else (if ZKey(shapes[0]) == k then [shapes[0]] else []) + WithKey(shapes[1..], k)
  }

  /** Insertion of one shape behind every shape whose key is not larger. */
  function InsertByZ(s: Shape, sorted: seq<Shape>): seq<Shape> {
    if |sorted| == 0 then [s]
    else if ZKey(s) < ZKey(sorted[0]) then [s] + sorted
    else [sorted[0]] + InsertByZ(s, sorted[1..])
  }

  /**
   * The draw order of `render`: a stable sort of a copy of the shapes by
   * `z_index` ascending (the array sort of current JavaScript engines is stable).
   */
  function DrawOrder(shapes: seq<Shape>): (r: seq<Shape>)
    ensures |r| == |shapes|
  {
    if |shapes| == 0 then []
    else
      var rest := DrawOrder(shapes[..|shapes| - 1]);
      InsertByZLength(shapes[|shapes| - 1], rest);
      InsertByZ(shapes[|shapes| - 1], rest)
  }

  lemma {:induction false} InsertByZLength(s: Shape, sorted: seq<Shape>)
    ensures |InsertByZ(s, sorted)| == |sorted| + 1
  {
    if |sorted| > 0 && ZKey(s) >= ZKey(sorted[0]) {
      InsertByZLength(s, sorted[1..]);
    }
  }

  lemma {:induction false} InsertByZSorted(s: Shape, sorted: seq<Shape>)
    requires SortedByZ(sorted)
    ensures SortedByZ(InsertByZ(s, sorted))
    ensures |InsertByZ(s, sorted)| > 0
    ensures InsertByZ(s, sorted)[0] == s || (|sorted| > 0 && InsertByZ(s, sorted)[0] == sorted[0])
  {
    if |sorted| > 0 && ZKey(s) >= ZKey(sorted[0]) {
      InsertByZSorted(s, sorted[1..]);
    }
  }

  lemma {:induction false} InsertByZMultiset(s: Shape, sorted: seq<Shape>)
    ensures multiset(InsertByZ(s, sorted)) == multiset(sorted) + multiset{s}
  {
    if |sorted| > 0 && ZKey(s) >= ZKey(sorted[0]) {
      InsertByZMultiset(s, sorted[1..]);
      assert sorted == [sorted[0]] + sorted[1..];
    }
  }

  lemma {:induction false} InsertByZWithKey(s: Shape, sorted: seq<Shape>, k: real)
    requires SortedByZ(sorted)
    ensures WithKey(InsertByZ(s, sorted), k) == WithKey(sorted, k) + (if ZKey(s) == k then [s] else [])
  {
    if |sorted| == 0 {
    } else if ZKey(s) < ZKey(sorted[0]) {
      var r := [s] + sorted;
      assert r[1..] == sorted;
      if ZKey(s) == k {
        WithKeyAbsent(sorted, k);
      }
    } else {
      InsertByZWithKey(s, sorted[1..], k);
      var r := [sorted[0]] + InsertByZ(s, sorted[1..]);
      assert r[1..] == InsertByZ(s, sorted[1..]);
    }
  }

  /** A sorted list whose first key is larger than `k` holds no shape with key `k`. */
  lemma {:induction false} WithKeyAbsent(sorted: seq<Shape>, k: real)
    requires SortedByZ(sorted) && |sorted| > 0 && k < ZKey(sorted[0])
    ensures WithKey(sorted, k) == []
  {
    if |sorted| > 1 {
      WithKeyAbsent(sorted[1..], k);
    }
  }

  lemma {:induction false} WithKeySnoc(shapes: seq<Shape>, s: Shape, k: real)
    ensures WithKey(shapes + [s], k) == WithKey(shapes, k) + (if ZKey(s) == k then [s] else [])
  {
    if |shapes| > 0 {
      assert (shapes + [s])[1..] == shapes[1..] + [s];
      WithKeySnoc(shapes[1..], s, k);
    } else {
      assert ([] + [s])[1..] == [];
    }
  }

  /**
   * The draw order is sorted by z-index, holds exactly the shapes of the list,
   * and keeps shapes with equal z-index in list order.
   */
  lemma {:induction false} DrawOrderIsStableSort(shapes: seq<Shape>)
    ensures SortedByZ(DrawOrder(shapes))
    ensures multiset(DrawOrder(shapes)) == multiset(shapes)
    ensures forall k :: WithKey(DrawOrder(shapes), k) == WithKey(shapes, k)
  {
    if |shapes| > 0 {
      var init, last := shapes[..|shapes| - 1], shapes[|shapes| - 1];
      DrawOrderIsStableSort(init);
      assert shapes == init + [last];
      InsertKeepsStableSort(init, DrawOrder(init), last);
    }
  }

  /** The inductive step: inserting the last shape into the sorted prefix sorts the whole list stably. */
  lemma InsertKeepsStableSort(init: seq<Shape>, sorted: seq<Shape>, last: Shape)
    requires SortedByZ(sorted) && multiset(sorted) == multiset(init)
    requires forall k :: WithKey(sorted, k) == WithKey(init, k)
    ensures SortedByZ(InsertByZ(last, sorted))
    ensures multiset(InsertByZ(last, sorted)) == multiset(init + [last])
    ensures forall k :: WithKey(InsertByZ(last, sorted), k) == WithKey(init + [last], k)
  {
    InsertByZSorted(last, sorted);
    InsertByZMultiset(last, sorted);
    forall k ensures WithKey(InsertByZ(last, sorted), k) == WithKey(init + [last], k) {
      InsertByZWithKey(last, sorted, k);
      WithKeySnoc(init, last, k);
    }
  }

  /** `Math.round(v * scale)` for each geometric field; every other field is kept. */
  function ScaleShape(s: Shape, scale: real): Shape {
    s.(x := Round(s.x * scale), y := Round(s.y * scale),
       width := Round(s.width * scale), height := Round(s.height * scale))
  }

  predicate IntegerGeometry(s: Shape) {
    IsInteger(s.x) && IsInteger(s.y) && IsInteger(s.width) && IsInteger(s.height)
  }

  class Character {
    var id: string
    var shapes: seq<Shape>
    var name: string
    var gridSize: int
    var generationPrompt: string
    var variationPrompt: string
    var metadata: Option<CharacterMetadata>
    var imageVersions: seq<ImageVersion>
    var currentVersion: int
    var parents: Option<seq<string>>
    var interactionType: Option<string>

    function State(): CharacterState
      reads this
    {
      CharacterState(id, shapes, name, gridSize, generationPrompt, variationPrompt,
                     metadata, imageVersions, currentVersion, parents, interactionType)
    }

    /** The current version index names an entry of the history. */
    predicate VersionInRange()
      reads this
    {
      0 <= currentVersion < |imageVersions|
    }

    /**
     * `new Character(shapes, name, gridSize, generationPrompt, variationPrompt)`;
     * `id` is the UUID drawn by `crypto.randomUUID()`.
     */
    constructor (id: string, shapes: seq<Shape>, name: string, gridSize: int,
                 generationPrompt: string, variationPrompt: string)
      ensures State() == CharacterState(id, shapes, name, gridSize, generationPrompt,
                                        variationPrompt, None, [], 0, None, None)
    {
      this.id := id;
      this.shapes := shapes;
      this.name := name;
      this.gridSize := gridSize;
      this.generationPrompt := generationPrompt;
      this.variationPrompt := variationPrompt;
      this.metadata := None;
      this.imageVersions := [];
      this.currentVersion := 0;
      this.parents := None;
      this.interactionType := None;
    }

    /** `toJSON`: every field but `interactionType`, so reading it back loses only that one. */
    function ToJSON(): (j: CharacterJson)
      reads this
      ensures DecodeCharacter(j) == State().(interactionType := None)
    {
      CharacterJson(id, shapes, Some(name), Some(gridSize), metadata,
                    Some(generationPrompt), Some(variationPrompt),
                    Some(imageVersions), Some(currentVersion), parents)
    }

    /** `Character.fromJSON`; `freshId` is the UUID the constructor draws before it is replaced. */
    static method FromJSON(data: CharacterJson, freshId: string) returns (c: Character)
      ensures fresh(c)
      ensures c.State() == DecodeCharacter(data)
    {
      c := new Character(freshId, data.shapes, data.name.GetOr(""), data.gridSize.GetOr(128),
                         data.generationPrompt.GetOr(""), data.variationPrompt.GetOr(""));
      c.id := data.id;
      c.metadata := data.metadata;
      c.imageVersions := data.imageVersions.GetOr([]);
      c.currentVersion := data.currentVersion.GetOr(0);
      c.parents := data.parents;
    }

    /**
     * `scaleShapes(targetGridSize)`: every shape rescaled from this grid to the
     * target one, in the same order, with only its geometry changed.
     */
    function ScaleShapes(targetGridSize: int): (r: seq<Shape>)
      reads this
      requires gridSize != 0
      ensures |r| == |shapes|
      ensures forall i :: 0 <= i < |r| ==>
        IntegerGeometry(r[i]) &&
        r[i] == shapes[i].(x := r[i].x, y := r[i].y, width := r[i].width, height := r[i].height)
      ensures forall i :: 0 <= i < |r| ==>
        var f := targetGridSize as real / gridSize as real;
        && r[i].x - 0.5 <= shapes[i].x * f < r[i].x + 0.5
        && r[i].y - 0.5 <= shapes[i].y * f < r[i].y + 0.5
        && r[i].width - 0.5 <= shapes[i].width * f < r[i].width + 0.5
        && r[i].height - 0.5 <= shapes[i].height * f < r[i].height + 0.5
    {
      var scale := targetGridSize as real / gridSize as real;
      seq(|shapes|, i requires 0 <= i < |shapes| reads this => ScaleShape(shapes[i], scale))
    }

    /** `addVersion(shapes)`: one entry is appended and becomes current. */
    method AddVersion(newShapes: seq<Shape>, timestamp: string)
      modifies this
      ensures imageVersions == old(imageVersions) + [ImageVersion(newShapes, timestamp)]
      ensures currentVersion == |imageVersions| - 1 && VersionInRange()
      ensures shapes == newShapes
      ensures State() == old(State()).(shapes := newShapes, imageVersions := imageVersions,
                                       currentVersion := currentVersion)
    {
      imageVersions := imageVersions + [ImageVersion(newShapes, timestamp)];
      currentVersion := |imageVersions| - 1;
      shapes := newShapes;
    }

    /** `revertToVersion(i)`: a version in range becomes current; otherwise nothing changes. */
    method RevertToVersion(versionIndex: int)
      modifies this
      ensures imageVersions == old(imageVersions)
      ensures 0 <= versionIndex < |imageVersions| ==>
        State() == old(State()).(shapes := imageVersions[versionIndex].shapes,
                                 currentVersion := versionIndex)
      ensures !(0 <= versionIndex < |imageVersions|) ==> State() == old(State())
    {
      if 0 <= versionIndex < |imageVersions| {
        shapes := imageVersions[versionIndex].shapes;
        currentVersion := versionIndex;
      }
    }
  }

  /** Rescaling to the character's own grid leaves integer geometry unchanged. */
  lemma ScaleToSameGridIsIdentity(c: Character)
    requires c.gridSize != 0
    requires forall i :: 0 <= i < |c.shapes| ==> IntegerGeometry(c.shapes[i])
    ensures c.ScaleShapes(c.gridSize) == c.shapes
  {
    var r := c.ScaleShapes(c.gridSize);
    assert c.gridSize as real / c.gridSize as real == 1.0;
    forall i | 0 <= i < |r| ensures r[i] == c.shapes[i] {
      var s := c.shapes[i];
      JsRoundOfInteger(s.x.Floor);
      JsRoundOfInteger(s.y.Floor);
      JsRoundOfInteger(s.width.Floor);
      JsRoundOfInteger(s.height.Floor);
    }
  }
}

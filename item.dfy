/**
 * Items (item.js): the entity record with its JSON form, and ItemStatRoller,
 * which draws a rarity tier and six stats in that tier's range. Every
 * `Math.random()` draw is a parameter in [0, 1).
 */
module ItemModel {
  import opened Wrappers
  import opened Shapes

  datatype StatEntry = StatEntry(name: string, value: real)

  /** The metadata the item generator attaches when an item is saved. */
  datatype ItemMetadata = ItemMetadata(
    stats: seq<StatEntry>,
    itemType: string,
    rarity: string,
    description: string,
    generationPrompt: string)

  datatype Item = Item(
    id: string,
    shapes: seq<Shape>,
    name: string,
    gridSize: int,
    generationPrompt: string,
    metadata: Option<ItemMetadata>)

  /**
   * Stored item data. A field that is `None` was `undefined`; `shapes` is also
   * `None` when the stored value is not an array.
   */
  datatype ItemJson = ItemJson(
    id: string,
    shapes: Option<seq<Shape>>,
    name: Option<string>,
    gridSize: Option<int>,
    metadata: Option<ItemMetadata>,
    generationPrompt: Option<string>)

  /**
   * `new Item(shapes, name, gridSize, generationPrompt)` with the fresh UUID `id`:
   * `shapes` is kept only if it is an array, and `metadata` starts out null.
   */
  function NewItem(id: string, shapes: Option<seq<Shape>>, name: string, gridSize: int, generationPrompt: string): (it: Item)
    ensures it.shapes == (if shapes.Some? then shapes.value else [])
    ensures it.metadata == None
    ensures it.id == id && it.name == name && it.gridSize == gridSize && it.generationPrompt == generationPrompt
  {
    Item(id, match shapes case Some(s) => s case None => [], name, gridSize, generationPrompt, None)
  }

  function ItemToJson(it: Item): ItemJson {
    ItemJson(it.id, Some(it.shapes), Some(it.name), Some(it.gridSize), it.metadata, Some(it.generationPrompt))
  }

  /**
   * `Item.fromJSON`: the constructor's defaults apply to undefined arguments
   * (`[]`, `''`, `128`, `''`); then the stored id and metadata overwrite the
   * fresh ones. `freshId` is the UUID the constructor draws before it is replaced.
   */
  function ItemFromJson(data: ItemJson, freshId: string): (it: Item)
    ensures it.id == data.id && it.metadata == data.metadata
    ensures it.shapes == data.shapes.GetOr([])
    ensures it.gridSize == data.gridSize.GetOr(128)
  {
    var it := NewItem(freshId, data.shapes, data.name.GetOr(""), data.gridSize.GetOr(128), data.generationPrompt.GetOr(""));
    it.(id := data.id, metadata := data.metadata)
  }

  /** Reading back what was stored gives the same item, whatever UUID the constructor drew. */
  lemma ItemJsonRoundTrip(it: Item, freshId: string)
    ensures ItemFromJson(ItemToJson(it), freshId) == it
  {
  }

  // ---------------------------------------------------------------- rarity

  datatype Rarity = Mythical | Legendary | Rare | Common | Mundane | Unknown(name: string)

  /** Rank of a known tier, rarest first. */
  function TierRank(r: Rarity): nat {
    match r
    case Mythical => 0
    case Legendary => 1
    case Rare => 2
    case Common => 3
    case Mundane => 4
    case Unknown(_) => 5
  }

  /** `getRarityFromRoll`, where `roll` is `Math.random() * 1000`. */
  function RarityFromRoll(roll: real): (r: Rarity)
    ensures !r.Unknown?
    ensures r == Mythical <==> roll <= 1.0
    ensures r == Legendary <==> 1.0 < roll <= 10.0
    ensures r == Rare <==> 10.0 < roll <= 100.0
    ensures r == Common <==> 100.0 < roll <= 500.0
    ensures r == Mundane <==> 500.0 < roll
  {
    if roll <= 1.0 then Mythical
    else if roll <= 10.0 then Legendary
    else if roll <= 100.0 then Rare
    else if roll <= 500.0 then Common
    else Mundane
  }

  /** A larger roll never gives a rarer tier. */
  lemma RarityMonotone(a: real, b: real)
    requires a <= b
    ensures TierRank(RarityFromRoll(a)) <= TierRank(RarityFromRoll(b))
  {
  }

  /** The range a stat of the given rarity must lie in. */
  predicate InRarityRange(r: Rarity, v: int) {
    match r
    case Mythical => 20 <= v <= 60
    case Legendary => 10 <= v <= 20
    case Rare => 4 <= v <= 10
    case Common => (-4 <= v <= -1) || (1 <= v <= 4)
    case Mundane => v == 0
    case Unknown(_) => v == 0
  }

  /** `Math.floor(draw * n)` for a draw in [0, 1) lies in [0, n). */
  lemma FloorOfDraw(draw: real, n: nat)
    requires 0.0 <= draw < 1.0 && n > 0
    ensures 0 <= (draw * n as real).Floor < n
  {
    assert 0.0 <= draw * n as real < n as real;
  }

  /**
   * `rollStatForRarity`. The source draws once more before the switch and
   * ignores that value; `signDraw` decides the sign of a Common stat and
   * `valueDraw` the magnitude.
   */
  function RollStatForRarity(r: Rarity, signDraw: real, valueDraw: real): (v: int)
    requires 0.0 <= valueDraw < 1.0
    ensures InRarityRange(r, v)
    ensures r.Common? ==> v != 0 && (v > 0 <==> signDraw < 0.5)
  {
    FloorOfDraw(valueDraw, 41);
    FloorOfDraw(valueDraw, 11);
    FloorOfDraw(valueDraw, 7);
    FloorOfDraw(valueDraw, 4);
    match r
    case Mundane => 0
    case Mythical => (valueDraw * 41.0).Floor + 20
    case Legendary => (valueDraw * 11.0).Floor + 10
    case Rare => (valueDraw * 7.0).Floor + 4
    case Common =>
      var value := (valueDraw * 4.0).Floor + 1;
      if signDraw < 0.5 then value else -value
    case Unknown(_) => 0
  }

  /** Every value of a tier's range is produced by some draw: the ranges are exact. */
  lemma RollStatReachesRange(r: Rarity, v: int)
    requires !r.Unknown? && InRarityRange(r, v)
    ensures exists sd: real, vd: real :: 0.0 <= vd < 1.0 && RollStatForRarity(r, sd, vd) == v
  {
    match r
    case Mundane =>
      assert RollStatForRarity(r, 0.0, 0.0) == v;
    case Mythical =>
      var vd := (v - 20) as real / 41.0;
      assert (vd * 41.0).Floor == v - 20;
      assert RollStatForRarity(r, 0.0, vd) == v;
    case Legendary =>
      var vd := (v - 10) as real / 11.0;
      assert (vd * 11.0).Floor == v - 10;
      assert RollStatForRarity(r, 0.0, vd) == v;
    case Rare =>
      var vd := (v - 4) as real / 7.0;
      assert (vd * 7.0).Floor == v - 4;
      assert RollStatForRarity(r, 0.0, vd) == v;
    case Common =>
      var m := if v > 0 then v else -v;
      var vd := (m - 1) as real / 4.0;
      var sd := if v > 0 then 0.0 else 1.0;
      assert (vd * 4.0).Floor == m - 1;
      assert RollStatForRarity(r, sd, vd) == v;
  }

  /** The draws behind one stat. */
  datatype StatDraw = StatDraw(sign: real, value: real)

  datatype ItemStats = ItemStats(
    strength: int, dexterity: int, constitution: int,
    intelligence: int, wisdom: int, charisma: int,
    rarity: Rarity)

  function StatValues(s: ItemStats): seq<int> {
    [s.strength, s.dexterity, s.constitution, s.intelligence, s.wisdom, s.charisma]
  }

  /**
   * `ItemStatRoller.generateStats`: one rarity draw, then six stats all rolled
   * under that rarity, which is recorded alongside them.
   */
  function GenerateItemStats(rarityRoll: real, draws: seq<StatDraw>): (s: ItemStats)
    requires |draws| == 6 && forall i :: 0 <= i < 6 ==> 0.0 <= draws[i].value < 1.0
    ensures s.rarity == RarityFromRoll(rarityRoll)
    ensures forall i :: 0 <= i < 6 ==> InRarityRange(s.rarity, StatValues(s)[i])
    ensures s.rarity == Mundane ==> StatValues(s) == [0, 0, 0, 0, 0, 0]
  {
    var r := RarityFromRoll(rarityRoll);
    ItemStats(
      RollStatForRarity(r, draws[0].sign, draws[0].value),
      RollStatForRarity(r, draws[1].sign, draws[1].value),
      RollStatForRarity(r, draws[2].sign, draws[2].value),
      RollStatForRarity(r, draws[3].sign, draws[3].value),
      RollStatForRarity(r, draws[4].sign, draws[4].value),
      RollStatForRarity(r, draws[5].sign, draws[5].value),
      r)
  }
}

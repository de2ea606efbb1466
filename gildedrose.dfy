/**
 * The Gilded Rose day-advance rules: items, their categories, the per-category
 * quality strategies, the clamp to the allowed quality range, and the shop
 * object whose UpdateQuality advances every item by one day in place.
 */
module GildedRose {

  // The item names the rules recognise. Any other name is an ordinary item;
  // CommonItem is one such name, used by the example scenarios.
  const AgedBrieItem: string := "Aged Brie"
  const BackstagePassesItem: string := "Backstage passes to a TAFKAL80ETC concert"
  const CommonItem: string := "Elixir of the Mongoose"
  const ConjuredItem: string := "Conjured Mana Cake"
  const LegendaryItem: string := "Sulfuras, Hand of Ragnaros"

  const MaximumAllowedQuality: int := 50
  const MinimumAllowedQuality: int := 0

  /** An inventory item; `Item(name, sellIn, quality)` is the item constructor. */
  datatype Item = Item(name: string, sellIn: int, quality: int)

  /** The rule set an item follows, chosen by exact match on its name. */
  datatype Category = AgedBrie | BackstagePasses | Conjured | Legendary | Default

  function CategoryOf(name: string): (c: Category)
    ensures c == Legendary <==> name == LegendaryItem
    ensures c == AgedBrie <==> name == AgedBrieItem
    ensures c == BackstagePasses <==> name == BackstagePassesItem
    ensures c == Conjured <==> name == ConjuredItem
    ensures c == Default <==>
      name != LegendaryItem && name != AgedBrieItem && name != BackstagePassesItem && name != ConjuredItem
  {
    if name == LegendaryItem then Legendary
    else if name == AgedBrieItem then AgedBrie
    else if name == BackstagePassesItem then BackstagePasses
    else if name == ConjuredItem then Conjured
    else Default
  }

  predicate WithinBounds(q: int) {
    MinimumAllowedQuality <= q <= MaximumAllowedQuality
  }

  /** The nearest value of the allowed quality range: the reference meaning of "clamp". */
  ghost function Clamp(x: int): int {
    if x < MinimumAllowedQuality then MinimumAllowedQuality
    else if MaximumAllowedQuality < x then MaximumAllowedQuality
    else x
  }

  function Min(a: int, b: int): int { if a <= b then a else b }

  function Max(a: int, b: int): int { if a >= b then a else b }

  /** The item's quality moved by `adjustBy`, then forced into the allowed range. */
  function GetUpdatedQualityWithinBounds(item: Item, adjustBy: int): (q: int)
    ensures WithinBounds(q)
    ensures WithinBounds(item.quality + adjustBy) ==> q == item.quality + adjustBy
    ensures item.quality + adjustBy < MinimumAllowedQuality ==> q == MinimumAllowedQuality
    ensures item.quality + adjustBy > MaximumAllowedQuality ==> q == MaximumAllowedQuality
  {
    Max(Min(item.quality + adjustBy, MaximumAllowedQuality), MinimumAllowedQuality)
  }

  /** Aged Brie: gains 1 a day, 2 once the sell-by date has passed. */
  function QualityIncreasingUpdateStrategy(item: Item): (q: int)
    ensures WithinBounds(q)
    ensures WithinBounds(item.quality) ==> item.quality <= q
    ensures item.sellIn > 0 ==> q == Clamp(item.quality + 1)
    ensures item.sellIn <= 0 ==> q == Clamp(item.quality + 2)
  {
    var qualityAdjustment := if item.sellIn <= 0 then 2 else 1;
    GetUpdatedQualityWithinBounds(item, qualityAdjustment)
  }

  /** Backstage passes: gain faster as the concert nears, are worthless after it. */
  function BackstagePassesUpdateStrategy(item: Item): (q: int)
    ensures WithinBounds(q)
    ensures WithinBounds(item.quality) ==> (q == 0 <==> item.sellIn <= 0)
    ensures item.sellIn > 0 && WithinBounds(item.quality) ==> item.quality < q || q == MaximumAllowedQuality
    ensures item.sellIn <= 0 ==> q == 0
    ensures 1 <= item.sellIn <= 5 ==> q == Clamp(item.quality + 3)
    ensures 6 <= item.sellIn <= 10 ==> q == Clamp(item.quality + 2)
    ensures item.sellIn > 10 ==> q == Clamp(item.quality + 1)
  {
    if item.sellIn <= 0 then
      0
    else
      var qualityAdjustment :=
        if item.sellIn <= 5 then 3
        else if item.sellIn <= 10 then 2
        else 1;
      GetUpdatedQualityWithinBounds(item, qualityAdjustment)
  }

  /** Conjured items: lose 2 a day, 4 once the sell-by date has passed. */
  function FasterDegradingUpdateStrategy(item: Item): (q: int)
    ensures WithinBounds(q)
    ensures WithinBounds(item.quality) ==> q <= item.quality
    ensures item.sellIn > 0 ==> q == Clamp(item.quality - 2)
    ensures item.sellIn <= 0 ==> q == Clamp(item.quality - 4)
  {
    var qualityAdjustment := if item.sellIn <= 0 then -4 else -2;
    GetUpdatedQualityWithinBounds(item, qualityAdjustment)
  }

  /** Any other item: loses 1 a day, 2 once the sell-by date has passed. */
  function DefaultUpdateStrategy(item: Item): (q: int)
    ensures WithinBounds(q)
    ensures WithinBounds(item.quality) ==> q <= item.quality
    ensures item.sellIn > 0 ==> q == Clamp(item.quality - 1)
    ensures item.sellIn <= 0 ==> q == Clamp(item.quality - 2)
  {
    var qualityAdjustment := if item.sellIn <= 0 then -2 else -1;
    GetUpdatedQualityWithinBounds(item, qualityAdjustment)
  }

  /** Conjured items lose twice what an ordinary item would on the same day, until quality runs out. */
  lemma ConjuredDegradesTwiceAsFast(item: Item)
    requires WithinBounds(item.quality)
    ensures item.quality - FasterDegradingUpdateStrategy(item) ==
      Min(item.quality, 2 * (item.quality - DefaultUpdateStrategy(item)))
  {
  }

  /**
   * What one day does to one item: a legendary item is left alone; any other
   * gets its category's new quality (computed from the sell-in before the
   * day) and then one day less to sell in.
   */
  function DayAfter(item: Item): (r: Item)
    ensures r.name == item.name
    ensures item.name == LegendaryItem ==> r == item
    ensures item.name != LegendaryItem ==> r.sellIn == item.sellIn - 1 && WithinBounds(r.quality)
    ensures r == item <==> item.name == LegendaryItem
  {
    match CategoryOf(item.name)
    case Legendary => item
    case AgedBrie => Item(item.name, item.sellIn - 1, QualityIncreasingUpdateStrategy(item))
    case BackstagePasses => Item(item.name, item.sellIn - 1, BackstagePassesUpdateStrategy(item))
    case Conjured => Item(item.name, item.sellIn - 1, FasterDegradingUpdateStrategy(item))
    case Default => Item(item.name, item.sellIn - 1, DefaultUpdateStrategy(item))
  }

  /** One day for a whole inventory: every item on its own, in place and in order. */
  function DayAdvance(items: seq<Item>): (r: seq<Item>)
    ensures |r| == |items|
    ensures forall i :: 0 <= i < |items| ==> r[i].name == items[i].name
    ensures forall i :: 0 <= i < |items| && items[i].name == LegendaryItem ==> r[i] == items[i]
    ensures forall i :: 0 <= i < |items| && items[i].name != LegendaryItem ==>
      r[i].sellIn == items[i].sellIn - 1 && WithinBounds(r[i].quality)
  {
    seq(|items|, i requires 0 <= i < |items| => DayAfter(items[i]))
  }

  /** The shop: owns the inventory and advances it a day at a time. */
  class GildedRose {
    var items: array<Item>

    constructor (items: seq<Item>)
      ensures fresh(this.items)
      ensures this.items[..] == items
    {
      this.items := new Item[|items|](i requires 0 <= i < |items| => items[i]);
    }

    method UpdateQuality()
      modifies items
      ensures items[..] == DayAdvance(old(items[..]))
    {
      for i := 0 to items.Length
        invariant forall k :: 0 <= k < i ==> items[k] == DayAfter(old(items[k]))
        invariant forall k :: i <= k < items.Length ==> items[k] == old(items[k])
      {
        var item := items[i];
        if item.name == LegendaryItem {
          continue;
        }
        var quality :=
          if item.name == AgedBrieItem then QualityIncreasingUpdateStrategy(item)
          else if item.name == BackstagePassesItem then BackstagePassesUpdateStrategy(item)
          else if item.name == ConjuredItem then FasterDegradingUpdateStrategy(item)
          else DefaultUpdateStrategy(item);
        items[i] := item.(quality := quality);
        items[i] := items[i].(sellIn := items[i].sellIn - 1);
      }
    }
  }
}

/**
 * Multi-day behaviour: what any number of UpdateQuality calls does to an
 * inventory, the long-run guarantees of each category (with closed forms for
 * the quality after n days), and the scenarios of the repository's unit tests
 * as checked facts.
 */
module MultiDay {
  import opened GildedRose

  /** The inventory after `n` calls of UpdateQuality. */
  function DaysLater(items: seq<Item>, n: nat): seq<Item>
    decreases n
  {
    if n == 0 then items else DaysLater(DayAdvance(items), n - 1)
  }

  /** One item after `n` day advances. */
  function ItemAfterDays(item: Item, n: nat): Item
    decreases n
  {
    if n == 0 then item else ItemAfterDays(DayAfter(item), n - 1)
  }

  /**
   * The number of rate units `n` days cost (or earn) an item whose sell-in
   * starts at `sellIn`: one per day while sell-in is still positive, two per
   * day from the sell-by date on.
   */
  function RateDays(sellIn: int, n: nat): nat
  {
    2 * n - Min(n, Max(sellIn, 0))
  }

  /** Advancing an inventory n days advances each item n days, on its own. */
  lemma {:induction false} DaysLaterPointwise(items: seq<Item>, n: nat)
    ensures |DaysLater(items, n)| == |items|
    ensures forall i :: 0 <= i < |items| ==> DaysLater(items, n)[i] == ItemAfterDays(items[i], n)
    decreases n
  {
    if n > 0 {
      DaysLaterPointwise(DayAdvance(items), n - 1);
    }
  }

  /** One day on a concatenation is one day on each part: items are independent and keep their order. */
  lemma DayAdvanceConcat(a: seq<Item>, b: seq<Item>)
    ensures DayAdvance(a + b) == DayAdvance(a) + DayAdvance(b)
  {
    assert forall i :: 0 <= i < |a + b| ==> DayAdvance(a + b)[i] == (DayAdvance(a) + DayAdvance(b))[i] by {
      forall i | 0 <= i < |a + b|
        ensures DayAdvance(a + b)[i] == (DayAdvance(a) + DayAdvance(b))[i]
      {
        if i < |a| {
          assert (a + b)[i] == a[i];
        } else {
          assert (a + b)[i] == b[i - |a|];
        }
      }
    }
  }

  /** No number of days changes an item's name. */
  lemma {:induction false} NameNeverChanges(item: Item, n: nat)
    ensures ItemAfterDays(item, n).name == item.name
    decreases n
  {
    if n > 0 {
      NameNeverChanges(DayAfter(item), n - 1);
    }
  }

  /** A legendary item is the same item after any number of days. */
  lemma {:induction false} LegendaryNeverChanges(item: Item, n: nat)
    requires item.name == LegendaryItem
    ensures ItemAfterDays(item, n) == item
    decreases n
  {
    if n > 0 {
      LegendaryNeverChanges(DayAfter(item), n - 1);
    }
  }

  /** Any other item loses exactly one day of sell-in per day, without bound. */
  lemma {:induction false} SellInCountsDown(item: Item, n: nat)
    requires item.name != LegendaryItem
    ensures ItemAfterDays(item, n).sellIn == item.sellIn - n
    decreases n
  {
    if n > 0 {
      SellInCountsDown(DayAfter(item), n - 1);
    }
  }

  /** After at least one day every non-legendary item has a quality in [0, 50], whatever it started at. */
  lemma {:induction false} QualityStaysWithinBounds(item: Item, n: nat)
    requires item.name != LegendaryItem
    requires n >= 1
    ensures WithinBounds(ItemAfterDays(item, n).quality)
    decreases n
  {
    if n > 1 {
      QualityStaysWithinBounds(DayAfter(item), n - 1);
    }
  }

  /** The steps of RateDays: the first day costs one unit or two, the rest follow from there. */
  lemma RateDaysStep(sellIn: int, n: nat)
    requires n > 0
    ensures RateDays(sellIn, n) == (if sellIn > 0 then 1 else 2) + RateDays(sellIn - 1, n - 1)
  {
  }

  /** An ordinary item with a valid quality loses RateDays units per n days, down to 0. */
  lemma {:induction false} DefaultAfterDays(item: Item, n: nat)
    requires CategoryOf(item.name) == Default
    requires WithinBounds(item.quality)
    ensures ItemAfterDays(item, n) ==
      Item(item.name, item.sellIn - n, Max(0, item.quality - RateDays(item.sellIn, n)))
    decreases n
  {
    if n > 0 {
      var next := DayAfter(item);
      DefaultAfterDays(next, n - 1);
      RateDaysStep(item.sellIn, n);
    }
  }

  /** A conjured item with a valid quality loses twice what an ordinary one does, down to 0. */
  lemma {:induction false} ConjuredAfterDays(item: Item, n: nat)
    requires item.name == ConjuredItem
    requires WithinBounds(item.quality)
    ensures ItemAfterDays(item, n) ==
      Item(item.name, item.sellIn - n, Max(0, item.quality - 2 * RateDays(item.sellIn, n)))
    decreases n
  {
    if n > 0 {
      var next := DayAfter(item);
      ConjuredAfterDays(next, n - 1);
      RateDaysStep(item.sellIn, n);
    }
  }

  /** Aged Brie with a valid quality gains what an ordinary item would lose, up to 50. */
  lemma {:induction false} AgedBrieAfterDays(item: Item, n: nat)
    requires item.name == AgedBrieItem
    requires WithinBounds(item.quality)
    ensures ItemAfterDays(item, n) ==
      Item(item.name, item.sellIn - n, Min(50, item.quality + RateDays(item.sellIn, n)))
    decreases n
  {
    if n > 0 {
      var next := DayAfter(item);
      AgedBrieAfterDays(next, n - 1);
      RateDaysStep(item.sellIn, n);
    }
  }

  /** Backstage passes are worth 0 on every day after the concert, i.e. once more days have passed than sell-in had. */
  lemma {:induction false} BackstagePassesWorthlessAfterConcert(item: Item, n: nat)
    requires item.name == BackstagePassesItem
    requires n >= 1 && n > item.sellIn
    ensures ItemAfterDays(item, n).quality == 0
    decreases n
  {
    if n > 1 {
      BackstagePassesWorthlessAfterConcert(DayAfter(item), n - 1);
    }
  }

  /** Before the concert, backstage passes with a valid quality never lose value. */
  lemma {:induction false} BackstagePassesGainUntilConcert(item: Item, n: nat)
    requires item.name == BackstagePassesItem
    requires WithinBounds(item.quality)
    requires n <= item.sellIn
    ensures item.quality <= ItemAfterDays(item, n).quality
    ensures WithinBounds(ItemAfterDays(item, n).quality)
    decreases n
  {
    if n > 0 {
      BackstagePassesGainUntilConcert(DayAfter(item), n - 1);
    }
  }

  /** The raw quality backstage passes earn over `n` days before the concert, starting at sell-in `sellIn`. */
  function BackstageGain(sellIn: int, n: nat): int
    decreases n
  {
    if n == 0 then 0
    else (if sellIn <= 5 then 3 else if sellIn <= 10 then 2 else 1) + BackstageGain(sellIn - 1, n - 1)
  }

  /** Until the concert, backstage passes with a valid quality earn BackstageGain, capped at 50. */
  lemma {:induction false} BackstagePassesAfterDays(item: Item, n: nat)
    requires item.name == BackstagePassesItem
    requires WithinBounds(item.quality)
    requires n <= item.sellIn
    ensures ItemAfterDays(item, n) ==
      Item(item.name, item.sellIn - n, Min(50, item.quality + BackstageGain(item.sellIn, n)))
    decreases n
  {
    if n > 0 {
      BackstagePassesAfterDays(DayAfter(item), n - 1);
      BackstageGainPositive(item.sellIn - 1, n - 1);
    }
  }

  /** BackstageGain in closed form: 3 a day, less 1 for each day above sell-in 5 and 1 more for each above 10. */
  lemma {:induction false} BackstageGainClosedForm(sellIn: int, n: nat)
    ensures BackstageGain(sellIn, n) == 3 * n - Min(n, Max(sellIn - 5, 0)) - Min(n, Max(sellIn - 10, 0))
    decreases n
  {
    if n > 0 {
      BackstageGainClosedForm(sellIn - 1, n - 1);
    }
  }

  lemma {:induction false} BackstageGainPositive(sellIn: int, n: nat)
    ensures BackstageGain(sellIn, n) >= n
    decreases n
  {
    if n > 0 {
      BackstageGainPositive(sellIn - 1, n - 1);
    }
  }

  // The unit-test scenarios, stated over whole inventories.

  /** The name the scenarios use for an ordinary item falls back to the default rules. */
  lemma CommonItemIsDefault()
    ensures CategoryOf(CommonItem) == Default
  {
  }

  /** DaysLaterPointwise for an inventory of two items. */
  lemma DaysLaterOfTwo(a: Item, b: Item, n: nat)
    ensures DaysLater([a, b], n) == [ItemAfterDays(a, n), ItemAfterDays(b, n)]
  {
    DaysLaterPointwise([a, b], n);
  }

  /** DaysLaterPointwise for an inventory of three items. */
  lemma DaysLaterOfThree(a: Item, b: Item, c: Item, n: nat)
    ensures DaysLater([a, b, c], n) == [ItemAfterDays(a, n), ItemAfterDays(b, n), ItemAfterDays(c, n)]
  {
    DaysLaterPointwise([a, b, c], n);
  }

  /** Ordinary items lose 1 a day, 2 after the sell-by date, and never go below 0. */
  lemma CommonItemsScenario()
    ensures var items := [Item(CommonItem, 10, 20), Item(CommonItem, 5, 7)];
      && DaysLater(items, 1) == [Item(CommonItem, 9, 19), Item(CommonItem, 4, 6)]
      && DaysLater(items, 5) == [Item(CommonItem, 5, 15), Item(CommonItem, 0, 2)]
      && DaysLater(items, 6) == [Item(CommonItem, 4, 14), Item(CommonItem, -1, 0)]
      && DaysLater(items, 7) == [Item(CommonItem, 3, 13), Item(CommonItem, -2, 0)]
  {
    CommonItemIsDefault();
    forall n: nat | n in {1, 5, 6, 7} ensures
      DaysLater([Item(CommonItem, 10, 20), Item(CommonItem, 5, 7)], n) ==
        [Item(CommonItem, 10 - n, Max(0, 20 - RateDays(10, n))), Item(CommonItem, 5 - n, Max(0, 7 - RateDays(5, n)))]
    {
      DaysLaterOfTwo(Item(CommonItem, 10, 20), Item(CommonItem, 5, 7), n);
      DefaultAfterDays(Item(CommonItem, 10, 20), n);
      DefaultAfterDays(Item(CommonItem, 5, 7), n);
    }
  }

  /** Legendary items are untouched by one update and by a thousand. */
  lemma LegendaryItemsScenario()
    ensures var items := [Item(LegendaryItem, 1, 80), Item(LegendaryItem, 0, 80), Item(LegendaryItem, -1, 80)];
      DaysLater(items, 1) == items && DaysLater(items, 1000) == items
  {
    forall n: nat | n in {1, 1000} ensures
      DaysLater([Item(LegendaryItem, 1, 80), Item(LegendaryItem, 0, 80), Item(LegendaryItem, -1, 80)], n) ==
        [Item(LegendaryItem, 1, 80), Item(LegendaryItem, 0, 80), Item(LegendaryItem, -1, 80)]
    {
      DaysLaterOfThree(Item(LegendaryItem, 1, 80), Item(LegendaryItem, 0, 80), Item(LegendaryItem, -1, 80), n);
      LegendaryNeverChanges(Item(LegendaryItem, 1, 80), n);
      LegendaryNeverChanges(Item(LegendaryItem, 0, 80), n);
      LegendaryNeverChanges(Item(LegendaryItem, -1, 80), n);
    }
  }

  /** Aged Brie gains 1 a day, 2 after the sell-by date, and never exceeds 50. */
  lemma AgedBrieScenario()
    ensures var items := [Item(AgedBrieItem, 2, 0), Item(AgedBrieItem, 4, 49)];
      && DaysLater(items, 1) == [Item(AgedBrieItem, 1, 1), Item(AgedBrieItem, 3, 50)]
      && DaysLater(items, 2) == [Item(AgedBrieItem, 0, 2), Item(AgedBrieItem, 2, 50)]
      && DaysLater(items, 3) == [Item(AgedBrieItem, -1, 4), Item(AgedBrieItem, 1, 50)]
      && DaysLater(items, 4) == [Item(AgedBrieItem, -2, 6), Item(AgedBrieItem, 0, 50)]
  {
    forall n: nat | n in {1, 2, 3, 4} ensures
      DaysLater([Item(AgedBrieItem, 2, 0), Item(AgedBrieItem, 4, 49)], n) ==
        [Item(AgedBrieItem, 2 - n, Min(50, RateDays(2, n))), Item(AgedBrieItem, 4 - n, Min(50, 49 + RateDays(4, n)))]
    {
      DaysLaterOfTwo(Item(AgedBrieItem, 2, 0), Item(AgedBrieItem, 4, 49), n);
      AgedBrieAfterDays(Item(AgedBrieItem, 2, 0), n);
      AgedBrieAfterDays(Item(AgedBrieItem, 4, 49), n);
    }
  }

  /** Backstage passes gain 1, 2 or 3 a day as the concert nears, cap at 50, and drop to 0 after it. */
  lemma BackstagePassesScenario()
    ensures var items := [Item(BackstagePassesItem, 15, 20), Item(BackstagePassesItem, 10, 0),
                          Item(BackstagePassesItem, 5, 48)];
      && DaysLater(items, 1) == [Item(BackstagePassesItem, 14, 21), Item(BackstagePassesItem, 9, 2),
                                 Item(BackstagePassesItem, 4, 50)]
      && DaysLater(items, 5) == [Item(BackstagePassesItem, 10, 25), Item(BackstagePassesItem, 5, 10),
                                 Item(BackstagePassesItem, 0, 50)]
      && DaysLater(items, 6)[2] == Item(BackstagePassesItem, -1, 0)
      && DaysLater(items, 7)[2] == Item(BackstagePassesItem, -2, 0)
  {
    var a, b, c := Item(BackstagePassesItem, 15, 20), Item(BackstagePassesItem, 10, 0), Item(BackstagePassesItem, 5, 48);
    forall n: nat | n in {1, 5} ensures DaysLater([a, b, c], n) ==
      [Item(BackstagePassesItem, 15 - n, Min(50, 20 + BackstageGain(15, n))),
       Item(BackstagePassesItem, 10 - n, Min(50, BackstageGain(10, n))),
       Item(BackstagePassesItem, 5 - n, Min(50, 48 + BackstageGain(5, n)))]
    {
      DaysLaterOfThree(a, b, c, n);
      BackstagePassesAfterDays(a, n);
      BackstagePassesAfterDays(b, n);
      BackstagePassesAfterDays(c, n);
    }
    forall n: nat | n in {6, 7} ensures DaysLater([a, b, c], n)[2] == Item(BackstagePassesItem, 5 - n, 0) {
      DaysLaterOfThree(a, b, c, n);
      BackstagePassesWorthlessAfterConcert(c, n);
      SellInCountsDown(c, n);
      NameNeverChanges(c, n);
    }
  }

  /** Conjured items lose 2 a day, 4 after the sell-by date. */
  lemma ConjuredItemScenario()
    ensures var items := [Item(ConjuredItem, 3, 18)];
      && DaysLater(items, 1) == [Item(ConjuredItem, 2, 16)]
      && DaysLater(items, 3) == [Item(ConjuredItem, 0, 12)]
      && DaysLater(items, 4) == [Item(ConjuredItem, -1, 8)]
  {
    forall n: nat | n in {1, 3, 4} ensures
      DaysLater([Item(ConjuredItem, 3, 18)], n) == [Item(ConjuredItem, 3 - n, Max(0, 18 - 2 * RateDays(3, n)))]
    {
      DaysLaterPointwise([Item(ConjuredItem, 3, 18)], n);
      ConjuredAfterDays(Item(ConjuredItem, 3, 18), n);
    }
  }
}

# Gilded Rose day-advance rules, in Dafny

This project models the Gilded Rose inventory rules engine (`src/gildedrose.rs`) and proves its rules. A shop (`GildedRose`) owns a list of items. Each item has a name, a number of days left to sell it in (`sellIn`) and a `quality`. One call of `update_quality` advances every item by one day, in order and in place:

- the legendary item "Sulfuras, Hand of Ragnaros" is skipped;
- every other item gets a new quality from the strategy of its category (Aged Brie, backstage passes, conjured, or the default for any other name), computed from the sell-in before the day and clamped to [0, 50];
- then its sell-in goes down by one.

Files:

- `gildedrose.dfy`, module `GildedRose`: the name and bound constants, `Item` (its datatype constructor plays the part of `Item::new`), the `Category` chosen by exact name match, the clamp `GetUpdatedQualityWithinBounds`, the four strategies, the one-item day `DayAfter` and the whole-list day `DayAdvance`. It also holds the class `GildedRose`, whose `items` field is an `array<Item>`. Its `UpdateQuality` method loops over the array and updates each element in place. It dispatches on the name strings exactly as the source's `match` does. It is proved to leave the array equal to `DayAdvance` of the old contents.
- `multiday.dfy`, module `MultiDay`: repeated updates (`DaysLater`, `ItemAfterDays`) and what they guarantee for any number of days. This includes closed forms for each category's quality, and the five unit-test scenarios of the source (src/gildedrose.rs:130-345) checked as lemmas over whole inventories.

Items are values (`datatype Item`): the Rust `Vec<Item>` owns its items, so no two positions alias and an element update is a replacement of that array cell. Because the rules are functions, determinism is immediate: equal starting inventories give equal inventories after any number of updates.

`RateDays(s, n) = 2n - min(n, max(s, 0))` counts the quality units that n days cost an ordinary item whose sell-in starts at s. It is one unit per day while sell-in is positive and two per day after that. With it, an ordinary item with a valid quality q ends at `max(0, q - RateDays(s, n))`. A conjured item ends at `max(0, q - 2·RateDays(s, n))` and Aged Brie at `min(50, q + RateDays(s, n))`.

An ordinary item starting at sell-in 10 and quality 20 is at (4, 14) after six updates, because its sell-in is still positive on each of those days. `MultiDay.CommonItemsScenario` proves this, and (3, 13) a day later.

## Model

| member | source | states |
|---|---|---|
| GildedRose.CategoryOf | src/gildedrose.rs:49-57 | the category is Legendary, Aged Brie, backstage passes or conjured exactly when the name equals that constant, and the default exactly when it equals none of the four |
| GildedRose.GetUpdatedQualityWithinBounds | src/gildedrose.rs:110-119 | the result lies in [0, 50]; it is quality + adjustment when that sum is in range, 0 when below and 50 when above |
| GildedRose.QualityIncreasingUpdateStrategy | src/gildedrose.rs:64-72 | result in [0, 50]; never below a valid starting quality; clamp(q+1) while sell-in > 0 and clamp(q+2) from sell-in ≤ 0 |
| GildedRose.BackstagePassesUpdateStrategy | src/gildedrose.rs:74-88 | result in [0, 50]; exactly 0 when sell-in ≤ 0; for a valid quality it is 0 iff sell-in ≤ 0, and before the concert it rises or sits at 50; clamp(q+3) for sell-in 1..5, clamp(q+2) for 6..10, clamp(q+1) above 10 |
| GildedRose.FasterDegradingUpdateStrategy | src/gildedrose.rs:90-98 | result in [0, 50]; never above a valid starting quality; clamp(q-2) while sell-in > 0 and clamp(q-4) from sell-in ≤ 0 |
| GildedRose.DefaultUpdateStrategy | src/gildedrose.rs:100-108 | result in [0, 50]; never above a valid starting quality; clamp(q-1) while sell-in > 0 and clamp(q-2) from sell-in ≤ 0 |
| GildedRose.ConjuredDegradesTwiceAsFast | src/gildedrose.rs:90-108 | for a valid quality, a conjured item loses twice what an ordinary item with the same sell-in loses that day, limited by the quality it has |
| GildedRose.DayAfter | src/gildedrose.rs:49-60 | the name never changes; the legendary item is returned unchanged and is the only one returned unchanged; any other item has sell-in one less and a quality in [0, 50] |
| GildedRose.DayAdvance | src/gildedrose.rs:47-61 | same length and order, names kept; legendary items unchanged; every other item has sell-in one less and quality in [0, 50] |
| GildedRose.GildedRose.constructor | src/gildedrose.rs:42-44 | the shop holds a fresh array with exactly the given items, in order |
| GildedRose.GildedRose.UpdateQuality | src/gildedrose.rs:46-62 | the array afterwards is DayAdvance of its old contents: each position updated by its own rule, nothing else changed |
| MultiDay.DaysLaterPointwise | src/gildedrose.rs:46-62 | n updates of a whole inventory keep its length and give at each position that item's state after n days on its own |
| MultiDay.DayAdvanceConcat | src/gildedrose.rs:47-61 | a day on a concatenation is a day on each part, concatenated: each item's new state depends only on its own prior state, and order is kept |
| MultiDay.NameNeverChanges | src/gildedrose.rs:47-61 | no number of updates changes an item's name |
| MultiDay.LegendaryNeverChanges | src/gildedrose.rs:49-51 | the legendary item keeps its sell-in and quality across any number of updates |
| MultiDay.SellInCountsDown | src/gildedrose.rs:60 | a non-legendary item's sell-in after n updates is its sell-in minus n, with no lower bound |
| MultiDay.QualityStaysWithinBounds | src/gildedrose.rs:110-119 | after one or more updates a non-legendary item's quality lies in [0, 50], whatever it started at |
| MultiDay.DefaultAfterDays | src/gildedrose.rs:100-108 | an ordinary item with quality in [0, 50] is, after n days, at sell-in s-n and quality max(0, q - RateDays(s, n)) |
| MultiDay.ConjuredAfterDays | src/gildedrose.rs:90-98 | a conjured item with quality in [0, 50] is, after n days, at sell-in s-n and quality max(0, q - 2·RateDays(s, n)) |
| MultiDay.AgedBrieAfterDays | src/gildedrose.rs:64-72 | Aged Brie with quality in [0, 50] is, after n days, at sell-in s-n and quality min(50, q + RateDays(s, n)) |
| MultiDay.BackstageGainClosedForm | src/gildedrose.rs:79-86 | the per-day 3/2/1 gain summed over n days from sell-in s equals 3n - min(n, max(s-5, 0)) - min(n, max(s-10, 0)) |
| MultiDay.BackstagePassesAfterDays | src/gildedrose.rs:79-87 | for n ≤ sell-in, backstage passes with a valid quality are at sell-in s-n and quality min(50, q + the 3/2/1-per-day gain of those days) |
| MultiDay.BackstagePassesGainUntilConcert | src/gildedrose.rs:79-87 | up to the concert, backstage passes with a valid quality never lose value and stay in [0, 50] |
| MultiDay.BackstagePassesWorthlessAfterConcert | src/gildedrose.rs:74-77 | once more days have passed than the sell-in had, backstage passes are worth exactly 0, and stay 0 |
| MultiDay.CommonItemsScenario | src/gildedrose.rs:130-174 | ordinary items (10, 20) and (5, 7) after 1, 5, 6 and 7 updates, as in the source's test |
| MultiDay.LegendaryItemsScenario | src/gildedrose.rs:177-214 | three legendary items unchanged after 1 and after 1000 updates |
| MultiDay.AgedBrieScenario | src/gildedrose.rs:217-255 | Aged Brie (2, 0) and (4, 49) after 1 to 4 updates, capped at 50 |
| MultiDay.BackstagePassesScenario | src/gildedrose.rs:258-308 | backstage passes (15, 20), (10, 0), (5, 48) after 1 and 5 updates, and the last at 0 after 6 and 7 |
| MultiDay.ConjuredItemScenario | src/gildedrose.rs:315-345 | conjured item (3, 18) after 1, 3 and 4 updates |

## Left out

- 32-bit integers: `sell_in` and `quality` are `i32` in the source, and `quality + adjust_by` and `sell_in -= 1` are not checked for overflow. The model uses unbounded integers, so it does not model the overflow at the i32 limits.
- `impl Display for Item` (src/gildedrose.rs:30-34): debug text formatting through the Rust formatter, with no rule logic.
- `Item::new` taking `impl Into<String>`: the model takes the name as a string directly, through the `Item` datatype constructor.
- The test module's harness and imports (src/gildedrose.rs:122-348): its expected values are the scenario lemmas in `MultiDay`.

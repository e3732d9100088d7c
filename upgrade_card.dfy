/** The affordability solver of an upgrade card: the single-level price,
    whether it is affordable, and the largest bulk purchase the coins cover
    (a binary search over the arithmetic series of level prices), plus the two
    buttons that dispatch purchases from those figures. */
module UpgradeCard {
  import opened Wrappers
  import opened GameReducer
  import opened UpgradesConfig

  datatype Quote = Quote(cost: int, affordable: bool, affordableAmount: int, totalBulkCost: int)

  /** The search bound used when an upgrade has no (truthy) maximum level. */
  const Unbounded: int := 1_000_000_000

  predicate ReachedMax(config: UpgradeConfig, level: int)
  {
    config.maxLevel.Some? && level >= config.maxLevel.value
  }

  /** The card tests the maximum level for truthiness when it computes the
      levels left, so a maximum of 0 counts as no maximum there. */
  predicate HasCap(config: UpgradeConfig)
  {
    config.maxLevel.Some? && config.maxLevel.value != 0
  }

  function SingleCost(config: UpgradeConfig, level: int): int
  {
    config.baseCost + config.costIncrement * level
  }

  function MinInt(a: int, b: int): int
  {
    if a <= b then a else b
  }

  /** The levels left to buy; at least one whenever the maximum is not reached. */
  function MaxPossible(config: UpgradeConfig, level: int): (m: int)
    requires !ReachedMax(config, level)
    ensures m >= 1
    ensures HasCap(config) ==> level + m == config.maxLevel.value
  {
    if HasCap(config) then config.maxLevel.value - level else Unbounded
  }

  /** The price of the next `n` levels bought one at a time, when the first
      costs `first` and each further one `inc` more. */
  function PriceSum(first: int, inc: int, n: nat): int
  {
    if n == 0 then 0 else PriceSum(first, inc, n - 1) + first + (n - 1) * inc
  }

  /** The closed form the card evaluates: `n * (first + last) / 2`. */
  function SeriesTotal(first: int, inc: int, n: int): int
  {
    n * (first + (first + (n - 1) * inc)) / 2
  }

  predicate Fits(first: int, inc: int, coins: real, n: nat)
  {
    PriceSum(first, inc, n) as real <= coins
  }

  /** What the binary search establishes: `n` levels fit and either no level
      is left after them or one more does not fit. With negative coins not even
      zero levels fit, and the outputs keep their initial zero. */
  predicate BulkBracket(first: int, inc: int, coins: real, maxPossible: int, n: int, total: int)
  {
    0 <= n <= maxPossible && total == PriceSum(first, inc, n) &&
    ((Fits(first, inc, coins, n) && (n == maxPossible || !Fits(first, inc, coins, n + 1))) ||
     (n == 0 && coins < 0.0))
  }

  /** With a constant price the bulk quantity is the whole number of prices
      the coins cover, cut to the levels left. */
  predicate ConstantBulk(config: UpgradeConfig, level: int, coins: real, q: Quote)
  {
    var cost := SingleCost(config, level);
    cost != 0 &&
    var byCoins := (coins / cost as real).Floor;
    q.affordableAmount == (if HasCap(config) then MinInt(config.maxLevel.value - level, byCoins) else byCoins) &&
    q.totalBulkCost == q.affordableAmount * cost
  }

  /** The figures the card shows for an upgrade at `level` with `coins` held. */
  predicate IsQuote(config: UpgradeConfig, level: int, coins: real, q: Quote)
  {
    if ReachedMax(config, level) then
      q == Quote(0, false, 0, 0)
    else
      var cost := SingleCost(config, level);
      q.cost == cost && q.affordable == (coins >= cost as real) &&
      if config.costIncrement == 0 then
        ConstantBulk(config, level, coins, q)
      else
        BulkBracket(cost, config.costIncrement, coins, MaxPossible(config, level), q.affordableAmount, q.totalBulkCost)
  }

  method ComputeQuote(config: UpgradeConfig, level: int, coins: real) returns (q: Quote)
    requires config.costIncrement == 0 && !ReachedMax(config, level) ==> SingleCost(config, level) != 0
    ensures IsQuote(config, level, coins, q)
  {
    if ReachedMax(config, level) {
      return Quote(0, false, 0, 0);
    }
    var cost := config.baseCost + config.costIncrement * level;
    var affordable := coins >= cost as real;
    var affordableAmount := 0;
    var totalBulkCost := 0;
    if config.costIncrement == 0 {
      var byCoins := (coins / cost as real).Floor;
      affordableAmount := if HasCap(config) then MinInt(config.maxLevel.value - level, byCoins) else byCoins;
      totalBulkCost := affordableAmount * cost;
    } else {
      var maxPossible := if HasCap(config) then config.maxLevel.value - level else Unbounded;
      affordableAmount, totalBulkCost := SearchBulk(cost, config.costIncrement, coins, maxPossible);
    }
    q := Quote(cost, affordable, affordableAmount, totalBulkCost);
  }

  /** The card's binary search for the largest number of levels, at most
      `maxPossible`, whose summed price the coins cover. */
  method SearchBulk(cost: int, inc: int, coins: real, maxPossible: int) returns (affordableAmount: int, totalBulkCost: int)
    requires maxPossible >= 1
    ensures BulkBracket(cost, inc, coins, maxPossible, affordableAmount, totalBulkCost)
  {
    affordableAmount, totalBulkCost := 0, 0;
    var lo, hi := 0, maxPossible;
    while lo <= hi
      invariant 0 <= lo <= hi + 1 <= maxPossible + 1 && 0 <= affordableAmount
      invariant totalBulkCost == PriceSum(cost, inc, affordableAmount)
      invariant lo == 0 ==> affordableAmount == 0
      invariant lo > 0 ==> affordableAmount == lo - 1 && Fits(cost, inc, coins, affordableAmount)
      invariant hi == maxPossible || !Fits(cost, inc, coins, hi + 1)
      decreases hi - lo
    {
      var mid := (lo + hi) / 2;
      var firstCost := cost;
      var lastCost := cost + (mid - 1) * inc;
      var totalCost := (mid * (firstCost + lastCost)) / 2;
      SeriesTotalIsPriceSum(cost, inc, mid);
      if totalCost as real <= coins {
        affordableAmount := mid;
        totalBulkCost := totalCost;
        lo := mid + 1;
      } else {
        hi := mid - 1;
      }
    }
  }

  /** `n * (2 * first + (n - 1) * inc)` is always even, so the halving in
      SeriesTotal is exact: the bulk price is a whole number. */
  lemma SeriesTotalIsWhole(first: int, inc: int, n: int)
    ensures 2 * SeriesTotal(first, inc, n) == n * (first + (first + (n - 1) * inc))
    ensures SeriesTotal(first, inc, n) as real == (n * (first + (first + (n - 1) * inc))) as real / 2.0
  {
    var k := n / 2;
    var p := n * (first + (first + (n - 1) * inc));
    if n % 2 == 0 {
      assert n == 2 * k;
      assert p == 2 * (k * (first + (first + (n - 1) * inc)));
    } else {
      assert n - 1 == 2 * k;
      assert p == 2 * (n * first) + n * ((n - 1) * inc);
      assert n * ((n - 1) * inc) == 2 * (n * (k * inc));
      assert p == 2 * (n * first + n * (k * inc));
    }
  }

  /** Adding the `n+1`-th level to the doubled closed form adds twice its price. */
  lemma SeriesStep(first: int, inc: int, m: int)
    ensures (m + 1) * (first + (first + m * inc)) == m * (first + (first + (m - 1) * inc)) + 2 * (first + m * inc)
  {
    var c := first + (first + m * inc);
    assert (m + 1) * c == m * c + c;
    assert m * c == m * (first + (first + (m - 1) * inc)) + m * inc;
  }

  /** The closed form equals the level-by-level sum. */
  lemma {:induction false} SeriesTotalIsPriceSum(first: int, inc: int, n: nat)
    ensures SeriesTotal(first, inc, n) == PriceSum(first, inc, n)
  {
    if n > 0 {
      SeriesTotalIsPriceSum(first, inc, n - 1);
      SeriesTotalIsWhole(first, inc, n - 1);
      SeriesTotalIsWhole(first, inc, n);
      SeriesStep(first, inc, n - 1);
    }
  }

  /** With a positive first price and a non-negative increment the sum
      grows strictly with the number of levels. */
  lemma {:induction false} SeriesIncreasing(first: int, inc: int, a: nat, b: nat)
    requires first > 0 && inc >= 0 && a < b
    ensures PriceSum(first, inc, a) < PriceSum(first, inc, b)
    decreases b - a
  {
    assert (b - 1) * inc >= 0;
    if a < b - 1 {
      SeriesIncreasing(first, inc, a, b - 1);
    }
  }

  lemma SeriesAtLeastFirst(first: int, inc: int, n: int)
    requires first > 0 && inc >= 0 && n >= 0
    ensures n >= 1 ==> PriceSum(first, inc, n) >= first
  {
    assert PriceSum(first, inc, 1) == first;
    if n > 1 {
      SeriesIncreasing(first, inc, 1, n);
    }
  }

  /** When prices rise level by level, the bulk quantity is the largest that
      fits: no quantity above it, up to the levels left, is affordable. */
  lemma BulkIsLargest(config: UpgradeConfig, level: int, coins: real, q: Quote)
    requires !ReachedMax(config, level) && config.costIncrement > 0 && SingleCost(config, level) > 0
    requires IsQuote(config, level, coins, q)
    ensures forall m :: q.affordableAmount < m <= MaxPossible(config, level) ==>
      !Fits(SingleCost(config, level), config.costIncrement, coins, m)
    ensures coins >= 0.0 ==> forall m :: 0 <= m <= q.affordableAmount ==>
      Fits(SingleCost(config, level), config.costIncrement, coins, m)
  {
    var first, inc, n := SingleCost(config, level), config.costIncrement, q.affordableAmount;
    forall m | n < m <= MaxPossible(config, level)
      ensures !Fits(first, inc, coins, m)
    {
      if Fits(first, inc, coins, n) {
        SeriesIncreasing(first, inc, n, n + 1);
        if n + 1 < m {
          SeriesIncreasing(first, inc, n + 1, m);
        }
      } else {
        SeriesIncreasing(first, inc, 0, m);
      }
    }
    forall m | 0 <= m <= n && coins >= 0.0
      ensures Fits(first, inc, coins, m)
    {
      if m < n {
        SeriesIncreasing(first, inc, m, n);
      }
    }
  }

  /** A level above the maximum is never offered: a single purchase leaves
      room for one more level, and a bulk purchase for all it buys. */
  lemma QuoteRespectsMaxLevel(config: UpgradeConfig, level: int, coins: real, q: Quote)
    requires IsQuote(config, level, coins, q)
    ensures config.maxLevel.Some? && q.affordable ==> level + 1 <= config.maxLevel.value
    ensures HasCap(config) && q.affordableAmount > 0 ==> level + q.affordableAmount <= config.maxLevel.value
  {
  }

  lemma QuoteAtMaxLevel(config: UpgradeConfig, level: int, coins: real, q: Quote)
    requires ReachedMax(config, level)
    requires IsQuote(config, level, coins, q)
    ensures q.cost == 0 && !q.affordable && q.affordableAmount == 0 && q.totalBulkCost == 0
  {
  }

  /** The "Buy"/"Upgrade" button dispatches only when the level is affordable. */
  function BuyClick(id: string, q: Quote): Option<Action>
  {
    if q.affordable then Some(BuyUpgrade(id, q.cost)) else None
  }

  /** The "Buy All" button dispatches only for a positive quantity. */
  function BuyAllClick(id: string, q: Quote): Option<Action>
  {
    if q.affordableAmount > 0 then Some(BuyUpgradeBulk(id, q.affordableAmount, q.totalBulkCost)) else None
  }

  /** For every catalog entry, a purchase the card dispatches is never a
      reducer no-op, and it never raises a level above the entry's maximum,
      although the reducer itself checks no maximum. */
  lemma CardPurchasesApply(k: UpgradeKey, s: GameState, q: Quote)
    requires IsQuote(Config(k), GetLevel(k, s), s.coins, q)
    ensures BuyClick(Id(k), q).Some? ==>
      Reduce(s, BuyClick(Id(k), q).value) == Purchase(s, Id(k), 1, q.cost)
    ensures BuyAllClick(Id(k), q).Some? ==>
      Reduce(s, BuyAllClick(Id(k), q).value) == Purchase(s, Id(k), q.affordableAmount, q.totalBulkCost)
    ensures Config(k).maxLevel.Some? && BuyClick(Id(k), q).Some? ==>
      LevelOf(Reduce(s, BuyClick(Id(k), q).value).upgrades, Id(k)) <= Config(k).maxLevel.value
    ensures Config(k).maxLevel.Some? && BuyAllClick(Id(k), q).Some? ==>
      LevelOf(Reduce(s, BuyAllClick(Id(k), q).value).upgrades, Id(k)) <= Config(k).maxLevel.value
  {
    CatalogPricesRise(k);
    SinglePurchaseApplies(Config(k), Id(k), s, q);
    BulkPurchaseApplies(Config(k), Id(k), s, q);
  }

  /** The single-level button of a card at the stored level. */
  lemma SinglePurchaseApplies(config: UpgradeConfig, id: string, s: GameState, q: Quote)
    requires IsQuote(config, LevelOf(s.upgrades, id), s.coins, q)
    ensures BuyClick(id, q).Some? ==> Reduce(s, BuyClick(id, q).value) == Purchase(s, id, 1, q.cost)
    ensures config.maxLevel.Some? && BuyClick(id, q).Some? ==>
      LevelOf(Reduce(s, BuyClick(id, q).value).upgrades, id) <= config.maxLevel.value
  {
    QuoteRespectsMaxLevel(config, LevelOf(s.upgrades, id), s.coins, q);
  }

  /** The bulk button of a card at the stored level, when prices rise. */
  lemma BulkPurchaseApplies(config: UpgradeConfig, id: string, s: GameState, q: Quote)
    requires config.costIncrement > 0 && (config.maxLevel.Some? ==> HasCap(config))
    requires IsQuote(config, LevelOf(s.upgrades, id), s.coins, q)
    ensures BuyAllClick(id, q).Some? ==>
      Reduce(s, BuyAllClick(id, q).value) == Purchase(s, id, q.affordableAmount, q.totalBulkCost)
    ensures config.maxLevel.Some? && BuyAllClick(id, q).Some? ==>
      LevelOf(Reduce(s, BuyAllClick(id, q).value).upgrades, id) <= config.maxLevel.value
  {
    var level := LevelOf(s.upgrades, id);
    QuoteRespectsMaxLevel(config, level, s.coins, q);
    if q.affordableAmount > 0 {
      assert !ReachedMax(config, level);
      assert BulkBracket(SingleCost(config, level), config.costIncrement, s.coins,
        MaxPossible(config, level), q.affordableAmount, q.totalBulkCost);
      assert q.totalBulkCost as real <= s.coins;
    }
  }

  /** Every catalog entry has a rising price and no zero maximum. */
  lemma CatalogPricesRise(k: UpgradeKey)
    ensures Config(k).baseCost > 0 && Config(k).costIncrement > 0
    ensures Config(k).maxLevel.Some? ==> HasCap(Config(k))
  {
  }

  /** When prices rise and the coins are not negative, only one quantity
      satisfies the bracket, so the search result is determined. */
  lemma BracketIsUnique(first: int, inc: int, coins: real, maxPossible: int, n: int, total: int, m: int)
    requires first > 0 && inc >= 0 && coins >= 0.0
    requires BulkBracket(first, inc, coins, maxPossible, n, total)
    requires 0 <= m <= maxPossible && Fits(first, inc, coins, m)
    requires m == maxPossible || !Fits(first, inc, coins, m + 1)
    ensures n == m && total == PriceSum(first, inc, m)
  {
    if n < m {
      if n + 1 < m {
        SeriesIncreasing(first, inc, n + 1, m);
      }
    } else if m < n {
      if m + 1 < n {
        SeriesIncreasing(first, inc, m + 1, n);
      }
    }
  }

  lemma AutoClickerQuoteAtLevelZero(coins: real, q: Quote)
    requires IsQuote(Config(AutoClicker), 0, coins, q)
    ensures q.cost == 10 && q.affordable == (coins >= 10.0)
    ensures BulkBracket(10, 10, coins, Unbounded, q.affordableAmount, q.totalBulkCost)
  {
    var config := Config(AutoClicker);
    assert config.baseCost == 10 && config.costIncrement == 10 && config.maxLevel == None;
    assert !ReachedMax(config, 0) && SingleCost(config, 0) == 10 && MaxPossible(config, 0) == Unbounded;
  }

  lemma ThousandCoinsBracket(n: int, total: int)
    requires BulkBracket(10, 10, 1000.0, Unbounded, n, total)
    ensures n == 13 && total == 910
  {
    SeriesTotalIsPriceSum(10, 10, 13);
    SeriesTotalIsPriceSum(10, 10, 14);
    assert SeriesTotal(10, 10, 13) == 910 && SeriesTotal(10, 10, 14) == 1050;
    BracketIsUnique(10, 10, 1000.0, Unbounded, n, total, 13);
  }

  lemma NoCoinsBracket(n: int, total: int)
    requires BulkBracket(10, 10, 0.0, Unbounded, n, total)
    ensures n == 0 && total == 0
  {
    SeriesAtLeastFirst(10, 10, n);
  }

  /** 1000 coins buy 13 Auto Clicker levels from level 0, for 910. */
  lemma ThousandCoinsBuyThirteen(q: Quote)
    requires IsQuote(Config(AutoClicker), 0, 1000.0, q)
    ensures q == Quote(10, true, 13, 910)
  {
    AutoClickerQuoteAtLevelZero(1000.0, q);
    ThousandCoinsBracket(q.affordableAmount, q.totalBulkCost);
  }

  /** With no coins nothing is affordable and the bulk quantity is 0. */
  lemma NoCoinsBuyNothing(q: Quote)
    requires IsQuote(Config(AutoClicker), 0, 0.0, q)
    ensures q == Quote(10, false, 0, 0)
  {
    AutoClickerQuoteAtLevelZero(0.0, q);
    NoCoinsBracket(q.affordableAmount, q.totalBulkCost);
  }

  /** The worked example for Auto Clicker (base 10, increment 10) at level 0:
      1000 coins buy 13 levels for 910, and 0 coins buy none. */
  method AutoClickerQuotes() returns (rich: Quote, broke: Quote)
    ensures rich == Quote(10, true, 13, 910)
    ensures broke == Quote(10, false, 0, 0)
  {
    rich := ComputeQuote(Config(AutoClicker), 0, 1000.0);
    ThousandCoinsBuyThirteen(rich);
    broke := ComputeQuote(Config(AutoClicker), 0, 0.0);
    NoCoinsBuyNothing(broke);
  }
}

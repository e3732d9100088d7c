/** The progression reducer: the game state record, its ten actions and the
    total transition function over them. */
module GameReducer {

  /** The game state. `coins` is fractional because a click gain can be
      (the 2.5x critical); `upgrades` is sparse: an absent id means level 0. */
  datatype GameState = GameState(
    coins: real,
    rebirths: int,
    totalClicks: int,
    upgrades: map<string, int>,
    airdropsCollected: int,
    luckyEventTriggered: bool)

  /** One constructor per action type, carrying that action's payload. */
  datatype Action =
    | AddCoins(amount: real)
    | RemoveCoins(amount: real)
    | AddClick
    | BuyUpgrade(upgradeId: string, cost: int)
    | BuyUpgradeBulk(upgradeId: string, quantity: int, totalCost: int)
    | AddRebirth
    | CollectAirdrop(amount: real)
    | TriggerLuckyEvent
    | ResetGame
    | ResetProgress

  const InitialGameState: GameState := GameState(0.0, 0, 0, map[], 0, false)

  /** `upgrades[id] || 0`: the stored level, or 0 when the id is absent. */
  function LevelOf(upgrades: map<string, int>, id: string): int
  {
    if id in upgrades then upgrades[id] else 0
  }

  /** The state invariant the game relies on: no negative counter or level. */
  predicate Valid(s: GameState)
  {
    s.coins >= 0.0 && s.rebirths >= 0 && s.totalClicks >= 0 && s.airdropsCollected >= 0 &&
    forall id :: id in s.upgrades ==> s.upgrades[id] >= 0
  }

  /** Payloads every caller in the game supplies: gains and quantities are
      never negative. Costs need no condition: a purchase is applied only when
      the coins cover it. */
  predicate NonNegativePayload(a: Action)
  {
    match a
    case AddCoins(amount) => amount >= 0.0
    case CollectAirdrop(amount) => amount >= 0.0
    case BuyUpgradeBulk(_, amount, _) => amount >= 0
    case _ => true
  }

  /** The state after a purchase of `amount` levels of `id` for `price`. */
  function Purchase(s: GameState, id: string, amount: int, price: int): GameState
  {
    s.(coins := s.coins - price as real,
       upgrades := s.upgrades[id := LevelOf(s.upgrades, id) + amount])
  }

  /** The reducer. Purchases are no-ops when the coins do not cover the
      price; RemoveCoins clamps at zero; the two resets differ in what they
      keep. */
  function Reduce(s: GameState, a: Action): (r: GameState)
    ensures Valid(s) && NonNegativePayload(a) ==> Valid(r)
    ensures a.RemoveCoins? ==> r.coins >= 0.0
    ensures !a.ResetGame? ==> r.rebirths >= s.rebirths
    ensures !a.ResetGame? && !a.ResetProgress? ==> r.luckyEventTriggered == (s.luckyEventTriggered || a.TriggerLuckyEvent?)
  {
    match a
    case AddCoins(amount) => s.(coins := s.coins + amount)
    case RemoveCoins(amount) => s.(coins := if 0.0 >= s.coins - amount then 0.0 else s.coins - amount)
    case AddClick => s.(totalClicks := s.totalClicks + 1)
    case BuyUpgrade(id, cost) =>
      if s.coins < cost as real then s else Purchase(s, id, 1, cost)
    case BuyUpgradeBulk(id, amount, totalCost) =>
      if s.coins < totalCost as real then s else Purchase(s, id, amount, totalCost)
    case CollectAirdrop(amount) =>
      s.(airdropsCollected := s.airdropsCollected + 1, coins := s.coins + amount)
    case TriggerLuckyEvent => s.(luckyEventTriggered := true)
    case AddRebirth => s.(rebirths := s.rebirths + 1)
    case ResetProgress => s.(coins := 0.0, upgrades := map[], airdropsCollected := 0)
    case ResetGame => InitialGameState
  }

  /** The state after dispatching `actions` in order, starting from `s`. */
  function ApplyAll(s: GameState, actions: seq<Action>): GameState
  {
    if actions == [] then s else Reduce(ApplyAll(s, actions[..|actions| - 1]), actions[|actions| - 1])
  }

  lemma ApplyAllAppend(s: GameState, actions: seq<Action>, a: Action)
    ensures ApplyAll(s, actions + [a]) == Reduce(ApplyAll(s, actions), a)
  {
    assert (actions + [a])[..|actions|] == actions;
  }

  lemma {:induction false} ApplyAllConcat(s: GameState, xs: seq<Action>, ys: seq<Action>)
    ensures ApplyAll(s, xs + ys) == ApplyAll(ApplyAll(s, xs), ys)
    decreases |ys|
  {
    if ys == [] {
      assert xs + ys == xs;
    } else {
      var init, last := ys[..|ys| - 1], ys[|ys| - 1];
      assert ys == init + [last];
      assert xs + ys == (xs + init) + [last];
      ApplyAllAppend(s, xs + init, last);
      ApplyAllConcat(s, xs, init);
      ApplyAllAppend(ApplyAll(s, xs), init, last);
    }
  }

  /** With the state invariant and non-negative payloads throughout, every
      reachable state keeps the invariant. */
  lemma {:induction false} ApplyAllKeepsValid(s: GameState, actions: seq<Action>)
    requires Valid(s)
    requires forall i :: 0 <= i < |actions| ==> NonNegativePayload(actions[i])
    ensures Valid(ApplyAll(s, actions))
  {
    if actions != [] {
      ApplyAllKeepsValid(s, actions[..|actions| - 1]);
    }
  }

  lemma RemoveCoinsClamps(s: GameState, amount: real)
    ensures var r := Reduce(s, RemoveCoins(amount));
      r.coins >= 0.0 && r.coins >= s.coins - amount &&
      (r.coins == 0.0 || r.coins == s.coins - amount) &&
      r == s.(coins := r.coins)
  {
  }

  lemma AddThenRemoveRestores(s: GameState, amount: real)
    requires amount >= 0.0 && s.coins >= 0.0
    ensures Reduce(Reduce(s, AddCoins(amount)), RemoveCoins(amount)) == s
  {
  }

  lemma AddClickCounts(s: GameState)
    ensures Reduce(s, AddClick) == s.(totalClicks := s.totalClicks + 1)
  {
  }

  lemma BuyUpgradeUnaffordable(s: GameState, id: string, cost: int)
    requires s.coins < cost as real
    ensures Reduce(s, BuyUpgrade(id, cost)) == s
  {
  }

  lemma BuyUpgradeApplies(s: GameState, id: string, cost: int)
    requires s.coins >= cost as real
    ensures var r := Reduce(s, BuyUpgrade(id, cost));
      r.coins == s.coins - cost as real && r.coins >= 0.0 &&
      id in r.upgrades && r.upgrades[id] == LevelOf(s.upgrades, id) + 1 &&
      r.upgrades.Keys == s.upgrades.Keys + {id} &&
      (forall other :: other != id ==> LevelOf(r.upgrades, other) == LevelOf(s.upgrades, other)) &&
      r == s.(coins := r.coins, upgrades := r.upgrades)
  {
  }

  lemma BuyUpgradeBulkUnaffordable(s: GameState, id: string, amount: int, totalCost: int)
    requires s.coins < totalCost as real
    ensures Reduce(s, BuyUpgradeBulk(id, amount, totalCost)) == s
  {
  }

  /** No maximum-level check happens here: the level rises by `amount`
      whatever the upgrade's cap. */
  lemma BuyUpgradeBulkApplies(s: GameState, id: string, amount: int, totalCost: int)
    requires s.coins >= totalCost as real
    ensures var r := Reduce(s, BuyUpgradeBulk(id, amount, totalCost));
      r.coins == s.coins - totalCost as real && r.coins >= 0.0 &&
      id in r.upgrades && r.upgrades[id] == LevelOf(s.upgrades, id) + amount &&
      r.upgrades.Keys == s.upgrades.Keys + {id} &&
      (forall other :: other != id ==> LevelOf(r.upgrades, other) == LevelOf(s.upgrades, other)) &&
      r == s.(coins := r.coins, upgrades := r.upgrades)
  {
  }

  lemma CollectAirdropEffect(s: GameState, amount: real)
    ensures Reduce(s, CollectAirdrop(amount)) ==
      s.(airdropsCollected := s.airdropsCollected + 1, coins := s.coins + amount)
  {
  }

  lemma TriggerLuckyEventSticky(s: GameState)
    ensures Reduce(s, TriggerLuckyEvent) == s.(luckyEventTriggered := true)
    ensures Reduce(Reduce(s, TriggerLuckyEvent), ResetProgress).luckyEventTriggered
  {
  }

  lemma AddRebirthCounts(s: GameState)
    ensures Reduce(s, AddRebirth) == s.(rebirths := s.rebirths + 1)
  {
  }

  lemma ResetProgressEffect(s: GameState)
    ensures var r := Reduce(s, ResetProgress);
      r.coins == 0.0 && r.upgrades == map[] && r.airdropsCollected == 0 &&
      r.rebirths == s.rebirths && r.totalClicks == s.totalClicks &&
      r.luckyEventTriggered == s.luckyEventTriggered
    ensures Reduce(Reduce(s, ResetProgress), ResetProgress) == Reduce(s, ResetProgress)
  {
  }

  lemma ResetGameForgetsState(s: GameState, t: GameState)
    ensures Reduce(s, ResetGame) == InitialGameState == Reduce(t, ResetGame)
    ensures Reduce(Reduce(s, ResetGame), ResetGame) == Reduce(s, ResetGame)
  {
  }

  lemma InitialStateValid()
    ensures Valid(InitialGameState)
  {
  }
}

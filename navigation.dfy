/** The navigation bar's rebirth: the button shown once the coins cover the
    next rebirth, and the click handler that pays for it, counts it and
    resets the run. */
module Navigation {
  import opened GameReducer
  import opened Gain
  import GameStore

  /** The button is rendered exactly when the coins cover the rebirth. */
  predicate RebirthButtonVisible(s: GameState)
  {
    s.coins >= NextRebirthCost(s) as real
  }

  /** The actions the click dispatches, in order: none when the coins fall
      short, else pay the cost, count the rebirth, reset the run. */
  function RebirthDispatches(s: GameState): (r: seq<Action>)
    ensures r == [] || |r| == 3
  {
    var cost := NextRebirthCost(s);
    if s.coins < cost as real then []
    else [RemoveCoins(cost as real), AddRebirth, ResetProgress]
  }

  /** The click does something exactly when the button is visible. */
  lemma ButtonVisibleIffRebirthDispatches(s: GameState)
    ensures RebirthButtonVisible(s) <==> RebirthDispatches(s) != []
    ensures s.rebirths == 0 ==> (RebirthButtonVisible(s) <==> s.coins >= 100_000.0)
    ensures s.rebirths == 0 && s.coins == 99_999.0 ==> RebirthDispatches(s) == []
  {
    RebirthCostExamples(s);
  }

  /** A rebirth the coins do not cover leaves the state as it was. */
  lemma UnaffordableRebirthChangesNothing(s: GameState)
    requires s.coins < NextRebirthCost(s) as real
    ensures ApplyAll(s, RebirthDispatches(s)) == s
  {
  }

  /** The three dispatches, applied one after another. */
  lemma RebirthSteps(s: GameState)
    requires s.coins >= NextRebirthCost(s) as real
    ensures ApplyAll(s, RebirthDispatches(s)) ==
      Reduce(Reduce(Reduce(s, RemoveCoins(NextRebirthCost(s) as real)), AddRebirth), ResetProgress)
  {
    var pay := RemoveCoins(NextRebirthCost(s) as real);
    ApplyAllAppend(s, [], pay);
    ApplyAllAppend(s, [pay], AddRebirth);
    ApplyAllAppend(s, [pay, AddRebirth], ResetProgress);
    assert [] + [pay] == [pay] && [pay] + [AddRebirth] == [pay, AddRebirth];
    assert [pay, AddRebirth] + [ResetProgress] == RebirthDispatches(s);
  }

  /** A rebirth adds one to the count, empties coins, upgrades and airdrops,
      and keeps the clicks and the lucky flag. */
  lemma RebirthNetEffect(s: GameState)
    requires s.coins >= NextRebirthCost(s) as real
    ensures ApplyAll(s, RebirthDispatches(s)) ==
      s.(rebirths := s.rebirths + 1, coins := 0.0, upgrades := map[], airdropsCollected := 0)
  {
    RebirthSteps(s);
  }

  /** The rebirth handler: on a click, dispatches the actions in order. */
  method HandleRebirthClick(store: GameStore.Store)
    requires store.Valid()
    modifies store
    ensures store.Valid() && store.start == old(store.start)
    ensures store.dispatched == old(store.dispatched) + RebirthDispatches(old(store.state))
    ensures store.state == ApplyAll(old(store.state), RebirthDispatches(old(store.state)))
  {
    var s := store.state;
    var rebirthCost := NextRebirthCost(s);
    if s.coins < rebirthCost as real {
      return;
    }
    store.Dispatch(RemoveCoins(rebirthCost as real));
    store.Dispatch(AddRebirth);
    store.Dispatch(ResetProgress);
    RebirthSteps(s);
  }
}

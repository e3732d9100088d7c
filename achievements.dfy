/** The achievement subsystem: the static list of twelve achievements with
    their conditions on the game state, and the reducer that unlocks one by
    id or merges a saved list into the static one. */
module Achievements {
  import opened GameReducer

  /** Which condition an achievement tests; one per entry of the list. */
  datatype Milestone =
    | FirstClick
    | AirdropHunter
    | Rich
    | Millionaire
    | Billionaire
    | Shopper
    | UpgradeEnthusiast
    | UpgradeMaster
    | RebirthBeginner
    | RebornAgain
    | CycleOfLife
    | OneInAMillion

  datatype Achievement = Achievement(
    id: string,
    title: string,
    description: string,
    achieved: bool,
    condition: Milestone)

  /** The total of all stored upgrade levels, whatever order the keys are
      visited in (see SumOverRemove). */
  ghost function SumOver(m: map<string, int>): int
    decreases |m|
  {
    if m == map[] then 0
    else
      var k :| k in m;
      m[k] + SumOver(m - {k})
  }

  /** The sum does not depend on which key is taken out first. */
  lemma {:induction false} SumOverRemove(m: map<string, int>, k: string)
    requires k in m
    ensures SumOver(m) == m[k] + SumOver(m - {k})
    decreases |m|
  {
    var j :| j in m && SumOver(m) == m[j] + SumOver(m - {j});
    if j != k {
      SumOverRemove(m - {j}, k);
      SumOverRemove(m - {k}, j);
      assert m - {j} - {k} == m - {k} - {j};
    }
  }

  /** Without a level of at least 1 the levels add up to at most 0. */
  lemma {:induction false} SumOverNoLevel(m: map<string, int>)
    requires forall k :: k in m ==> m[k] <= 0
    ensures SumOver(m) <= 0
    decreases |m|
  {
    if m != map[] {
      var k :| k in m;
      SumOverRemove(m, k);
      SumOverNoLevel(m - {k});
    }
  }

  /** With no negative level no single level exceeds the total. */
  lemma {:induction false} SumOverBoundsLevel(m: map<string, int>, k: string)
    requires forall j :: j in m ==> m[j] >= 0
    requires k in m
    ensures m[k] <= SumOver(m)
    decreases |m|
  {
    SumOverRemove(m, k);
    SumOverNonNegative(m - {k});
  }

  lemma {:induction false} SumOverNonNegative(m: map<string, int>)
    requires forall j :: j in m ==> m[j] >= 0
    ensures SumOver(m) >= 0
    decreases |m|
  {
    if m != map[] {
      var k :| k in m;
      SumOverRemove(m, k);
      SumOverNonNegative(m - {k});
    }
  }

  /** Some stored level is at least 1. */
  predicate SomeLevel(m: map<string, int>)
  {
    exists k :: k in m && m[k] >= 1
  }

  /** The condition of each milestone on a game state. */
  ghost predicate Holds(c: Milestone, s: GameState)
  {
    match c
    case FirstClick => s.coins >= 1.0
    case AirdropHunter => s.airdropsCollected >= 1
    case Rich => s.coins >= 100_000.0
    case Millionaire => s.coins >= 1_000_000.0
    case Billionaire => s.coins >= 1_000_000_000.0
    case Shopper => SomeLevel(s.upgrades)
    case UpgradeEnthusiast => SumOver(s.upgrades) >= 10
    case UpgradeMaster => SumOver(s.upgrades) >= 100
    case RebirthBeginner => s.rebirths >= 1
    case RebornAgain => s.rebirths >= 5
    case CycleOfLife => s.rebirths >= 20
    case OneInAMillion => s.luckyEventTriggered
  }

  const AchievementsList: seq<Achievement> := [
    Achievement("first_click", "First Click!", "You made your first click!", false, FirstClick),
    Achievement("airdrop_hunter", "Airdrop Hunter", "You collected your first airdrop!", false, AirdropHunter),
    Achievement("rich", "Getting Rich!", "You have accumulated 100,000 coins!", false, Rich),
    Achievement("millionaire", "Millionaire", "Wow! You've reached 1,000,000 coins!", false, Millionaire),
    Achievement("billionaire", "Billionaire", "You are unstoppable! 1,000,000,000 coins!", false, Billionaire),
    Achievement("shopper", "Shopper", "You bought your first upgrade!", false, Shopper),
    Achievement("upgrade_enthusiast", "Upgrade Enthusiast", "You own 10 upgrades in total.", false, UpgradeEnthusiast),
    Achievement("upgrade_master", "Upgrade Master", "You own 100 upgrades in total.", false, UpgradeMaster),
    Achievement("rebirth_beginner", "Rebirth Beginner", "You have performed your first rebirth!", false, RebirthBeginner),
    Achievement("reborn_again", "Reborn Again", "You have performed 5 rebirths.", false, RebornAgain),
    Achievement("cycle_of_life", "Cycle of Life", "You have performed 20 rebirths. A true veteran.", false, CycleOfLife),
    Achievement("one_in_a_million", "One in a Million", "There was a 0.0001% chance of this happening.", false, OneInAMillion)
  ]

  predicate DistinctIds(xs: seq<Achievement>)
  {
    forall i, j :: 0 <= i < j < |xs| ==> xs[i].id != xs[j].id
  }

  /** Two lists describe the same achievements, in the same order, with the
      same texts and conditions; only the achieved flags may differ. */
  predicate SameEntries(xs: seq<Achievement>, ys: seq<Achievement>)
  {
    |xs| == |ys| &&
    forall i :: 0 <= i < |xs| ==>
      ys[i].id == xs[i].id && ys[i].title == xs[i].title &&
      ys[i].description == xs[i].description && ys[i].condition == xs[i].condition
  }

  /** The entry of the list that tests each milestone. */
  function MilestoneIndex(c: Milestone): (i: nat)
    ensures i < |AchievementsList| && AchievementsList[i].condition == c
  {
    match c
    case FirstClick => 0
    case AirdropHunter => 1
    case Rich => 2
    case Millionaire => 3
    case Billionaire => 4
    case Shopper => 5
    case UpgradeEnthusiast => 6
    case UpgradeMaster => 7
    case RebirthBeginner => 8
    case RebornAgain => 9
    case CycleOfLife => 10
    case OneInAMillion => 11
  }

  /** The list starts with nothing achieved, one entry per milestone in
      order, and so no two entries share a condition. */
  lemma AchievementsListWellFormed()
    ensures |AchievementsList| == 12
    ensures forall i :: 0 <= i < |AchievementsList| ==> !AchievementsList[i].achieved
    ensures forall i :: 0 <= i < |AchievementsList| ==> MilestoneIndex(AchievementsList[i].condition) == i
  {
  }

  /** No two entries of the list share an id. */
  lemma AchievementsListIdsDistinct()
    ensures DistinctIds(AchievementsList)
  {
  }

  /** The coin thresholds are nested. */
  lemma CoinMilestonesNested(s: GameState)
    ensures Holds(Billionaire, s) ==> Holds(Millionaire, s)
    ensures Holds(Millionaire, s) ==> Holds(Rich, s)
    ensures Holds(Rich, s) ==> Holds(FirstClick, s)
  {
  }

  /** The rebirth thresholds are nested. */
  lemma RebirthMilestonesNested(s: GameState)
    ensures Holds(CycleOfLife, s) ==> Holds(RebornAgain, s)
    ensures Holds(RebornAgain, s) ==> Holds(RebirthBeginner, s)
  {
  }

  /** The upgrade thresholds are nested: a total of 10 needs some level of
      at least 1. With no negative level, any level of 10 also reaches the
      total of 10. */
  lemma UpgradeMilestonesNested(s: GameState)
    ensures Holds(UpgradeMaster, s) ==> Holds(UpgradeEnthusiast, s)
    ensures Holds(UpgradeEnthusiast, s) ==> Holds(Shopper, s)
    ensures Valid(s) && (exists k :: k in s.upgrades && s.upgrades[k] >= 10) ==> Holds(UpgradeEnthusiast, s)
  {
    if !SomeLevel(s.upgrades) {
      SumOverNoLevel(s.upgrades);
    }
    if Valid(s) && exists k :: k in s.upgrades && s.upgrades[k] >= 10 {
      var k :| k in s.upgrades && s.upgrades[k] >= 10;
      SumOverBoundsLevel(s.upgrades, k);
    }
  }

  /** The total of the levels, visiting the keys one at a time, as the
      `reduce` over the level values does. */
  method SumLevels(m: map<string, int>) returns (total: int)
    ensures total == SumOver(m)
  {
    total := 0;
    var rest := m;
    while rest != map[]
      invariant total + SumOver(rest) == SumOver(m)
      decreases |rest|
    {
      var k :| k in rest;
      SumOverRemove(rest, k);
      total := total + rest[k];
      rest := rest - {k};
    }
  }

  /** Whether some level is at least 1, as the `some` over the level values. */
  method AnyLevelAtLeastOne(m: map<string, int>) returns (found: bool)
    ensures found == SomeLevel(m)
  {
    found := false;
    var rest := m;
    while rest != map[] && !found
      invariant rest.Keys <= m.Keys
      invariant forall k :: k in rest ==> rest[k] == m[k]
      invariant found ==> SomeLevel(m)
      invariant !found ==> forall k :: k in m && k !in rest ==> m[k] < 1
      decreases |rest|
    {
      var k :| k in rest;
      found := rest[k] >= 1;
      rest := rest - {k};
    }
  }

  /** Evaluates an achievement's condition on a state. */
  method CheckCondition(c: Milestone, s: GameState) returns (b: bool)
    ensures b == Holds(c, s)
  {
    match c
    case FirstClick => b := s.coins >= 1.0;
    case AirdropHunter => b := s.airdropsCollected >= 1;
    case Rich => b := s.coins >= 100_000.0;
    case Millionaire => b := s.coins >= 1_000_000.0;
    case Billionaire => b := s.coins >= 1_000_000_000.0;
    case Shopper => b := AnyLevelAtLeastOne(s.upgrades);
    case UpgradeEnthusiast =>
      var total := SumLevels(s.upgrades);
      b := total >= 10;
    case UpgradeMaster =>
      var total := SumLevels(s.upgrades);
      b := total >= 100;
    case RebirthBeginner => b := s.rebirths >= 1;
    case RebornAgain => b := s.rebirths >= 5;
    case CycleOfLife => b := s.rebirths >= 20;
    case OneInAMillion => b := s.luckyEventTriggered;
  }

  /** A saved entry: only its id and flag are read back. */
  datatype SavedAchievement = SavedAchievement(id: string, achieved: bool)

  datatype AchievementState = AchievementState(achievements: seq<Achievement>)

  datatype AchievementAction =
    | Unlock(id: string)
    | LoadSaved(payload: seq<SavedAchievement>)

  const InitialAchievementState: AchievementState := AchievementState(AchievementsList)

  /** UNLOCK: every entry with the id becomes achieved; nothing else changes. */
  function UnlockAll(xs: seq<Achievement>, id: string): (r: seq<Achievement>)
    ensures SameEntries(xs, r)
    ensures forall i :: 0 <= i < |r| ==> r[i].achieved == (xs[i].achieved || xs[i].id == id)
  {
    seq(|xs|, i requires 0 <= i < |xs| => if xs[i].id == id then xs[i].(achieved := true) else xs[i])
  }

  /** The map built from the payload's (id, entry) pairs: a later pair for the
      same id replaces an earlier one. */
  function SavedFlags(payload: seq<SavedAchievement>): map<string, bool>
  {
    if |payload| == 0 then map[]
    else
      var last := payload[|payload| - 1];
      SavedFlags(payload[..|payload| - 1])[last.id := last.achieved]
  }

  /** An id is in the map exactly when some saved entry carries it. */
  lemma {:induction false} SavedFlagsKeys(payload: seq<SavedAchievement>, id: string)
    ensures id in SavedFlags(payload) <==> exists i :: 0 <= i < |payload| && payload[i].id == id
  {
    if |payload| > 0 {
      var init := payload[..|payload| - 1];
      SavedFlagsKeys(init, id);
      if id in SavedFlags(init) {
        var i :| 0 <= i < |init| && init[i].id == id;
        assert payload[i] == init[i];
      }
      if exists i :: 0 <= i < |payload| && payload[i].id == id {
        var i :| 0 <= i < |payload| && payload[i].id == id;
        if i < |init| {
          assert init[i] == payload[i];
        }
      }
    }
  }

  /** Among saved entries with the same id, the last one decides the flag. */
  lemma {:induction false} SavedFlagsLastWins(payload: seq<SavedAchievement>, i: int)
    requires 0 <= i < |payload|
    requires forall j :: i < j < |payload| ==> payload[j].id != payload[i].id
    ensures payload[i].id in SavedFlags(payload)
    ensures SavedFlags(payload)[payload[i].id] == payload[i].achieved
  {
    var init := payload[..|payload| - 1];
    if i < |payload| - 1 {
      assert init[i] == payload[i];
      SavedFlagsLastWins(init, i);
    }
  }

  /** LOAD_SAVED: the static entries, each taking the flag saved under its
      id when there is one. */
  function Hydrate(xs: seq<Achievement>, payload: seq<SavedAchievement>): (r: seq<Achievement>)
    ensures SameEntries(xs, r)
  {
    var saved := SavedFlags(payload);
    seq(|xs|, i requires 0 <= i < |xs| =>
      if xs[i].id in saved then xs[i].(achieved := saved[xs[i].id]) else xs[i])
  }

  /** The achieved flags after LOAD_SAVED: an entry whose id is saved takes
      the flag of the last saved entry with that id; any other entry keeps
      its own. */
  lemma HydrateFlags(xs: seq<Achievement>, payload: seq<SavedAchievement>, i: int)
    requires 0 <= i < |xs|
    ensures (forall j :: 0 <= j < |payload| ==> payload[j].id != xs[i].id) ==>
      Hydrate(xs, payload)[i] == xs[i]
    ensures forall j :: (0 <= j < |payload| && payload[j].id == xs[i].id &&
      (forall l :: j < l < |payload| ==> payload[l].id != xs[i].id)) ==>
      Hydrate(xs, payload)[i].achieved == payload[j].achieved
  {
    SavedFlagsKeys(payload, xs[i].id);
    forall j | 0 <= j < |payload| && payload[j].id == xs[i].id &&
      (forall l :: j < l < |payload| ==> payload[l].id != xs[i].id)
      ensures Hydrate(xs, payload)[i].achieved == payload[j].achieved
    {
      SavedFlagsLastWins(payload, j);
    }
  }

  /** Saved entries appended for other ids leave an id's entry in the map as
      it was. */
  lemma {:induction false} SavedFlagsAppendOther(payload: seq<SavedAchievement>, extra: seq<SavedAchievement>, id: string)
    requires forall j :: 0 <= j < |extra| ==> extra[j].id != id
    ensures id in SavedFlags(payload + extra) <==> id in SavedFlags(payload)
    ensures id in SavedFlags(payload) ==> SavedFlags(payload + extra)[id] == SavedFlags(payload)[id]
  {
    if |extra| == 0 {
      assert payload + extra == payload;
    } else {
      var init := extra[..|extra| - 1];
      assert (payload + extra)[..|payload + extra| - 1] == payload + init;
      assert (payload + extra)[|payload + extra| - 1] == extra[|extra| - 1];
      SavedFlagsAppendOther(payload, init, id);
    }
  }

  /** Saved entries for ids outside the list change nothing. */
  lemma HydrateIgnoresUnknownIds(xs: seq<Achievement>, payload: seq<SavedAchievement>, extra: seq<SavedAchievement>)
    requires forall j, i :: 0 <= j < |extra| && 0 <= i < |xs| ==> extra[j].id != xs[i].id
    ensures Hydrate(xs, payload + extra) == Hydrate(xs, payload)
  {
    forall i | 0 <= i < |xs|
      ensures Hydrate(xs, payload + extra)[i] == Hydrate(xs, payload)[i]
    {
      SavedFlagsAppendOther(payload, extra, xs[i].id);
    }
  }

  /** Any entry carrying an id has a last such entry. */
  lemma LastOccurrence(payload: seq<SavedAchievement>, id: string, j: int) returns (last: int)
    requires 0 <= j < |payload| && payload[j].id == id
    ensures j <= last < |payload| && payload[last].id == id
    ensures forall l :: last < l < |payload| ==> payload[l].id != id
    decreases |payload| - j
  {
    if exists l :: j < l < |payload| && payload[l].id == id {
      var l :| j < l < |payload| && payload[l].id == id;
      last := LastOccurrence(payload, id, l);
    } else {
      last := j;
    }
  }

  /** The reducer. The action type is closed, so the source's fallback for
      other action types has no counterpart. */
  function ReduceAchievements(st: AchievementState, a: AchievementAction): (r: AchievementState)
    ensures SameEntries(st.achievements, r.achievements)
    ensures DistinctIds(st.achievements) ==> DistinctIds(r.achievements)
    ensures a.Unlock? ==> forall i :: 0 <= i < |r.achievements| && st.achievements[i].achieved ==>
      r.achievements[i].achieved
  {
    match a
    case Unlock(id) => AchievementState(UnlockAll(st.achievements, id))
    case LoadSaved(payload) => AchievementState(Hydrate(st.achievements, payload))
  }

  /** Unlocking the same id twice is unlocking it once. */
  lemma UnlockIdempotent(st: AchievementState, id: string)
    ensures ReduceAchievements(ReduceAchievements(st, Unlock(id)), Unlock(id)) == ReduceAchievements(st, Unlock(id))
  {
    var once := UnlockAll(st.achievements, id);
    var twice := UnlockAll(once, id);
    assert forall i :: 0 <= i < |once| ==> twice[i] == once[i];
  }

  /** Unlocks of two ids give the same list in either order. */
  lemma UnlockCommutes(xs: seq<Achievement>, a: string, b: string)
    ensures UnlockAll(UnlockAll(xs, a), b) == UnlockAll(UnlockAll(xs, b), a)
  {
    var l, r := UnlockAll(UnlockAll(xs, a), b), UnlockAll(UnlockAll(xs, b), a);
    assert forall i :: 0 <= i < |l| ==> l[i] == r[i];
  }

  /** With pairwise different ids, each saved entry's id maps to its own
      flag. */
  lemma SavedFlagsDistinct(payload: seq<SavedAchievement>)
    ensures (forall i, j :: 0 <= i < j < |payload| ==> payload[i].id != payload[j].id) ==>
      forall i :: 0 <= i < |payload| ==>
        payload[i].id in SavedFlags(payload) && SavedFlags(payload)[payload[i].id] == payload[i].achieved
  {
    if forall i, j :: 0 <= i < j < |payload| ==> payload[i].id != payload[j].id {
      forall i | 0 <= i < |payload|
        ensures payload[i].id in SavedFlags(payload) && SavedFlags(payload)[payload[i].id] == payload[i].achieved
      {
        SavedFlagsLastWins(payload, i);
      }
    }
  }

  /** The (id, achieved) pairs the list is stored as, one per entry in list
      order; when the ids are distinct, the map read back from them gives
      every entry's id its own flag. */
  function Saved(xs: seq<Achievement>): (r: seq<SavedAchievement>)
    ensures |r| == |xs|
    ensures forall i :: 0 <= i < |xs| ==> r[i] == SavedAchievement(xs[i].id, xs[i].achieved)
    ensures DistinctIds(xs) ==> forall i :: 0 <= i < |xs| ==>
      xs[i].id in SavedFlags(r) && SavedFlags(r)[xs[i].id] == xs[i].achieved
  {
    var r := seq(|xs|, i requires 0 <= i < |xs| => SavedAchievement(xs[i].id, xs[i].achieved));
    SavedFlagsDistinct(r);
    r
  }

  /** Reloading a list saved from the state itself restores that state. */
  lemma SaveThenLoadRestores(st: AchievementState, xs: seq<Achievement>)
    requires DistinctIds(xs)
    requires SameEntries(st.achievements, xs)
    ensures ReduceAchievements(st, LoadSaved(Saved(xs))).achievements == xs
  {
    var r := Hydrate(st.achievements, Saved(xs));
    var p := Saved(xs);
    forall i | 0 <= i < |xs|
      ensures r[i] == xs[i]
    {
      SavedFlagsLastWins(p, i);
    }
  }
}

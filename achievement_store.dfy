/** The achievement store: the reducer hook that starts from the static list
    and applies each dispatched achievement action in order. */
module AchievementStore {
  import opened Achievements

  /** The state after dispatching `actions` in order, starting from `st`. */
  function ApplyAllAchievements(st: AchievementState, actions: seq<AchievementAction>): AchievementState
  {
    if actions == [] then st
    else ReduceAchievements(ApplyAllAchievements(st, actions[..|actions| - 1]), actions[|actions| - 1])
  }

  lemma ApplyAllAchievementsAppend(st: AchievementState, actions: seq<AchievementAction>, a: AchievementAction)
    ensures ApplyAllAchievements(st, actions + [a]) == ReduceAchievements(ApplyAllAchievements(st, actions), a)
  {
    assert (actions + [a])[..|actions|] == actions;
  }

  lemma {:induction false} ApplyAllAchievementsConcat(st: AchievementState, xs: seq<AchievementAction>, ys: seq<AchievementAction>)
    ensures ApplyAllAchievements(st, xs + ys) == ApplyAllAchievements(ApplyAllAchievements(st, xs), ys)
    decreases |ys|
  {
    if ys == [] {
      assert xs + ys == xs;
    } else {
      var init, last := ys[..|ys| - 1], ys[|ys| - 1];
      assert (xs + ys)[..|xs + ys| - 1] == xs + init;
      assert (xs + ys)[|xs + ys| - 1] == last;
      ApplyAllAchievementsConcat(st, xs, init);
    }
  }

  /** Whatever is dispatched, the list keeps the static entries in their
      order, with their texts, conditions and distinct ids. */
  lemma {:induction false} ApplyAllKeepsEntries(st: AchievementState, actions: seq<AchievementAction>)
    requires DistinctIds(st.achievements)
    ensures SameEntries(st.achievements, ApplyAllAchievements(st, actions).achievements)
    ensures DistinctIds(ApplyAllAchievements(st, actions).achievements)
  {
    if actions != [] {
      ApplyAllKeepsEntries(st, actions[..|actions| - 1]);
    }
  }

  class Store {
    var state: AchievementState
    /** Every action dispatched since the store was created; ghost
        bookkeeping that lets callers state dispatch order. */
    ghost var dispatched: seq<AchievementAction>

    ghost predicate Valid()
      reads this
    {
      state == ApplyAllAchievements(InitialAchievementState, dispatched)
    }

    constructor ()
      ensures Valid() && state == InitialAchievementState && dispatched == []
    {
      state := InitialAchievementState;
      dispatched := [];
    }

    method Dispatch(a: AchievementAction)
      requires Valid()
      modifies this
      ensures Valid()
      ensures dispatched == old(dispatched) + [a]
      ensures state == ReduceAchievements(old(state), a)
    {
      ApplyAllAchievementsAppend(InitialAchievementState, dispatched, a);
      state := ReduceAchievements(state, a);
      dispatched := dispatched + [a];
    }
  }
}

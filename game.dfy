/** The game screen's unlock scan: on every change of the game state or the
    achievements, each achievement not yet achieved whose condition now holds
    is unlocked and announced with a toast. */
module Game {
  import opened GameReducer
  import opened Achievements
  import opened AchievementStore

  /** The notice shown for an unlocked achievement. */
  datatype Toast = Toast(id: string, title: string, desc: string)

  function ToastOf(a: Achievement): Toast
  {
    Toast(a.id, a.title, a.description)
  }

  /** The entries the scan unlocks, in list order: those not achieved whose
      condition holds on the game state (see NewlyUnlockedExactly). */
  ghost function NewlyUnlocked(xs: seq<Achievement>, s: GameState): (r: seq<Achievement>)
    ensures |r| <= |xs|
  {
    if xs == [] then []
    else NewlyUnlocked(xs[..|xs| - 1], s) + Eligible(xs[|xs| - 1], s)
  }

  /** The entry itself when the scan unlocks it, else nothing. */
  ghost function Eligible(a: Achievement, s: GameState): seq<Achievement>
  {
    if !a.achieved && Holds(a.condition, s) then [a] else []
  }

  /** The scan unlocks an entry exactly when it is not achieved and its
      condition holds: nothing else is unlocked and nothing eligible missed. */
  lemma {:induction false} NewlyUnlockedExactly(xs: seq<Achievement>, s: GameState)
    ensures forall a :: a in NewlyUnlocked(xs, s) ==> a in xs && !a.achieved && Holds(a.condition, s)
    ensures forall i :: 0 <= i < |xs| && !xs[i].achieved && Holds(xs[i].condition, s) ==> xs[i] in NewlyUnlocked(xs, s)
  {
    if xs != [] {
      var init := xs[..|xs| - 1];
      NewlyUnlockedExactly(init, s);
      assert forall i :: 0 <= i < |init| ==> init[i] == xs[i];
      assert xs == init + [xs[|xs| - 1]];
    }
  }

  /** One more entry scanned adds its unlock, if any, at the end. */
  lemma NewlyUnlockedStep(xs: seq<Achievement>, s: GameState, i: int)
    requires 0 <= i < |xs|
    ensures NewlyUnlocked(xs[..i + 1], s) == NewlyUnlocked(xs[..i], s) + Eligible(xs[i], s)
  {
    assert xs[..i + 1][..i] == xs[..i];
  }

  /** The UNLOCK actions dispatched for some entries, one per entry. */
  function Unlocks(xs: seq<Achievement>): (r: seq<AchievementAction>)
    ensures |r| == |xs|
  {
    if xs == [] then [] else Unlocks(xs[..|xs| - 1]) + [Unlock(xs[|xs| - 1].id)]
  }

  /** The toasts appended for some entries, one per entry. */
  function Toasts(xs: seq<Achievement>): (r: seq<Toast>)
    ensures |r| == |xs|
  {
    if xs == [] then [] else Toasts(xs[..|xs| - 1]) + [ToastOf(xs[|xs| - 1])]
  }

  /** Each unlock comes with one toast for the same achievement, in the same
      position. */
  lemma {:induction false} ToastPerUnlock(xs: seq<Achievement>)
    ensures forall i :: 0 <= i < |xs| ==>
      Unlocks(xs)[i] == Unlock(xs[i].id) && Toasts(xs)[i] == ToastOf(xs[i])
  {
    if xs != [] {
      var init := xs[..|xs| - 1];
      ToastPerUnlock(init);
      assert forall i :: 0 <= i < |init| ==> init[i] == xs[i];
    }
  }

  /** The screen's list of toasts, which the scan appends to. */
  class View {
    var toasts: seq<Toast>

    constructor ()
      ensures toasts == []
    {
      toasts := [];
    }
  }

  /** One more unlocked entry adds one UNLOCK and one toast at the end. */
  lemma UnlockAppended(before: seq<Achievement>, a: Achievement)
    ensures Unlocks(before + [a]) == Unlocks(before) + [Unlock(a.id)]
    ensures Toasts(before + [a]) == Toasts(before) + [ToastOf(a)]
  {
    assert (before + [a])[..|before|] == before;
  }

  /** The body of the scan for one entry: when it is not achieved and its
      condition holds, dispatch its UNLOCK and append its toast. `before` is
      what the scan has unlocked so far from `d0` and `t0`. */
  method VisitAchievement(s: GameState, store: AchievementStore.Store, view: View, ach: Achievement,
                          ghost before: seq<Achievement>, ghost d0: seq<AchievementAction>, ghost t0: seq<Toast>)
    requires store.Valid()
    requires store.dispatched == d0 + Unlocks(before)
    requires view.toasts == t0 + Toasts(before)
    modifies store, view
    ensures store.Valid()
    ensures store.dispatched == d0 + Unlocks(before + Eligible(ach, s))
    ensures view.toasts == t0 + Toasts(before + Eligible(ach, s))
  {
    if !ach.achieved {
      var met := CheckCondition(ach.condition, s);
      if met {
        assert Eligible(ach, s) == [ach];
        UnlockAppended(before, ach);
        store.Dispatch(Unlock(ach.id));
        view.toasts := view.toasts + [ToastOf(ach)];
        return;
      }
    }
    assert Eligible(ach, s) == [] && before + [] == before;
  }

  /** The scan over the achievements as they were when it started. */
  method EvaluateAchievements(s: GameState, store: AchievementStore.Store, view: View)
    requires store.Valid()
    modifies store, view
    ensures store.Valid()
    ensures store.dispatched == old(store.dispatched) + Unlocks(NewlyUnlocked(old(store.state.achievements), s))
    ensures store.state == ApplyAllAchievements(old(store.state), Unlocks(NewlyUnlocked(old(store.state.achievements), s)))
    ensures view.toasts == old(view.toasts) + Toasts(NewlyUnlocked(old(store.state.achievements), s))
  {
    var snapshot := store.state.achievements;
    ghost var d0, t0 := store.dispatched, view.toasts;
    for i := 0 to |snapshot|
      invariant store.Valid()
      invariant store.dispatched == d0 + Unlocks(NewlyUnlocked(snapshot[..i], s))
      invariant view.toasts == t0 + Toasts(NewlyUnlocked(snapshot[..i], s))
    {
      NewlyUnlockedStep(snapshot, s, i);
      VisitAchievement(s, store, view, snapshot[i], NewlyUnlocked(snapshot[..i], s), d0, t0);
    }
    assert snapshot[..|snapshot|] == snapshot;
    ApplyAllAchievementsConcat(InitialAchievementState, d0, Unlocks(NewlyUnlocked(snapshot, s)));
  }

  /** `r` is `xs` after the scan's unlocks for its first `k` entries: an
      entry is achieved exactly when it was already or it is among them and
      its condition holds. */
  ghost predicate ScannedUpTo(xs: seq<Achievement>, r: seq<Achievement>, s: GameState, k: int)
  {
    SameEntries(xs, r) &&
    forall j :: 0 <= j < |xs| ==> r[j].achieved == (xs[j].achieved || (j < k && Holds(xs[j].condition, s)))
  }

  /** Unlocking the `k`-th entry's id, with ids distinct, touches that entry only. */
  lemma UnlockNext(xs: seq<Achievement>, r: seq<Achievement>, s: GameState, k: int)
    requires DistinctIds(xs) && 0 <= k < |xs|
    requires ScannedUpTo(xs, r, s, k)
    requires !xs[k].achieved && Holds(xs[k].condition, s)
    ensures ScannedUpTo(xs, UnlockAll(r, xs[k].id), s, k + 1)
  {
    var next := UnlockAll(r, xs[k].id);
    forall j | 0 <= j < |xs|
      ensures next[j].achieved == (xs[j].achieved || (j < k + 1 && Holds(xs[j].condition, s)))
    {
      assert j != k ==> xs[j].id != xs[k].id;
    }
  }

  /** An entry the scan skips leaves the list as it is. */
  lemma SkipNext(xs: seq<Achievement>, r: seq<Achievement>, s: GameState, k: int)
    requires 0 <= k < |xs|
    requires ScannedUpTo(xs, r, s, k)
    requires !(!xs[k].achieved && Holds(xs[k].condition, s))
    ensures ScannedUpTo(xs, r, s, k + 1)
  {
  }

  /** The unlocks of the scan over the first `k` entries. */
  lemma {:induction false} ScanPrefixEffect(xs: seq<Achievement>, s: GameState, k: nat)
    requires DistinctIds(xs) && k <= |xs|
    ensures ScannedUpTo(xs, ApplyAllAchievements(AchievementState(xs), Unlocks(NewlyUnlocked(xs[..k], s))).achievements, s, k)
  {
    var st := AchievementState(xs);
    if k == 0 {
      assert xs[..0] == [];
    } else {
      ScanPrefixEffect(xs, s, k - 1);
      NewlyUnlockedStep(xs, s, k - 1);
      var before := NewlyUnlocked(xs[..k - 1], s);
      var prev := ApplyAllAchievements(st, Unlocks(before)).achievements;
      var last := xs[k - 1];
      if !last.achieved && Holds(last.condition, s) {
        assert NewlyUnlocked(xs[..k], s) == before + [last];
        UnlockAppended(before, last);
        ApplyAllAchievementsAppend(st, Unlocks(before), Unlock(last.id));
        UnlockNext(xs, prev, s, k - 1);
      } else {
        assert NewlyUnlocked(xs[..k], s) == before + [] == before;
        SkipNext(xs, prev, s, k - 1);
      }
    }
  }

  /** The scan's net effect on a list with distinct ids: each entry ends up
      achieved exactly when it was already achieved or its condition holds,
      so no flag is cleared. */
  lemma ScanEffect(xs: seq<Achievement>, s: GameState)
    requires DistinctIds(xs)
    ensures var r := ApplyAllAchievements(AchievementState(xs), Unlocks(NewlyUnlocked(xs, s))).achievements;
      SameEntries(xs, r) &&
      forall j :: 0 <= j < |xs| ==> r[j].achieved == (xs[j].achieved || Holds(xs[j].condition, s))
  {
    ScanPrefixEffect(xs, s, |xs|);
    assert xs[..|xs|] == xs;
  }

  /** A list where every entry is achieved or its condition fails is left
      alone by the scan. */
  lemma {:induction false} NothingToUnlock(xs: seq<Achievement>, s: GameState)
    requires forall j :: 0 <= j < |xs| ==> xs[j].achieved || !Holds(xs[j].condition, s)
    ensures NewlyUnlocked(xs, s) == []
  {
    if xs != [] {
      NothingToUnlock(xs[..|xs| - 1], s);
    }
  }

  /** Rerunning the scan on the same game state, as the effect does once the
      unlocks have changed the achievements, dispatches nothing more. */
  lemma ScanSettles(xs: seq<Achievement>, s: GameState)
    requires DistinctIds(xs)
    ensures NewlyUnlocked(ApplyAllAchievements(AchievementState(xs), Unlocks(NewlyUnlocked(xs, s))).achievements, s) == []
  {
    ScanEffect(xs, s);
    NothingToUnlock(ApplyAllAchievements(AchievementState(xs), Unlocks(NewlyUnlocked(xs, s))).achievements, s);
  }
}

/** The game store: the reducer hook that holds the current state and applies
    each dispatched action to it, in dispatch order. */
module GameStore {
  import opened GameReducer

  class Store {
    var state: GameState
    /** The state the store was created with, and every action dispatched
        since; ghost bookkeeping that lets callers state dispatch order. */
    ghost var start: GameState
    ghost var dispatched: seq<Action>

    ghost predicate Valid()
      reads this
    {
      state == ApplyAll(start, dispatched)
    }

    constructor (initial: GameState)
      ensures Valid() && state == initial && dispatched == []
    {
      state := initial;
      start := initial;
      dispatched := [];
    }

    method Dispatch(a: Action)
      requires Valid()
      modifies this
      ensures Valid() && start == old(start)
      ensures dispatched == old(dispatched) + [a]
      ensures state == Reduce(old(state), a)
    {
      ApplyAllAppend(start, dispatched, a);
      state := Reduce(state, a);
      dispatched := dispatched + [a];
    }
  }
}

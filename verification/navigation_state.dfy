/**
 The per-tab back-stack store: one ordered stack of routes per top-level key, the
 fixed start tab and the currently selected tab.
 */
module NavigationStates {
  import opened Routes

  /** `startRoute` and the key set of `backStacks` never change after construction;
      only `topLevelRoute` and the contents of the stacks do. */
  datatype NavigationState = NavigationState(
    startRoute: Route,
    topLevelRoute: Route,
    backStacks: map<Route, seq<Route>>)
  {
    /** The stacks shown on screen: only the current tab's, never a mix of tabs. */
    function StacksInUse(): seq<Route> {
      [topLevelRoute]
    }
  }

  /** Creating the store: the current tab starts at `startRoute` and every
      top-level route gets its own stack holding just itself. */
  function RememberNavigationState(startRoute: Route, topLevelRoutes: set<Route>): (s: NavigationState)
    ensures s.startRoute == startRoute && s.topLevelRoute == startRoute
    ensures s.backStacks.Keys == topLevelRoutes
    ensures forall k :: k in topLevelRoutes ==> s.backStacks[k] == [k]
  {
    NavigationState(startRoute, startRoute, map k | k in topLevelRoutes :: [k])
  }

  /** The stacks named by `keys`, concatenated in order; a key without a stack
      contributes nothing (`flatMap { decorated[it] ?: emptyList() }`). */
  function EntriesOf(keys: seq<Route>, stacks: map<Route, seq<Route>>): seq<Route> {
    if |keys| == 0 then []
    else (if keys[0] in stacks then stacks[keys[0]] else []) + EntriesOf(keys[1..], stacks)
  }

  /** The entries handed to the display. */
  function ToEntries(s: NavigationState): seq<Route> {
    EntriesOf(s.StacksInUse(), s.backStacks)
  }

  /** The display receives exactly the current tab's stack, in stack order. */
  lemma ToEntriesIsCurrentStack(s: NavigationState)
    ensures s.topLevelRoute in s.backStacks ==> ToEntries(s) == s.backStacks[s.topLevelRoute]
    ensures s.topLevelRoute !in s.backStacks ==> ToEntries(s) == []
  {
    var keys := s.StacksInUse();
    assert keys[0] == s.topLevelRoute && keys[1..] == [];
    assert EntriesOf(keys[1..], s.backStacks) == [];
  }

  /** A stack rooted at `key`: non-empty, `key` at index 0, and no key of the store
      anywhere above it (every later entry was pushed as a destination, not a tab). */
  predicate RootedAt(key: Route, st: seq<Route>, keys: set<Route>) {
    && |st| >= 1
    && st[0] == key
    && forall i :: 1 <= i < |st| ==> st[i] !in keys
  }

  /** Every key is a tab root and owns a stack rooted at itself. */
  predicate StacksWellFormed(stacks: map<Route, seq<Route>>) {
    forall k :: k in stacks ==> IsTabRoot(k) && RootedAt(k, stacks[k], stacks.Keys)
  }

  /** The structural invariant of the store. */
  predicate Valid(s: NavigationState) {
    && StacksWellFormed(s.backStacks)
    && s.startRoute in s.backStacks
    && s.topLevelRoute in s.backStacks
  }

  /** A freshly created store is valid whenever its start route is one of its tabs. */
  lemma RememberIsValid(startRoute: Route, topLevelRoutes: set<Route>)
    requires startRoute in topLevelRoutes
    requires forall k :: k in topLevelRoutes ==> IsTabRoot(k)
    ensures Valid(RememberNavigationState(startRoute, topLevelRoutes))
    ensures ToEntries(RememberNavigationState(startRoute, topLevelRoutes)) == [startRoute]
  {
    ToEntriesIsCurrentStack(RememberNavigationState(startRoute, topLevelRoutes));
  }
}

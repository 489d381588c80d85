/**
 The store's structural invariant — every stack non-empty with its own tab at index 0
 and no key above it — holds after every operation, and under it no operation fails.
 */
module Invariants {
  import opened Wrappers
  import opened Routes
  import opened RouteLists
  import opened NavigationStates
  import opened Navigation

  /** Replacing one well-formed stack keeps the whole store well-formed. */
  lemma ReplaceStack(stacks: map<Route, seq<Route>>, tab: Route, st: seq<Route>)
    requires StacksWellFormed(stacks) && tab in stacks
    requires RootedAt(tab, st, stacks.Keys)
    ensures StacksWellFormed(stacks[tab := st])
  {
    assert stacks[tab := st].Keys == stacks.Keys;
  }

  /** Pushing a non-key keeps a stack rooted. */
  lemma PushKeepsRooted(tab: Route, st: seq<Route>, route: Route, keys: set<Route>)
    requires RootedAt(tab, st, keys) && route !in keys
    ensures RootedAt(tab, st + [route], keys)
  {
  }

  /** Removing person entries keeps a stack rooted: the root is a tab, not a person,
      and what survives above it came from above it. */
  lemma {:induction false} RemovePersonsKeepsRooted(tab: Route, st: seq<Route>, keys: set<Route>)
    requires RootedAt(tab, st, keys) && IsTabRoot(tab)
    ensures RootedAt(tab, RemoveAll(st, IsPerson), keys)
  {
    assert st == [st[0]] + st[1..];
    RemoveAllDistributes([st[0]], st[1..], IsPerson);
    assert RemoveAll([st[0]], IsPerson) == [st[0]] by {
      assert [st[0]][1..] == [];
    }
    var tail := RemoveAll(st[1..], IsPerson);
    RemoveAllIsSubsequence(st[1..], IsPerson);
    var f := KeptIndices(st[1..], IsPerson);
    var r := RemoveAll(st, IsPerson);
    assert r == [st[0]] + tail;
    forall i | 1 <= i < |r|
      ensures r[i] !in keys
    {
      assert r[i] == tail[i - 1] == st[1..][f[i - 1]];
    }
  }

  /** `navigate` keeps the store valid and, on a valid store, never fails. */
  lemma NavigatePreservesValid(n: Navigator, route: Route, fromExtraPane: bool)
    requires Valid(n.state)
    ensures Navigate(n, route, fromExtraPane).Success?
    ensures Valid(Navigate(n, route, fromExtraPane).value.state)
  {
    var tab := n.state.topLevelRoute;
    var stacks := n.state.backStacks;
    var st := stacks[tab];
    var keys := stacks.Keys;
    if route in stacks {
    } else if IsPerson(route) || !IsPrimaryDetail(route) || (fromExtraPane && !CrossReference(n, fromExtraPane)) {
      PushKeepsRooted(tab, st, route, keys);
      ReplaceStack(stacks, tab, st + [route]);
    } else if CrossReference(n, fromExtraPane) {
      var rebuilt := Rebuild(st, route);
      match FindLast(st, IsPerson)
      case Some(p) =>
        assert rebuilt == [st[0], route, p];
        assert p !in keys by {
          RouteKindsPartition(p);
        }
        ReplaceStack(stacks, tab, rebuilt);
      case None =>
        assert rebuilt == [st[0], route];
        ReplaceStack(stacks, tab, rebuilt);
    } else {
      RemovePersonsKeepsRooted(tab, st, keys);
      var cleared := RemoveAll(st, IsPerson);
      PushKeepsRooted(tab, cleared, route, keys);
      ReplaceStack(stacks, tab, cleared + [route]);
      assert stacks[tab := cleared][tab := cleared + [route]] == stacks[tab := cleared + [route]];
    }
  }

  /** `goBack` keeps the store valid and, on a valid store, never fails. */
  lemma GoBackPreservesValid(n: Navigator)
    requires Valid(n.state)
    ensures GoBack(n).Success?
    ensures Valid(GoBack(n).value.nav.state)
  {
    var tab := n.state.topLevelRoute;
    var st := n.ActiveStack();
    if |st| > 1 {
      ReplaceStack(n.state.backStacks, tab, st[..|st| - 1]);
    }
  }

  /** `navigateToRoot` keeps the store valid and, on a valid store, never fails. */
  lemma NavigateToRootPreservesValid(n: Navigator)
    requires Valid(n.state)
    ensures NavigateToRoot(n).Success?
    ensures Valid(NavigateToRoot(n).value.nav.state)
  {
    var tab := n.state.topLevelRoute;
    var st := n.ActiveStack();
    if |st| > 1 {
      ReplaceStack(n.state.backStacks, tab, [st[0]]);
    }
  }

  /** The external events that drive the navigator. */
  datatype Action =
    | Go(route: Route, fromExtraPane: bool)   // a screen calls `navigate`
    | Back                                    // the platform back signal, or a back button
    | CloseDetails                            // a close button calls `navigateToRoot`
    | LayoutChanged(threePaneActive: bool)    // the window size changed

  function Step(n: Navigator, a: Action): Result<Navigator, NavError> {
    match a
    case Go(route, fromExtraPane) => Navigate(n, route, fromExtraPane)
    case Back =>
      (match GoBack(n) case Success(t) => Success(t.nav) case Failure(e) => Failure(e))
    case CloseDetails =>
      (match NavigateToRoot(n) case Success(t) => Success(t.nav) case Failure(e) => Failure(e))
    case LayoutChanged(active) => Success(SetThreePaneActive(n, active))
  }

  /** Runs the actions in order, stopping at the first failure. */
  function Run(n: Navigator, actions: seq<Action>): Result<Navigator, NavError>
    decreases |actions|
  {
    if |actions| == 0 then Success(n)
    else
      match Step(n, actions[0])
      case Failure(e) => Failure(e)
      case Success(n') => Run(n', actions[1..])
  }

  /** For every sequence of events from a valid store: nothing fails, the store stays
      valid, and the start tab and the key set stay what they were. */
  lemma {:induction false} RunPreservesValid(n: Navigator, actions: seq<Action>)
    requires Valid(n.state)
    ensures Run(n, actions).Success?
    ensures Valid(Run(n, actions).value.state)
    ensures Run(n, actions).value.state.startRoute == n.state.startRoute
    ensures Run(n, actions).value.state.backStacks.Keys == n.state.backStacks.Keys
    decreases |actions|
  {
    if |actions| > 0 {
      match actions[0] {
        case Go(route, fromExtraPane) => NavigatePreservesValid(n, route, fromExtraPane);
        case Back => GoBackPreservesValid(n);
        case CloseDetails => NavigateToRootPreservesValid(n);
        case LayoutChanged(active) =>
      }
      var n' := Step(n, actions[0]).value;
      RunPreservesValid(n', actions[1..]);
    }
  }

  /** With all five tabs as keys, a valid store holds only details above each root. */
  lemma AllTabsStoreHoldsDetails(s: NavigationState)
    requires Valid(s) && s.backStacks.Keys == TabRoots
    ensures forall k, i :: k in s.backStacks && 1 <= i < |s.backStacks[k]| ==> IsDetail(s.backStacks[k][i])
  {
    forall k, i | k in s.backStacks && 1 <= i < |s.backStacks[k]|
      ensures IsDetail(s.backStacks[k][i])
    {
      RouteKindsPartition(s.backStacks[k][i]);
    }
  }

  /** The app's navigator — start tab Home, one stack per tab — never reaches a fatal
      condition and keeps every stack rooted at its own tab with only details above
      it, whatever the user does. */
  lemma AppNavigationIsSafe(enableThreePaneLayout: bool, actions: seq<Action>)
    ensures var n := NewNavigator(RememberNavigationState(Home, TabRoots), enableThreePaneLayout);
      && Run(n, actions).Success?
      && Valid(Run(n, actions).value.state)
      && Run(n, actions).value.state.backStacks.Keys == TabRoots
      && var stacks := Run(n, actions).value.state.backStacks;
      && forall k, i :: k in stacks && 1 <= i < |stacks[k]| ==> IsDetail(stacks[k][i])
  {
    RememberIsValid(Home, TabRoots);
    var n := NewNavigator(RememberNavigationState(Home, TabRoots), enableThreePaneLayout);
    RunPreservesValid(n, actions);
    AllTabsStoreHoldsDetails(Run(n, actions).value.state);
  }
}

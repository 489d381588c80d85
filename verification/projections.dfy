/**
 The two projections agree with the current stack — the detail pane shows the last
 movie or show, the contextual pane the last person — across every `navigate` to a
 route that is not a store key, and going back undoes an append exactly. Navigating to
 a key, even the current tab's own, clears the projections and can break the agreement.
 */
module Projections {
  import opened Wrappers
  import opened Routes
  import opened RouteLists
  import opened NavigationStates
  import opened Navigation
  import opened Invariants

  /** The projections are what the current stack's last entries of each family say. */
  predicate ProjectionsSynced(n: Navigator) {
    && n.HasActiveStack()
    && n.currentDetailId == LastDetailId(n.ActiveStack())
    && n.currentPersonId == LastPersonId(n.ActiveStack())
  }

  /** Appending moves the matching projection to the new entry and leaves the other alone. */
  lemma LastIdsAppend(st: seq<Route>, x: Route)
    ensures IsPerson(x) ==> LastPersonId(st + [x]) == Some(ContentId(x)) && LastDetailId(st + [x]) == LastDetailId(st)
    ensures IsPrimaryDetail(x) ==> LastDetailId(st + [x]) == Some(ContentId(x)) && LastPersonId(st + [x]) == LastPersonId(st)
    ensures !IsDetail(x) ==> LastDetailId(st + [x]) == LastDetailId(st) && LastPersonId(st + [x]) == LastPersonId(st)
  {
    FindLastAppend(st, x, IsPerson);
    FindLastAppend(st, x, IsPrimaryDetail);
  }

  /** A stack holding only its tab root shows nothing in either pane. */
  lemma RootShowsNothing(tab: Route)
    requires IsTabRoot(tab)
    ensures LastDetailId([tab]) == None && LastPersonId([tab]) == None
  {
    LastIdsAppend([], tab);
  }

  /** A new navigator starts in step: its start tab's stack is the root alone and
      nothing is shown. */
  lemma NewNavigatorSynced(startRoute: Route, topLevelRoutes: set<Route>, enableThreePaneLayout: bool)
    requires startRoute in topLevelRoutes && IsTabRoot(startRoute)
    ensures ProjectionsSynced(NewNavigator(RememberNavigationState(startRoute, topLevelRoutes), enableThreePaneLayout))
  {
    RootShowsNothing(startRoute);
  }

  /** Every `navigate` to a route that is not a store key keeps the projections in step
      with the stack. */
  lemma NavigateToNonKeyKeepsSynced(n: Navigator, route: Route, fromExtraPane: bool)
    requires Valid(n.state) && ProjectionsSynced(n)
    requires route !in n.state.backStacks
    ensures Navigate(n, route, fromExtraPane).Success?
    ensures ProjectionsSynced(Navigate(n, route, fromExtraPane).value)
  {
    NavigatePreservesValid(n, route, fromExtraPane);
    var st := n.ActiveStack();
    var n' := Navigate(n, route, fromExtraPane).value;
    if IsPerson(route) || !IsPrimaryDetail(route) || (fromExtraPane && !CrossReference(n, fromExtraPane)) {
      LastIdsAppend(st, route);
    } else if CrossReference(n, fromExtraPane) {
      RouteKindsPartition(st[0]);
      RootShowsNothing(st[0]);
      LastIdsAppend([st[0]], route);
      assert [st[0]] + [route] == [st[0], route];
      match FindLast(st, IsPerson)
      case Some(p) =>
        assert n'.ActiveStack() == [st[0], route] + [p];
        LastIdsAppend([st[0], route], p);
      case None =>
        assert n'.ActiveStack() == [st[0], route];
    } else {
      var cleared := RemoveAll(st, IsPerson);
      assert n'.ActiveStack() == cleared + [route];
      LastIdsAppend(cleared, route);
    }
  }

  /** Popping one entry keeps the projections in step with the shorter stack. */
  lemma GoBackPopKeepsSynced(n: Navigator)
    requires Valid(n.state) && ProjectionsSynced(n)
    requires |n.ActiveStack()| > 1
    ensures GoBack(n).Success?
    ensures ProjectionsSynced(GoBack(n).value.nav)
  {
    var st := n.ActiveStack();
    var k := |st| - 1;
    assert st == st[..k] + [st[k]];
    LastIdsAppend(st[..k], st[k]);
    if IsPrimaryDetail(st[k]) && IsPerson(st[k - 1]) {
      assert st[..k] == st[..k - 1] + [st[k - 1]];
      LastIdsAppend(st[..k - 1], st[k - 1]);
    }
  }

  /** Closing all details leaves a root-only stack and both projections empty, in step. */
  lemma NavigateToRootSynced(n: Navigator)
    requires Valid(n.state) && |n.ActiveStack()| > 1
    ensures NavigateToRoot(n).Success?
    ensures ProjectionsSynced(NavigateToRoot(n).value.nav)
  {
    RootShowsNothing(n.ActiveStack()[0]);
  }

  /** Going back right after opening a person restores the navigator exactly. */
  lemma GoBackUndoesPersonNavigation(n: Navigator, route: Route, fromExtraPane: bool)
    requires Valid(n.state) && ProjectionsSynced(n) && IsPerson(route)
    ensures Navigate(n, route, fromExtraPane).Success?
    ensures GoBack(Navigate(n, route, fromExtraPane).value) == Success(Transition(n, true))
  {
    RouteKindsPartition(route);
    var st := n.ActiveStack();
    var n1 := Navigate(n, route, fromExtraPane).value;
    var st1 := n1.ActiveStack();
    assert st1 == st + [route] && st1[..|st1| - 1] == st;
    assert n1.state.backStacks[n.state.topLevelRoute := st] == n.state.backStacks;
    assert WithStacks(n1, n1.state.backStacks[n.state.topLevelRoute := st]) == n.(currentPersonId := n1.currentPersonId);
  }

  /** Going back right after a linear append from the contextual pane restores the
      navigator exactly, contextual pane included. */
  lemma GoBackUndoesLinearAppend(n: Navigator, route: Route)
    requires Valid(n.state) && ProjectionsSynced(n) && IsPrimaryDetail(route)
    requires !CrossReference(n, true)
    ensures Navigate(n, route, true).Success?
    ensures GoBack(Navigate(n, route, true).value) == Success(Transition(n, true))
  {
    RouteKindsPartition(route);
    var st := n.ActiveStack();
    var k := |st| - 1;
    var n1 := Navigate(n, route, true).value;
    var st1 := n1.ActiveStack();
    assert st1 == st + [route] && st1[..|st1| - 1] == st;
    assert n1.state.backStacks[n.state.topLevelRoute := st] == n.state.backStacks;
    assert WithStacks(n1, n1.state.backStacks[n.state.topLevelRoute := st]) == n.(currentDetailId := n1.currentDetailId);
    if IsPerson(st[k]) {
      assert st == st[..k] + [st[k]];
      LastIdsAppend(st[..k], st[k]);
    }
  }

  /** Going back right after an ordinary detail navigation restores the navigator
      exactly when no person was open (otherwise the closed person stays closed). */
  lemma GoBackUndoesRegularNavigation(n: Navigator, route: Route)
    requires Valid(n.state) && ProjectionsSynced(n) && IsPrimaryDetail(route)
    requires forall i :: 0 <= i < |n.ActiveStack()| ==> !IsPerson(n.ActiveStack()[i])
    ensures Navigate(n, route, false).Success?
    ensures GoBack(Navigate(n, route, false).value) == Success(Transition(n, true))
  {
    RouteKindsPartition(route);
    var st := n.ActiveStack();
    RemoveAllNothingToRemove(st, IsPerson);
    var n1 := Navigate(n, route, false).value;
    var st1 := n1.ActiveStack();
    assert st1 == st + [route] && st1[..|st1| - 1] == st;
    assert n1.state.backStacks[n.state.topLevelRoute := st] == n.state.backStacks;
    assert WithStacks(n1, n1.state.backStacks[n.state.topLevelRoute := st])
        == n.(currentDetailId := n1.currentDetailId, currentPersonId := None);
    assert LastPersonId(st) == None;
  }
}

/**
 What each rule of `navigate` does to the current stack and the two projections,
 stated against independent characterisations of the list operations involved.
 */
module NavigateCases {
  import opened Wrappers
  import opened Routes
  import opened RouteLists
  import opened NavigationStates
  import opened Navigation

  /** Rule 1: a store key switches tab and resets everything else it owns; no stack moves. */
  lemma TabSwitchResets(n: Navigator, route: Route, fromExtraPane: bool)
    requires route in n.state.backStacks
    ensures Navigate(n, route, fromExtraPane).Success?
    ensures var n' := Navigate(n, route, fromExtraPane).value;
      && n'.state.topLevelRoute == route
      && n'.state.backStacks == n.state.backStacks
      && n'.currentDetailId.None? && n'.currentPersonId.None?
      && n'.detailHistory == []
  {
  }

  /** Rule 2: a person appends exactly itself and becomes the contextual pane's occupant. */
  lemma PersonNavigationAppends(n: Navigator, route: Route, fromExtraPane: bool)
    requires route !in n.state.backStacks && IsPerson(route)
    ensures Navigate(n, route, fromExtraPane).Success?
    ensures var n' := Navigate(n, route, fromExtraPane).value;
      && n'.state.backStacks.Keys == n.state.backStacks.Keys
      && (n.HasActiveStack() ==> n'.ActiveStack() == n.ActiveStack() + [route])
      && (!n.HasActiveStack() ==> n'.state.backStacks == n.state.backStacks)
      && n'.currentPersonId == Some(ContentId(route))
      && n'.currentDetailId == n.currentDetailId
      && n'.detailHistory == n.detailHistory
  {
  }

  /** Rule 3a: from the contextual pane with three panes active, the stack is rebuilt as
      root, new detail, and the old stack's last person (kept in the contextual pane). */
  lemma CrossPaneRebuildsStack(n: Navigator, route: Route)
    requires route !in n.state.backStacks && IsPrimaryDetail(route)
    requires n.enableThreePaneLayout && n.isThreePaneActive
    requires n.HasActiveStack() && |n.ActiveStack()| > 0
    ensures Navigate(n, route, true).Success?
    ensures var st := n.ActiveStack();
      var n' := Navigate(n, route, true).value;
      && n'.HasActiveStack()
      && var st' := n'.ActiveStack();
      && (|st'| == 2 || |st'| == 3)
      && st'[0] == st[0] && st'[1] == route
      && (|st'| == 3 <==> exists i :: 0 <= i < |st| && IsPerson(st[i]))
      && (|st'| == 3 ==> exists i :: 0 <= i < |st| && st[i] == st'[2] && IsPerson(st[i])
                            && forall j :: i < j < |st| ==> !IsPerson(st[j]))
      && n'.currentDetailId == Some(ContentId(route))
      && n'.currentPersonId == n.currentPersonId
      && (n.currentDetailId.Some? ==>
            n'.detailHistory == n.detailHistory + [DetailHistoryRecord(n.currentDetailId.value, true)])
      && (n.currentDetailId.None? ==> n'.detailHistory == n.detailHistory)
  {
    var st := n.ActiveStack();
    var st' := Navigate(n, route, true).value.ActiveStack();
    assert st' == Rebuild(st, route);
  }

  /** Rule 3a without a current stack: only the projections and the history change. */
  lemma CrossPaneWithoutStack(n: Navigator, route: Route)
    requires route !in n.state.backStacks && IsPrimaryDetail(route)
    requires n.enableThreePaneLayout && n.isThreePaneActive
    requires !n.HasActiveStack()
    ensures Navigate(n, route, true).Success?
    ensures var n' := Navigate(n, route, true).value;
      && n'.state == n.state
      && n'.currentDetailId == Some(ContentId(route))
      && n'.currentPersonId == n.currentPersonId
      && (n.currentDetailId.Some? ==>
            n'.detailHistory == n.detailHistory + [DetailHistoryRecord(n.currentDetailId.value, true)])
      && (n.currentDetailId.None? ==> n'.detailHistory == n.detailHistory)
  {
  }

  /** Rule 3b: from the contextual pane without three visible panes, the detail is
      appended after everything, so the person stays reachable by going back. */
  lemma LinearAppendKeepsContext(n: Navigator, route: Route)
    requires route !in n.state.backStacks && IsPrimaryDetail(route)
    requires !(n.enableThreePaneLayout && n.isThreePaneActive)
    ensures Navigate(n, route, true).Success?
    ensures var n' := Navigate(n, route, true).value;
      && n'.state.backStacks.Keys == n.state.backStacks.Keys
      && (n.HasActiveStack() ==> n'.ActiveStack() == n.ActiveStack() + [route])
      && (!n.HasActiveStack() ==> n'.state.backStacks == n.state.backStacks)
      && n'.currentDetailId == Some(ContentId(route))
      && n'.currentPersonId == n.currentPersonId
      && n'.detailHistory == n.detailHistory
  {
  }

  /** Rule 3c: ordinary detail navigation closes the contextual pane: every person entry
      goes, the other entries keep their order, and the new detail is pushed on top. */
  lemma RegularNavigationClosesContext(n: Navigator, route: Route)
    requires route !in n.state.backStacks && IsPrimaryDetail(route)
    requires n.HasActiveStack()
    ensures Navigate(n, route, false).Success?
    ensures var st := n.ActiveStack();
      var n' := Navigate(n, route, false).value;
      && n'.HasActiveStack()
      && var st' := n'.ActiveStack();
      && |st'| >= 1 && st'[|st'| - 1] == route
      && var kept := st'[..|st'| - 1];
      && (forall i :: 0 <= i < |kept| ==> !IsPerson(kept[i]))
      && IsSubsequence(kept, st)
      && |kept| == |st| - Count(st, IsPerson)
      && n'.currentPersonId.None?
      && n'.currentDetailId == Some(ContentId(route))
      && n'.detailHistory == n.detailHistory
  {
    var st := n.ActiveStack();
    var st' := Navigate(n, route, false).value.ActiveStack();
    assert st' == RemoveAll(st, IsPerson) + [route];
    assert st'[..|st'| - 1] == RemoveAll(st, IsPerson);
    RemoveAllIsSubsequence(st, IsPerson);
  }

  /** Rule 4: a route that is neither a key nor a detail is pushed as it is. */
  lemma FallbackPushes(n: Navigator, route: Route, fromExtraPane: bool)
    requires route !in n.state.backStacks && !IsDetail(route)
    ensures Navigate(n, route, fromExtraPane).Success?
    ensures var n' := Navigate(n, route, fromExtraPane).value;
      && (n.HasActiveStack() ==> n'.ActiveStack() == n.ActiveStack() + [route])
      && n'.currentDetailId == n.currentDetailId
      && n'.currentPersonId == n.currentPersonId
  {
  }

  /** With all five tabs as keys, rule 4 never applies: every route is a key or a detail. */
  lemma FallbackUnreachableWithAllTabs(n: Navigator, route: Route)
    requires TabRoots <= n.state.backStacks.Keys
    ensures route in n.state.backStacks || IsDetail(route)
  {
    RouteKindsPartition(route);
  }
}

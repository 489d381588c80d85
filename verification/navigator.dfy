/**
 The navigation state machine: it dispatches a navigation request on the kind of
 destination, on whether it comes from the contextual (extra) pane and on whether a
 three-pane layout is enabled and visible; it also goes back, closes all details,
 and keeps two projections of what the detail and contextual panes show.
 */
module Navigation {
  import opened Wrappers
  import opened Routes
  import opened RouteLists
  import opened NavigationStates

  /** One detail substitution made by cross-reference navigation. Written, never read. */
  datatype DetailHistoryRecord = DetailHistoryRecord(detailId: string, wasFromCrossReference: bool)

  /** The source's fatal conditions. */
  datatype NavError =
    | MissingBackStack(tab: Route)  // the current tab has no stack in the store
    | EmptyBackStack(tab: Route)    // `first()` on an empty stack during the cross-pane rebuild

  /** `enableThreePaneLayout` is configuration; `isThreePaneActive` is set by the layout
      layer from the window size; the two ids project what the detail pane and the
      contextual pane currently show. */
  datatype Navigator = Navigator(
    state: NavigationState,
    enableThreePaneLayout: bool,
    isThreePaneActive: bool,
    currentDetailId: Option<string>,
    currentPersonId: Option<string>,
    detailHistory: seq<DetailHistoryRecord>)
  {
    predicate HasActiveStack() {
      state.topLevelRoute in state.backStacks
    }

    function ActiveStack(): seq<Route>
      requires HasActiveStack()
    {
      state.backStacks[state.topLevelRoute]
    }
  }

  /** The navigator after an operation that reports whether it did anything. */
  datatype Transition = Transition(nav: Navigator, performed: bool)

  /** A navigator over `state` as the app builds it: nothing shown, no history,
      three panes not yet visible. */
  function NewNavigator(state: NavigationState, enableThreePaneLayout: bool): (n: Navigator)
    ensures n.state == state && n.enableThreePaneLayout == enableThreePaneLayout
    ensures !n.isThreePaneActive
    ensures n.currentDetailId.None? && n.currentPersonId.None?
    ensures n.detailHistory == []
  {
    Navigator(state, enableThreePaneLayout, false, None, None, [])
  }

  /** The layout layer reporting whether three panes are visible. */
  function SetThreePaneActive(n: Navigator, active: bool): (n': Navigator)
    ensures n'.isThreePaneActive == active
    ensures n'.state == n.state && n'.enableThreePaneLayout == n.enableThreePaneLayout
    ensures n'.currentDetailId == n.currentDetailId && n'.currentPersonId == n.currentPersonId
    ensures n'.detailHistory == n.detailHistory
  {
    n.(isThreePaneActive := active)
  }

  /** What no operation changes: the start tab, the key set and the layout flags. */
  predicate SameFrame(n: Navigator, n': Navigator) {
    && n'.state.startRoute == n.state.startRoute
    && n'.state.backStacks.Keys == n.state.backStacks.Keys
    && n'.enableThreePaneLayout == n.enableThreePaneLayout
    && n'.isThreePaneActive == n.isThreePaneActive
  }

  /** Every stack other than the current tab's is as it was. */
  predicate OtherStacksUnchanged(n: Navigator, n': Navigator) {
    forall k :: k in n.state.backStacks && k != n.state.topLevelRoute ==>
      k in n'.state.backStacks && n'.state.backStacks[k] == n.state.backStacks[k]
  }

  function WithStacks(n: Navigator, stacks: map<Route, seq<Route>>): Navigator {
    n.(state := n.state.(backStacks := stacks))
  }

  /** `backStacks[tab]?.add(route)`: append when the stack exists, otherwise nothing. */
  function PushOnto(stacks: map<Route, seq<Route>>, tab: Route, route: Route): (r: map<Route, seq<Route>>)
    ensures r.Keys == stacks.Keys
    ensures tab in stacks ==> r[tab] == stacks[tab] + [route]
    ensures forall k :: k in stacks && k != tab ==> r[k] == stacks[k]
  {
    if tab in stacks then stacks[tab := stacks[tab] + [route]] else stacks
  }

  /** Cross-reference navigation is possible only from the contextual pane, with three
      panes both enabled and visible. */
  predicate CrossReference(n: Navigator, fromExtraPane: bool) {
    fromExtraPane && n.enableThreePaneLayout && n.isThreePaneActive
  }

  /** The cross-pane stack: the old root, the new detail, then the old stack's last
      person entry when there is one. */
  function Rebuild(st: seq<Route>, route: Route): seq<Route>
    requires |st| > 0
  {
    [st[0], route] + match FindLast(st, IsPerson) case Some(p) => [p] case None => []
  }

  /** The cross-pane history entry: the replaced detail, when one was shown. */
  function RecordReplaced(history: seq<DetailHistoryRecord>, previous: Option<string>): seq<DetailHistoryRecord> {
    match previous
    case Some(prevId) => history + [DetailHistoryRecord(prevId, true)]
    case None => history
  }

  /** `navigate(route, fromExtraPane)`: the first matching rule of tab switch, person
      append, cross-pane rebuild, linear append, regular push, fallback push. */
  function Navigate(n: Navigator, route: Route, fromExtraPane: bool): (r: Result<Navigator, NavError>)
    ensures r.Failure? <==>
      && route !in n.state.backStacks && IsPrimaryDetail(route) && CrossReference(n, fromExtraPane)
      && n.HasActiveStack() && |n.ActiveStack()| == 0
    ensures r.Failure? ==> r.error == EmptyBackStack(n.state.topLevelRoute)
    ensures r.Success? ==> SameFrame(n, r.value) && OtherStacksUnchanged(n, r.value)
    ensures r.Success? && route !in n.state.backStacks ==> r.value.state.topLevelRoute == n.state.topLevelRoute
  {
    var tab := n.state.topLevelRoute;
    var stacks := n.state.backStacks;
    if route in stacks then
      Success(n.(state := n.state.(topLevelRoute := route),
                 currentDetailId := None, currentPersonId := None, detailHistory := []))
    else if IsPerson(route) then
      Success(WithStacks(n, PushOnto(stacks, tab, route)).(currentPersonId := Some(ContentId(route))))
    else if IsPrimaryDetail(route) then
      var newDetailId := Some(ContentId(route));
      if CrossReference(n, fromExtraPane) then
        var n' := n.(currentDetailId := newDetailId,
                     detailHistory := RecordReplaced(n.detailHistory, n.currentDetailId));
        if tab !in stacks then Success(n')
        else if |stacks[tab]| == 0 then Failure(EmptyBackStack(tab))
        else Success(WithStacks(n', stacks[tab := Rebuild(stacks[tab], route)]))
      else if fromExtraPane then
        Success(WithStacks(n, PushOnto(stacks, tab, route)).(currentDetailId := newDetailId))
      else
        var cleared := if tab in stacks then stacks[tab := RemoveAll(stacks[tab], IsPerson)] else stacks;
        Success(WithStacks(n, PushOnto(cleared, tab, route))
                  .(currentDetailId := newDetailId, currentPersonId := None))
    else
      Success(WithStacks(n, PushOnto(stacks, tab, route)))
  }

  /** After popping `removed`, re-derive the projections from the remaining stack `rest`,
      reading content ids only. */
  function ResyncAfterPop(n: Navigator, removed: Route, rest: seq<Route>): Navigator {
    if IsPerson(removed) then
      n.(currentPersonId := LastPersonId(rest))
    else if IsPrimaryDetail(removed) then
      var personId :=
        if |rest| > 0 && IsPerson(rest[|rest| - 1]) then Some(ContentId(rest[|rest| - 1]))
        else n.currentPersonId;
      n.(currentDetailId := LastDetailId(rest), currentPersonId := personId)
    else
      n
  }

  /** `goBack()`: pop one entry, else return to the start tab, else report nothing to do. */
  function GoBack(n: Navigator): (r: Result<Transition, NavError>)
    ensures r.Failure? <==> !n.HasActiveStack()
    ensures r.Failure? ==> r.error == MissingBackStack(n.state.topLevelRoute)
    ensures r.Success? ==> SameFrame(n, r.value.nav) && OtherStacksUnchanged(n, r.value.nav)
    ensures r.Success? ==> r.value.nav.detailHistory == n.detailHistory
    ensures r.Success? && |n.ActiveStack()| > 1 ==>
      && r.value.performed
      && r.value.nav.state.topLevelRoute == n.state.topLevelRoute
      && r.value.nav.ActiveStack() == n.ActiveStack()[..|n.ActiveStack()| - 1]
    ensures r.Success? && |n.ActiveStack()| <= 1 && n.state.topLevelRoute != n.state.startRoute ==>
      && r.value.performed
      && r.value.nav.state.topLevelRoute == n.state.startRoute
      && r.value.nav.state.backStacks == n.state.backStacks
      && r.value.nav.currentDetailId == n.currentDetailId
      && r.value.nav.currentPersonId == n.currentPersonId
    ensures r.Success? && |n.ActiveStack()| <= 1 && n.state.topLevelRoute == n.state.startRoute ==>
      !r.value.performed && r.value.nav == n
  {
    var tab := n.state.topLevelRoute;
    if tab !in n.state.backStacks then
      Failure(MissingBackStack(tab))
    else
      var st := n.state.backStacks[tab];
      if |st| > 1 then
        var rest := st[..|st| - 1];
        var popped := WithStacks(n, n.state.backStacks[tab := rest]);
        Success(Transition(ResyncAfterPop(popped, st[|st| - 1], rest), true))
      else if tab != n.state.startRoute then
        Success(Transition(n.(state := n.state.(topLevelRoute := n.state.startRoute)), true))
      else
        Success(Transition(n, false))
  }

  /** `canGoBack()`: false when the current tab has no stack. */
  function CanGoBack(n: Navigator): bool {
    n.HasActiveStack() && (|n.ActiveStack()| > 1 || n.state.topLevelRoute != n.state.startRoute)
  }

  /** `navigateToRoot()`: drop every detail of the current tab and clear what the panes show. */
  function NavigateToRoot(n: Navigator): (r: Result<Transition, NavError>)
    ensures r.Failure? <==> !n.HasActiveStack()
    ensures r.Failure? ==> r.error == MissingBackStack(n.state.topLevelRoute)
    ensures r.Success? && |n.ActiveStack()| <= 1 ==> !r.value.performed && r.value.nav == n
    ensures r.Success? && |n.ActiveStack()| > 1 ==>
      && r.value.performed
      && SameFrame(n, r.value.nav) && OtherStacksUnchanged(n, r.value.nav)
      && r.value.nav.state.topLevelRoute == n.state.topLevelRoute
      && r.value.nav.ActiveStack() == [n.ActiveStack()[0]]
      && r.value.nav.currentDetailId.None? && r.value.nav.currentPersonId.None?
      && r.value.nav.detailHistory == []
  {
    var tab := n.state.topLevelRoute;
    if tab !in n.state.backStacks then
      Failure(MissingBackStack(tab))
    else
      var st := n.state.backStacks[tab];
      if |st| <= 1 then
        Success(Transition(n, false))
      else
        var n' := WithStacks(n, n.state.backStacks[tab := [st[0]]]);
        Success(Transition(n'.(currentDetailId := None, currentPersonId := None, detailHistory := []), true))
  }

  /** `canNavigateToRoot()`: false when the current tab has no stack. */
  function CanNavigateToRoot(n: Navigator): bool {
    n.HasActiveStack() && |n.ActiveStack()| > 1
  }
}

# Navigation state machine of Nav3SceneAnimations, in Dafny

This project models the navigation core of an adaptive (one-, two- or three-pane) Android
sample app:

- **Routes.** The closed set of destinations. There are five payload-free tab roots (Home,
  Search, MyList, Downloads, Profile) and three detail routes (movie, TV show, person).
  Each detail carries a content id and an instance token that is fresh on every construction.
- **NavigationState.** The per-tab back-stack store. It holds one stack per top-level key,
  each seeded with that key, plus the fixed start tab and the current tab. The display sees
  only the current tab's stack.
- **Navigator.** The state machine. `navigate(route, fromExtraPane)` is an ordered decision
  list: tab switch, person append, then three movie/TV sub-cases (cross-pane rebuild, linear
  append, regular push that closes the person pane), then a fallback push. There are also
  `goBack`, `navigateToRoot` and their availability predicates. It keeps two projections:
  the detail id shown in the detail pane and the person id shown in the contextual (extra)
  pane. It also keeps a detail history that it writes and never reads.

Everything is pure. `Navigate`, `GoBack` and `NavigateToRoot` return a `Result`: the
Kotlin code's fatal conditions become `Failure(NavError)`. `GoBack` and `NavigateToRoot`
also report whether anything happened.

Modules, leaves first:
`Wrappers` (Option, Result), `Routes` (route kinds, content ids, the fresh-token
source), `RouteLists` (`findLast` and `removeAll` with independent specifications),
`NavigationStates` (the store, its seeding, `toEntries`, the structural invariant),
`Navigation` (the navigator), `NavigateCases`, `BackNavigation`, `Invariants`,
`Projections`, `Sessions` (screens building routes with fresh tokens) and `Scenarios`
(concrete walks).

Main results:
- **Structural invariant.** Every stack is non-empty, holds its own tab at index 0, and
  has no key above index 0. Every operation preserves it, and under it no operation fails
  (`Invariants.RunPreservesValid`, for every sequence of events).
- **Projections stay in step, from a fresh store until a tab key is selected.** A new
  navigator over a freshly seeded store starts with its two projections equal to the
  content ids of the last movie/show and the last person in the current stack
  (`Projections.ProjectionsSynced`, `Projections.NewNavigatorSynced`). A new navigator
  over a restored store starts with both projections empty, whatever the stack shows
  (`Scenarios.RestoredStoreStartsOutOfStep`). Every `navigate` to a route that
  is not a store key, and every pop, keeps that agreement. Navigating to a key clears the
  projections without touching any stack, so both a tab switch
  (`Scenarios.TabRoundTripLosesSync`) and re-selecting the current tab
  (`Scenarios.ReselectingTabLosesSync`) can break the agreement.
- **Back undoes appends.** Start from a state whose projections match the current stack
  (a tab switch, re-selecting the current tab or a restored store can break this). Going back right after a person append, a linear
  append, or a regular push with no person open then restores the navigator exactly.

Two behaviours of the code are easy to misread:
- **Regular navigation** removes only person entries; earlier movie and show entries
  stay. From `[Home, MovieA, PersonX]`, navigating to Movie B yields
  `[Home, MovieA, MovieB]` (`Scenarios.RegularNavigationExample`).
- **Cross-pane rebuild** gives `[root, new detail]` plus the old stack's last person when
  one exists. The comment "top-level + new detail + PersonDetail" at Navigator.kt:96
  describes the three-entry case; without a person the stack has two entries.

## Model

| member | source | states |
|---|---|---|
| Routes.RouteKindsPartition | app/src/main/java/com/example/nav3sceneanimations/ui/navigation/Route.kt:12-73 | every route is either one of the five tab roots or a detail, never both; person and movie/TV details are disjoint families |
| Routes.FiveTabRoots | app/src/main/java/com/example/nav3sceneanimations/ui/navigation/Route.kt:20-36 | exactly five tab roots exist |
| Routes.IdentityIncludesToken | app/src/main/java/com/example/nav3sceneanimations/ui/navigation/Route.kt:45-51 | two details with the same content id but different instance tokens are different routes |
| Routes.NewDetail | app/src/main/java/com/example/nav3sceneanimations/ui/navigation/Route.kt:48-73 | constructing a detail keeps the requested kind and content id and draws a token at or above the source's watermark, then moves the watermark past it |
| Routes.RevisitYieldsDistinctRoute | app/src/main/java/com/example/nav3sceneanimations/ui/navigation/Route.kt:45-51 | building the same destination twice in a row gives two distinct routes with one content id |
| Routes.FreshDetailIsNew | app/src/main/java/com/example/nav3sceneanimations/ui/navigation/Route.kt:50 | a freshly built detail equals no route issued before it |
| RouteLists.FindLast | app/src/main/java/com/example/nav3sceneanimations/ui/navigation/Navigator.kt:99 | findLast returns None exactly when no entry matches; otherwise it returns a matching entry at a position after which nothing matches |
| RouteLists.RemoveAll | app/src/main/java/com/example/nav3sceneanimations/ui/navigation/Navigator.kt:125 | removeAll leaves no matching entry and shrinks the stack by exactly the number of matching entries |
| RouteLists.RemoveAllIsSubsequence | app/src/main/java/com/example/nav3sceneanimations/ui/navigation/Navigator.kt:125 | the entries that survive removeAll keep their original relative order (an increasing embedding into the old stack) |
| RouteLists.RemoveAllDistributes | app/src/main/java/com/example/nav3sceneanimations/ui/navigation/Navigator.kt:125 | removeAll on a concatenation is the concatenation of removeAll on each part |
| NavigationStates.RememberNavigationState | app/src/main/java/com/example/nav3sceneanimations/ui/navigation/NavigationState.kt:81-108 | the new store starts on the start route, has exactly the given keys, and seeds each key's stack with that key alone |
| NavigationStates.ToEntriesIsCurrentStack | app/src/main/java/com/example/nav3sceneanimations/ui/navigation/NavigationState.kt:116-134 | the display receives exactly the current tab's stack in order (stacksInUse is the current tab only), or nothing when that tab has no stack |
| NavigationStates.RememberIsValid | app/src/main/java/com/example/nav3sceneanimations/ui/navigation/NavigationState.kt:94-99 | a store seeded from tab roots that include the start route satisfies the structural invariant, and it displays the start route alone |
| Navigation.NewNavigator | app/src/main/java/com/example/nav3sceneanimations/ui/navigation/Navigator.kt:24-54 | a new navigator wraps the given store and configuration flag, with three panes not visible, both projections empty and an empty history |
| Navigation.SetThreePaneActive | app/src/main/java/com/example/nav3sceneanimations/ui/navigation/Navigator.kt:36 | the layout layer's setter changes only whether three panes are visible: no stack, projection, history or configuration |
| Navigation.PushOnto | app/src/main/java/com/example/nav3sceneanimations/ui/navigation/Navigator.kt:75 | the null-safe add appends to the current stack when it exists, changes no other stack and adds no key |
| Navigation.Navigate | app/src/main/java/com/example/nav3sceneanimations/ui/navigation/Navigator.kt:62-138 | navigate fails only when the cross-pane rule meets an empty current stack; it never changes the start tab, the key set, the layout flags or another tab's stack, and it switches tab only for a key |
| Navigation.GoBack | app/src/main/java/com/example/nav3sceneanimations/ui/navigation/Navigator.kt:151-194 | goBack fails exactly when the current tab has no stack; with more than one entry it pops exactly the last one and stays on the tab; with one entry on a non-start tab it moves to the start tab and changes no stack or projection; otherwise it reports false and changes nothing |
| Navigation.NavigateToRoot | app/src/main/java/com/example/nav3sceneanimations/ui/navigation/Navigator.kt:212-232 | navigateToRoot fails exactly when the current tab has no stack; with at most one entry it reports false and changes nothing; otherwise it truncates the stack to its first entry and clears both projections and the history |
| NavigateCases.TabSwitchResets | app/src/main/java/com/example/nav3sceneanimations/ui/navigation/Navigator.kt:65-70 | navigating to a key selects that tab, clears both projections and the history, and changes no stack |
| NavigateCases.PersonNavigationAppends | app/src/main/java/com/example/nav3sceneanimations/ui/navigation/Navigator.kt:73-76 | navigating to a person appends exactly that route to the current stack and makes its id the contextual projection; the detail projection and the history are unchanged |
| NavigateCases.CrossPaneRebuildsStack | app/src/main/java/com/example/nav3sceneanimations/ui/navigation/Navigator.kt:89-106 | cross-pane navigation leaves [old root, new detail] followed by the old stack's last person when one exists (length 2 or 3); the new id becomes the detail projection; a previous detail id is appended to the history marked as a cross-reference |
| NavigateCases.CrossPaneWithoutStack | app/src/main/java/com/example/nav3sceneanimations/ui/navigation/Navigator.kt:89-98 | cross-pane navigation with no current stack changes no stack but still sets the detail projection and appends a previous detail id to the history |
| NavigateCases.LinearAppendKeepsContext | app/src/main/java/com/example/nav3sceneanimations/ui/navigation/Navigator.kt:111-117 | from the contextual pane without three active panes, the detail is appended after every existing entry; the person projection and the history are untouched |
| NavigateCases.RegularNavigationClosesContext | app/src/main/java/com/example/nav3sceneanimations/ui/navigation/Navigator.kt:120-129 | ordinary detail navigation leaves the old non-person entries in their original order with the new detail on top, clears the person projection, and makes the new id the detail projection |
| NavigateCases.FallbackPushes | app/src/main/java/com/example/nav3sceneanimations/ui/navigation/Navigator.kt:134-136 | a route that is neither a key nor a detail is pushed and leaves both projections alone |
| NavigateCases.FallbackUnreachableWithAllTabs | app/src/main/java/com/example/nav3sceneanimations/ui/navigation/Navigator.kt:63-136 | when all five tabs are keys, every route matches the tab rule or a detail rule, so the fallback never applies |
| BackNavigation.GoBackResyncsProjections | app/src/main/java/com/example/nav3sceneanimations/ui/navigation/Navigator.kt:157-186 | after a pop: a popped person passes the person projection to the last remaining person or None; a popped movie/TV passes the detail projection to the last remaining movie/TV or None, and the person projection to the new top if it is a person |
| BackNavigation.CanGoBackIffGoBackPerforms | app/src/main/java/com/example/nav3sceneanimations/ui/navigation/Navigator.kt:199-202 | canGoBack is true exactly when goBack would do something, i.e. more than one entry or a non-start tab; it is false when the tab has no stack, where goBack fails |
| BackNavigation.CanNavigateToRootIffPerforms | app/src/main/java/com/example/nav3sceneanimations/ui/navigation/Navigator.kt:237-240 | canNavigateToRoot is true exactly when navigateToRoot would do something, i.e. more than one entry; it is false when the tab has no stack |
| BackNavigation.NavigateToRootThenCannot | app/src/main/java/com/example/nav3sceneanimations/ui/navigation/Navigator.kt:212-240 | after navigateToRoot the stack is its first entry alone, canNavigateToRoot is false, and a second navigateToRoot changes nothing |
| BackNavigation.LastIdsIgnoreTokens | app/src/main/java/com/example/nav3sceneanimations/ui/navigation/Navigator.kt:168-176 | the last person id and the last movie/TV id of a stack do not depend on the entries' instance tokens |
| BackNavigation.GoBackIgnoresTokens | app/src/main/java/com/example/nav3sceneanimations/ui/navigation/Navigator.kt:160-183 | goBack on two stacks that differ only in tokens produces the same projections |
| Invariants.NavigatePreservesValid | app/src/main/java/com/example/nav3sceneanimations/ui/navigation/Navigator.kt:102-105 | on a valid store navigate never fails and keeps every stack non-empty, rooted at its own tab, with no key above the root |
| Invariants.RemovePersonsKeepsRooted | app/src/main/java/com/example/nav3sceneanimations/ui/navigation/Navigator.kt:125 | removing person entries from a rooted stack keeps it rooted |
| Invariants.GoBackPreservesValid | app/src/main/java/com/example/nav3sceneanimations/ui/navigation/Navigator.kt:157-158 | on a valid store goBack never fails and keeps the invariant (it pops only above size 1) |
| Invariants.NavigateToRootPreservesValid | app/src/main/java/com/example/nav3sceneanimations/ui/navigation/Navigator.kt:222-224 | on a valid store navigateToRoot never fails and keeps the invariant (it keeps the first entry) |
| Invariants.RunPreservesValid | app/src/main/java/com/example/nav3sceneanimations/ui/navigation/Navigator.kt:62-240 | for every sequence of navigate, goBack, navigateToRoot and layout changes from a valid store, nothing fails, the invariant holds, and the start tab and key set are unchanged |
| Invariants.AllTabsStoreHoldsDetails | app/src/main/java/com/example/nav3sceneanimations/ui/navigation/Navigator.kt:65-76 | when the keys are exactly the five tabs, every entry above a stack's root in a valid store is a detail route |
| Invariants.AppNavigationIsSafe | app/src/main/java/com/example/nav3sceneanimations/ui/navigation/NavigationRoot.kt:36-43 | the app's navigator (start tab Home, one stack per tab) never fails and stays valid whatever the user does, with only detail routes above each tab root |
| Projections.NewNavigatorSynced | app/src/main/java/com/example/nav3sceneanimations/ui/navigation/Navigator.kt:36-54 | a new navigator over a freshly seeded store starts with projections matching its root-only stack |
| Projections.NavigateToNonKeyKeepsSynced | app/src/main/java/com/example/nav3sceneanimations/ui/navigation/Navigator.kt:73-129 | every navigate to a route that is not a store key keeps both projections equal to the ids of the last movie/TV and the last person in the current stack |
| Projections.GoBackPopKeepsSynced | app/src/main/java/com/example/nav3sceneanimations/ui/navigation/Navigator.kt:157-186 | a pop keeps the projections equal to the last movie/TV and last person of the shorter stack |
| Projections.NavigateToRootSynced | app/src/main/java/com/example/nav3sceneanimations/ui/navigation/Navigator.kt:221-229 | after navigateToRoot the cleared projections match the root-only stack |
| Projections.GoBackUndoesPersonNavigation | app/src/main/java/com/example/nav3sceneanimations/ui/navigation/Navigator.kt:157-166 | from a state whose projections match the current stack (a tab switch, re-selecting the current tab or a restored store can break this), goBack right after opening a person restores the navigator exactly |
| Projections.GoBackUndoesLinearAppend | app/src/main/java/com/example/nav3sceneanimations/ui/navigation/Navigator.kt:167-183 | from a state whose projections match the current stack (a tab switch, re-selecting the current tab or a restored store can break this), goBack right after a linear append from the contextual pane restores the navigator exactly, including the person projection |
| Projections.GoBackUndoesRegularNavigation | app/src/main/java/com/example/nav3sceneanimations/ui/navigation/Navigator.kt:120-183 | from a state whose projections match the current stack (a tab switch, re-selecting the current tab or a restored store can break this) and with no person open, goBack right after an ordinary detail navigation restores the navigator exactly |
| Sessions.OpenDetailPushesNewRoute | app/src/main/java/com/example/nav3sceneanimations/ui/navigation/NavigationRoot.kt:79-217 | a detail opened with a fresh token ends up in the current stack, equals no route previously in any stack, and keeps the store valid |
| Sessions.RevisitIsNewEvent | app/src/main/java/com/example/nav3sceneanimations/ui/navigation/Route.kt:45-51 | opening the same content twice gives two distinct routes with one content id; the second is new to the stack that already holds the first |
| Scenarios.RegularNavigationExample | app/src/main/java/com/example/nav3sceneanimations/ui/navigation/Navigator.kt:120-129 | [Home, MovieA, PersonX] with ordinary navigation to B gives [Home, MovieA, MovieB], detail B, no person |
| Scenarios.LinearAppendExample | app/src/main/java/com/example/nav3sceneanimations/ui/navigation/Navigator.kt:111-117 | [Home, MovieA, PersonX] from the person with two panes gives [Home, MovieA, PersonX, MovieB] |
| Scenarios.CrossPaneExample | app/src/main/java/com/example/nav3sceneanimations/ui/navigation/Navigator.kt:89-106 | [Home, MovieA, PersonX] from the person with three active panes gives [Home, MovieB, PersonX], detail B, history [A] |
| Scenarios.CrossPaneNeedsConfigurationExample | app/src/main/java/com/example/nav3sceneanimations/ui/navigation/Navigator.kt:89 | three visible panes without the configuration flag fall back to the linear rule |
| Scenarios.SubstitutedDetailIsNotRestored | app/src/main/java/com/example/nav3sceneanimations/ui/navigation/Navigator.kt:51-54 | the history is never read: after a cross-pane substitution, two goBacks empty the detail pane instead of restoring the replaced detail |
| Scenarios.TabRoundTripLosesSync | app/src/main/java/com/example/nav3sceneanimations/ui/navigation/Navigator.kt:65-70 | opening Movie A on Home, then switching to Search and back, leaves [Home, MovieA] with an empty detail projection, so the projections no longer match the stack |
| Scenarios.ReselectingTabLosesSync | app/src/main/java/com/example/nav3sceneanimations/ui/navigation/Navigator.kt:65-70 | after opening Movie A on Home the projections match [Home, MovieA]; navigating to Home again keeps the tab and every stack but clears both projections, so they no longer match the stack |
| Scenarios.RestoredStoreStartsOutOfStep | app/src/main/java/com/example/nav3sceneanimations/ui/navigation/NavigationRoot.kt:36-43 | a valid five-tab store whose Home stack is [Home, MovieA], as it may come back from saved state, gets a new navigator with both ids None, so its projections do not match the stack |
| Scenarios.BackFromOtherTabExample | app/src/main/java/com/example/nav3sceneanimations/ui/navigation/Navigator.kt:188-191 | goBack on another tab whose stack is its root alone returns to the start tab and changes no stack |

## Left out

- Composable screens, widgets and the adaptive scaffold are UI. Their only bearing on the
  core is which `navigate` call they make, which `fromExtraPane` captures.
- `calculateAdaptiveNavigationType` and the window-size rule: `isThreePaneActive` is an
  input (`SetThreePaneActive`, the `LayoutChanged` action). `enableThreePaneLayout` is a
  constructor argument. The app builds its navigator without it and so relies on the
  default `false` (NavigationRoot.kt:42, Navigator.kt:26), which makes the cross-pane rule
  unreachable there; the model keeps both flags free.
- Transitions and animations, icons and labels: not behaviour of the core. The five tab
  keys are the constant `Routes.TabRoots`.
- Saved-state serialization and the entry decorators: a library-defined format. `toEntries`
  is modelled as the list of routes it decorates. The current tab and every stack survive
  a saved-state restore (NavigationState.kt:85-99), but the navigator is held in plain
  `remember` (NavigationRoot.kt:41-43) and is rebuilt over the restored store with both
  ids null, an empty history and `isThreePaneActive` false. The projections can then
  disagree with the stack from the start (`Scenarios.RestoredStoreStartsOutOfStep`).
- Compose snapshot state: its observability and threading are ignored, and the fields are
  plain immutable values.
- `UUID.randomUUID()`: replaced by an explicit counter (`Routes.InstanceIds`), so tokens are
  natural numbers rather than strings. Only their distinctness is used.
- Keys are `Route` values, not arbitrary `NavKey`s, so the fallback rule can only meet a
  tab root that is not a key.
- Navigation.Navigate: when the cross-pane rule meets an existing but empty stack, Kotlin
  has already updated `currentDetailId` and the history before `first()` throws. The model
  returns `Failure(EmptyBackStack)` without that partial state. Under the structural
  invariant this case never occurs.
- Nothing consults `detailHistory`; it is modelled as a write-only sequence.
- Projections after selecting a tab: `navigate` to a key (a tab switch, or re-selecting
  the current tab) clears the projections, and `goBack` to the start tab leaves them
  unchanged, whatever the tab's stack shows. `Projections.ProjectionsSynced` is therefore
  stated for `navigate` to non-key routes and for pops. `Scenarios.TabRoundTripLosesSync`
  and `Scenarios.ReselectingTabLosesSync` show concrete cases.

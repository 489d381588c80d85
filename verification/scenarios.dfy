/**
 Concrete walks through the navigator on the stack Home → Movie A → Person X,
 one per navigation mode, plus the fate of a substituted detail on going back;
 going back from a root-only tab; and walks showing how the projections fall out
 of step with the stack — after a tab change, after re-selecting the current tab,
 and over a restored store.
 */
module Scenarios {
  import opened Wrappers
  import opened Routes
  import opened RouteLists
  import opened NavigationStates
  import opened Navigation
  import opened Invariants
  import opened Projections

  const MovieA: Route := MovieDetail("A", 0)
  const PersonX: Route := PersonDetail("X", 1)
  const MovieB: Route := MovieDetail("B", 2)

  /** Home shows Movie A with Person X beside it; the start tab is Home. */
  function Browsing(enableThreePaneLayout: bool, isThreePaneActive: bool): Navigator {
    Navigator(
      NavigationState(Home, Home, map[Home := [Home, MovieA, PersonX], Search := [Search]]),
      enableThreePaneLayout, isThreePaneActive, Some("A"), Some("X"), [])
  }

  /** Ordinary navigation to B closes Person X. */
  lemma RegularNavigationExample()
    ensures Navigate(Browsing(true, true), MovieB, false).Success?
    ensures var n := Navigate(Browsing(true, true), MovieB, false).value;
      && n.ActiveStack() == [Home, MovieA, MovieB]
      && n.currentDetailId == Some("B") && n.currentPersonId == None
  {
    assert [Home, MovieA, PersonX] == [Home, MovieA] + [PersonX];
    RemoveAllDistributes([Home, MovieA], [PersonX], IsPerson);
    RemoveAllNothingToRemove([Home, MovieA], IsPerson);
    assert [PersonX][1..] == [];
  }

  /** From Person X with two panes: B goes on top and X stays reachable by going back. */
  lemma LinearAppendExample()
    ensures Navigate(Browsing(true, false), MovieB, true).Success?
    ensures var n := Navigate(Browsing(true, false), MovieB, true).value;
      && n.ActiveStack() == [Home, MovieA, PersonX, MovieB]
      && n.currentDetailId == Some("B") && n.currentPersonId == Some("X")
  {
  }

  /** From Person X with three panes: B replaces A and X stays in the contextual pane. */
  lemma CrossPaneExample()
    ensures Navigate(Browsing(true, true), MovieB, true).Success?
    ensures var n := Navigate(Browsing(true, true), MovieB, true).value;
      && n.ActiveStack() == [Home, MovieB, PersonX]
      && n.currentDetailId == Some("B") && n.currentPersonId == Some("X")
      && n.detailHistory == [DetailHistoryRecord("A", true)]
  {
  }

  /** Three panes visible but not enabled by configuration: the linear rule applies. */
  lemma CrossPaneNeedsConfigurationExample()
    ensures Navigate(Browsing(false, true), MovieB, true).Success?
    ensures Navigate(Browsing(false, true), MovieB, true).value.ActiveStack()
         == [Home, MovieA, PersonX, MovieB]
  {
  }

  /** The recorded history is never consulted: after a substitution, going back twice
      empties the detail pane instead of bringing Movie A back. */
  lemma SubstitutedDetailIsNotRestored()
    ensures var n1 := Navigate(Browsing(true, true), MovieB, true).value;
      && GoBack(n1).Success?
      && var n2 := GoBack(n1).value.nav;
      && n2.ActiveStack() == [Home, MovieB] && n2.currentDetailId == Some("B")
      && n2.currentPersonId == None
      && GoBack(n2).Success?
      && var n3 := GoBack(n2).value.nav;
      && n3.ActiveStack() == [Home] && n3.currentDetailId == None
      && n3.detailHistory == [DetailHistoryRecord("A", true)]
  {
    var n1 := Navigate(Browsing(true, true), MovieB, true).value;
    assert n1.ActiveStack() == [Home, MovieB, PersonX];
    assert [Home, MovieB, PersonX][..2] == [Home, MovieB];
    assert [Home, MovieB][..1] == [Home];
  }

  /** Back priority on another tab: a root-only stack sends the user to the start tab
      without touching any stack. */
  lemma BackFromOtherTabExample()
    ensures var n := Navigate(Browsing(false, false), Search, false).value;
      && GoBack(n).Success? && GoBack(n).value.performed
      && GoBack(n).value.nav.state.topLevelRoute == Home
      && GoBack(n).value.nav.state.backStacks == n.state.backStacks
  {
  }

  /** A tab round trip breaks the agreement between projections and stack: opening
      Movie A on Home, switching to Search and back leaves Movie A on the stack while
      the detail projection is empty, because a tab switch clears the projections
      without touching any stack. */
  lemma TabRoundTripLosesSync()
    ensures var n0 := NewNavigator(RememberNavigationState(Home, TabRoots), false);
      && ProjectionsSynced(n0)
      && Run(n0, [Go(MovieA, false), Go(Search, false), Go(Home, false)]).Success?
      && var n := Run(n0, [Go(MovieA, false), Go(Search, false), Go(Home, false)]).value;
      && n.HasActiveStack() && n.ActiveStack() == [Home, MovieA]
      && n.currentDetailId == None
      && !ProjectionsSynced(n)
  {
    var n0 := NewNavigator(RememberNavigationState(Home, TabRoots), false);
    NewNavigatorSynced(Home, TabRoots, false);
    assert n0.ActiveStack() == [Home];
    RemoveAllNothingToRemove([Home], IsPerson);
    var n1 := Navigate(n0, MovieA, false).value;
    assert n1.ActiveStack() == [Home, MovieA];
    var n2 := Navigate(n1, Search, false).value;
    var n3 := Navigate(n2, Home, false).value;
    var actions := [Go(MovieA, false), Go(Search, false), Go(Home, false)];
    assert actions[1..] == [Go(Search, false), Go(Home, false)];
    assert actions[1..][1..] == [Go(Home, false)];
    assert actions[1..][1..][1..] == [];
    assert Run(n3, []) == Success(n3);
    assert Run(n2, [Go(Home, false)]) == Run(n3, []);
    assert Run(n1, actions[1..]) == Run(n2, [Go(Home, false)]);
    assert Run(n0, actions) == Run(n1, actions[1..]);
    assert [Home, MovieA] == [Home] + [MovieA];
    LastIdsAppend([Home], MovieA);
    RootShowsNothing(Home);
  }

  /** Re-selecting the tab already shown keeps its stack but clears both projections. */
  lemma ReselectingTabLosesSync()
    ensures var n := Navigate(NewNavigator(RememberNavigationState(Home, TabRoots), false), MovieA, false).value;
      && Valid(n.state) && ProjectionsSynced(n) && n.ActiveStack() == [Home, MovieA]
      && Navigate(n, Home, false).Success?
      && var n' := Navigate(n, Home, false).value;
      && n'.state.topLevelRoute == Home && n'.state.backStacks == n.state.backStacks
      && n'.currentDetailId == None && n'.currentPersonId == None
      && !ProjectionsSynced(n')
  {
    var n0 := NewNavigator(RememberNavigationState(Home, TabRoots), false);
    NewNavigatorSynced(Home, TabRoots, false);
    RememberIsValid(Home, TabRoots);
    assert n0.ActiveStack() == [Home];
    RemoveAllNothingToRemove([Home], IsPerson);
    NavigateToNonKeyKeepsSynced(n0, MovieA, false);
    var n := Navigate(n0, MovieA, false).value;
    assert n.ActiveStack() == [Home] + [MovieA];
    LastIdsAppend([Home], MovieA);
    RootShowsNothing(Home);
  }

  /** The app's five-tab store as restored from saved state, with Movie A open on Home. */
  function RestoredStore(): NavigationState {
    NavigationState(Home, Home, map[Home := [Home, MovieA], Search := [Search], MyList := [MyList],
                                    Downloads := [Downloads], Profile := [Profile]])
  }

  /** A new navigator over a restored store starts with both projections empty, whatever
      the restored stack shows. */
  lemma RestoredStoreStartsOutOfStep()
    ensures Valid(RestoredStore()) && RestoredStore().backStacks.Keys == TabRoots
    ensures var n := NewNavigator(RestoredStore(), false);
      && n.ActiveStack() == [Home, MovieA]
      && n.currentDetailId == None && n.currentPersonId == None
      && !ProjectionsSynced(n)
  {
    assert [Home, MovieA] == [Home] + [MovieA];
    LastIdsAppend([Home], MovieA);
  }
}

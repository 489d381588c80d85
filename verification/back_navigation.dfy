/**
 Back navigation and closing all details: how the projections are re-derived after a
 pop, and how the availability predicates agree with the operations they guard.
 */
module BackNavigation {
  import opened Wrappers
  import opened Routes
  import opened RouteLists
  import opened NavigationStates
  import opened Navigation

  /** After a pop, each pane's projection is recomputed from what is left: a popped person
      hands the contextual pane to the last remaining person; a popped movie or show hands
      the detail pane to the last remaining one and, when a person is now on top, the
      contextual pane to it. Nothing else is touched. */
  lemma GoBackResyncsProjections(n: Navigator)
    requires n.HasActiveStack() && |n.ActiveStack()| > 1
    ensures GoBack(n).Success?
    ensures var st := n.ActiveStack();
      var removed := st[|st| - 1];
      var rest := st[..|st| - 1];
      var n' := GoBack(n).value.nav;
      && (IsPerson(removed) ==>
            n'.currentPersonId == LastPersonId(rest) && n'.currentDetailId == n.currentDetailId)
      && (IsPrimaryDetail(removed) ==>
            && n'.currentDetailId == LastDetailId(rest)
            && n'.currentPersonId ==
                 (if IsPerson(rest[|rest| - 1]) then Some(ContentId(rest[|rest| - 1])) else n.currentPersonId))
      && (!IsDetail(removed) ==>
            n'.currentDetailId == n.currentDetailId && n'.currentPersonId == n.currentPersonId)
  {
  }

  /** `canGoBack()` is true exactly when `goBack()` would do something, and false when the
      current tab has no stack (where `goBack()` fails). */
  lemma CanGoBackIffGoBackPerforms(n: Navigator)
    ensures CanGoBack(n) <==> GoBack(n).Success? && GoBack(n).value.performed
    ensures n.HasActiveStack() ==>
      (CanGoBack(n) <==> |n.ActiveStack()| > 1 || n.state.topLevelRoute != n.state.startRoute)
    ensures !n.HasActiveStack() ==> !CanGoBack(n) && GoBack(n).Failure?
  {
  }

  /** `canNavigateToRoot()` is true exactly when `navigateToRoot()` would do something. */
  lemma CanNavigateToRootIffPerforms(n: Navigator)
    ensures CanNavigateToRoot(n) <==> NavigateToRoot(n).Success? && NavigateToRoot(n).value.performed
    ensures n.HasActiveStack() ==> (CanNavigateToRoot(n) <==> |n.ActiveStack()| > 1)
    ensures !n.HasActiveStack() ==> !CanNavigateToRoot(n) && NavigateToRoot(n).Failure?
  {
  }

  /** After closing all details the current stack is its root alone, so there is nothing
      left to close, and closing again changes nothing. */
  lemma NavigateToRootThenCannot(n: Navigator)
    requires n.HasActiveStack()
    ensures NavigateToRoot(n).Success?
    ensures var n' := NavigateToRoot(n).value.nav;
      && n'.HasActiveStack()
      && (|n.ActiveStack()| >= 1 ==> n'.ActiveStack() == [n.ActiveStack()[0]])
      && !CanNavigateToRoot(n')
      && NavigateToRoot(n') == Success(Transition(n', false))
  {
  }

  /** The token-free form of a route: what the projections are allowed to observe. */
  function Content(r: Route): Route {
    match r
    case MovieDetail(id, _) => MovieDetail(id, 0)
    case TvShowDetail(id, _) => TvShowDetail(id, 0)
    case PersonDetail(id, _) => PersonDetail(id, 0)
    case _ => r
  }

  /** Routes with the same content have the same kind and, for details, the same content id. */
  lemma ContentDeterminesKind(x: Route, y: Route)
    requires Content(x) == Content(y)
    ensures IsPerson(x) <==> IsPerson(y)
    ensures IsPrimaryDetail(x) <==> IsPrimaryDetail(y)
    ensures IsDetail(x) ==> IsDetail(y) && ContentId(x) == ContentId(y)
  {
  }

  /** Two stacks that differ at most in the tokens of their entries. */
  predicate SameContent(a: seq<Route>, b: seq<Route>) {
    |a| == |b| && forall i :: 0 <= i < |a| ==> Content(a[i]) == Content(b[i])
  }

  /** The projections read content ids only: restamping tokens never changes them. */
  lemma {:induction false} LastIdsIgnoreTokens(a: seq<Route>, b: seq<Route>)
    requires SameContent(a, b)
    ensures LastPersonId(a) == LastPersonId(b)
    ensures LastDetailId(a) == LastDetailId(b)
  {
    if |a| > 0 {
      var k := |a| - 1;
      assert Content(a[k]) == Content(b[k]);
      assert SameContent(a[..k], b[..k]) by {
        forall i | 0 <= i < k
          ensures Content(a[..k][i]) == Content(b[..k][i])
        {
          assert a[..k][i] == a[i] && b[..k][i] == b[i];
        }
      }
      LastIdsIgnoreTokens(a[..k], b[..k]);
    }
  }

  /** Going back on two stacks that differ only in tokens leaves the same projections:
      `goBack()` compares content ids, never instance tokens. */
  lemma GoBackIgnoresTokens(n: Navigator, m: Navigator)
    requires n.HasActiveStack() && m.HasActiveStack()
    requires n.state.topLevelRoute == m.state.topLevelRoute && n.state.startRoute == m.state.startRoute
    requires SameContent(n.ActiveStack(), m.ActiveStack())
    requires n.currentDetailId == m.currentDetailId && n.currentPersonId == m.currentPersonId
    ensures GoBack(n).Success? && GoBack(m).Success?
    ensures GoBack(n).value.nav.currentDetailId == GoBack(m).value.nav.currentDetailId
    ensures GoBack(n).value.nav.currentPersonId == GoBack(m).value.nav.currentPersonId
  {
    var a := n.ActiveStack();
    var b := m.ActiveStack();
    if |a| > 1 {
      var k := |a| - 1;
      ContentDeterminesKind(a[k], b[k]);
      ContentDeterminesKind(a[k - 1], b[k - 1]);
      assert SameContent(a[..k], b[..k]) by {
        forall i | 0 <= i < k
          ensures Content(a[..k][i]) == Content(b[..k][i])
        {
          assert a[..k][i] == a[i] && b[..k][i] == b[i];
        }
      }
      LastIdsIgnoreTokens(a[..k], b[..k]);
      GoBackResyncsProjections(n);
      GoBackResyncsProjections(m);
    }
  }
}

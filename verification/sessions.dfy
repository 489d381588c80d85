/**
 The screens' side of a navigation request: every `MovieDetail(id)`, `TvShowDetail(id)`
 or `PersonDetail(id)` they build draws a fresh instance token, so revisiting the same
 content still produces a route no observer has seen.
 */
module Sessions {
  import opened Wrappers
  import opened Routes
  import opened RouteLists
  import opened NavigationStates
  import opened Navigation
  import opened Invariants

  /** The navigator together with the token source the screens draw from. */
  datatype Session = Session(nav: Navigator, ids: InstanceIds)

  /** Every token in every stack was handed out by `ids` already. */
  predicate TokensIssued(s: Session) {
    forall k :: k in s.nav.state.backStacks ==> StackIssued(s.nav.state.backStacks[k], s.ids)
  }

  predicate StackIssued(st: seq<Route>, ids: InstanceIds) {
    forall i :: 0 <= i < |st| ==> IssuedBefore(st[i], ids)
  }

  /** A screen opening a detail: build a route with a fresh token, then `navigate` to it. */
  function OpenDetail(s: Session, kind: DetailKind, contentId: string, fromExtraPane: bool): Result<Session, NavError> {
    var (route, ids') := NewDetail(s.ids, kind, contentId);
    match Navigate(s.nav, route, fromExtraPane)
    case Success(n') => Success(Session(n', ids'))
    case Failure(e) => Failure(e)
  }

  /** A later watermark covers everything an earlier one did. */
  lemma StackIssuedLater(st: seq<Route>, ids: InstanceIds, ids': InstanceIds)
    requires StackIssued(st, ids) && ids.next <= ids'.next
    ensures StackIssued(st, ids')
  {
  }

  /** `removeAll` only drops entries, so it keeps every token issued. */
  lemma RemoveAllKeepsIssued(st: seq<Route>, ids: InstanceIds)
    requires StackIssued(st, ids)
    ensures StackIssued(RemoveAll(st, IsPerson), ids)
  {
    RemoveAllIsSubsequence(st, IsPerson);
    var f := KeptIndices(st, IsPerson);
    var r := RemoveAll(st, IsPerson);
    forall i | 0 <= i < |r|
      ensures IssuedBefore(r[i], ids)
    {
      assert r[i] == st[f[i]];
    }
  }

  /** The route just opened is in the current stack afterwards and equals no entry that
      was in any stack before: observers keyed on route identity always see a new event. */
  lemma OpenDetailPushesNewRoute(s: Session, kind: DetailKind, contentId: string, fromExtraPane: bool)
    requires Valid(s.nav.state) && TokensIssued(s)
    ensures OpenDetail(s, kind, contentId, fromExtraPane).Success?
    ensures var route := NewDetail(s.ids, kind, contentId).0;
      var s' := OpenDetail(s, kind, contentId, fromExtraPane).value;
      && Valid(s'.nav.state) && TokensIssued(s')
      && route in s'.nav.ActiveStack()
      && (forall k :: k in s.nav.state.backStacks ==> route !in s.nav.state.backStacks[k])
  {
    var (route, ids') := NewDetail(s.ids, kind, contentId);
    NavigatePreservesValid(s.nav, route, fromExtraPane);
    RouteKindsPartition(route);
    var stacks := s.nav.state.backStacks;
    forall k | k in stacks
      ensures route !in stacks[k]
    {
      forall i | 0 <= i < |stacks[k]|
        ensures stacks[k][i] != route
      {
        FreshDetailIsNew(s.ids, kind, contentId, stacks[k][i]);
      }
    }
    var tab := s.nav.state.topLevelRoute;
    var st := stacks[tab];
    var n' := Navigate(s.nav, route, fromExtraPane).value;
    var st' := n'.ActiveStack();
    StackIssuedLater(st, s.ids, ids');
    assert StackIssued([route], ids');
    if IsPrimaryDetail(route) && CrossReference(s.nav, fromExtraPane) {
      match FindLast(st, IsPerson)
      case Some(p) =>
        assert st' == [st[0], route, p];
        assert IssuedBefore(p, ids');
      case None =>
        assert st' == [st[0], route];
    } else if IsPrimaryDetail(route) && !fromExtraPane {
      RemoveAllKeepsIssued(st, ids');
      assert st' == RemoveAll(st, IsPerson) + [route];
      assert st'[|st'| - 1] == route;
    } else {
      assert st' == st + [route];
      assert st'[|st'| - 1] == route;
    }
    forall k | k in n'.state.backStacks
      ensures StackIssued(n'.state.backStacks[k], ids')
    {
      if k != tab {
        StackIssuedLater(stacks[k], s.ids, ids');
      }
    }
  }

  /** Opening the same content twice in a row gives two distinct routes with one content
      id; the second is new to the stack even though the first is still in it. */
  lemma RevisitIsNewEvent(s: Session, kind: DetailKind, contentId: string, fromExtraPane: bool)
    requires Valid(s.nav.state) && TokensIssued(s)
    ensures OpenDetail(s, kind, contentId, fromExtraPane).Success?
    ensures var s1 := OpenDetail(s, kind, contentId, fromExtraPane).value;
      && OpenDetail(s1, kind, contentId, fromExtraPane).Success?
      && var first := NewDetail(s.ids, kind, contentId).0;
      && var second := NewDetail(s1.ids, kind, contentId).0;
      && first != second && ContentId(first) == ContentId(second)
      && first in s1.nav.ActiveStack()
      && second !in s1.nav.ActiveStack()
      && second in OpenDetail(s1, kind, contentId, fromExtraPane).value.nav.ActiveStack()
  {
    OpenDetailPushesNewRoute(s, kind, contentId, fromExtraPane);
    var s1 := OpenDetail(s, kind, contentId, fromExtraPane).value;
    OpenDetailPushesNewRoute(s1, kind, contentId, fromExtraPane);
    assert s1.ids == NewDetail(s.ids, kind, contentId).1;
    RevisitYieldsDistinctRoute(s.ids, kind, contentId);
  }
}

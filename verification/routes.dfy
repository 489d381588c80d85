/**
 The closed set of navigation destinations: five top-level tabs without payload and
 three detail destinations, each carrying a content id and an instance token.
 */
module Routes {

  /** One constructor per destination kind. Tab roots are payload-free, so two
      occurrences of the same tab are equal; details compare content id AND token. */
  datatype Route =
    | Home
    | Search
    | MyList
    | Downloads
    | Profile
    | MovieDetail(movieId: string, instanceId: nat)
    | TvShowDetail(tvShowId: string, instanceId: nat)
    | PersonDetail(personId: string, instanceId: nat)

  predicate IsTabRoot(r: Route) {
    r.Home? || r.Search? || r.MyList? || r.Downloads? || r.Profile?
  }

  /** A contextual (extra-pane) destination. */
  predicate IsPerson(r: Route) {
    r.PersonDetail?
  }

  /** A primary detail (detail-pane) destination. */
  predicate IsPrimaryDetail(r: Route) {
    r.MovieDetail? || r.TvShowDetail?
  }

  predicate IsDetail(r: Route) {
    IsPrimaryDetail(r) || IsPerson(r)
  }

  /** The content id of a detail route; its instance token plays no part. */
  function ContentId(r: Route): string
    requires IsDetail(r)
  {
    match r
    case MovieDetail(id, _) => id
    case TvShowDetail(id, _) => id
    case PersonDetail(id, _) => id
  }

  /** The five top-level destinations, the keys of the per-tab stack store. */
  const TabRoots: set<Route> := {Home, Search, MyList, Downloads, Profile}

  /** Every route is either a tab root (and then one of the five) or a detail of
      exactly one of the two detail families. */
  lemma RouteKindsPartition(r: Route)
    ensures IsTabRoot(r) <==> !IsDetail(r)
    ensures IsTabRoot(r) <==> r in TabRoots
    ensures !(IsPerson(r) && IsPrimaryDetail(r))
  {
  }

  lemma FiveTabRoots()
    ensures |TabRoots| == 5
  {
    assert TabRoots == {Home} + {Search} + {MyList} + {Downloads} + {Profile};
  }

  /** Two detail routes with the same content id are still different routes when
      their tokens differ. */
  lemma IdentityIncludesToken(a: Route, b: Route)
    requires IsDetail(a) && IsDetail(b)
    requires ContentId(a) == ContentId(b)
    requires a.instanceId != b.instanceId
    ensures a != b
  {
  }

  /** Source of fresh instance tokens, standing for the random UUID that every
      detail route draws when it is constructed. */
  datatype InstanceIds = InstanceIds(next: nat)

  datatype DetailKind = Movie | TvShow | Person

  /** Builds a detail route of the given kind with a token never handed out before. */
  function NewDetail(ids: InstanceIds, kind: DetailKind, contentId: string): (r: (Route, InstanceIds))
    ensures IsDetail(r.0) && ContentId(r.0) == contentId
    ensures IsPerson(r.0) <==> kind == Person
    ensures r.0.MovieDetail? <==> kind == Movie
    ensures ids.next <= r.0.instanceId < r.1.next
  {
    var route :=
      match kind
      case Movie => MovieDetail(contentId, ids.next)
      case TvShow => TvShowDetail(contentId, ids.next)
      case Person => PersonDetail(contentId, ids.next);
    (route, InstanceIds(ids.next + 1))
  }

  /** A route whose token (if it has one) was handed out before `ids` reached its watermark. */
  predicate IssuedBefore(r: Route, ids: InstanceIds) {
    IsDetail(r) ==> r.instanceId < ids.next
  }

  /** Constructing the same destination twice yields two distinct routes with one content id. */
  lemma RevisitYieldsDistinctRoute(ids: InstanceIds, kind: DetailKind, contentId: string)
    ensures var (a, ids1) := NewDetail(ids, kind, contentId);
            var (b, _) := NewDetail(ids1, kind, contentId);
            a != b && ContentId(a) == ContentId(b)
  {
  }

  /** A freshly constructed detail differs from every route issued earlier. */
  lemma FreshDetailIsNew(ids: InstanceIds, kind: DetailKind, contentId: string, earlier: Route)
    requires IssuedBefore(earlier, ids)
    ensures NewDetail(ids, kind, contentId).0 != earlier
  {
  }
}

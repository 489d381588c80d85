/**
 The two list operations the navigator performs on a back stack besides push and pop:
 `findLast { … }` and `removeAll { … }`, each with a specification that does not
 depend on how it is computed.
 */
module RouteLists {
  import opened Wrappers
  import opened Routes

  /** The last entry of `st` satisfying `p`, if any (Kotlin's `findLast`). */
  function FindLast(st: seq<Route>, p: Route -> bool): (r: Option<Route>)
    ensures r.None? <==> forall i :: 0 <= i < |st| ==> !p(st[i])
    ensures r.Some? ==>
      p(r.value) &&
      exists i :: 0 <= i < |st| && st[i] == r.value && forall j :: i < j < |st| ==> !p(st[j])
  {
    if |st| == 0 then None
    else if p(st[|st| - 1]) then Some(st[|st| - 1])
    else
      var r := FindLast(st[..|st| - 1], p);
      assert forall i :: 0 <= i < |st| - 1 ==> st[..|st| - 1][i] == st[i];
      r
  }

  /** Appending an entry either makes it the last match or leaves the answer alone. */
  lemma FindLastAppend(st: seq<Route>, x: Route, p: Route -> bool)
    ensures FindLast(st + [x], p) == if p(x) then Some(x) else FindLast(st, p)
  {
    assert (st + [x])[..|st|] == st;
  }

  /** The content id of the last person entry (the contextual pane's occupant). */
  function LastPersonId(st: seq<Route>): Option<string> {
    match FindLast(st, IsPerson)
    case Some(r) => Some(ContentId(r))
    case None => None
  }

  /** The content id of the last movie or TV-show entry (the detail pane's occupant). */
  function LastDetailId(st: seq<Route>): Option<string> {
    match FindLast(st, IsPrimaryDetail)
    case Some(r) => Some(ContentId(r))
    case None => None
  }

  /** How many entries of `st` satisfy `p`. */
  function Count(st: seq<Route>, p: Route -> bool): (n: nat)
    ensures n <= |st|
    ensures n == 0 <==> forall i :: 0 <= i < |st| ==> !p(st[i])
  {
    if |st| == 0 then 0
    else (if p(st[0]) then 1 else 0) + Count(st[1..], p)
  }

  /** `st` with every entry satisfying `p` removed (Kotlin's `removeAll`). */
  function RemoveAll(st: seq<Route>, p: Route -> bool): (r: seq<Route>)
    ensures forall i :: 0 <= i < |r| ==> !p(r[i])
    ensures |r| == |st| - Count(st, p)
  {
    if |st| == 0 then []
    else if p(st[0]) then RemoveAll(st[1..], p)
    else [st[0]] + RemoveAll(st[1..], p)
  }

  /** `f` maps each position of `a` to a position of `b` holding the same entry,
      strictly increasingly: `a` is `b` with some entries deleted. */
  ghost predicate Embeds(a: seq<Route>, b: seq<Route>, f: seq<nat>) {
    && |f| == |a|
    && (forall i :: 0 <= i < |f| ==> f[i] < |b| && a[i] == b[f[i]])
    && (forall i, j :: 0 <= i < j < |f| ==> f[i] < f[j])
  }

  ghost predicate IsSubsequence(a: seq<Route>, b: seq<Route>) {
    exists f :: Embeds(a, b, f)
  }

  /** The embedding of `RemoveAll(st, p)` into `st`, one index per kept entry. */
  function KeptIndices(st: seq<Route>, p: Route -> bool): (f: seq<nat>)
    ensures forall i :: 0 <= i < |f| ==> f[i] < |st|
  {
    if |st| == 0 then []
    else
      var rest := KeptIndices(st[1..], p);
      var shifted := seq(|rest|, k requires 0 <= k < |rest| => rest[k] + 1);
      if p(st[0]) then shifted else [0] + shifted
  }

  /** The entries that survive `removeAll` keep their original relative order. */
  lemma {:induction false} RemoveAllIsSubsequence(st: seq<Route>, p: Route -> bool)
    ensures Embeds(RemoveAll(st, p), st, KeptIndices(st, p))
    ensures IsSubsequence(RemoveAll(st, p), st)
  {
    if |st| > 0 {
      RemoveAllIsSubsequence(st[1..], p);
      var rest := KeptIndices(st[1..], p);
      var shifted := seq(|rest|, k requires 0 <= k < |rest| => rest[k] + 1);
      assert Embeds(RemoveAll(st[1..], p), st[1..], rest);
      if p(st[0]) {
        assert Embeds(RemoveAll(st, p), st, shifted);
      } else {
        var r := RemoveAll(st, p);
        var f := [0] + shifted;
        assert r == [st[0]] + RemoveAll(st[1..], p);
        forall i | 0 <= i < |f|
          ensures f[i] < |st| && r[i] == st[f[i]]
        {
          if i > 0 {
            assert f[i] == rest[i - 1] + 1;
            assert r[i] == RemoveAll(st[1..], p)[i - 1];
          }
        }
        assert Embeds(r, st, f);
      }
    }
    assert Embeds(RemoveAll(st, p), st, KeptIndices(st, p));
  }

  /** `removeAll` works piecewise: removing from a concatenation removes from each part. */
  lemma {:induction false} RemoveAllDistributes(a: seq<Route>, b: seq<Route>, p: Route -> bool)
    ensures RemoveAll(a + b, p) == RemoveAll(a, p) + RemoveAll(b, p)
  {
    if |a| > 0 {
      assert (a + b)[1..] == a[1..] + b;
      RemoveAllDistributes(a[1..], b, p);
    } else {
      assert a + b == b;
    }
  }

  /** Nothing to remove leaves the list as it was. */
  lemma {:induction false} RemoveAllNothingToRemove(st: seq<Route>, p: Route -> bool)
    requires forall i :: 0 <= i < |st| ==> !p(st[i])
    ensures RemoveAll(st, p) == st
  {
    if |st| > 0 {
      RemoveAllNothingToRemove(st[1..], p);
    }
  }
}

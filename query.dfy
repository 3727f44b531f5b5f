/** Filtering a table the way a queryset `filter(...)` does: the ids (positions)
    of the rows that satisfy a condition, in table order. */
module Query {

  import opened Records

  /** The ids in `r` are strictly increasing, so none repeats. */
  ghost predicate Increasing(r: seq<nat>) {
    forall i, j :: 0 <= i < j < |r| ==> r[i] < r[j]
  }

  /** The ids of the rows of `s` that satisfy `p`. */
  function Where<T>(s: seq<T>, p: T -> bool): (r: seq<nat>)
    ensures forall k :: 0 <= k < |r| ==> r[k] < |s| && p(s[r[k]])
    ensures forall i :: 0 <= i < |s| && p(s[i]) ==> i in r
    ensures Increasing(r)
    decreases |s|
  {
    if s == [] then []
    else
      var init := Where(s[..|s| - 1], p);
      if p(s[|s| - 1]) then init + [|s| - 1] else init
  }

  /** The set of ids that `Where` is meant to list, stated independently of it. */
  ghost function IdSet<T>(s: seq<T>, p: T -> bool): set<nat> {
    set i: nat | i < |s| && p(s[i])
  }

  /** Inserting a row extends the filter result by that row's id exactly when it matches. */
  lemma WhereAppend<T>(s: seq<T>, x: T, p: T -> bool)
    ensures Where(s + [x], p) == Where(s, p) + (if p(x) then [|s|] else [])
  {
    assert (s + [x])[..|s|] == s;
  }

  /** `count()` on a filtered queryset: the length of `Where` is the number of matching rows. */
  lemma {:induction false} WhereCard<T>(s: seq<T>, p: T -> bool)
    ensures |Where(s, p)| == |IdSet(s, p)|
    decreases |s|
  {
    if s == [] {
      assert IdSet(s, p) == {};
    } else {
      var n := |s|;
      var init := s[..n - 1];
      WhereCard(init, p);
      var small, big := IdSet(init, p), IdSet(s, p);
      assert Where(s, p) == Where(init, p) + (if p(s[n - 1]) then [n - 1] else []);
      forall i: nat | i < n - 1
        ensures i in big <==> i in small
      {
        assert init[i] == s[i];
      }
      if p(s[n - 1]) {
        assert big == small + {n - 1};
      } else {
        assert big == small;
      }
    }
  }

  /** Two conditions that never hold together and both imply a third select at
      most as many rows together as the third does. */
  lemma {:induction false} WhereDisjointBound<T>(s: seq<T>, p: T -> bool, q: T -> bool, u: T -> bool)
    requires forall x :: p(x) ==> u(x)
    requires forall x :: q(x) ==> u(x)
    requires forall x :: !(p(x) && q(x))
    ensures |Where(s, p)| + |Where(s, q)| <= |Where(s, u)|
    decreases |s|
  {
    if s != [] {
      var n := |s|;
      WhereDisjointBound(s[..n - 1], p, q, u);
      var x := s[n - 1];
      assert p(x) ==> u(x);
      assert q(x) ==> u(x);
      assert !(p(x) && q(x));
    }
  }

  /** `latest(key)` on a filtered queryset: the id of a matching row whose key is
      the largest, or None when no row matches. Of rows with equal keys the
      later one is taken. */
  function Latest<T>(s: seq<T>, p: T -> bool, key: T -> nat): (r: Option<nat>)
    ensures r.None? <==> forall i :: 0 <= i < |s| ==> !p(s[i])
    ensures r.Some? ==> r.value < |s| && p(s[r.value])
    ensures r.Some? ==> forall i :: 0 <= i < |s| && p(s[i]) ==> key(s[i]) <= key(s[r.value])
    decreases |s|
  {
    if s == [] then None
    else
      var n := |s| - 1;
      var rest := Latest(s[..n], p, key);
      if !p(s[n]) then rest
      else if rest.Some? && key(s[n]) < key(s[rest.value]) then rest
      else Some(n)
  }

  /** `earliest(key)` on a filtered queryset: the id of a matching row whose key
      is the smallest, or None when no row matches. */
  function Earliest<T>(s: seq<T>, p: T -> bool, key: T -> nat): (r: Option<nat>)
    ensures r.None? <==> forall i :: 0 <= i < |s| ==> !p(s[i])
    ensures r.Some? ==> r.value < |s| && p(s[r.value])
    ensures r.Some? ==> forall i :: 0 <= i < |s| && p(s[i]) ==> key(s[r.value]) <= key(s[i])
    decreases |s|
  {
    if s == [] then None
    else
      var n := |s| - 1;
      var rest := Earliest(s[..n], p, key);
      if !p(s[n]) then rest
      else if rest.Some? && key(s[rest.value]) <= key(s[n]) then rest
      else Some(n)
  }

  /** A row inserted with a key above every existing key becomes the latest of
      every filter it matches. */
  lemma LatestAppend<T>(s: seq<T>, x: T, p: T -> bool, key: T -> nat)
    requires p(x)
    requires forall i :: 0 <= i < |s| ==> key(s[i]) < key(x)
    ensures Latest(s + [x], p, key) == Some(|s|)
  {
    assert (s + [x])[..|s|] == s;
  }

  /** A row that does not match leaves the latest match where it was. */
  lemma LatestAppendOther<T>(s: seq<T>, x: T, p: T -> bool, key: T -> nat)
    requires !p(x)
    ensures Latest(s + [x], p, key) == Latest(s, p, key)
  {
    assert (s + [x])[..|s|] == s;
  }
}

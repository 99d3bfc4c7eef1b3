/**
 * The three query shapes every table uses: `.filter(...).all()`,
 * `.filter(...).first()` and `.offset(skip).limit(limit)`. Rows are kept in
 * insertion order, which is the order the queries see them in.
 */
module Query {
  import opened Wrappers

  /** The rows that satisfy `p`, in their original order. */
  function Filter<T>(s: seq<T>, p: T -> bool): (r: seq<T>)
    ensures |r| <= |s|
    ensures forall k :: 0 <= k < |r| ==> r[k] in s && p(r[k])
    ensures forall i :: 0 <= i < |s| && p(s[i]) ==> s[i] in r
  {
    if s == [] then []
    else (if p(s[0]) then [s[0]] else []) + Filter(s[1..], p)
  }

  /** The position of the first row that satisfies `p`. */
  function FirstIndex<T>(s: seq<T>, p: T -> bool): (r: Option<nat>)
    ensures r.None? <==> forall i :: 0 <= i < |s| ==> !p(s[i])
    ensures r.Some? ==> r.value < |s| && p(s[r.value]) && forall j :: 0 <= j < r.value ==> !p(s[j])
  {
    if s == [] then None
    else if p(s[0]) then Some(0)
    else match FirstIndex(s[1..], p)
      case None => None
      case Some(k) => Some(k + 1)
  }

  /** `.first()`: the first row that satisfies `p`, if any. */
  function First<T>(s: seq<T>, p: T -> bool): (r: Option<T>)
    ensures r.None? <==> forall i :: 0 <= i < |s| ==> !p(s[i])
    ensures r.Some? ==> p(r.value) && r.value in s
    ensures r.Some? ==> exists i :: 0 <= i < |s| && s[i] == r.value && forall j :: 0 <= j < i ==> !p(s[j])
  {
    match FirstIndex(s, p)
    case None => None
    case Some(k) => Some(s[k])
  }

  /** A row that satisfies `p` with none before it is the one `.first()` returns. */
  lemma FirstIs<T>(s: seq<T>, p: T -> bool, k: nat)
    requires k < |s| && p(s[k]) && forall j :: 0 <= j < k ==> !p(s[j])
    ensures FirstIndex(s, p) == Some(k)
    ensures First(s, p) == Some(s[k])
  {
  }

  /** Appending a row changes what `.first()` finds only when nothing before it matched. */
  lemma FirstOfAppend<T>(s: seq<T>, x: T, p: T -> bool)
    ensures First(s, p).Some? ==> First(s + [x], p) == First(s, p)
    ensures First(s, p).None? ==> First(s + [x], p) == (if p(x) then Some(x) else None)
  {
    match FirstIndex(s, p)
    case None =>
      if p(x) {
        FirstIs(s + [x], p, |s|);
      } else {
        assert forall i :: 0 <= i < |s + [x]| ==> !p((s + [x])[i]) by {
          forall i | 0 <= i < |s + [x]| ensures !p((s + [x])[i]) {
            if i < |s| { assert (s + [x])[i] == s[i]; }
          }
        }
      }
    case Some(k) =>
      FirstIs(s + [x], p, k);
  }

  /** `.offset(skip).limit(limit)`: at most `limit` rows, starting at row `skip`. */
  function Window<T>(s: seq<T>, skip: nat, limit: nat): (r: seq<T>)
    ensures |r| <= limit && |r| <= |s|
    ensures skip + limit <= |s| ==> |r| == limit
    ensures skip <= |s| && |s| < skip + limit ==> |r| == |s| - skip
    ensures forall k :: 0 <= k < |r| ==> skip + k < |s| && r[k] == s[skip + k]
    ensures IsWindow(r, s, skip, limit)
  {
    if skip >= |s| then []
    else s[skip..if skip + limit <= |s| then skip + limit else |s|]
  }

  /**
   * `r` is the page `.offset(skip).limit(limit)` of `s`: empty past the end,
   * otherwise `limit` rows or the rest of `s`, whichever is shorter, each the
   * row at its position counted from `skip`.
   */
  ghost predicate IsWindow<T>(r: seq<T>, s: seq<T>, skip: nat, limit: nat) {
    && (skip >= |s| ==> r == [])
    && (skip < |s| ==> |r| == if skip + limit <= |s| then limit else |s| - skip)
    && forall k :: 0 <= k < |r| ==> skip + k < |s| && r[k] == s[skip + k]
  }

  /** A page is determined by the rows, the offset and the limit. */
  lemma WindowIsUnique<T>(r1: seq<T>, r2: seq<T>, s: seq<T>, skip: nat, limit: nat)
    requires IsWindow(r1, s, skip, limit) && IsWindow(r2, s, skip, limit)
    ensures r1 == r2
  {
  }

  /** No two rows share a key. */
  predicate DistinctBy<T, K(==)>(s: seq<T>, key: T -> K) {
    forall i, j :: 0 <= i < j < |s| ==> key(s[i]) != key(s[j])
  }

  /** Filtering a table keeps its key column unique. */
  lemma {:induction false} FilterKeepsDistinct<T, K>(s: seq<T>, p: T -> bool, key: T -> K)
    requires DistinctBy(s, key)
    ensures DistinctBy(Filter(s, p), key)
  {
    if s != [] {
      FilterKeepsDistinct(s[1..], p, key);
      var tail := Filter(s[1..], p);
      forall k | 0 <= k < |tail| ensures key(tail[k]) != key(s[0]) {
        var i :| 0 <= i < |s[1..]| && s[1..][i] == tail[k];
        assert s[i + 1] == tail[k];
      }
    }
  }
}

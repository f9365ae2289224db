/**
 * The whole-collection operations every view applies to its records: `filter`,
 * `find` and `map` with an id test, and prepend. Records of every kind are
 * reached through an `idOf` projection, so one definition serves projects, blog
 * posts and testimonials.
 */
module Collections {
  import opened Wrappers

  /** `xs.filter(keep)`: the elements that pass, in their original order. */
  function Filter<T(==)>(xs: seq<T>, keep: T -> bool): (r: seq<T>)
    ensures |r| <= |xs|
    ensures forall x :: x in r ==> x in xs && keep(x)
    ensures forall x :: x in xs && keep(x) ==> x in r
    ensures (forall x :: x in xs ==> keep(x)) ==> r == xs
  {
    if xs == [] then []
    else (if keep(xs[0]) then [xs[0]] else []) + Filter(xs[1..], keep)
  }

  /** Filtering distributes over concatenation: the survivors keep their relative order. */
  lemma {:induction false} FilterConcat<T>(a: seq<T>, b: seq<T>, keep: T -> bool)
    ensures Filter(a + b, keep) == Filter(a, keep) + Filter(b, keep)
  {
    if a == [] {
      assert a + b == b;
    } else {
      assert (a + b)[1..] == a[1..] + b;
      FilterConcat(a[1..], b, keep);
    }
  }

  /** The ids of a collection, position by position. */
  function Ids<T(==)>(xs: seq<T>, idOf: T -> string): (r: seq<string>)
    ensures |r| == |xs|
    ensures forall i :: 0 <= i < |xs| ==> r[i] == idOf(xs[i])
  {
    seq(|xs|, i requires 0 <= i < |xs| => idOf(xs[i]))
  }

  /** No two records of the collection share an id. */
  ghost predicate DistinctIds<T>(xs: seq<T>, idOf: T -> string) {
    forall i, j :: 0 <= i < j < |xs| ==> idOf(xs[i]) != idOf(xs[j])
  }

  /** `xs.filter(x => x.id !== id)`. */
  function RemoveId<T(==)>(xs: seq<T>, idOf: T -> string, id: string): (r: seq<T>)
    ensures forall x :: x in r ==> x in xs && idOf(x) != id
    ensures forall x :: x in xs && idOf(x) != id ==> x in r
    ensures id !in Ids(r, idOf)
    ensures (forall x :: x in xs ==> idOf(x) != id) ==> r == xs
  {
    var r := Filter(xs, x => idOf(x) != id);
    assert forall k :: 0 <= k < |r| ==> r[k] in r;
    r
  }

  /** A collection without duplicate ids has none in its tail either. */
  lemma TailKeepsDistinct<T>(xs: seq<T>, idOf: T -> string)
    requires xs != [] && DistinctIds(xs, idOf)
    ensures DistinctIds(xs[1..], idOf)
  {
    forall i, j | 0 <= i < j < |xs| - 1 ensures idOf(xs[1..][i]) != idOf(xs[1..][j]) {
      assert xs[1..][i] == xs[i + 1] && xs[1..][j] == xs[j + 1];
    }
  }

  /** Putting a record in front of a collection that lacks its id keeps the ids distinct. */
  lemma ConsKeepsDistinct<T>(x: T, xs: seq<T>, idOf: T -> string)
    requires DistinctIds(xs, idOf)
    requires forall k :: 0 <= k < |xs| ==> idOf(xs[k]) != idOf(x)
    ensures DistinctIds([x] + xs, idOf)
  {
    var r := [x] + xs;
    forall i, j | 0 <= i < j < |r| ensures idOf(r[i]) != idOf(r[j]) {
      assert r[j] == xs[j - 1];
      if i > 0 { assert r[i] == xs[i - 1]; }
    }
  }

  /** Filtering a collection without duplicate ids leaves one without duplicates. */
  lemma {:induction false} FilterKeepsDistinct<T>(xs: seq<T>, keep: T -> bool, idOf: T -> string)
    requires DistinctIds(xs, idOf)
    ensures DistinctIds(Filter(xs, keep), idOf)
  {
    if xs != [] {
      TailKeepsDistinct(xs, idOf);
      FilterKeepsDistinct(xs[1..], keep, idOf);
      var tail := Filter(xs[1..], keep);
      if keep(xs[0]) {
        forall k | 0 <= k < |tail| ensures idOf(tail[k]) != idOf(xs[0]) {
          assert tail[k] in xs[1..];
          var m :| 0 <= m < |xs[1..]| && xs[1..][m] == tail[k];
          assert xs[m + 1] == tail[k];
        }
        ConsKeepsDistinct(xs[0], tail, idOf);
      }
    }
  }

  /** Removing an id from a collection without duplicate ids leaves one without duplicates. */
  lemma RemoveIdKeepsDistinct<T>(xs: seq<T>, idOf: T -> string, id: string)
    requires DistinctIds(xs, idOf)
    ensures DistinctIds(RemoveId(xs, idOf, id), idOf)
  {
    FilterKeepsDistinct(xs, x => idOf(x) != id, idOf);
  }

  /**
   * `xs.find(x => x.id === id)`: the first record with that id, or None when no
   * record has it.
   */
  function FindId<T(==)>(xs: seq<T>, idOf: T -> string, id: string): (r: Option<T>)
    ensures r.None? <==> forall x :: x in xs ==> idOf(x) != id
    ensures r.Some? ==> exists k :: 0 <= k < |xs| && xs[k] == r.value && idOf(xs[k]) == id
                          && forall j :: 0 <= j < k ==> idOf(xs[j]) != id
  {
    if xs == [] then None
    else if idOf(xs[0]) == id then Some(xs[0])
    else
      var r := FindId(xs[1..], idOf, id);
      assert forall x :: x in xs ==> x == xs[0] || x in xs[1..];
      if r.Some? then
        var k :| 0 <= k < |xs[1..]| && xs[1..][k] == r.value && idOf(xs[1..][k]) == id
                 && forall j :: 0 <= j < k ==> idOf(xs[1..][j]) != id;
        assert xs[k + 1] == r.value;
        assert forall j :: 1 <= j < k + 1 ==> xs[j] == xs[1..][j - 1];
        r
      else r
  }

  /**
   * `xs.map(x => x.id === id ? f(x) : x)`: every record with that id is
   * replaced by `f` of it, every other record stays where it was.
   */
  function ReplaceId<T(==)>(xs: seq<T>, idOf: T -> string, id: string, f: T -> T): (r: seq<T>)
    ensures |r| == |xs|
    ensures forall i :: 0 <= i < |xs| ==> r[i] == if idOf(xs[i]) == id then f(xs[i]) else xs[i]
  {
    seq(|xs|, i requires 0 <= i < |xs| => if idOf(xs[i]) == id then f(xs[i]) else xs[i])
  }

  /** Replacing an id that no record has changes nothing. */
  lemma ReplaceMissingIdIsIdentity<T>(xs: seq<T>, idOf: T -> string, id: string, f: T -> T)
    requires id !in Ids(xs, idOf)
    ensures ReplaceId(xs, idOf, id, f) == xs
  {
    var r := ReplaceId(xs, idOf, id, f);
    forall i | 0 <= i < |xs| ensures r[i] == xs[i] {
      assert Ids(xs, idOf)[i] == idOf(xs[i]);
    }
  }

  /** When `f` keeps the id it is given, replacing keeps every id in place, and so keeps them distinct. */
  lemma ReplaceIdKeepsIds<T>(xs: seq<T>, idOf: T -> string, id: string, f: T -> T)
    requires forall x :: idOf(x) == id ==> idOf(f(x)) == id
    ensures Ids(ReplaceId(xs, idOf, id, f), idOf) == Ids(xs, idOf)
    ensures DistinctIds(xs, idOf) ==> DistinctIds(ReplaceId(xs, idOf, id, f), idOf)
  {
    var r := ReplaceId(xs, idOf, id, f);
    assert forall i :: 0 <= i < |xs| ==> idOf(r[i]) == idOf(xs[i]);
  }

  /** Prepending a record whose id is fresh keeps the ids distinct, and adds exactly that id in front. */
  lemma PrependFreshKeepsDistinct<T>(x: T, xs: seq<T>, idOf: T -> string)
    requires DistinctIds(xs, idOf)
    requires idOf(x) !in Ids(xs, idOf)
    ensures DistinctIds([x] + xs, idOf)
    ensures Ids([x] + xs, idOf) == [idOf(x)] + Ids(xs, idOf)
  {
    var r := [x] + xs;
    forall i, j | 0 <= i < j < |r| ensures idOf(r[i]) != idOf(r[j]) {
      if i == 0 {
        assert r[j] == xs[j - 1];
        assert Ids(xs, idOf)[j - 1] == idOf(xs[j - 1]);
      } else {
        assert r[i] == xs[i - 1] && r[j] == xs[j - 1];
      }
    }
  }

  /** `xs.slice(0, n)`: the first `min(n, |xs|)` records. */
  function Take<T(==)>(xs: seq<T>, n: nat): (r: seq<T>)
    ensures |r| == if |xs| < n then |xs| else n
    ensures r <= xs
  {
    if |xs| <= n then xs else xs[..n]
  }
}

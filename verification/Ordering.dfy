/** The order of Go's sort.Strings, and the lists it produces from map keys. */
module Ordering {
  import opened Prelude

  /** Strict lexicographic order. */
  predicate Less(a: string, b: string) {
    if |b| == 0 then false
    else if |a| == 0 then true
    else a[0] < b[0] || (a[0] == b[0] && Less(a[1..], b[1..]))
  }

  predicate SmallerAt(a: string, b: string, i: nat) {
    i < |a| && i < |b| && a[..i] == b[..i] && a[i] < b[i]
  }

  lemma SmallerTail(a: string, b: string, i: nat)
    requires |a| > 0 && |b| > 0 && a[0] == b[0]
    ensures SmallerAt(a, b, i + 1) <==> SmallerAt(a[1..], b[1..], i)
  {
    if i < |a[1..]| && i < |b[1..]| {
      assert a[..i + 1] == [a[0]] + a[1..][..i] && b[..i + 1] == [b[0]] + b[1..][..i];
      assert a[1..][..i] == a[..i + 1][1..] && b[1..][..i] == b[..i + 1][1..];
    }
  }

  /** a ends where b goes on, or has the smaller character at the first difference. */
  lemma {:induction false} LessIff(a: string, b: string)
    ensures Less(a, b) <==> a < b || exists i: nat :: SmallerAt(a, b, i)
  {
    if |a| > 0 && |b| > 0 && a[0] == b[0] {
      LessIff(a[1..], b[1..]);
      assert a < b <==> a[1..] < b[1..] by {
        assert a == [a[0]] + a[1..] && b == [b[0]] + b[1..];
      }
      if i: nat :| SmallerAt(a, b, i) {
        SmallerTail(a, b, i - 1);
      }
      if i: nat :| SmallerAt(a[1..], b[1..], i) {
        SmallerTail(a, b, i);
      }
    } else if |a| > 0 && |b| > 0 && a[0] < b[0] {
      assert SmallerAt(a, b, 0);
    }
  }

  lemma {:induction false} LessTransitive(a: string, b: string, c: string)
    requires Less(a, b) && Less(b, c)
    ensures Less(a, c)
  {
    if |a| > 0 && a[0] == b[0] == c[0] {
      LessTransitive(a[1..], b[1..], c[1..]);
    }
  }

  lemma {:induction false} LessIrreflexive(a: string)
    ensures !Less(a, a)
  {
    if |a| > 0 {
      LessIrreflexive(a[1..]);
    }
  }

  lemma {:induction false} LessTotal(a: string, b: string)
    ensures Less(a, b) || Less(b, a) || a == b
  {
    if |a| > 0 && |b| > 0 && a[0] == b[0] {
      LessTotal(a[1..], b[1..]);
      assert a == [a[0]] + a[1..] && b == [b[0]] + b[1..];
    }
  }

  predicate StrictlySorted(xs: seq<string>) {
    forall i, j :: 0 <= i < j < |xs| ==> Less(xs[i], xs[j])
  }

  predicate NoDuplicates<T(==)>(xs: seq<T>) {
    forall i, j :: 0 <= i < j < |xs| ==> xs[i] != xs[j]
  }

  /** A strictly sorted list is determined by its elements. */
  lemma {:induction false} SortedListingIsUnique(xs: seq<string>, ys: seq<string>)
    requires StrictlySorted(xs) && StrictlySorted(ys)
    requires Elems(xs) == Elems(ys)
    ensures xs == ys
    decreases |xs|
  {
    ElemsEmpty(xs);
    ElemsEmpty(ys);
    if xs != [] {
      assert ys[0] in Elems(xs) && xs[0] in Elems(ys);
      FirstIsLeast(xs, ys[0]);
      FirstIsLeast(ys, xs[0]);
      if xs[0] != ys[0] {
        LessTransitive(xs[0], ys[0], xs[0]);
        LessIrreflexive(xs[0]);
      }
      TailElems(xs);
      TailElems(ys);
      SortedListingIsUnique(xs[1..], ys[1..]);
      assert xs == [xs[0]] + xs[1..] && ys == [ys[0]] + ys[1..];
    }
  }

  lemma ElemsEmpty<T>(xs: seq<T>)
    ensures xs == [] <==> Elems(xs) == {}
  {
    if xs != [] {
      assert xs[0] in Elems(xs);
    }
  }

  lemma ElemsAppend<T>(xs: seq<T>, x: T)
    ensures Elems(xs + [x]) == Elems(xs) + {x}
  {
  }

  lemma FirstIsLeast(xs: seq<string>, x: string)
    requires StrictlySorted(xs) && x in xs
    ensures xs[0] == x || Less(xs[0], x)
  {
  }

  lemma TailElems(xs: seq<string>)
    requires StrictlySorted(xs) && xs != []
    ensures StrictlySorted(xs[1..])
    ensures Elems(xs[1..]) == Elems(xs) - {xs[0]}
  {
    forall x | x in Elems(xs) - {xs[0]} ensures x in xs[1..] {
      var i :| 0 <= i < |xs| && xs[i] == x;
      assert xs[1..][i - 1] == x;
    }
    forall x | x in xs[1..] ensures x in xs && x != xs[0] {
      var i :| 0 <= i < |xs[1..]| && xs[1..][i] == x;
      assert xs[i + 1] == x;
      LessIrreflexive(x);
    }
  }

  /** Inserts x before the first element that is not below it. */
  function Insert(x: string, xs: seq<string>): (r: seq<string>)
    ensures multiset(r) == multiset(xs) + multiset{x}
    ensures Elems(r) == Elems(xs) + {x}
  {
    if xs == [] || !Less(xs[0], x) then
      assert [x] + xs == [x] + xs;
      [x] + xs
    else
      assert xs == [xs[0]] + xs[1..];
      var r := [xs[0]] + Insert(x, xs[1..]);
      assert Elems(r) == {xs[0]} + Elems(Insert(x, xs[1..]));
      assert Elems(xs) == {xs[0]} + Elems(xs[1..]);
      r
  }

  lemma {:induction false} InsertKeepsSorted(x: string, xs: seq<string>)
    requires StrictlySorted(xs) && x !in xs
    ensures StrictlySorted(Insert(x, xs))
  {
    var r := Insert(x, xs);
    if xs == [] {
    } else if !Less(xs[0], x) {
      LessTotal(x, xs[0]);
      forall j | 0 < j < |r| ensures Less(x, r[j]) {
        if j > 1 {
          LessTransitive(x, xs[0], xs[j - 1]);
        }
      }
    } else {
      InsertKeepsSorted(x, xs[1..]);
      forall j | 0 < j < |r| ensures Less(xs[0], r[j]) {
        assert r[j] in Elems(Insert(x, xs[1..]));
        assert r[j] == x || r[j] in xs[1..];
      }
    }
  }

  /** What sort.Strings leaves in a slice that held xs. */
  function SortStrings(xs: seq<string>): (r: seq<string>)
    ensures multiset(r) == multiset(xs)
    ensures Elems(r) == Elems(xs)
  {
    if xs == [] then []
    else
      assert xs == [xs[0]] + xs[1..];
      assert Elems(xs) == {xs[0]} + Elems(xs[1..]);
      Insert(xs[0], SortStrings(xs[1..]))
  }

  lemma {:induction false} SortStringsSorts(xs: seq<string>)
    requires NoDuplicates(xs)
    ensures StrictlySorted(SortStrings(xs))
  {
    if xs != [] {
      SortStringsSorts(xs[1..]);
      assert xs[0] !in Elems(xs[1..]);
      InsertKeepsSorted(xs[0], SortStrings(xs[1..]));
    }
  }

  /** The strictly sorted list of a finite set of names. */
  ghost function Listing(names: set<string>): (r: seq<string>)
    ensures StrictlySorted(r)
    ensures Elems(r) == names
  {
    if names == {} then []
    else
      var x :| x in names;
      var rest := Listing(names - {x});
      assert x !in Elems(rest);
      InsertKeepsSorted(x, rest);
      Insert(x, rest)
  }

  /** Whatever order a loop collected distinct names in, sorting gives the one listing. */
  lemma SortStringsIsListing(xs: seq<string>)
    requires NoDuplicates(xs)
    ensures SortStrings(xs) == Listing(Elems(xs))
  {
    SortStringsSorts(xs);
    SortedListingIsUnique(SortStrings(xs), Listing(Elems(xs)));
  }
}

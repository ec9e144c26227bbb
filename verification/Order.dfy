/** The bytewise order of the canonical encoding, and sorting by it. */
module Order {
  import opened Bytes

  /** Strict lexicographic order on unsigned bytes; a proper prefix is smaller. */
  predicate Less(x: Str, y: Str) {
    y != [] && (x == [] || x[0] < y[0] || (x[0] == y[0] && Less(x[1..], y[1..])))
  }

  predicate Leq(x: Str, y: Str) {
    x == y || Less(x, y)
  }

  ghost predicate Sorted(s: seq<Str>) {
    forall i, j :: 0 <= i < j < |s| ==> Leq(s[i], s[j])
  }

  lemma {:induction false} LessIrreflexive(x: Str)
    ensures !Less(x, x)
  {
    if x != [] { LessIrreflexive(x[1..]); }
  }

  lemma {:induction false} LessTransitive(x: Str, y: Str, z: Str)
    requires Less(x, y) && Less(y, z)
    ensures Less(x, z)
  {
    if x != [] && x[0] == y[0] == z[0] { LessTransitive(x[1..], y[1..], z[1..]); }
  }

  lemma {:induction false} LessTotal(x: Str, y: Str)
    ensures Less(x, y) || x == y || Less(y, x)
  {
    if x != [] && y != [] && x[0] == y[0] {
      LessTotal(x[1..], y[1..]);
      assert x == [x[0]] + x[1..] && y == [y[0]] + y[1..];
    }
  }

  lemma LeqTransitive(x: Str, y: Str, z: Str)
    requires Leq(x, y) && Leq(y, z)
    ensures Leq(x, z)
  {
    if x != y && y != z { LessTransitive(x, y, z); }
  }

  lemma LeqAntisymmetric(x: Str, y: Str)
    requires Leq(x, y) && Leq(y, x)
    ensures x == y
  {
    if x != y {
      LessTransitive(x, y, x);
      LessIrreflexive(x);
    }
  }

  /** A shared prefix does not matter to the comparison. */
  lemma {:induction false} LessAfterPrefix(x: Str, y: Str, i: nat)
    requires i <= |x| && i <= |y| && x[..i] == y[..i]
    ensures Less(x, y) == Less(x[i..], y[i..])
  {
    if i == 0 {
      assert x[0..] == x && y[0..] == y;
    } else {
      assert x[0] == x[..i][0] == y[..i][0] == y[0];
      assert x[1..][..i - 1] == x[..i][1..] && y[1..][..i - 1] == y[..i][1..];
      LessAfterPrefix(x[1..], y[1..], i - 1);
      assert x[1..][i - 1..] == x[i..] && y[1..][i - 1..] == y[i..];
    }
  }

  /** The comparator handed to qsort: walk both strings up to a difference or a
      terminator and subtract the bytes found there. */
  method CmpBytewise(x: Str, y: Str) returns (r: int)
    ensures r < 0 <==> Less(x, y)
    ensures r == 0 <==> x == y
    ensures r > 0 <==> Less(y, x)
  {
    var i := 0;
    while At(x, i) != '\0' && At(y, i) != '\0'
      invariant i <= |x| && i <= |y| && x[..i] == y[..i]
      decreases |x| - i
    {
      if At(x, i) != At(y, i) {
        LessAfterPrefix(x, y, i);
        LessAfterPrefix(y, x, i);
        return At(x, i) as int - At(y, i) as int;
      }
      i := i + 1;
    }
    r := At(x, i) as int - At(y, i) as int;
    LessAfterPrefix(x, y, i);
    LessAfterPrefix(y, x, i);
    assert i == |x| || i == |y|;
    assert r == 0 ==> x == x[..i] && y == y[..i];
    LessIrreflexive(x);
  }

  // ---- sorting ----------------------------------------------------------

  function Insert(x: Str, s: seq<Str>): seq<Str> {
    if s == [] || Leq(x, s[0]) then [x] + s else [s[0]] + Insert(x, s[1..])
  }

  function Sort(s: seq<Str>): seq<Str> {
    if s == [] then [] else Insert(s[0], Sort(s[1..]))
  }

  lemma {:induction false} InsertKeepsElements(x: Str, s: seq<Str>)
    ensures multiset(Insert(x, s)) == multiset{x} + multiset(s)
  {
    if s != [] && !Leq(x, s[0]) {
      InsertKeepsElements(x, s[1..]);
      assert s == [s[0]] + s[1..];
    }
  }

  lemma {:induction false} InsertKeepsSorted(x: Str, s: seq<Str>)
    requires Sorted(s)
    ensures Sorted(Insert(x, s))
  {
    if s == [] {
    } else if Leq(x, s[0]) {
      forall j | 0 <= j < |s| ensures Leq(x, s[j]) {
        if j > 0 { LeqTransitive(x, s[0], s[j]); }
      }
    } else {
      InsertKeepsSorted(x, s[1..]);
      InsertKeepsElements(x, s[1..]);
      LessTotal(x, s[0]);
      var t := Insert(x, s[1..]);
      forall j | 0 <= j < |t| ensures Leq(s[0], t[j]) {
        assert t[j] in multiset(t);
        assert t[j] in multiset{x} + multiset(s[1..]);
      }
    }
  }

  /** Sort yields a sorted permutation of its input. */
  lemma {:induction false} SortIsSortedPermutation(s: seq<Str>)
    ensures Sorted(Sort(s))
    ensures multiset(Sort(s)) == multiset(s)
    ensures |Sort(s)| == |s|
  {
    if s != [] {
      SortIsSortedPermutation(s[1..]);
      InsertKeepsSorted(s[0], Sort(s[1..]));
      InsertKeepsElements(s[0], Sort(s[1..]));
      assert s == [s[0]] + s[1..];
    }
    assert |multiset(Sort(s))| == |multiset(s)|;
  }

  /** Two sorted arrangements of one multiset start with the same string. */
  lemma SortedHeadsAgree(a: seq<Str>, b: seq<Str>)
    requires Sorted(a) && Sorted(b) && multiset(a) == multiset(b) && a != [] && b != []
    ensures a[0] == b[0]
  {
    hide Leq;
    assert a[0] in multiset(b) && b[0] in multiset(a);
    var i :| 0 <= i < |b| && b[i] == a[0];
    var j :| 0 <= j < |a| && a[j] == b[0];
    if i > 0 && j > 0 {
      LeqAntisymmetric(a[0], b[0]);
    }
  }

  /** A multiset has one sorted arrangement. */
  lemma {:induction false} SortedPermutationIsUnique(a: seq<Str>, b: seq<Str>)
    requires Sorted(a) && Sorted(b) && multiset(a) == multiset(b)
    ensures a == b
    decreases |a|
  {
    hide Leq;
    assert |multiset(a)| == |a| && |multiset(b)| == |b|;
    if a != [] {
      SortedHeadsAgree(a, b);
      assert a == [a[0]] + a[1..] && b == [b[0]] + b[1..];
      assert multiset(a[1..]) == multiset(a) - multiset{a[0]};
      assert multiset(b[1..]) == multiset(b) - multiset{b[0]};
      SortedPermutationIsUnique(a[1..], b[1..]);
    }
  }

  /** Sorting forgets exactly the order of its input. */
  lemma SortEqualIffSameMultiset(a: seq<Str>, b: seq<Str>)
    ensures Sort(a) == Sort(b) <==> multiset(a) == multiset(b)
  {
    SortIsSortedPermutation(a);
    SortIsSortedPermutation(b);
    if multiset(a) == multiset(b) {
      SortedPermutationIsUnique(Sort(a), Sort(b));
    }
  }

  lemma MembersAreMultisetMembers<T>(a: seq<T>, x: T)
    ensures x in a <==> x in multiset(a)
  {
  }

  lemma {:induction false} NoDupMultiplicity<T>(a: seq<T>, x: T)
    requires NoDup(a)
    ensures multiset(a)[x] == if x in a then 1 else 0
  {
    if a != [] {
      assert a == [a[0]] + a[1..];
      NoDupMultiplicity(a[1..], x);
    }
  }

  /** For lists without duplicates, sorting keeps exactly the set of elements. */
  lemma SortEqualIffSameSet(a: seq<Str>, b: seq<Str>)
    requires NoDup(a) && NoDup(b)
    ensures Sort(a) == Sort(b) <==> Elems(a) == Elems(b)
  {
    SortEqualIffSameMultiset(a, b);
    forall x ensures multiset(a)[x] == (if x in a then 1 else 0) { NoDupMultiplicity(a, x); }
    forall x ensures multiset(b)[x] == (if x in b then 1 else 0) { NoDupMultiplicity(b, x); }
    if Elems(a) == Elems(b) {
      forall x ensures x in a <==> x in b {
        assert x in Elems(a) <==> x in Elems(b);
      }
    } else if multiset(a) == multiset(b) {
      forall x ensures x in Elems(a) <==> x in Elems(b) {
        assert x in multiset(a) <==> x in multiset(b);
      }
      assert false;
    }
  }

  /** The C library's qsort, called with CmpBytewise. Only what the library promises
      matters here: the array is left in ascending order, holding the same strings. */
  method QSort(a: array<Str>)
    modifies a
    ensures Sorted(a[..]) && multiset(a[..]) == multiset(old(a[..]))
    ensures a[..] == Sort(old(a[..]))
  {
    var was := a[..];
    var sorted := Sort(was);
    SortIsSortedPermutation(was);
    for i := 0 to a.Length
      invariant forall k :: 0 <= k < i ==> a[k] == sorted[k]
    {
      a[i] := sorted[i];
    }
    assert a[..] == sorted;
  }
}

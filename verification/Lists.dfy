/** Delimiter-joined lists: writing them and taking them apart again. */
module Lists {
  import opened Bytes

  function Join(xs: seq<Str>, d: Chr): Str {
    if xs == [] then []
    else if |xs| == 1 then xs[0]
    else xs[0] + [d] + Join(xs[1..], d)
  }

  /** The delimiter-separated pieces of a string; there is always at least one. */
  function Pieces(s: Str, d: Chr): (r: seq<Str>)
    ensures r != []
  {
    if s == [] then [[]]
    else
      var rest := Pieces(s[1..], d);
      if s[0] == d then [[]] + rest else [[s[0]] + rest[0]] + rest[1..]
  }

  /** Splitting as the preview does it: the empty string has no elements. */
  function Split(s: Str, d: Chr): seq<Str> {
    if s == [] then [] else Pieces(s, d)
  }

  ghost predicate Free(xs: seq<Str>, d: Chr) {
    forall i :: 0 <= i < |xs| ==> d !in xs[i]
  }

  lemma {:induction false} PiecesOfFree(x: Str, d: Chr)
    requires d !in x
    ensures Pieces(x, d) == [x]
  {
    if x != [] {
      PiecesOfFree(x[1..], d);
      assert x == [x[0]] + x[1..];
    }
  }

  lemma {:induction false} PiecesAfter(x: Str, rest: Str, d: Chr)
    requires d !in x
    ensures Pieces(x + [d] + rest, d) == [x] + Pieces(rest, d)
  {
    var s := x + [d] + rest;
    if x == [] {
      assert s[1..] == rest;
    } else {
      PiecesAfter(x[1..], rest, d);
      assert s[1..] == x[1..] + [d] + rest;
      assert x == [x[0]] + x[1..];
    }
  }

  /** Splitting undoes joining. */
  lemma {:induction false} PiecesOfJoin(xs: seq<Str>, d: Chr)
    requires xs != [] && Free(xs, d)
    ensures Pieces(Join(xs, d), d) == xs
  {
    if |xs| == 1 {
      PiecesOfFree(xs[0], d);
    } else {
      PiecesOfJoin(xs[1..], d);
      PiecesAfter(xs[0], Join(xs[1..], d), d);
      assert xs == [xs[0]] + xs[1..];
    }
  }

  /** With the empty string read as no elements at all, the one list that does not come
      back is the list holding a single empty string. */
  lemma SplitOfJoin(xs: seq<Str>, d: Chr)
    requires Free(xs, d)
    ensures Split(Join(xs, d), d) == if xs == [[]] then [] else xs
  {
    if xs != [] {
      PiecesOfJoin(xs, d);
      if Join(xs, d) == [] { assert Pieces(Join(xs, d), d) == [[]]; }
    }
  }

  /** Joining undoes splitting. */
  lemma {:induction false} JoinOfPieces(s: Str, d: Chr)
    ensures Join(Pieces(s, d), d) == s
    ensures Free(Pieces(s, d), d)
  {
    if s != [] {
      JoinOfPieces(s[1..], d);
      var rest := Pieces(s[1..], d);
      if s[0] == d {
        assert ([[]] + rest)[1..] == rest;
      } else {
        var r := [[s[0]] + rest[0]] + rest[1..];
        assert r[1..] == rest[1..];
        assert s == [s[0]] + s[1..];
        assert forall i :: 1 <= i < |r| ==> r[i] == rest[i];
      }
    }
  }

  /** The characters of a joined list are those of its elements, and the delimiter. */
  lemma {:induction false} JoinAvoids(xs: seq<Str>, d: Chr, c: Chr)
    requires c != d && Free(xs, c)
    ensures c !in Join(xs, d)
  {
    if |xs| > 1 {
      JoinAvoids(xs[1..], d, c);
      assert c !in xs[0];
    }
  }

  /** Length bookkeeping: any element, and any tail, is no longer than the whole. */
  lemma {:induction false} JoinLength(xs: seq<Str>, d: Chr, i: nat)
    requires i < |xs|
    ensures |xs[i]| <= |Join(xs, d)|
    ensures |xs| <= |Join(xs, d)| + 1
  {
    if |xs| > 1 {
      if i > 0 { JoinLength(xs[1..], d, i - 1); } else { JoinLength(xs[1..], d, 0); }
    }
  }

  /** Adding one element at the end of a joined list. */
  lemma {:induction false} JoinAppend(xs: seq<Str>, d: Chr, x: Str)
    ensures Join(xs + [x], d) == if xs == [] then x else Join(xs, d) + [d] + x
  {
    if |xs| == 1 {
      assert (xs + [x])[1..] == [x];
    } else if |xs| > 1 {
      assert (xs + [x])[1..] == xs[1..] + [x];
      JoinAppend(xs[1..], d, x);
      assert xs[0] + [d] + (Join(xs[1..], d) + [d] + x) == xs[0] + [d] + Join(xs[1..], d) + [d] + x;
    }
  }

  /** The text of the first `i` elements, as a left-to-right loop writes it. */
  function JoinTo(xs: seq<Str>, i: nat, d: Chr): Str
    requires i <= |xs|
  {
    if i == 0 then [] else if i == 1 then xs[0] else JoinTo(xs, i - 1, d) + [d] + xs[i - 1]
  }

  lemma {:induction false} JoinToIsJoin(xs: seq<Str>, i: nat, d: Chr)
    requires i <= |xs|
    ensures JoinTo(xs, i, d) == Join(xs[..i], d)
  {
    if i > 1 {
      JoinToIsJoin(xs, i - 1, d);
      assert xs[..i] == xs[..i - 1] + [xs[i - 1]];
      JoinAppend(xs[..i - 1], d, xs[i - 1]);
    }
  }

  lemma {:induction false} JoinToGrows(xs: seq<Str>, i: nat, j: nat, d: Chr)
    requires i <= j <= |xs|
    ensures |JoinTo(xs, i, d)| <= |JoinTo(xs, j, d)|
    decreases j
  {
    if i < j { JoinToGrows(xs, i, j - 1, d); }
  }

  lemma WholeJoin(xs: seq<Str>, d: Chr)
    ensures JoinTo(xs, |xs|, d) == Join(xs, d)
  {
    JoinToIsJoin(xs, |xs|, d);
    assert xs[..|xs|] == xs;
  }

  // ---- picking elements ---------------------------------------------------------

  /** Positions below `n`, ascending. */
  ghost predicate InOrder(at: seq<nat>, n: nat) {
    && (forall j :: 0 <= j < |at| ==> at[j] < n)
    && (forall j, k :: 0 <= j < k < |at| ==> at[j] < at[k])
  }

  lemma {:induction false} InOrderIsShort(at: seq<nat>, n: nat)
    requires InOrder(at, n)
    ensures |at| <= n
    decreases |at|
  {
    if at != [] {
      var m := |at| - 1;
      InOrderIsShort(at[..m], at[m]);
    }
  }

  /** The positions of the elements that satisfy `p`. */
  ghost function Where<T>(s: seq<T>, p: T -> bool): seq<nat> {
    if s == [] then []
    else
      var n := |s| - 1;
      Where(s[..n], p) + if p(s[n]) then [n] else []
  }

  lemma {:induction false} WhereIsExact<T>(s: seq<T>, p: T -> bool)
    ensures InOrder(Where(s, p), |s|)
    ensures forall i :: 0 <= i < |s| ==> (i in Where(s, p) <==> p(s[i]))
  {
    if s != [] {
      var n := |s| - 1;
      var before := Where(s[..n], p);
      WhereIsExact(s[..n], p);
      assert n in [n];
      forall i | 0 <= i < |s| ensures i in Where(s, p) <==> p(s[i]) {
        if i < n { assert s[..n][i] == s[i]; }
        if i in before { assert i < n; }
      }
    }
  }

  /** `out` holds the pieces of `s` that end before `start`. */
  ghost predicate Cut(s: Str, d: Chr, out: seq<Str>, start: nat) {
    start <= |s| && Pieces(s, d) == out + Pieces(s[start..], d)
  }

  lemma CutAtDelimiter(s: Str, d: Chr, out: seq<Str>, start: nat, i: nat)
    requires Cut(s, d, out, start) && start <= i < |s| && s[i] == d && d !in s[start..i]
    ensures Cut(s, d, out + [s[start..i]], i + 1)
  {
    PiecesAfter(s[start..i], s[i + 1..], d);
    assert s[start..] == s[start..i] + [d] + s[i + 1..];
    assert out + ([s[start..i]] + Pieces(s[i + 1..], d)) == out + [s[start..i]] + Pieces(s[i + 1..], d);
  }

  lemma CutAtEnd(s: Str, d: Chr, out: seq<Str>, start: nat)
    requires Cut(s, d, out, start) && d !in s[start..]
    ensures Pieces(s, d) == out + [s[start..]]
  {
    PiecesOfFree(s[start..], d);
  }

  /** Splitting a string on one delimiter, one left-to-right pass. */
  method SplitOn(s: Str, d: Chr) returns (out: seq<Str>)
    ensures out == Split(s, d)
  {
    out := [];
    if s == [] {
      return;
    }
    var start := 0;
    assert s[0..] == s;
    for i := 0 to |s| + 1
      invariant i <= |s| ==> Cut(s, d, out, start) && start <= i && d !in s[start..i]
      invariant i > |s| ==> out == Pieces(s, d)
    {
      if i == |s| {
        assert s[start..] == s[start..i];
        CutAtEnd(s, d, out, start);
        out := out + [s[start..i]];
        start := i + 1;
      } else if s[i] == d {
        CutAtDelimiter(s, d, out, start, i);
        out := out + [s[start..i]];
        start := i + 1;
      } else {
        assert s[start..i + 1] == s[start..i] + [s[i]];
      }
    }
  }
}

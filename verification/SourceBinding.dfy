/** What the record of a source binds: one list gives one plan, and equal normal forms mean
    equal sources as far as the texts can tell them apart. */
module SourceBinding {
  import opened Bytes
  import opened Order
  import opened Lists
  import opened Canon
  import opened Names
  import opened Builders
  import opened PlanStep
  import Encoder
  import Invariance

  // ---- one list, one plan --------------------------------------------------------------

  /** A set has one listing in bytewise order without repetition. */
  lemma OrderedSetIsUnique(a: seq<Str>, b: seq<Str>)
    requires OrderedSet(a) && OrderedSet(b) && Elems(a) == Elems(b)
    ensures a == b
  {
    hide Sorted, NoDup, Elems;
    SortEqualIffSameSet(a, b);
    SortOfSorted(a);
    SortOfSorted(b);
  }

  lemma SortOfSorted(a: seq<Str>)
    requires Sorted(a)
    ensures Sort(a) == a
  {
    hide Sorted;
    SortIsSortedPermutation(a);
    SortedPermutationIsUnique(Sort(a), a);
  }

  /** The builder's freedom is none that shows: two records that describe the same source
      have the same fields. */
  lemma DescriptionIsUnique(s: Source, sha: Encoder.Hash, r: SrcRecord, q: SrcRecord)
    requires Describes(s, sha, r) && Describes(s, sha, q)
    ensures r.uri == q.uri && r.suite == q.suite && NzAll(r.components) == NzAll(q.components) && r.options == q.options
  {
    OrderedSetIsUnique(NzAll(r.components), NzAll(q.components));
    hide OrderedSet, OptionList, InlineArmor;
    var x: Str, xs: seq<Str> :| SigningValue(s.signedBy, sha, x) && OrderedSet(xs)
                                && Elems(xs) == Architectures(s.targets) && r.options == OptionList(s, x, xs);
    var y: Str, ys: seq<Str> :| SigningValue(s.signedBy, sha, y) && OrderedSet(ys)
                                && Elems(ys) == Architectures(s.targets) && q.options == OptionList(s, y, ys);
    OrderedSetIsUnique(xs, ys);
  }

  lemma SameFieldsSameRecord(r: SrcRecord, q: SrcRecord)
    requires r.uri == q.uri && r.suite == q.suite
    requires NzAll(r.components) == NzAll(q.components) && r.options == q.options
    ensures RecordString(r) == RecordString(q) && (RecordOk(r) <==> RecordOk(q))
    ensures Invariance.ViewOf(r) == Invariance.ViewOf(q)
  {
    hide FieldOk, Sort, Join, Invariance.OptMap, OptsOk;
    ListOkIsTextual(r.components, q.components);
  }

  lemma ListOkIsTextual(a: seq<CStr>, b: seq<CStr>)
    requires NzAll(a) == NzAll(b)
    ensures ListOk(a, true, None) <==> ListOk(b, true, None)
  {
    hide FieldOk;
  }

  ghost predicate AllDescribed(list: seq<Source>, sha: Encoder.Hash, recs: seq<SrcRecord>) {
    |recs| == |list| && forall i :: 0 <= i < |recs| ==> Describes(list[i], sha, recs[i])
  }

  /** Whoever maps a source list gets the same plan: the same bytes, hence the same hash, and
      the same settlement and redemption request. */
  lemma SameListSamePlan(list: seq<Source>, sha: Encoder.Hash, a: seq<SrcRecord>, b: seq<SrcRecord>)
    requires AllDescribed(list, sha, a) && AllDescribed(list, sha, b)
    ensures Canonical(UpdPlan(a)) == Canonical(UpdPlan(b)) && (InDomain(UpdPlan(a)) <==> InDomain(UpdPlan(b)))
    ensures Invariance.Views(a) == Invariance.Views(b)
  {
    hide Describes, RecordOk, RecordString, Invariance.ViewOf;
    forall i | 0 <= i < |a|
      ensures RecordString(a[i]) == RecordString(b[i]) && (RecordOk(a[i]) <==> RecordOk(b[i]))
      ensures Invariance.ViewOf(a[i]) == Invariance.ViewOf(b[i])
    {
      DescriptionIsUnique(list[i], sha, a[i], b[i]);
      SameFieldsSameRecord(a[i], b[i]);
    }
    assert RecordStrings(a) == RecordStrings(b);
  }

  /** For update, too, the preview and the effector cannot differ on one source list. */
  lemma SameListSameRedemption(list: seq<Source>, sha: Encoder.Hash, a: seq<SrcRecord>, b: seq<SrcRecord>, w: Intent)
    requires AllDescribed(list, sha, a) && AllDescribed(list, sha, b)
    ensures Settled(UpdPlan(a), Token([]), sha) == Settled(UpdPlan(b), Token([]), sha)
    ensures Digestible(UpdPlan(a), sha) ==>
              && Digestible(UpdPlan(b), sha)
              && Binding(UpdPlan(a), Token([]), sha, w) == Binding(UpdPlan(b), Token([]), sha, w)
  {
    SameListSamePlan(list, sha, a, b);
    UpdateHasNoPolicy(a);
    UpdateHasNoPolicy(b);
    hide InDomain, Canonical, Describes, PolicyOf, SubjectOk, ResourceOf, Invariance.Views;
  }

  lemma UpdateHasNoPolicy(recs: seq<SrcRecord>)
    ensures PolicyOf(UpdPlan(recs)) == PlanOk
    ensures UpdPlan(recs).Records() == [] <==> recs == []
    ensures UpdPlan(recs).Verb() == UpdPlan([]).Verb()
  {
  }

  // ---- what a record binds ----------------------------------------------------------------

  /** The signing identity, if the source has one. */
  ghost function Signing(s: Source, sha: Encoder.Hash): CStr {
    if s.signedBy == [] then None
    else if InlineArmor(s.signedBy) && sha(s.signedBy).Some? then Some(TOKEN_PREFIX + sha(s.signedBy).value)
    else Some(s.signedBy)
  }

  /** The architectures as written: in order, separated by spaces. */
  ghost predicate ArchText(s: Source, t: CStr) {
    exists arches: seq<Str> ::
      && OrderedSet(arches) && Elems(arches) == Architectures(s.targets)
      && t == if arches == [] then None else Some(Join(arches, ' '))
  }

  function OptIn(o: map<Str, Str>, k: Str): CStr {
    if k in o then Some(o[k]) else None
  }

  function With(o: map<Str, Str>, c: bool, k: Str, v: Str): map<Str, Str> {
    if c then o[k := v] else o
  }

  lemma OptMapWhen(opts: seq<Opt>, c: bool, k: Str, v: Str)
    ensures Invariance.OptMap(opts + WhenOpt(c, k, v)) == With(Invariance.OptMap(opts), c, k, v)
  {
    var all := opts + WhenOpt(c, k, v);
    if c {
      assert all[..|all| - 1] == opts;
    } else {
      assert all == opts;
    }
  }

  lemma LookupWith(o: map<Str, Str>, c: bool, k: Str, v: Str, x: Str)
    ensures OptIn(With(o, c, k, v), x) == if c && x == k then Some(v) else OptIn(o, x)
  {
  }

  lemma OptionKeysDiffer()
    ensures "signed-by" != "architectures" && "signed-by" != "trusted" && "architectures" != "trusted"
  {
    assert |"signed-by"| == 9 && |"architectures"| == 13 && |"trusted"| == 7;
  }

  /** Three optional entries under different keys: each is found under its own. */
  lemma ThreeOptions(c: bool, k: Str, v: Str, d: bool, l: Str, u: Str, e: bool, m: Str, t: Str)
    requires k != l && k != m && l != m
    ensures var o := Invariance.OptMap(WhenOpt(c, k, v) + WhenOpt(d, l, u) + WhenOpt(e, m, t));
            && OptIn(o, k) == (if c then Some(v) else None) && OptIn(o, l) == (if d then Some(u) else None)
            && OptIn(o, m) == (if e then Some(t) else None) && forall x :: x in o ==> x == k || x == l || x == m
  {
    var a, b := WhenOpt(c, k, v), WhenOpt(d, l, u);
    OptMapWhen([], c, k, v);
    OptMapWhen(a, d, l, u);
    OptMapWhen(a + b, e, m, t);
    assert [] + a == a && Invariance.OptMap([]) == map[];
    hide Invariance.OptMap, WhenOpt, With;
    var one := With(map[], c, k, v);
    var two := With(one, d, l, u);
    forall x
      ensures OptIn(With(two, e, m, t), x) ==
              if e && x == m then Some(t) else if d && x == l then Some(u) else if c && x == k then Some(v) else None
    {
      LookupWith(map[], c, k, v, x);
      LookupWith(one, d, l, u, x);
      LookupWith(two, e, m, t, x);
    }
  }

  /** The option map of a described source holds its three options under their keys. */
  lemma OptionsLookup(s: Source, signed: Str, arches: seq<Str>)
    ensures var o := Invariance.OptMap(OptionList(s, signed, arches));
            && OptIn(o, "signed-by") == (if s.signedBy != [] then Some(signed) else None)
            && OptIn(o, "architectures") == (if arches != [] then Some(Join(arches, ' ')) else None)
            && OptIn(o, "trusted") == TrustWord(s.trusted)
            && forall k :: k in o ==> k == "signed-by" || k == "architectures" || k == "trusted"
  {
    hide Join, Invariance.OptMap, WhenOpt;
    OptionKeysDiffer();
    ThreeOptions(s.signedBy != [], "signed-by", signed, arches != [], "architectures", Join(arches, ' '),
                 TrustWord(s.trusted).Some?, "trusted", Nz(TrustWord(s.trusted)));
  }

  /** The parts of a source that its normal form shows. */
  ghost predicate SameShown(s: Source, t: Source, sha: Encoder.Hash) {
    && s.uri == t.uri && s.dist == t.dist && Components(s.targets) == Components(t.targets)
    && Signing(s, sha) == Signing(t, sha) && TrustWord(s.trusted) == TrustWord(t.trusted)
    && exists text :: ArchText(s, text) && ArchText(t, text)
  }

  lemma DescribedOptions(s: Source, sha: Encoder.Hash, r: SrcRecord)
    requires Describes(s, sha, r)
    ensures var o := Invariance.OptMap(r.options);
            && OptIn(o, "signed-by") == Signing(s, sha) && OptIn(o, "trusted") == TrustWord(s.trusted)
            && ArchText(s, OptIn(o, "architectures")) && KnownKeys(o)
  {
    hide OrderedSet, OptionList, InlineArmor, Join, Invariance.OptMap, Elems;
    var signed: Str, arches: seq<Str> :| SigningValue(s.signedBy, sha, signed) && OrderedSet(arches)
      && Elems(arches) == Architectures(s.targets) && r.options == OptionList(s, signed, arches);
    OptionsLookup(s, signed, arches);
  }

  lemma ArchTextIsUnique(s: Source, x: CStr, y: CStr)
    requires ArchText(s, x) && ArchText(s, y)
    ensures x == y
  {
    hide OrderedSet, Join;
    var a: seq<Str> :| OrderedSet(a) && Elems(a) == Architectures(s.targets)
                       && x == if a == [] then None else Some(Join(a, ' '));
    var b: seq<Str> :| OrderedSet(b) && Elems(b) == Architectures(s.targets)
                       && y == if b == [] then None else Some(Join(b, ' '));
    OrderedSetIsUnique(a, b);
  }

  ghost predicate KnownKeys(o: map<Str, Str>) {
    forall k :: k in o ==> k == "signed-by" || k == "architectures" || k == "trusted"
  }

  lemma SameOptions(o: map<Str, Str>, p: map<Str, Str>)
    requires KnownKeys(o) && KnownKeys(p)
    ensures o == p <==> OptIn(o, "signed-by") == OptIn(p, "signed-by") && OptIn(o, "trusted") == OptIn(p, "trusted")
                        && OptIn(o, "architectures") == OptIn(p, "architectures")
  {
    if OptIn(o, "signed-by") == OptIn(p, "signed-by") && OptIn(o, "trusted") == OptIn(p, "trusted")
       && OptIn(o, "architectures") == OptIn(p, "architectures")
    {
      forall k | k in o || k in p ensures k in o && k in p && o[k] == p[k] {
        assert OptIn(o, k) == OptIn(p, k);
      }
    }
  }

  lemma ViewEquality(r: SrcRecord, q: SrcRecord)
    ensures Invariance.ViewOf(r) == Invariance.ViewOf(q) <==>
            && Nz(r.uri) == Nz(q.uri) && Nz(r.suite) == Nz(q.suite)
            && Invariance.Visible(Sort(NzAll(r.components))) == Invariance.Visible(Sort(NzAll(q.components)))
            && Invariance.OptMap(r.options) == Invariance.OptMap(q.options)
  {
    hide Sort, Invariance.OptMap, Invariance.Visible;
  }

  lemma SameArchText(s: Source, t: Source, x: CStr, y: CStr)
    requires ArchText(s, x) && ArchText(t, y)
    ensures x == y <==> exists text :: ArchText(s, text) && ArchText(t, text)
  {
    hide ArchText;
    if text :| ArchText(s, text) && ArchText(t, text) {
      ArchTextIsUnique(s, x, text);
      ArchTextIsUnique(t, y, text);
    }
  }

  /** Normal forms of built records agree exactly when the sources agree in uri, suite,
      components, signing identity, explicit trust and written architectures. */
  lemma RecordBindsSource(s: Source, t: Source, sha: Encoder.Hash, r: SrcRecord, q: SrcRecord)
    requires Describes(s, sha, r) && Describes(t, sha, q)
    ensures Invariance.ViewOf(r) == Invariance.ViewOf(q) <==> SameShown(s, t, sha)
  {
    hide Describes, Signing, ArchText, Sort, Components, OptIn;
    hide Invariance.OptMap, Invariance.ViewOf, Invariance.Visible;
    var o, p := Invariance.OptMap(r.options), Invariance.OptMap(q.options);
    DescribedOptions(s, sha, r);
    DescribedOptions(t, sha, q);
    ComponentsShown(s, t, sha, r, q);
    ViewEquality(r, q);
    SameOptions(o, p);
    SameArchText(s, t, OptIn(o, "architectures"), OptIn(p, "architectures"));
  }

  lemma ComponentsShown(s: Source, t: Source, sha: Encoder.Hash, r: SrcRecord, q: SrcRecord)
    requires Describes(s, sha, r) && Describes(t, sha, q)
    ensures r.uri == Some(s.uri) && r.suite == Some(s.dist) && q.uri == Some(t.uri) && q.suite == Some(t.dist)
    ensures Invariance.Visible(Sort(NzAll(r.components))) == Invariance.Visible(Sort(NzAll(q.components))) <==>
            Components(s.targets) == Components(t.targets)
  {
    var a, b := NzAll(r.components), NzAll(q.components);
    ComponentsNonempty(s, sha, r);
    ComponentsNonempty(t, sha, q);
    SortOfSorted(a);
    SortOfSorted(b);
    SortEqualIffSameSet(a, b);
    hide SigningValue, OptionList, Sorted, NoDup, Sort;
  }

  // ---- where the texts stop telling sources apart -------------------------------------------

  /** Architectures without spaces are told apart exactly; and none of them is empty. */
  lemma ArchitecturesAreBound(s: Source, t: Source)
    requires forall a :: a in Architectures(s.targets) + Architectures(t.targets) ==> ' ' !in a
    ensures (exists text :: ArchText(s, text) && ArchText(t, text)) <==>
            Architectures(s.targets) == Architectures(t.targets)
  {
    var x, xs := ArchListing(s.targets);
    var y, ys := ArchListing(t.targets);
    assert ArchText(s, x) && ArchText(t, y);
    hide OrderedSet;
    if Architectures(s.targets) == Architectures(t.targets) {
      OrderedSetIsUnique(xs, ys);
    }
    if text :| ArchText(s, text) && ArchText(t, text) {
      ArchTextIsUnique(s, x, text);
      ArchTextIsUnique(t, y, text);
      JoinedListsAgree(xs, ys);
    }
  }

  lemma ArchListing(ts: seq<IndexTarget>) returns (text: CStr, arches: seq<Str>)
    ensures OrderedSet(arches) && Elems(arches) == Architectures(ts) && [] !in arches
    ensures text == if arches == [] then None else Some(Join(arches, ' '))
  {
    arches := ListingOf(ts);
    assert [] in arches ==> [] in Elems(arches);
    text := if arches == [] then None else Some(Join(arches, ' '));
  }

  lemma {:induction false} ListingOf(ts: seq<IndexTarget>) returns (arches: seq<Str>)
    ensures OrderedSet(arches) && Elems(arches) == Architectures(ts)
  {
    if ts == [] {
      arches := [];
    } else {
      var init, last := ts[..|ts| - 1], ts[|ts| - 1];
      var rest := ListingOf(init);
      hide AddUnique, OrderedSet;
      AddUniqueKeeps(rest, last.architecture);
      assert ts == init + [last];
      arches := if last.architecture != [] then AddUnique(rest, last.architecture) else rest;
    }
  }

  lemma JoinedListsAgree(a: seq<Str>, b: seq<Str>)
    requires Free(a, ' ') && Free(b, ' ') && [] !in a && [] !in b
    requires (if a == [] then None else Some(Join(a, ' '))) == (if b == [] then None else Some(Join(b, ' ')))
    ensures a == b
  {
    if a != [] {
      PiecesOfJoin(a, ' ');
      PiecesOfJoin(b, ' ');
    }
  }

  // ---- exactly when the written architectures determine the set --------------------------------

  /** A name that is spelled like a listing of two. */
  ghost predicate Splits(x: Str) {
    exists p: Str, q: Str :: p != [] && q != [] && Less(p, q) && x == p + [' '] + q
  }

  /** Whatever source is written with the same architectures has the same architectures. */
  ghost predicate TextDetermines(s: Source) {
    forall t: Source :: (exists u :: ArchText(s, u) && ArchText(t, u)) ==>
      Architectures(s.targets) == Architectures(t.targets)
  }

  ghost predicate AtMostOne(s: Source) {
    forall a, b :: a in Architectures(s.targets) && b in Architectures(s.targets) ==> a == b
  }

  ghost predicate NoneSplits(s: Source) {
    forall a :: a in Architectures(s.targets) ==> !Splits(a)
  }

  /** The text determines the set exactly for a source with at most one architecture whose
      name is not spelled like two. */
  lemma ArchitecturesAreBoundIff(s: Source)
    ensures TextDetermines(s) <==> AtMostOne(s) && NoneSplits(s)
  {
    var text, arches := ArchListing(s.targets);
    assert ArchText(s, text);
    hide OrderedSet, Join, ArchText, Architectures;
    if AtMostOne(s) && NoneSplits(s) {
      forall t: Source, u | ArchText(s, u) && ArchText(t, u)
        ensures Architectures(s.targets) == Architectures(t.targets)
      {
        ArchTextIsUnique(s, u, text);
        OnlyOneListing(s, t, arches, text);
      }
    }
    if !AtMostOne(s) {
      var t := SeveralCollide(s, arches);
    } else if !NoneSplits(s) {
      var t := SplitCollides(s, arches);
    }
  }

  lemma {:induction false} LessExtends(x: Str, y: Str, z: Str)
    requires Less(x, y)
    ensures Less(x, y + z)
  {
    if x != [] && x[0] == y[0] {
      LessExtends(x[1..], y[1..], z);
      assert (y + z)[1..] == y[1..] + z;
    }
  }

  /** A listing of two or more is spelled like two. */
  lemma ListingSplits(arches: seq<Str>)
    requires OrderedSet(arches) && |arches| >= 2 && [] !in arches
    ensures Splits(Join(arches, ' '))
  {
    FirstTwoDiffer(arches);
    var p, x, rest := arches[0], arches[1], arches[2..];
    assert p in arches && x in arches && arches == [p, x] + rest;
    hide OrderedSet, Less, Elems, Join, Splits;
    var tail := ListingOfMany(p, x, rest);
    LessExtends(p, x, tail);
    SplitsInto(Join(arches, ' '), p, x + tail);
  }

  lemma SplitsInto(whole: Str, p: Str, q: Str)
    requires p != [] && q != [] && Less(p, q) && whole == p + [' '] + q
    ensures Splits(whole)
  {
    hide Less;
  }

  lemma ListingOfMany(p: Str, x: Str, rest: seq<Str>) returns (tail: Str)
    ensures Join([p, x] + rest, ' ') == p + [' '] + (x + tail)
  {
    assert ([p, x] + rest)[1..] == [x] + rest && ([x] + rest)[1..] == rest;
    tail := if rest == [] then [] else [' '] + Join(rest, ' ');
  }

  lemma OnlyOneListing(s: Source, t: Source, arches: seq<Str>, text: CStr)
    requires AtMostOne(s) && NoneSplits(s)
    requires OrderedSet(arches) && Elems(arches) == Architectures(s.targets)
    requires text == (if arches == [] then None else Some(Join(arches, ' '))) && ArchText(t, text)
    ensures Architectures(s.targets) == Architectures(t.targets)
  {
    var u, others := ArchListing(t.targets);
    assert ArchText(t, u);
    ArchTextIsUnique(t, text, u);
    AtMostOneListed(s, arches);
    hide OrderedSet, ArchText;
    if arches != [] {
      assert arches[0] in Elems(arches) && Join(arches, ' ') == arches[0];
      if |others| >= 2 { ListingSplits(others); }
      assert others == [others[0]] && Join(others, ' ') == others[0];
    }
  }

  lemma AtMostOneListed(s: Source, arches: seq<Str>)
    requires AtMostOne(s) && OrderedSet(arches) && Elems(arches) == Architectures(s.targets)
    ensures |arches| <= 1
  {
    hide OrderedSet;
    if |arches| >= 2 { FirstTwoDiffer(arches); }
  }

  lemma FirstTwoDiffer(arches: seq<Str>)
    requires OrderedSet(arches) && |arches| >= 2
    ensures arches[0] in Elems(arches) && arches[1] in Elems(arches) && arches[0] != arches[1]
    ensures Less(arches[0], arches[1])
  {
  }

  /** Two or more architectures are written like one whose name is their listing. */
  lemma SeveralCollide(s: Source, arches: seq<Str>) returns (t: Source)
    requires !AtMostOne(s) && OrderedSet(arches) && Elems(arches) == Architectures(s.targets) && [] !in arches
    ensures exists u :: ArchText(s, u) && ArchText(t, u)
    ensures Architectures(s.targets) != Architectures(t.targets)
  {
    var whole := Join(arches, ' ');
    t := Source([], [], [IndexTarget([], whole)], [], TriUnset);
    var a, b :| a in Architectures(s.targets) && b in Architectures(s.targets) && a != b;
    assert a in arches && b in arches;
    if |arches| >= 2 { ListingSplits(arches); }
    OneTargetListing(whole);
    assert ArchText(s, Some(whole)) && ArchText(t, Some(whole));
    hide OrderedSet, Join, ArchText;
    assert Architectures(t.targets) == {whole};
  }

  lemma OneTargetListing(name: Str)
    requires name != []
    ensures var ts := [IndexTarget([], name)];
            Architectures(ts) == {name} && OrderedSet([name]) && Elems([name]) == Architectures(ts)
            && Join([name], ' ') == name
  {
    var ts := [IndexTarget([], name)];
    assert ts[0] in ts && ts[0].architecture == name;
    assert [name][0] in [name];
  }

  lemma TwoTargetListing(p: Str, q: Str)
    requires p != [] && q != [] && Less(p, q)
    ensures var ts := [IndexTarget([], p), IndexTarget([], q)];
            Architectures(ts) == {p, q} && OrderedSet([p, q]) && Elems([p, q]) == Architectures(ts)
            && Join([p, q], ' ') == p + [' '] + q
  {
    LessIrreflexive(p);
    var ts := [IndexTarget([], p), IndexTarget([], q)];
    assert ts[0] in ts && ts[1] in ts && ts[0].architecture == p && ts[1].architecture == q;
    assert [p, q][0] in [p, q] && [p, q][1] in [p, q] && [p, q][1..] == [q];
  }

  /** A name spelled like two is written like those two. */
  lemma SplitCollides(s: Source, arches: seq<Str>) returns (t: Source)
    requires AtMostOne(s) && !NoneSplits(s)
    requires OrderedSet(arches) && Elems(arches) == Architectures(s.targets)
    ensures exists u :: ArchText(s, u) && ArchText(t, u)
    ensures Architectures(s.targets) != Architectures(t.targets)
  {
    var a :| a in Architectures(s.targets) && Splits(a);
    var p: Str, q: Str :| p != [] && q != [] && Less(p, q) && a == p + [' '] + q;
    t := Source([], [], [IndexTarget([], p), IndexTarget([], q)], [], TriUnset);
    AtMostOneListed(s, arches);
    assert a in arches && arches == [a] && Join(arches, ' ') == a;
    TwoTargetListing(p, q);
    assert ArchText(s, Some(a)) && ArchText(t, Some(a));
    hide OrderedSet, ArchText, Splits;
    assert p in Architectures(t.targets) && |p| < |a|;
  }

  /** With a space in a name the architectures are not told apart: two names, or one. */
  lemma SpacedArchitecturesCollide()
    ensures var s := Source([], [], [IndexTarget([], "a"), IndexTarget([], "b")], [], TriUnset);
            var t := Source([], [], [IndexTarget([], "a b")], [], TriUnset);
            && Architectures(s.targets) != Architectures(t.targets)
            && exists text :: ArchText(s, text) && ArchText(t, text)
  {
    var s := Source([], [], [IndexTarget([], "a"), IndexTarget([], "b")], [], TriUnset);
    var t := Source([], [], [IndexTarget([], "a b")], [], TriUnset);
    var xs: seq<Str>, ys: seq<Str> := ["a", "b"], ["a b"];
    assert s.targets[0].architecture == "a" && s.targets[1].architecture == "b" && t.targets[0].architecture == "a b";
    assert Elems(xs) == Architectures(s.targets) && Elems(ys) == Architectures(t.targets);
    assert "a" in Architectures(s.targets) && "a" !in Architectures(t.targets);
    assert xs[1..] == ["b"] && Join(xs, ' ') == "a" + [' '] + "b" == "a b";
    assert Leq("a", "b");
    assert OrderedSet(xs) && OrderedSet(ys);
    assert ArchText(s, Some("a b")) && ArchText(t, Some("a b"));
  }

  /** The signing value of `key` is the token of its hash. */
  ghost predicate Hashed(key: Str, sha: Encoder.Hash) {
    InlineArmor(key) && sha(key).Some?
  }

  /** A value spelled like the token of some other key's hash. */
  ghost predicate Imitates(value: Str, key: Str, sha: Encoder.Hash) {
    Hashed(key, sha) && !Hashed(value, sha) && value == TOKEN_PREFIX + sha(key).value
  }

  /** Exactly when two signing values are written alike: when they are equal, when two inline
      keys hash alike, or when one is spelled like the token of the other. */
  lemma SigningIsBound(x: Str, y: Str, sha: Encoder.Hash)
    ensures (exists v :: SigningValue(x, sha, v) && SigningValue(y, sha, v)) <==>
            || x == y || (Hashed(x, sha) && Hashed(y, sha) && sha(x) == sha(y))
            || Imitates(x, y, sha) || Imitates(y, x, sha)
  {
    hide InlineArmor;
    var v := if Hashed(x, sha) then TOKEN_PREFIX + sha(x).value else x;
    var u := if Hashed(y, sha) then TOKEN_PREFIX + sha(y).value else y;
    assert SigningValue(x, sha, v) && SigningValue(y, sha, u);
    if v == u && Hashed(x, sha) && Hashed(y, sha) {
      assert v[|TOKEN_PREFIX|..] == sha(x).value && u[|TOKEN_PREFIX|..] == sha(y).value;
    }
    if v == u { assert SigningValue(y, sha, v); }
  }

  /** The token of any hashed key imitates it: a source signed by that text looks like one
      signed by the key. */
  lemma TokenImitates(key: Str, sha: Encoder.Hash)
    requires Hashed(key, sha)
    ensures var token := TOKEN_PREFIX + sha(key).value; token != key && Imitates(token, key, sha)
  {
    var token := TOKEN_PREFIX + sha(key).value;
    ArmorIffFooter(key);
    ArmorIffFooter(token);
    hide InlineArmor;
    assert BEGIN[0] == '-' && token[0] == TOKEN_PREFIX[0] == 'i';
    assert !(BEGIN <= token);
  }

  /** Two signing values, different and written alike, under any hash that hashes one key. */
  lemma SpelledTokenCollides(sha: Encoder.Hash) returns (key: Str, token: Str)
    requires sha(BEGIN + END).Some?
    ensures key != token && exists v :: SigningValue(key, sha, v) && SigningValue(token, sha, v)
  {
    key := BEGIN + END;
    assert All([], White) && key == BEGIN + [] + END + [];
    assert InlineArmor(key);
    token := TOKEN_PREFIX + sha(key).value;
    TokenImitates(key, sha);
    SigningIsBound(key, token, sha);
  }
}

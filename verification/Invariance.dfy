/** Equal bytes mean the same plan: the canonical encoding is a complete invariant of the
    multiset of normalised records, and decoding gives those records back. */
module Invariance {
  import opened Bytes
  import opened Order
  import opened Lists
  import opened Canon
  import opened Decode

  // ---- normal forms -----------------------------------------------------------

  /** A component list holding only the empty string is written like no list at all. */
  function Visible(xs: seq<Str>): seq<Str> {
    if xs == [[]] then [] else xs
  }

  /** The options as a map from key to value. */
  function OptMap(opts: seq<Opt>): map<Str, Str> {
    if opts == [] then map[]
    else
      var last := opts[|opts| - 1];
      OptMap(opts[..|opts| - 1])[Nz(last.key) := Nz(last.val)]
  }

  function ViewOf(r: Record): View {
    match r
    case Txn(p, a, act, f, t, flags) => VTxn(Nz(p), Nz(a), Nz(act), Nz(f), Nz(t), Sort(NzAll(flags)))
    case Cfg(p, a, v, s) => VCfg(Nz(p), Nz(a), Nz(v), Nz(s))
    case Hold(p, f, t) => VHold(Nz(p), Nz(f), Nz(t))
    case Src(u, s, comps, opts) => VSrc(Nz(u), Nz(s), Visible(Sort(NzAll(comps))), OptMap(opts))
  }

  function Views(rs: seq<Record>): (vs: seq<View>)
    ensures |vs| == |rs| && forall i :: 0 <= i < |rs| ==> vs[i] == ViewOf(rs[i])
  {
    seq(|rs|, i requires 0 <= i < |rs| => ViewOf(rs[i]))
  }

  function KindOf(r: Record): Kind {
    match r
    case Txn(_, _, _, _, _, _) => TxnKind
    case Cfg(_, _, _, _) => CfgKind
    case Hold(_, _, _) => HoldKind
    case Src(_, _, _, _) => SrcKind
  }

  function PlanKind(p: Plan): Kind {
    match p
    case TxnPlan(_, _) => TxnKind
    case CfgPlan(_) => CfgKind
    case HoldPlan(_, _) => HoldKind
    case UpdPlan(_) => SrcKind
  }

  lemma RecordsHavePlanKind(p: Plan)
    ensures forall i :: 0 <= i < |p.Records()| ==> KindOf(p.Records()[i]) == PlanKind(p)
  {
    match p
    case TxnPlan(_, rs) => assert forall i :: 0 <= i < |rs| ==> rs[i].Txn?;
    case CfgPlan(rs) => assert forall i :: 0 <= i < |rs| ==> rs[i].Cfg?;
    case HoldPlan(_, rs) => assert forall i :: 0 <= i < |rs| ==> rs[i].Hold?;
    case UpdPlan(rs) => assert forall i :: 0 <= i < |rs| ==> rs[i].Src?;
  }

  // ---- options ------------------------------------------------------------------

  lemma {:induction false} IndexOfIs(s: Str, c: Chr, i: nat)
    requires i <= |s| && c !in s[..i] && (i < |s| ==> s[i] == c)
    ensures IndexOf(s, c) == i
  {
    assert i == 0 || s[..i][0] == s[0];
    if i > 0 {
      assert s[1..][..i - 1] == s[..i][1..];
      IndexOfIs(s[1..], c, i - 1);
    }
  }

  lemma KeyOfPair(key: Str, val: Str)
    requires EQUALS !in key
    ensures KeyOf(Pair(key, val)) == key && ValOf(Pair(key, val)) == val
  {
    var kv := Pair(key, val);
    assert kv[..|key|] == key;
    IndexOfIs(kv, EQUALS, |key|);
  }

  ghost predicate DistinctKeys(kvs: seq<Str>) {
    forall i, j :: 0 <= i < j < |kvs| ==> KeyOf(kvs[i]) != KeyOf(kvs[j])
  }

  /** With distinct keys, the object holds exactly the listed pairs. */
  lemma {:induction false} OptionsLookup(kvs: seq<Str>)
    requires DistinctKeys(kvs)
    ensures forall i :: 0 <= i < |kvs| ==>
              KeyOf(kvs[i]) in OptionsOf(kvs) && OptionsOf(kvs)[KeyOf(kvs[i])] == ValOf(kvs[i])
    ensures forall k :: k in OptionsOf(kvs) ==> exists i :: 0 <= i < |kvs| && KeyOf(kvs[i]) == k
  {
    hide KeyOf, ValOf;
    if kvs != [] {
      var init, last := kvs[..|kvs| - 1], kvs[|kvs| - 1];
      OptionsLookup(init);
      assert OptionsOf(kvs) == OptionsOf(init)[KeyOf(last) := ValOf(last)];
      forall k | k in OptionsOf(kvs) ensures exists i :: 0 <= i < |kvs| && KeyOf(kvs[i]) == k {
        if k == KeyOf(last) {
          assert KeyOf(kvs[|kvs| - 1]) == k;
        } else {
          var i :| 0 <= i < |init| && KeyOf(init[i]) == k;
          assert KeyOf(kvs[i]) == k;
        }
      }
      forall i | 0 <= i < |kvs|
        ensures KeyOf(kvs[i]) in OptionsOf(kvs) && OptionsOf(kvs)[KeyOf(kvs[i])] == ValOf(kvs[i])
      {
        if i < |init| { assert init[i] == kvs[i]; }
      }
    }
  }

  lemma OptionsWithin(a: seq<Str>, b: seq<Str>, k: Str)
    requires DistinctKeys(a) && DistinctKeys(b) && multiset(a) == multiset(b)
    requires k in OptionsOf(a)
    ensures k in OptionsOf(b) && OptionsOf(b)[k] == OptionsOf(a)[k]
  {
    OptionsLookup(a);
    OptionsLookup(b);
    hide KeyOf, ValOf, OptionsOf, DistinctKeys;
    var i :| 0 <= i < |a| && KeyOf(a[i]) == k;
    assert a[i] in multiset(b);
    var j :| 0 <= j < |b| && b[j] == a[i];
  }

  /** The order of the pairs does not matter to the object they build. */
  lemma OptionsIgnoreOrder(a: seq<Str>, b: seq<Str>)
    requires DistinctKeys(a) && DistinctKeys(b) && multiset(a) == multiset(b)
    ensures OptionsOf(a) == OptionsOf(b)
  {
    hide OptionsOf, DistinctKeys;
    var m, n := OptionsOf(a), OptionsOf(b);
    forall k | k in m ensures k in n && n[k] == m[k] { OptionsWithin(a, b, k); }
    forall k | k in n ensures k in m { OptionsWithin(b, a, k); }
  }

  lemma PairsHaveDistinctKeys(opts: seq<Opt>)
    requires OptsOk(opts)
    ensures forall i :: 0 <= i < |opts| ==> KeyOf(Pairs(opts)[i]) == Nz(opts[i].key)
    ensures forall i :: 0 <= i < |opts| ==> ValOf(Pairs(opts)[i]) == Nz(opts[i].val)
    ensures DistinctKeys(Pairs(opts)) && NoDup(Pairs(opts))
  {
    forall i | 0 <= i < |opts|
      ensures KeyOf(Pairs(opts)[i]) == Nz(opts[i].key) && ValOf(Pairs(opts)[i]) == Nz(opts[i].val)
    {
      assert FieldOk(Keys(opts)[i]);
      KeyOfPair(Nz(opts[i].key), Nz(opts[i].val));
    }
    forall i, j | 0 <= i < j < |opts| ensures KeyOf(Pairs(opts)[i]) != KeyOf(Pairs(opts)[j]) {
      assert Keys(opts)[i] != Keys(opts)[j];
    }
  }

  lemma {:induction false} OptMapIsOptionsOfPairs(opts: seq<Opt>)
    requires forall i :: 0 <= i < |opts| ==> EQUALS !in Nz(opts[i].key)
    ensures OptMap(opts) == OptionsOf(Pairs(opts))
  {
    hide KeyOf, ValOf, Pair;
    if opts != [] {
      var init, last := opts[..|opts| - 1], opts[|opts| - 1];
      OptMapIsOptionsOfPairs(init);
      KeyOfPair(Nz(last.key), Nz(last.val));
      assert Pairs(opts)[..|opts| - 1] == Pairs(init);
    }
  }

  lemma SortedPairsDecode(opts: seq<Opt>)
    requires OptsOk(opts)
    ensures OptionsOf(Sort(Pairs(opts))) == OptMap(opts)
  {
    var ps := Pairs(opts);
    PairsHaveDistinctKeys(opts);
    forall i | 0 <= i < |opts| ensures EQUALS !in Nz(opts[i].key) {
      assert FieldOk(Keys(opts)[i]);
    }
    OptMapIsOptionsOfPairs(opts);
    SortIsSortedPermutation(ps);
    PermutationKeepsDistinctKeys(ps, Sort(ps));
    OptionsIgnoreOrder(ps, Sort(ps));
  }

  lemma PermutationKeepsDistinctKeys(a: seq<Str>, b: seq<Str>)
    requires DistinctKeys(a) && multiset(a) == multiset(b)
    ensures DistinctKeys(b)
  {
    forall i, j | 0 <= i < j < |b| ensures KeyOf(b[i]) != KeyOf(b[j]) {
      NoDupMultiplicity(a, b[j]);
      assert b == b[..j] + ([b[j]] + b[j + 1..]);
      assert multiset(b) == multiset(b[..j]) + multiset{b[j]} + multiset(b[j + 1..]);
      assert multiset(b[..j])[b[j]] == 0;
      assert b[..j][i] == b[i];
      assert b[i] in multiset(a) && b[j] in multiset(a);
      var i' :| 0 <= i' < |a| && a[i'] == b[i];
      var j' :| 0 <= j' < |a| && a[j'] == b[j];
    }
  }

  /** Equal option maps are written identically. */
  lemma SameMapSameText(a: seq<Opt>, b: seq<Opt>)
    requires OptsOk(a) && OptsOk(b) && OptMap(a) == OptMap(b)
    ensures CommaList(Pairs(a)) == CommaList(Pairs(b))
  {
    PairsHaveDistinctKeys(a);
    PairsHaveDistinctKeys(b);
    PairsWithinPairs(a, b);
    PairsWithinPairs(b, a);
    assert Elems(Pairs(a)) == Elems(Pairs(b));
    SortEqualIffSameSet(Pairs(a), Pairs(b));
  }

  lemma PairsWithinPairs(a: seq<Opt>, b: seq<Opt>)
    requires OptsOk(a) && OptsOk(b) && OptMap(a) == OptMap(b)
    ensures forall x :: x in Pairs(a) ==> x in Pairs(b)
  {
    PairsHaveDistinctKeys(a);
    PairsHaveDistinctKeys(b);
    forall i | 0 <= i < |a| ensures EQUALS !in Nz(a[i].key) { assert FieldOk(Keys(a)[i]); }
    forall i | 0 <= i < |b| ensures EQUALS !in Nz(b[i].key) { assert FieldOk(Keys(b)[i]); }
    OptMapIsOptionsOfPairs(a);
    OptMapIsOptionsOfPairs(b);
    OptionsLookup(Pairs(a));
    OptionsLookup(Pairs(b));
    forall i | 0 <= i < |a| ensures Pairs(a)[i] in Pairs(b) {
      var k := KeyOf(Pairs(a)[i]);
      assert k in OptMap(b);
      var j :| 0 <= j < |Pairs(b)| && KeyOf(Pairs(b)[j]) == k;
      assert Pairs(a)[i] == Pairs(b)[j];
    }
  }

  // ---- one record -----------------------------------------------------------------

  /** The comma list of valid items splits back into the sorted items. */
  lemma CommaListDecodes(items: seq<Str>)
    requires Free(items, COMMA)
    ensures Split(CommaList(items), COMMA) == Visible(Sort(items))
  {
    SortIsSortedPermutation(items);
    forall i | 0 <= i < |Sort(items)| ensures COMMA !in Sort(items)[i] {
      assert Sort(items)[i] in multiset(items);
    }
    SplitOfJoin(Sort(items), COMMA);
  }

  lemma FlagWordsAreNonempty(flag: Str)
    requires flag in FLAGS
    ensures flag != []
  {
  }

  /** Flags are never empty strings, so a flag list is always visible. */
  lemma FlagsAreVisible(flags: seq<CStr>)
    requires ListOk(flags, true, Some(FLAGS))
    ensures Visible(Sort(NzAll(flags))) == Sort(NzAll(flags))
  {
    hide FieldOk, NoDup, Sort;
    var items := NzAll(flags);
    SortIsSortedPermutation(items);
    if items != [] {
      assert Sort(items)[0] in multiset(items);
      var i :| 0 <= i < |items| && items[i] == Sort(items)[0];
      FlagWordsAreNonempty(Nz(flags[i]));
    }
  }

  lemma ItemsFreeOfComma(items: seq<CStr>, dedup: bool, allowed: Option<seq<Str>>)
    requires ListOk(items, dedup, allowed)
    ensures Free(NzAll(items), COMMA)
  {
  }

  lemma PairsFreeOfComma(opts: seq<Opt>)
    requires OptsOk(opts)
    ensures Free(Pairs(opts), COMMA)
    ensures Visible(Sort(Pairs(opts))) == Sort(Pairs(opts))
  {
    forall i | 0 <= i < |opts| ensures COMMA !in Pairs(opts)[i] {
      assert FieldOk(Keys(opts)[i]) && FieldOk(Vals(opts)[i]);
    }
    SortIsSortedPermutation(Pairs(opts));
    if opts != [] {
      assert Sort(Pairs(opts))[0] in multiset(Pairs(opts));
    }
  }

  lemma FieldsSplit(r: Record)
    requires RecordOk(r)
    ensures Split(RecordString(r), US) == Fields(r)
  {
    FieldsAvoidSeparators(r, US);
    hide RecordOk, FieldOk, Join;
    SplitOfJoin(Fields(r), US);
  }

  lemma TxnDecodes(r: TxnRecord)
    requires RecordOk(r)
    ensures DecodeFields(Fields(r), TxnKind) == ViewOf(r)
  {
    hide CommaList, Visible, NoDup, FieldOk, Sort, Split;
    ItemsFreeOfComma(r.flags, true, Some(FLAGS));
    CommaListDecodes(NzAll(r.flags));
    FlagsAreVisible(r.flags);
  }

  lemma SrcDecodes(r: SrcRecord)
    requires RecordOk(r)
    ensures DecodeFields(Fields(r), SrcKind) == ViewOf(r)
  {
    hide CommaList, Visible, NoDup, FieldOk, Sort, Split, OptionsOf, OptMap, OptsOk;
    ItemsFreeOfComma(r.components, true, None);
    CommaListDecodes(NzAll(r.components));
    PairsFreeOfComma(r.options);
    CommaListDecodes(Pairs(r.options));
    SortedPairsDecode(r.options);
  }

  /** Decoding the text of a valid record gives its normal form: every field in its
      place, empty ones included, every list and option restored. */
  lemma DecodeInvertsRecord(r: Record)
    requires RecordOk(r)
    ensures DecodeRecord(RecordString(r), KindOf(r)) == ViewOf(r)
  {
    FieldsSplit(r);
    if r.Txn? {
      TxnDecodes(r);
    } else if r.Src? {
      SrcDecodes(r);
    } else {
      hide RecordOk, RecordString, Split;
    }
  }

  /** With distinct keys, the map of options holds exactly the listed pairs. */
  lemma {:induction false} OptMapHolds(opts: seq<Opt>)
    requires NoDup(Keys(opts))
    ensures forall i :: 0 <= i < |opts| ==>
              Nz(opts[i].key) in OptMap(opts) && OptMap(opts)[Nz(opts[i].key)] == Nz(opts[i].val)
    ensures forall k :: k in OptMap(opts) ==> k in Keys(opts)
  {
    if opts != [] {
      var init, last := opts[..|opts| - 1], opts[|opts| - 1];
      forall i, j | 0 <= i < j < |init| ensures Keys(init)[i] != Keys(init)[j] {
        assert Keys(opts)[i] != Keys(opts)[j];
      }
      OptMapHolds(init);
      forall i | 0 <= i < |opts|
        ensures Nz(opts[i].key) in OptMap(opts) && OptMap(opts)[Nz(opts[i].key)] == Nz(opts[i].val)
      {
        if i < |init| { assert init[i] == opts[i] && Keys(opts)[i] != Keys(opts)[|init|]; }
      }
      forall k | k in OptMap(opts) ensures k in Keys(opts) {
        if k == Nz(last.key) {
          assert Keys(opts)[|init|] == k;
        } else {
          var i :| 0 <= i < |init| && Keys(init)[i] == k;
          assert Keys(opts)[i] == k;
        }
      }
    }
  }

  /** What the decoder shows of a record, field by field: the text as given, lists in order,
      every option under its key. */
  lemma DecodedFields(r: Record)
    requires RecordOk(r)
    ensures r.Txn? ==>
              var v := DecodeRecord(RecordString(r), TxnKind);
              && v.VTxn? && v.package == Nz(r.package) && v.architecture == Nz(r.architecture)
              && v.action == Nz(r.action) && v.fromVersion == Nz(r.fromVersion) && v.toVersion == Nz(r.toVersion)
              && Sorted(v.flags) && multiset(v.flags) == multiset(NzAll(r.flags))
    ensures r.Cfg? ==>
              var v := DecodeRecord(RecordString(r), CfgKind);
              && v.VCfg? && v.package == Nz(r.package) && v.architecture == Nz(r.architecture)
              && v.currentVersion == Nz(r.currentVersion) && v.state == Nz(r.state)
    ensures r.Hold? ==>
              var v := DecodeRecord(RecordString(r), HoldKind);
              v.VHold? && v.package == Nz(r.package) && v.fromState == Nz(r.fromState) && v.toState == Nz(r.toState)
    ensures r.Src? ==>
              var v := DecodeRecord(RecordString(r), SrcKind);
              && v.VSrc? && v.uri == Nz(r.uri) && v.suite == Nz(r.suite)
              && (NzAll(r.components) != [[]] ==>
                    Sorted(v.components) && multiset(v.components) == multiset(NzAll(r.components)))
              && (forall i :: 0 <= i < |r.options| ==>
                    Nz(r.options[i].key) in v.options && v.options[Nz(r.options[i].key)] == Nz(r.options[i].val))
              && (forall k :: k in v.options ==> k in Keys(r.options))
  {
    DecodeInvertsRecord(r);
    hide RecordString, DecodeRecord, FieldOk;
    match r
    case Txn(_, _, _, _, _, flags) => SortIsSortedPermutation(NzAll(flags));
    case Src(_, _, comps, opts) =>
      SortIsSortedPermutation(NzAll(comps));
      OptMapHolds(opts);
      OnlyEmptySorts(NzAll(comps));
    case _ =>
  }

  lemma OnlyEmptySorts(xs: seq<Str>)
    ensures Sort(xs) == [[]] ==> xs == [[]]
  {
    SortIsSortedPermutation(xs);
    if Sort(xs) == [[]] {
      assert xs[0] in multiset(xs);
    }
  }

  /** The same normal form is written with the same bytes. */
  lemma SameViewSameText(r: Record, q: Record)
    requires RecordOk(r) && RecordOk(q) && ViewOf(r) == ViewOf(q)
    ensures RecordString(r) == RecordString(q)
  {
    hide FieldOk, Sort, OptMap;
    match r
    case Src(_, _, comps, opts) =>
      SameMapSameText(opts, q.options);
      assert CommaList(NzAll(comps)) == Join(Visible(Sort(NzAll(comps))), COMMA);
      assert CommaList(NzAll(q.components)) == Join(Visible(Sort(NzAll(q.components))), COMMA);
    case _ =>
  }

  /** Record texts are a complete invariant of normal forms, kind by kind. */
  lemma RecordTextIffView(r: Record, q: Record)
    requires RecordOk(r) && RecordOk(q) && KindOf(r) == KindOf(q)
    ensures RecordString(r) == RecordString(q) <==> ViewOf(r) == ViewOf(q)
  {
    DecodeInvertsRecord(r);
    DecodeInvertsRecord(q);
    if ViewOf(r) == ViewOf(q) { SameViewSameText(r, q); }
  }

  /** What equality of normal forms says about lists: flags are compared as sets. */
  lemma FlagsCompareAsSets(r: TxnRecord, q: TxnRecord)
    requires RecordOk(r) && RecordOk(q)
    ensures ViewOf(r) == ViewOf(q) <==>
            && Nz(r.package) == Nz(q.package) && Nz(r.architecture) == Nz(q.architecture)
            && Nz(r.action) == Nz(q.action) && Nz(r.fromVersion) == Nz(q.fromVersion)
            && Nz(r.toVersion) == Nz(q.toVersion)
            && Elems(NzAll(r.flags)) == Elems(NzAll(q.flags))
  {
    hide FieldOk, Sort;
    SortEqualIffSameSet(NzAll(r.flags), NzAll(q.flags));
  }

  /** ... and so are components, except that the empty list and the lone empty string are
      not told apart. */
  lemma ComponentsCompareExactly(r: SrcRecord, q: SrcRecord)
    requires RecordOk(r) && RecordOk(q)
    ensures var a, b := NzAll(r.components), NzAll(q.components);
            ViewOf(r) == ViewOf(q) <==>
            && Nz(r.uri) == Nz(q.uri) && Nz(r.suite) == Nz(q.suite) && OptMap(r.options) == OptMap(q.options)
            && (Elems(a) == Elems(b) || (a == [] && b == [[]]) || (a == [[]] && b == []))
  {
    var a, b := NzAll(r.components), NzAll(q.components);
    SortEqualIffSameSet(a, b);
    SingletonSort(a);
    SingletonSort(b);
    EmptySort(a);
    EmptySort(b);
    hide FieldOk, Sort, OptMap, Elems, NoDup;
  }

  lemma EmptySort(a: seq<Str>)
    ensures Sort(a) == [] <==> a == []
  {
    SortIsSortedPermutation(a);
  }

  lemma SingletonSort(a: seq<Str>)
    ensures Sort(a) == [[]] <==> a == [[]]
  {
    SortIsSortedPermutation(a);
    if Sort(a) == [[]] {
      assert a[0] in multiset(Sort(a));
    }
    if a == [[]] {
      assert Sort(a)[0] in multiset(a);
    }
  }

  /** The one blind spot of the encoding: a source with the single component "" and a
      source with no component have the same bytes. */
  lemma LoneEmptyComponentIsInvisible(uri: CStr, suite: CStr, opts: seq<Opt>)
    ensures RecordString(Src(uri, suite, [Some([])], opts)) == RecordString(Src(uri, suite, [], opts))
    ensures Elems(NzAll([Some([])])) != Elems(NzAll([]))
  {
    assert NzAll([Some([])]) == [[]] && NzAll([]) == [];
    assert Sort([[]]) == Insert([], []) == [[]];
    assert [] in Elems(NzAll([Some([])]));
  }

  // ---- whole plans ------------------------------------------------------------------

  /** The RS-separated pieces of a plan's bytes: tag, verb, then the records in order, or
      one empty piece when there are none. */
  lemma CanonicalPieces(p: Plan)
    requires InDomain(p)
    ensures var ss := Sort(RecordStrings(p.Records()));
            Split(Canonical(p), RS) == [['1'], p.Verb()] + (if ss == [] then [[]] else ss)
  {
    hide FieldOk, RecordOk, RecordString, Sort, Join, Pieces;
    var ss := Sort(RecordStrings(p.Records()));
    var body := if ss == [] then [[]] else ss;
    var xs := [['1'], p.Verb()] + body;
    SortedTextsAvoidRs(p);
    VerbAvoidsRs(p);
    FreeAppend([['1'], p.Verb()], body, RS);
    JoinOfNothing();
    JoinHeader(p.Verb(), body);
    PiecesOfJoin(xs, RS);
  }

  lemma JoinOfNothing()
    ensures Join([], RS) == Join([[]], RS) == []
  {
  }

  lemma SortedTextsAvoidRs(p: Plan)
    requires InDomain(p)
    ensures Free(Sort(RecordStrings(p.Records())), RS)
  {
    hide RecordOk, RecordString;
    var strings := RecordStrings(p.Records());
    var ss := Sort(strings);
    RecordStringsShape(p.Records());
    SortIsSortedPermutation(strings);
    forall i | 0 <= i < |ss| ensures RS !in ss[i] {
      assert ss[i] in multiset(strings);
    }
  }

  lemma JoinHeader(verb: Str, body: seq<Str>)
    requires body != []
    ensures Join([['1'], verb] + body, RS) == Header(verb) + Join(body, RS)
  {
    var xs := [['1'], verb] + body;
    assert xs[1..] == [verb] + body && xs[1..][1..] == body;
    assert Join(xs, RS) == ['1'] + [RS] + (verb + [RS] + Join(body, RS));
  }

  lemma VerbAvoidsRs(p: Plan)
    requires p.VerbInDomain()
    ensures RS !in p.Verb() && p.Verb() != []
  {
    VerbIsField(p);
  }

  /** The verb alone tells which encoder was called. */
  lemma VerbDeterminesKind(p: Plan, q: Plan)
    requires p.VerbInDomain() && q.VerbInDomain() && p.Verb() == q.Verb()
    ensures PlanKind(p) == PlanKind(q)
  {
    assert CFG_VERB !in TXN_VERBS + HOLD_VERBS && UPD_VERB !in TXN_VERBS + HOLD_VERBS;
    assert forall v :: v in TXN_VERBS ==> v !in HOLD_VERBS;
  }

  /** Between the elements of two lists, equality under `f` implies equality under `g`. */
  ghost predicate Determines<T, U, V>(f: T -> U, g: T -> V, a: seq<T>, b: seq<T>) {
    forall x, y :: x in a && y in b && f(x) == f(y) ==> g(x) == g(y)
  }

  function Without<T>(s: seq<T>, j: nat): seq<T>
    requires j < |s|
  {
    s[..j] + s[j + 1..]
  }

  lemma DeterminesWithout<T, U, V>(f: T -> U, g: T -> V, a: seq<T>, b: seq<T>, j: nat)
    requires Determines(f, g, a, b) && a != [] && j < |b| && f(a[0]) == f(b[j])
    ensures Determines(f, g, Without(a, 0), Without(b, j)) && g(a[0]) == g(b[j])
  {
    assert a[0] in a && b[j] in b;
    forall x | x in Without(a, 0) ensures x in a { }
    forall y | y in Without(b, j) ensures y in b { }
  }

  /** Equal images under `f` carry over to equal images under any `g` that `f` determines. */
  lemma {:induction false} MultisetTransfer<T, U, V>(f: T -> U, g: T -> V, a: seq<T>, b: seq<T>)
    requires Determines(f, g, a, b)
    requires multiset(Map(f, a)) == multiset(Map(f, b))
    ensures multiset(Map(g, a)) == multiset(Map(g, b))
    decreases |a|
  {
    hide Determines, Without;
    assert |multiset(Map(f, a))| == |a| && |multiset(Map(f, b))| == |b|;
    if a == [] {
      assert Map(g, a) == Map(g, b);
    } else {
      var j := Partner(f, a, b);
      DeterminesWithout(f, g, a, b, j);
      MapWithout(f, a, 0);
      MapWithout(f, b, j);
      MapWithout(g, a, 0);
      MapWithout(g, b, j);
      DropEqual(multiset(Map(f, Without(a, 0))), multiset(Map(f, Without(b, j))), f(a[0]));
      MultisetTransfer(f, g, Without(a, 0), Without(b, j));
    }
  }

  lemma Partner<T, U>(f: T -> U, a: seq<T>, b: seq<T>) returns (j: nat)
    requires a != [] && multiset(Map(f, a)) == multiset(Map(f, b))
    ensures j < |b| && f(b[j]) == f(a[0])
  {
    assert Map(f, a)[0] in multiset(Map(f, b));
    j :| 0 <= j < |b| && Map(f, b)[j] == f(a[0]);
  }

  lemma DropEqual<U>(m: multiset<U>, n: multiset<U>, x: U)
    requires m + multiset{x} == n + multiset{x}
    ensures m == n
  {
    assert m == (m + multiset{x}) - multiset{x};
    assert n == (n + multiset{x}) - multiset{x};
  }

  lemma MapWithout<T, U>(f: T -> U, s: seq<T>, j: nat)
    requires j < |s|
    ensures |Without(s, j)| == |s| - 1
    ensures multiset(Map(f, s)) == multiset(Map(f, Without(s, j))) + multiset{f(s[j])}
  {
    var m := Map(f, s);
    assert m == m[..j] + [m[j]] + m[j + 1..];
    assert Map(f, Without(s, j)) == m[..j] + m[j + 1..];
  }

  lemma ImagesAreMaps(rs: seq<Record>)
    ensures RecordStrings(rs) == Map(RecordString, rs) && Views(rs) == Map(ViewOf, rs)
  {
  }

  lemma StringsIffViews(a: seq<Record>, b: seq<Record>, kind: Kind)
    requires RecordsOk(a) && RecordsOk(b)
    requires forall i :: 0 <= i < |a| ==> KindOf(a[i]) == kind
    requires forall i :: 0 <= i < |b| ==> KindOf(b[i]) == kind
    ensures multiset(RecordStrings(a)) == multiset(RecordStrings(b)) <==> multiset(Views(a)) == multiset(Views(b))
  {
    forall x, y | x in a && y in b ensures RecordString(x) == RecordString(y) <==> ViewOf(x) == ViewOf(y) {
      hide RecordOk;
      RecordTextIffView(x, y);
    }
    hide RecordString, ViewOf, RecordOk;
    ImagesAreMaps(a);
    ImagesAreMaps(b);
    if multiset(RecordStrings(a)) == multiset(RecordStrings(b)) {
      MultisetTransfer(RecordString, ViewOf, a, b);
    }
    if multiset(Views(a)) == multiset(Views(b)) {
      MultisetTransfer(ViewOf, RecordString, a, b);
    }
  }

  /** The central law of the codec. For any two plans in the domain, of the same encoder or
      of different ones: equal bytes exactly when the verbs agree and the multisets of
      normalised records agree. */
  lemma EqualBytesIffSamePlan(p: Plan, q: Plan)
    requires InDomain(p) && InDomain(q)
    ensures Canonical(p) == Canonical(q) <==>
            p.Verb() == q.Verb() && multiset(Views(p.Records())) == multiset(Views(q.Records()))
  {
    hide RecordOk, RecordString, ViewOf;
    var a, b := RecordStrings(p.Records()), RecordStrings(q.Records());
    SortEqualIffSameMultiset(a, b);
    if Canonical(p) == Canonical(q) {
      EqualBytesGiveEqualPieces(p, q);
    }
    if p.Verb() == q.Verb() {
      VerbDeterminesKind(p, q);
      RecordsHavePlanKind(p);
      RecordsHavePlanKind(q);
      StringsIffViews(p.Records(), q.Records(), PlanKind(p));
    }
  }

  lemma EqualBytesGiveEqualPieces(p: Plan, q: Plan)
    requires InDomain(p) && InDomain(q) && Canonical(p) == Canonical(q)
    ensures p.Verb() == q.Verb()
    ensures Sort(RecordStrings(p.Records())) == Sort(RecordStrings(q.Records()))
  {
    hide RecordOk, RecordString;
    CanonicalPieces(p);
    CanonicalPieces(q);
    var a, b := Sort(RecordStrings(p.Records())), Sort(RecordStrings(q.Records()));
    var a', b' := if a == [] then [[]] else a, if b == [] then [[]] else b;
    var xs := Split(Canonical(p), RS);
    assert xs[1] == p.Verb() == q.Verb();
    assert xs[2..] == a' == b';
    NoEmptyRecordAfterSort(p);
    NoEmptyRecordAfterSort(q);
  }

  lemma NoEmptyRecordAfterSort(p: Plan)
    requires InDomain(p)
    ensures [] !in Sort(RecordStrings(p.Records()))
  {
    hide RecordOk, RecordString;
    RecordStringsShape(p.Records());
    var strings := RecordStrings(p.Records());
    SortIsSortedPermutation(strings);
    assert [] in multiset(Sort(strings)) <==> [] in multiset(strings);
  }

  // ---- round trip --------------------------------------------------------------------

  function InsertRecord(r: Record, rs: seq<Record>): seq<Record> {
    if rs == [] || Leq(RecordString(r), RecordString(rs[0])) then [r] + rs
    else [rs[0]] + InsertRecord(r, rs[1..])
  }

  /** The records in the order of their texts. */
  function SortRecords(rs: seq<Record>): seq<Record> {
    if rs == [] then [] else InsertRecord(rs[0], SortRecords(rs[1..]))
  }

  lemma {:induction false} InsertRecordTexts(r: Record, rs: seq<Record>)
    ensures RecordStrings(InsertRecord(r, rs)) == Insert(RecordString(r), RecordStrings(rs))
  {
    hide RecordString, Leq;
    if rs == [] || Leq(RecordString(r), RecordString(rs[0])) {
      assert RecordStrings([r] + rs) == [RecordString(r)] + RecordStrings(rs);
    } else {
      InsertRecordTexts(r, rs[1..]);
      assert RecordStrings(rs)[1..] == RecordStrings(rs[1..]);
      assert RecordStrings(InsertRecord(r, rs)) == [RecordString(rs[0])] + RecordStrings(InsertRecord(r, rs[1..]));
    }
  }

  lemma {:induction false} InsertRecordKeeps(r: Record, rs: seq<Record>)
    ensures multiset(InsertRecord(r, rs)) == multiset{r} + multiset(rs)
  {
    hide RecordString, Leq;
    if rs != [] && !Leq(RecordString(r), RecordString(rs[0])) {
      InsertRecordKeeps(r, rs[1..]);
      assert rs == [rs[0]] + rs[1..];
    }
  }

  lemma {:induction false} SortRecordsTexts(rs: seq<Record>)
    ensures RecordStrings(SortRecords(rs)) == Sort(RecordStrings(rs))
    ensures multiset(SortRecords(rs)) == multiset(rs)
  {
    hide RecordString;
    if rs != [] {
      SortRecordsTexts(rs[1..]);
      InsertRecordTexts(rs[0], SortRecords(rs[1..]));
      InsertRecordKeeps(rs[0], SortRecords(rs[1..]));
      hide InsertRecord;
      assert RecordStrings(rs)[1..] == RecordStrings(rs[1..]);
      assert rs == [rs[0]] + rs[1..];
    }
  }

  /** Decoding the bytes of a plan gives back its normalised records, in bytewise order of
      their texts, exactly when the plan has a record. A plan without records decodes to
      one spurious empty record, which is why the preview stops before decoding it. */
  lemma DecodeInvertsPlan(p: Plan)
    requires InDomain(p)
    ensures DecodeCanon(Canonical(p), PlanKind(p)) == Views(SortRecords(p.Records())) <==> p.Records() != []
  {
    hide InDomain, Canonical, RecordString, ViewOf, DecodeRecord, Sort, SortRecords, Split;
    var rs := p.Records();
    CanonicalPieces(p);
    SortRecordsTexts(rs);
    assert |multiset(SortRecords(rs))| == |multiset(rs)|;
    if rs == [] {
      assert |DecodeCanon(Canonical(p), PlanKind(p))| == 1;
    } else {
      DecodePieces(Split(Canonical(p), RS), p);
    }
  }

  lemma DecodePieces(parts: seq<Str>, p: Plan)
    requires InDomain(p) && p.Records() != []
    requires parts == Split(Canonical(p), RS)
    requires |parts| >= 2 && parts[2..] == RecordStrings(SortRecords(p.Records()))
    ensures DecodeCanon(Canonical(p), PlanKind(p)) == Views(SortRecords(p.Records()))
  {
    hide InDomain, Canonical, RecordString, ViewOf, DecodeRecord, Sort, SortRecords, Split;
    var sorted := SortRecords(p.Records());
    SortedRecordsDecode(p);
    forall i | 0 <= i < |sorted| ensures parts[i + 2] == RecordString(sorted[i]) {
      assert parts[2..][i] == RecordStrings(sorted)[i];
    }
    assert DecodeCanon(Canonical(p), PlanKind(p)) == Views(sorted);
  }

  lemma SortedRecordsDecode(p: Plan)
    requires InDomain(p)
    ensures forall i :: 0 <= i < |SortRecords(p.Records())| ==>
            DecodeRecord(RecordString(SortRecords(p.Records())[i]), PlanKind(p)) == ViewOf(SortRecords(p.Records())[i])
  {
    hide RecordOk, RecordString, ViewOf, DecodeRecord, SortRecords;
    var rs := p.Records();
    var sorted := SortRecords(rs);
    SortRecordsTexts(rs);
    RecordsHavePlanKind(p);
    forall i | 0 <= i < |sorted| ensures DecodeRecord(RecordString(sorted[i]), PlanKind(p)) == ViewOf(sorted[i]) {
      assert sorted[i] in multiset(rs);
      DecodeInvertsRecord(sorted[i]);
    }
  }
}

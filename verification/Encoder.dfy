/** The encoders as they run: validate, sort, append into a growable buffer, hash. Each
    is proved to succeed exactly on its domain and to emit the canonical bytes. */
module Encoder {
  import opened Bytes
  import opened Order
  import opened Lists
  import opened Canon
  import opened Buffer
  import Utf8

  /** A finished digest: the hex hash and the bytes it is the hash of. */
  datatype Digest = Digest(hex: Str, canon: Str)

  /** SHA-256 followed by hex rendering, or None when the library call fails. */
  type Hash = Str -> Option<Str>

  /** What an encoder of plan `p` has to return under hash function `sha`. */
  ghost predicate Encodes(p: Plan, sha: Hash, r: Option<Digest>) {
    && (r.Some? <==> Encodable(p) && sha(Canonical(p)).Some?)
    && (r.Some? ==> r.value == Digest(sha(Canonical(p)).value, Canonical(p)))
  }

  // ---- validation loops -----------------------------------------------------

  method InSet(s: Str, domain: seq<Str>) returns (found: bool)
    ensures found <==> s in domain
  {
    for i := 0 to |domain|
      invariant s !in domain[..i]
    {
      if s == domain[i] {
        return true;
      }
    }
    return false;
  }

  method CheckField(s: CStr) returns (ok: bool)
    ensures ok <==> FieldOk(Nz(s))
  {
    if s.None? {
      return true;
    }
    var v := s.value;
    var i := 0;
    while At(v, i) != '\0'
      invariant i <= |v|
      invariant forall c :: c in v[..i] ==> c != US && c != RS && c != COMMA && c != EQUALS
      decreases |v| - i
    {
      if At(v, i) == US || At(v, i) == RS || At(v, i) == ',' || At(v, i) == '=' {
        return false;
      }
      assert v[..i + 1] == v[..i] + [v[i]];
      i := i + 1;
    }
    assert v[..i] == v;
    ok := Utf8.Utf8Valid(v);
  }

  // ---- joined lists ---------------------------------------------------------

  lemma JoinToStart(xs: seq<Str>, d: Chr)
    ensures JoinTo(xs, 0, d) == []
  {
  }

  lemma JoinToStep(was: seq<Byte>, xs: seq<Str>, i: nat, d: Chr)
    requires i < |xs|
    ensures was + JoinTo(xs, i + 1, d) ==
            if i == 0 then was + JoinTo(xs, i, d) + xs[i] else was + JoinTo(xs, i, d) + [d] + xs[i]
    ensures |JoinTo(xs, i + 1, d)| <= |Join(xs, d)|
  {
    WholeJoin(xs, d);
    JoinToGrows(xs, i + 1, |xs|, d);
  }

  /** Append a delimiter-joined list to the buffer, stopping at the first refusal. */
  method EmitJoined(b: Buf, items: seq<Str>, d: Chr) returns (ok: bool)
    requires b.Valid()
    modifies b, b.p
    ensures b.Valid() && (b.p == old(b.p) || fresh(b.p))
    ensures ok <==> |old(b.contents)| + |Join(items, d)| <= MAX_CANON
    ensures ok ==> b.contents == old(b.contents) + Join(items, d)
  {
    hide Join, JoinTo;
    ghost var was := b.contents;
    assert was + JoinTo(items, 0, d) == was by { JoinToStart(items, d); }
    for i := 0 to |items|
      invariant b.Valid() && (b.p == old(b.p) || fresh(b.p))
      invariant b.contents == was + JoinTo(items, i, d)
    {
      JoinToStep(was, items, i, d);
      ok := true;
      if i > 0 {
        ok := b.Addc(d);
      }
      if ok {
        ok := b.Add(items[i]);
      }
      if !ok {
        return;
      }
    }
    WholeJoin(items, d);
    ok := true;
  }

  /** Close the buffer with a NUL and hand its contents out as a C string. */
  method Terminate(b: Buf, ghost text: Str) returns (s: Option<Str>)
    requires b.Valid() && b.contents == text
    modifies b, b.p
    ensures s.Some? <==> |text| + 1 <= MAX_CANON
    ensures s.Some? ==> s.value == text
  {
    var ok := b.Addc('\0');
    if !ok {
      return None;
    }
    ghost var all := b.contents;
    assert b.p[..b.len - 1] == all[..b.len - 1] == text;
    s := Some(b.p[..b.len - 1]);
  }

  /** Sort a copy with qsort, then comma-join it into a fresh C string. */
  method SortAndJoin(items: seq<Str>) returns (r: Option<Str>)
    ensures r.Some? <==> |CommaList(items)| + 1 <= MAX_CANON
    ensures r.Some? ==> r.value == CommaList(items)
  {
    var tmp := new Str[|items|](i requires 0 <= i < |items| => items[i]);
    assert tmp[..] == items;
    QSort(tmp);
    var b := new Buf();
    var ok := EmitJoined(b, tmp[..], COMMA);
    if !ok {
      return None;
    }
    r := Terminate(b, CommaList(items));
  }

  /** join_sorted: validate, sort a copy, optionally refuse duplicates, comma-join. */
  method JoinSorted(items: seq<CStr>, dedup: bool, allowed: Option<seq<Str>>)
    returns (r: Option<Str>, err: bool)
    ensures err <==> !ListOk(items, dedup, allowed)
    ensures r.Some? <==> ListOk(items, dedup, allowed) && |CommaList(NzAll(items))| + 1 <= MAX_CANON
    ensures r.Some? ==> r.value == CommaList(NzAll(items))
  {
    for i := 0 to |items|
      invariant forall j :: 0 <= j < i ==> FieldOk(NzAll(items)[j])
      invariant allowed.Some? ==> forall j :: 0 <= j < i ==> Nz(items[j]) in allowed.value
    {
      var ok := CheckField(items[i]);
      if !ok {
        assert !FieldOk(NzAll(items)[i]);
        return None, true;
      }
      if allowed.Some? {
        ok := InSet(Nz(items[i]), allowed.value);
        if !ok {
          return None, true;
        }
      }
    }
    if dedup {
      var dup := HasAdjacentEqual(Sort(NzAll(items)));
      SortedDuplicates(NzAll(items));
      if dup {
        return None, true;
      }
    }
    r := SortAndJoin(NzAll(items));
    err := false;
  }

  ghost predicate HasNeighbours(s: seq<Str>) {
    exists i :: 1 <= i < |s| && s[i - 1] == s[i]
  }

  method HasAdjacentEqual(s: seq<Str>) returns (dup: bool)
    ensures dup <==> HasNeighbours(s)
  {
    var i := 1;
    while i < |s|
      invariant 1 <= i
      invariant forall j :: 1 <= j < i && j < |s| ==> s[j - 1] != s[j]
    {
      if s[i - 1] == s[i] {
        return true;
      }
      i := i + 1;
    }
    dup := false;
  }

  /** In a sorted list, duplicates are neighbours; and sorting neither makes nor hides them. */
  lemma SortedDuplicates(s: seq<Str>)
    ensures NoDup(s) <==> !HasNeighbours(Sort(s))
  {
    SortIsSortedPermutation(s);
    var t := Sort(s);
    if NoDup(t) {
      PermutationKeepsNoDup(t, s);
    } else {
      var i, j :| 0 <= i < j < |t| && t[i] == t[j];
      assert Leq(t[i], t[i + 1]);
      if i + 1 < j { assert Leq(t[i + 1], t[j]); }
      LeqAntisymmetric(t[i], t[i + 1]);
      assert t[i + 1 - 1] == t[i + 1];
      if NoDup(s) { PermutationKeepsNoDup(s, t); }
    }
  }

  lemma {:induction false} NoDupFromMultiset<T>(s: seq<T>)
    requires forall x :: multiset(s)[x] <= 1
    ensures NoDup(s)
  {
    forall i, j | 0 <= i < j < |s| ensures s[i] != s[j] {
      assert s == s[..j] + s[j..] && s[j..] == [s[j]] + s[j + 1..];
      assert multiset(s) == multiset(s[..j]) + (multiset{s[j]} + multiset(s[j + 1..]));
      assert s[..j][i] == s[i];
      assert multiset(s[..j])[s[i]] >= 1;
      assert multiset(s)[s[j]] <= 1;
    }
  }

  lemma PermutationKeepsNoDup(s: seq<Str>, t: seq<Str>)
    requires NoDup(s) && multiset(s) == multiset(t)
    ensures NoDup(t)
  {
    forall x: Str ensures multiset(t)[x] <= 1 {
      NoDupMultiplicity(s, x);
    }
    NoDupFromMultiset(t);
  }

  /** The first `i` options pass the checks of join_sorted_kv. */
  ghost predicate OptsOkTo(opts: seq<Opt>, i: nat)
    requires i <= |opts|
  {
    && (forall j :: 0 <= j < i ==> FieldOk(Keys(opts)[j]) && FieldOk(Vals(opts)[j]) && Keys(opts)[j] in UPD_OPT_KEYS)
    && (forall j, k :: 0 <= j < k < i ==> Keys(opts)[j] != Keys(opts)[k])
  }

  /** The validation loop of join_sorted_kv. */
  method CheckOpts(opts: seq<Opt>) returns (ok: bool)
    ensures ok <==> OptsOk(opts)
  {
    for i := 0 to |opts|
      invariant OptsOkTo(opts, i)
    {
      ok := CheckOpt(opts, i);
      OptsOkStep(opts, i);
      if !ok {
        return false;
      }
    }
    ok := true;
  }

  /** Option `i` itself passes, and no earlier option has its key. */
  ghost predicate OptOkAt(opts: seq<Opt>, i: nat)
    requires i < |opts|
  {
    && FieldOk(Keys(opts)[i]) && FieldOk(Vals(opts)[i]) && Keys(opts)[i] in UPD_OPT_KEYS
    && forall j :: 0 <= j < i ==> Keys(opts)[j] != Keys(opts)[i]
  }

  lemma OptsOkStep(opts: seq<Opt>, i: nat)
    requires i < |opts| && OptsOkTo(opts, i)
    ensures OptsOkTo(opts, i + 1) <==> OptOkAt(opts, i)
    ensures !OptOkAt(opts, i) ==> !OptsOk(opts)
  {
  }

  /** Its body: one key and value, and the scan for an earlier equal key. */
  method CheckOpt(opts: seq<Opt>, i: nat) returns (ok: bool)
    requires i < |opts|
    ensures ok <==> OptOkAt(opts, i)
  {
    hide FieldOk;
    var key := Nz(opts[i].key);
    assert key == Keys(opts)[i] && Nz(opts[i].val) == Vals(opts)[i];
    ok := CheckField(opts[i].key);
    if ok { ok := CheckField(opts[i].val); }
    if ok { ok := InSet(key, UPD_OPT_KEYS); }
    if !ok {
      return;
    }
    for j := 0 to i
      invariant forall k :: 0 <= k < j ==> Keys(opts)[k] != key
    {
      if key == Nz(opts[j].key) {
        assert Keys(opts)[j] == Keys(opts)[i];
        return false;
      }
    }
  }

  /** join_sorted_kv: validate keys and values, refuse duplicate keys, render, sort, join. */
  method JoinSortedKv(opts: seq<Opt>) returns (r: Option<Str>, err: bool)
    ensures err <==> !OptsOk(opts)
    ensures r.Some? <==> OptsOk(opts) && |CommaList(Pairs(opts))| + 1 <= MAX_CANON
    ensures r.Some? ==> r.value == CommaList(Pairs(opts))
  {
    var ok := CheckOpts(opts);
    if !ok {
      return None, true;
    }
    r := SortAndJoin(Pairs(opts));
    err := false;
  }

  // ---- records --------------------------------------------------------------

  /** add_field followed by a separator byte. */
  method AddFieldThen(b: Buf, s: CStr, sep: Chr) returns (ok: bool)
    requires b.Valid()
    modifies b, b.p
    ensures b.Valid() && (b.p == old(b.p) || fresh(b.p))
    ensures ok <==> FieldOk(Nz(s)) && |old(b.contents)| + |Nz(s)| + 1 <= MAX_CANON
    ensures ok ==> b.contents == old(b.contents) + Nz(s) + [sep]
  {
    ok := AddField(b, s);
    if ok {
      ok := b.Addc(sep);
    }
  }

  method AddField(b: Buf, s: CStr) returns (ok: bool)
    requires b.Valid()
    modifies b, b.p
    ensures b.Valid() && (b.p == old(b.p) || fresh(b.p))
    ensures ok <==> FieldOk(Nz(s)) && |old(b.contents)| + |Nz(s)| <= MAX_CANON
    ensures ok ==> b.contents == old(b.contents) + Nz(s)
  {
    ok := CheckField(s);
    if !ok {
      return;
    }
    ok := b.Add(Nz(s));
  }

  lemma JoinTwo(a: Str, b: Str)
    ensures Join([a, b], US) == a + [US] + b
  {
    assert [a, b][1..] == [b];
  }

  lemma JoinThree(a: Str, b: Str, c: Str)
    ensures Join([a, b, c], US) == a + [US] + b + [US] + c
  {
    assert [a, b, c][1..] == [b, c];
    JoinTwo(b, c);
  }

  lemma JoinFour(a: Str, b: Str, c: Str, d: Str)
    ensures Join([a, b, c, d], US) == a + [US] + b + [US] + c + [US] + d
  {
    assert [a, b, c, d][1..] == [b, c, d];
    JoinThree(b, c, d);
  }

  lemma JoinSix(a: Str, b: Str, c: Str, d: Str, e: Str, f: Str)
    ensures Join([a, b, c, d, e, f], US) == a + [US] + b + [US] + c + [US] + d + [US] + e + [US] + f
  {
    assert [a, b, c, d, e, f][1..][1..] == [c, d, e, f];
    assert [a, b, c, d, e, f][1..][0] == b;
    JoinFour(c, d, e, f);
  }

  /** A record with three plain fields: hold and unhold. */
  method EmitThree(f0: CStr, f1: CStr, f2: CStr) returns (s: Option<Str>)
    ensures var text := Join([Nz(f0), Nz(f1), Nz(f2)], US);
            && (s.Some? <==> FieldOk(Nz(f0)) && FieldOk(Nz(f1)) && FieldOk(Nz(f2)) && |text| + 1 <= MAX_CANON)
            && (s.Some? ==> s.value == text)
  {
    JoinThree(Nz(f0), Nz(f1), Nz(f2));
    hide Join, FieldOk;
    var b := new Buf();
    var ok := AddFieldThen(b, f0, US);
    assert ok ==> b.contents == Nz(f0) + [US];
    if ok { ok := AddFieldThen(b, f1, US); }
    if ok { ok := AddField(b, f2); }
    if !ok {
      return None;
    }
    s := Terminate(b, Join([Nz(f0), Nz(f1), Nz(f2)], US));
  }

  /** A record with four plain fields: configure. */
  method EmitFour(f0: CStr, f1: CStr, f2: CStr, f3: CStr) returns (s: Option<Str>)
    ensures var text := Join([Nz(f0), Nz(f1), Nz(f2), Nz(f3)], US);
            && (s.Some? <==> FieldOk(Nz(f0)) && FieldOk(Nz(f1)) && FieldOk(Nz(f2)) && FieldOk(Nz(f3))
                             && |text| + 1 <= MAX_CANON)
            && (s.Some? ==> s.value == text)
  {
    JoinFour(Nz(f0), Nz(f1), Nz(f2), Nz(f3));
    hide Join, FieldOk;
    var b := new Buf();
    var ok := AddFieldThen(b, f0, US);
    assert ok ==> b.contents == Nz(f0) + [US];
    if ok { ok := AddFieldThen(b, f1, US); }
    if ok { ok := AddFieldThen(b, f2, US); }
    if ok { ok := AddField(b, f3); }
    if !ok {
      return None;
    }
    s := Terminate(b, Join([Nz(f0), Nz(f1), Nz(f2), Nz(f3)], US));
  }

  /** Five plain fields and an already joined list: transactions. */
  method EmitSix(f0: CStr, f1: CStr, f2: CStr, f3: CStr, f4: CStr, list: Str) returns (s: Option<Str>)
    ensures var text := Join([Nz(f0), Nz(f1), Nz(f2), Nz(f3), Nz(f4), list], US);
            && (s.Some? <==> FieldOk(Nz(f0)) && FieldOk(Nz(f1)) && FieldOk(Nz(f2)) && FieldOk(Nz(f3))
                             && FieldOk(Nz(f4)) && |text| + 1 <= MAX_CANON)
            && (s.Some? ==> s.value == text)
  {
    JoinSix(Nz(f0), Nz(f1), Nz(f2), Nz(f3), Nz(f4), list);
    hide Join, FieldOk;
    var b := new Buf();
    var ok := AddFieldThen(b, f0, US);
    assert ok ==> b.contents == Nz(f0) + [US];
    if ok { ok := AddFieldThen(b, f1, US); }
    if ok { ok := AddFieldThen(b, f2, US); }
    if ok { ok := AddFieldThen(b, f3, US); }
    if ok { ok := AddFieldThen(b, f4, US); }
    if ok { ok := b.Add(list); }
    if !ok {
      return None;
    }
    s := Terminate(b, Join([Nz(f0), Nz(f1), Nz(f2), Nz(f3), Nz(f4), list], US));
  }

  /** Two plain fields and two already joined lists: update sources. */
  method EmitTwoAndLists(f0: CStr, f1: CStr, list: Str, opts: Str) returns (s: Option<Str>)
    ensures var text := Join([Nz(f0), Nz(f1), list, opts], US);
            && (s.Some? <==> FieldOk(Nz(f0)) && FieldOk(Nz(f1)) && |text| + 1 <= MAX_CANON)
            && (s.Some? ==> s.value == text)
  {
    JoinFour(Nz(f0), Nz(f1), list, opts);
    hide Join, FieldOk;
    var b := new Buf();
    var ok := AddFieldThen(b, f0, US);
    assert ok ==> b.contents == Nz(f0) + [US];
    if ok { ok := AddFieldThen(b, f1, US); }
    if ok { ok := b.Add(list); }
    if ok { ok := b.Addc(US); }
    if ok { ok := b.Add(opts); }
    if !ok {
      return None;
    }
    s := Terminate(b, Join([Nz(f0), Nz(f1), list, opts], US));
  }

  /** What building one record has to yield; the NUL takes one byte of the cap. */
  ghost predicate Builds(r: Record, s: Option<Str>) {
    && (s.Some? <==> RecordOk(r) && |RecordString(r)| + 1 <= MAX_CANON)
    && (s.Some? ==> s.value == RecordString(r))
  }

  method PkgTxnRecord(r: TxnRecord) returns (s: Option<Str>)
    ensures Builds(r, s)
  {
    var known := InSet(Nz(r.action), ACTIONS);
    if !known {
      return None;
    }
    var flags, err := JoinSorted(r.flags, true, Some(FLAGS));
    JoinLength(Fields(r), US, 5);
    if flags.None? {
      return None;
    }
    s := EmitSix(r.package, r.architecture, r.action, r.fromVersion, r.toVersion, flags.value);
  }

  method CfgRecordString(r: CfgRecord) returns (s: Option<Str>)
    ensures Builds(r, s)
  {
    var known := InSet(Nz(r.state), CFG_STATES);
    if !known {
      return None;
    }
    s := EmitFour(r.package, r.architecture, r.currentVersion, r.state);
  }

  method HoldRecordString(r: HoldRecord) returns (s: Option<Str>)
    ensures Builds(r, s)
  {
    var knownFrom := InSet(Nz(r.fromState), HOLD_STATES);
    var knownTo := InSet(Nz(r.toState), HOLD_STATES);
    if !knownFrom || !knownTo {
      return None;
    }
    s := EmitThree(r.package, r.fromState, r.toState);
  }

  method SrcRecordString(r: SrcRecord) returns (s: Option<Str>)
    ensures Builds(r, s)
  {
    var comps, cerr := JoinSorted(r.components, true, None);
    JoinLength(Fields(r), US, 2);
    if comps.None? {
      return None;
    }
    var opts, oerr := JoinSortedKv(r.options);
    JoinLength(Fields(r), US, 3);
    if opts.None? {
      return None;
    }
    s := EmitTwoAndLists(r.uri, r.suite, comps.value, opts.value);
  }

  // ---- plans ----------------------------------------------------------------

  /** A record's string is strictly shorter than the plan's bytes, even with its NUL: a
      per-record limit never refuses what the plan limit admits. */
  lemma RecordFitsInPlan(verb: Str, strings: seq<Str>, i: nat)
    requires i < |strings|
    ensures |strings[i]| + 1 <= |Assemble(verb, strings)|
  {
    SortIsSortedPermutation(strings);
    assert strings[i] in multiset(strings);
    assert strings[i] in multiset(Sort(strings));
    var j :| 0 <= j < |Sort(strings)| && Sort(strings)[j] == strings[i];
    JoinLength(Sort(strings), RS, j);
  }

  ghost predicate Finalized(verb: Str, strings: seq<Str>, sha: Hash, d: Option<Digest>) {
    var c := Assemble(verb, strings);
    && (d.Some? <==> FieldOk(verb) && |c| <= MAX_CANON && sha(c).Some?)
    && (d.Some? ==> d.value == Digest(sha(c).value, c))
  }

  /** "1" RS verb RS, then the sorted records. */
  method EmitPlan(verb: Str, sorted: seq<Str>) returns (text: Option<Str>)
    ensures var c := Header(verb) + Join(sorted, RS);
            && (text.Some? <==> |c| <= MAX_CANON)
            && (text.Some? ==> text.value == c)
  {
    hide Join;
    var b := new Buf();
    var ok := b.Addc('1');
    assert ok ==> b.contents == ['1'];
    if ok { ok := b.Addc(RS); }
    if ok { ok := b.Add(verb); }
    if ok { ok := b.Addc(RS); }
    assert ok ==> b.contents == Header(verb);
    if ok { ok := EmitJoined(b, sorted, RS); }
    if !ok {
      return None;
    }
    ghost var c := Header(verb) + Join(sorted, RS);
    var t: Str := b.p[..b.len];
    text := Some(t);
  }

  /** finalize: sort the built records in place, assemble, hash. */
  method Finalize(verb: Str, recs: seq<Str>, sha: Hash) returns (d: Option<Digest>)
    ensures Finalized(verb, recs, sha, d)
  {
    ghost var c := Assemble(verb, recs);
    var vok := CheckField(Some(verb));
    if !vok {
      return None;
    }
    var sorted := new Str[|recs|](i requires 0 <= i < |recs| => recs[i]);
    assert sorted[..] == recs;
    QSort(sorted);
    var whole := EmitPlan(verb, sorted[..]);
    if whole.None? {
      return None;
    }
    var text := whole.value;
    var hex := sha(text);
    if hex.None? {
      return None;
    }
    d := Some(Digest(hex.value, text));
  }

  lemma RefusedRecord(p: Plan, i: nat, s: Option<Str>)
    requires i < |p.Records()| && Builds(p.Records()[i], s) && s.None?
    ensures !Encodable(p)
  {
    RecordFitsInPlan(p.Verb(), RecordStrings(p.Records()), i);
  }

  /** `strings` are the record strings of the first records, all of them valid. */
  ghost predicate BuiltTo(rs: seq<Record>, strings: seq<Str>) {
    && |strings| <= |rs|
    && RecordsOk(rs[..|strings|])
    && strings == RecordStrings(rs)[..|strings|]
  }

  lemma TakeOneMore<T>(all: seq<T>, part: seq<T>, x: T)
    requires |part| < |all| && part == all[..|part|] && x == all[|part|]
    ensures part + [x] == all[..|part| + 1]
  {
  }

  lemma BuiltStep(rs: seq<Record>, strings: seq<Str>, s: Str)
    requires BuiltTo(rs, strings) && |strings| < |rs|
    requires RecordOk(rs[|strings|]) && s == RecordString(rs[|strings|])
    ensures BuiltTo(rs, strings + [s])
  {
    hide RecordOk, RecordString;
    TakeOneMore(RecordStrings(rs), strings, s);
    TakeOneMore(rs, rs[..|strings|], rs[|strings|]);
    assert |strings + [s]| == |strings| + 1;
  }

  /** Once every record is built, what is left to decide is the plan's length and the hash. */
  lemma Sealed(p: Plan, strings: seq<Str>, sha: Hash, d: Option<Digest>)
    requires p.VerbInDomain() && |strings| == |p.Records()|
    requires BuiltTo(p.Records(), strings)
    requires Finalized(p.Verb(), strings, sha, d)
    ensures Encodes(p, sha, d)
  {
    hide RecordOk, RecordString, FieldOk;
    VerbIsField(p);
    assert p.Records()[..|strings|] == p.Records();
    assert RecordStrings(p.Records())[..|strings|] == RecordStrings(p.Records());
  }

  method DigestPkgTxn(verb: CStr, recs: seq<TxnRecord>, sha: Hash) returns (d: Option<Digest>)
    ensures Encodes(TxnPlan(verb, recs), sha, d)
  {
    ghost var p := TxnPlan(verb, recs);
    if verb.None? {
      return None;
    }
    var known := InSet(verb.value, TXN_VERBS);
    if !known {
      return None;
    }
    var built: seq<Str> := [];
    for i := 0 to |recs|
      invariant |built| == i && BuiltTo(p.Records(), built)
    {
      var s := PkgTxnRecord(recs[i]);
      if s.None? {
        RefusedRecord(p, i, s);
        return None;
      }
      BuiltStep(p.Records(), built, s.value);
      built := built + [s.value];
    }
    d := Finalize(verb.value, built, sha);
    Sealed(p, built, sha, d);
  }

  method DigestConfigure(recs: seq<CfgRecord>, sha: Hash) returns (d: Option<Digest>)
    ensures Encodes(CfgPlan(recs), sha, d)
  {
    ghost var p := CfgPlan(recs);
    var built: seq<Str> := [];
    for i := 0 to |recs|
      invariant |built| == i && BuiltTo(p.Records(), built)
    {
      var s := CfgRecordString(recs[i]);
      if s.None? {
        RefusedRecord(p, i, s);
        return None;
      }
      BuiltStep(p.Records(), built, s.value);
      built := built + [s.value];
    }
    d := Finalize(CFG_VERB, built, sha);
    Sealed(p, built, sha, d);
  }

  method DigestHold(verb: CStr, recs: seq<HoldRecord>, sha: Hash) returns (d: Option<Digest>)
    ensures Encodes(HoldPlan(verb, recs), sha, d)
  {
    ghost var p := HoldPlan(verb, recs);
    if verb.None? {
      return None;
    }
    var known := InSet(verb.value, HOLD_VERBS);
    if !known {
      return None;
    }
    var built: seq<Str> := [];
    for i := 0 to |recs|
      invariant |built| == i && BuiltTo(p.Records(), built)
    {
      var s := HoldRecordString(recs[i]);
      if s.None? {
        RefusedRecord(p, i, s);
        return None;
      }
      BuiltStep(p.Records(), built, s.value);
      built := built + [s.value];
    }
    d := Finalize(verb.value, built, sha);
    Sealed(p, built, sha, d);
  }

  method DigestUpdate(recs: seq<SrcRecord>, sha: Hash) returns (d: Option<Digest>)
    ensures Encodes(UpdPlan(recs), sha, d)
  {
    ghost var p := UpdPlan(recs);
    var built: seq<Str> := [];
    for i := 0 to |recs|
      invariant |built| == i && BuiltTo(p.Records(), built)
    {
      var s := SrcRecordString(recs[i]);
      if s.None? {
        RefusedRecord(p, i, s);
        return None;
      }
      BuiltStep(p.Records(), built, s.value);
      built := built + [s.value];
    }
    d := Finalize(UPD_VERB, built, sha);
    Sealed(p, built, sha, d);
  }

  // ---- the resource token ---------------------------------------------------

  ghost predicate ResourceOk(targets: seq<CStr>) {
    ListOk(targets, true, None) && |CommaList(NzAll(targets))| + 1 <= MAX_CANON
  }

  method Resource(targets: seq<CStr>) returns (r: Option<Str>)
    ensures r.Some? <==> ResourceOk(targets)
    ensures r.Some? ==> r.value == CommaList(NzAll(targets))
  {
    var err;
    r, err := JoinSorted(targets, true, None);
  }
}

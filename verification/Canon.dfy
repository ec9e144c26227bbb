/** The schema-1 canonical encoding as a function: domains, record strings, plan bytes. */
module Canon {
  import opened Bytes
  import opened Order
  import opened Lists
  import Utf8
  import Buffer

  // ---- the domains ----------------------------------------------------------

  const TXN_VERBS: seq<Str> := ["apt.install", "apt.remove", "apt.purge", "apt.upgrade", "apt.dist_upgrade"]
  const HOLD_VERBS: seq<Str> := ["apt.hold", "apt.unhold"]
  const CFG_VERB: Str := "apt.configure"
  const UPD_VERB: Str := "apt.update"
  const ACTIONS: seq<Str> := ["install", "upgrade", "downgrade", "remove", "purge"]
  const FLAGS: seq<Str> := ["hold", "auto", "essential", "protected"]
  const CFG_STATES: seq<Str> :=
    ["half-installed", "unpacked", "half-configured", "triggers-awaited", "triggers-pending"]
  const HOLD_STATES: seq<Str> := ["hold", "install"]
  const UPD_OPT_KEYS: seq<Str> := ["signed-by", "architectures", "trusted"]

  /** One identity-relevant option of an update source; either half may be NULL. */
  datatype Opt = Opt(key: CStr, val: CStr)

  /** The typed records of the four encoders. */
  datatype Record =
    | Txn(package: CStr, architecture: CStr, action: CStr, fromVersion: CStr, toVersion: CStr, flags: seq<CStr>)
    | Cfg(package: CStr, architecture: CStr, currentVersion: CStr, state: CStr)
    | Hold(package: CStr, fromState: CStr, toState: CStr)
    | Src(uri: CStr, suite: CStr, components: seq<CStr>, options: seq<Opt>)

  type TxnRecord = r: Record | r.Txn? witness Txn(None, None, None, None, None, [])
  type CfgRecord = r: Record | r.Cfg? witness Cfg(None, None, None, None)
  type HoldRecord = r: Record | r.Hold? witness Hold(None, None, None)
  type SrcRecord = r: Record | r.Src? witness Src(None, None, [], [])

  /** A call of one of the four encoders. The configure and update encoders fix the verb. */
  datatype Plan =
    | TxnPlan(verb: CStr, txns: seq<TxnRecord>)
    | CfgPlan(cfgs: seq<CfgRecord>)
    | HoldPlan(verb: CStr, holds: seq<HoldRecord>)
    | UpdPlan(srcs: seq<SrcRecord>)
  {
    function Records(): seq<Record> {
      match this
      case TxnPlan(_, rs) => rs
      case CfgPlan(rs) => rs
      case HoldPlan(_, rs) => rs
      case UpdPlan(rs) => rs
    }

    function Verb(): Str {
      match this
      case TxnPlan(v, _) => Nz(v)
      case CfgPlan(_) => CFG_VERB
      case HoldPlan(v, _) => Nz(v)
      case UpdPlan(_) => UPD_VERB
    }

    predicate VerbInDomain() {
      match this
      case TxnPlan(v, _) => v.Some? && v.value in TXN_VERBS
      case CfgPlan(_) => true
      case HoldPlan(v, _) => v.Some? && v.value in HOLD_VERBS
      case UpdPlan(_) => true
    }
  }

  /** A field value: no separator, no sub-list delimiter, strict UTF-8. */
  predicate FieldOk(s: Str) {
    US !in s && RS !in s && COMMA !in s && EQUALS !in s && Utf8.Valid(s)
  }

  ghost predicate FieldsOk(xs: seq<Str>) {
    forall i :: 0 <= i < |xs| ==> FieldOk(xs[i])
  }

  /** What join_sorted asks of its items. */
  ghost predicate ListOk(items: seq<CStr>, dedup: bool, allowed: Option<seq<Str>>) {
    && FieldsOk(NzAll(items))
    && (allowed.Some? ==> forall i :: 0 <= i < |items| ==> Nz(items[i]) in allowed.value)
    && (dedup ==> NoDup(NzAll(items)))
  }

  function Keys(opts: seq<Opt>): (r: seq<Str>)
    ensures |r| == |opts| && forall i :: 0 <= i < |opts| ==> r[i] == Nz(opts[i].key)
  {
    seq(|opts|, i requires 0 <= i < |opts| => Nz(opts[i].key))
  }

  function Vals(opts: seq<Opt>): (r: seq<Str>)
    ensures |r| == |opts| && forall i :: 0 <= i < |opts| ==> r[i] == Nz(opts[i].val)
  {
    seq(|opts|, i requires 0 <= i < |opts| => Nz(opts[i].val))
  }

  function Pair(key: Str, val: Str): Str {
    key + [EQUALS] + val
  }

  function Pairs(opts: seq<Opt>): (r: seq<Str>)
    ensures |r| == |opts| && forall i :: 0 <= i < |opts| ==> r[i] == Pair(Nz(opts[i].key), Nz(opts[i].val))
  {
    seq(|opts|, i requires 0 <= i < |opts| => Pair(Nz(opts[i].key), Nz(opts[i].val)))
  }

  /** What join_sorted_kv asks of its keys and values. */
  ghost predicate OptsOk(opts: seq<Opt>) {
    && FieldsOk(Keys(opts)) && FieldsOk(Vals(opts))
    && (forall i :: 0 <= i < |opts| ==> Keys(opts)[i] in UPD_OPT_KEYS)
    && NoDup(Keys(opts))
  }

  ghost predicate RecordOk(r: Record) {
    match r
    case Txn(p, a, act, f, t, flags) =>
      Nz(act) in ACTIONS && ListOk(flags, true, Some(FLAGS))
      && FieldOk(Nz(p)) && FieldOk(Nz(a)) && FieldOk(Nz(act)) && FieldOk(Nz(f)) && FieldOk(Nz(t))
    case Cfg(p, a, v, s) =>
      Nz(s) in CFG_STATES && FieldOk(Nz(p)) && FieldOk(Nz(a)) && FieldOk(Nz(v)) && FieldOk(Nz(s))
    case Hold(p, f, t) =>
      Nz(f) in HOLD_STATES && Nz(t) in HOLD_STATES && FieldOk(Nz(p)) && FieldOk(Nz(f)) && FieldOk(Nz(t))
    case Src(u, s, comps, opts) =>
      ListOk(comps, true, None) && OptsOk(opts) && FieldOk(Nz(u)) && FieldOk(Nz(s))
  }

  ghost predicate RecordsOk(rs: seq<Record>) {
    forall i :: 0 <= i < |rs| ==> RecordOk(rs[i])
  }

  /** The verb and every record are in the contract's domain. */
  ghost predicate InDomain(p: Plan) {
    p.VerbInDomain() && RecordsOk(p.Records())
  }

  // ---- the bytes ------------------------------------------------------------

  function CommaList(items: seq<Str>): Str {
    Join(Sort(items), COMMA)
  }

  function Fields(r: Record): (f: seq<Str>)
    ensures |f| >= 3
  {
    match r
    case Txn(p, a, act, f, t, flags) => [Nz(p), Nz(a), Nz(act), Nz(f), Nz(t), CommaList(NzAll(flags))]
    case Cfg(p, a, v, s) => [Nz(p), Nz(a), Nz(v), Nz(s)]
    case Hold(p, f, t) => [Nz(p), Nz(f), Nz(t)]
    case Src(u, s, comps, opts) => [Nz(u), Nz(s), CommaList(NzAll(comps)), CommaList(Pairs(opts))]
  }

  function RecordString(r: Record): Str {
    Join(Fields(r), US)
  }

  function RecordStrings(rs: seq<Record>): (ss: seq<Str>)
    ensures |ss| == |rs| && forall i :: 0 <= i < |rs| ==> ss[i] == RecordString(rs[i])
  {
    seq(|rs|, i requires 0 <= i < |rs| => RecordString(rs[i]))
  }

  function Header(verb: Str): Str {
    ['1', RS] + verb + [RS]
  }

  function Assemble(verb: Str, records: seq<Str>): Str {
    Header(verb) + Join(Sort(records), RS)
  }

  /** The canonical bytes of a plan. */
  function Canonical(p: Plan): Str {
    Assemble(p.Verb(), RecordStrings(p.Records()))
  }

  /** The exact domain of the encoders, hashing aside. */
  ghost predicate Encodable(p: Plan) {
    InDomain(p) && |Canonical(p)| <= Buffer.MAX_CANON
  }

  // ---- what stays free of what ---------------------------------------------

  /** Lower-case ASCII words with dots, dashes and underscores are field values. */
  predicate PlainWord(s: Str) {
    forall i :: 0 <= i < |s| ==> 'a' <= s[i] <= 'z' || s[i] == '.' || s[i] == '-' || s[i] == '_'
  }

  lemma PlainWordIsField(s: Str)
    requires PlainWord(s)
    ensures FieldOk(s)
  {
    Utf8.AsciiIsValid(s);
  }

  lemma VerbsArePlain()
    ensures forall i :: 0 <= i < |TXN_VERBS| ==> PlainWord(TXN_VERBS[i])
    ensures forall i :: 0 <= i < |HOLD_VERBS| ==> PlainWord(HOLD_VERBS[i])
    ensures PlainWord(CFG_VERB) && PlainWord(UPD_VERB)
  {
    assert PlainWord(TXN_VERBS[0]) && PlainWord(TXN_VERBS[1]) && PlainWord(TXN_VERBS[2]);
    assert PlainWord(TXN_VERBS[3]) && PlainWord(TXN_VERBS[4]);
    assert PlainWord(HOLD_VERBS[0]) && PlainWord(HOLD_VERBS[1]);
  }

  lemma VerbIsField(p: Plan)
    requires p.VerbInDomain()
    ensures FieldOk(p.Verb())
  {
    VerbsArePlain();
    PlainWordIsField(p.Verb());
  }

  /** Sorting and joining field-safe items keeps out every character but the comma. */
  lemma CommaListAvoids(items: seq<Str>, c: Chr)
    requires c != COMMA && Free(items, c)
    ensures c !in CommaList(items)
  {
    SortIsSortedPermutation(items);
    forall i | 0 <= i < |Sort(items)| ensures c !in Sort(items)[i] {
      assert Sort(items)[i] in multiset(items);
    }
    JoinAvoids(Sort(items), COMMA, c);
  }

  lemma FreeThree(a: Str, b: Str, d: Str, c: Chr)
    requires c !in a && c !in b && c !in d
    ensures Free([a, b, d], c)
  {
  }

  lemma FreeAppend(xs: seq<Str>, ys: seq<Str>, c: Chr)
    requires Free(xs, c) && Free(ys, c)
    ensures Free(xs + ys, c)
  {
  }

  lemma PairsAvoid(opts: seq<Opt>, c: Chr)
    requires OptsOk(opts) && (c == US || c == RS)
    ensures Free(Pairs(opts), c)
  {
    forall i | 0 <= i < |opts| ensures c !in Pairs(opts)[i] {
      assert FieldOk(Keys(opts)[i]) && FieldOk(Vals(opts)[i]);
    }
  }

  /** The fields of a valid record contain neither separator. */
  lemma FieldsAvoidSeparators(r: Record, c: Chr)
    requires RecordOk(r) && (c == US || c == RS)
    ensures Free(Fields(r), c)
  {
    hide CommaList, NoDup, Utf8.Valid;
    match r
    case Txn(p, a, act, f, t, flags) =>
      CommaListAvoids(NzAll(flags), c);
      FreeThree(Nz(p), Nz(a), Nz(act), c);
      FreeThree(Nz(f), Nz(t), CommaList(NzAll(flags)), c);
      FreeAppend([Nz(p), Nz(a), Nz(act)], [Nz(f), Nz(t), CommaList(NzAll(flags))], c);
      assert Fields(r) == [Nz(p), Nz(a), Nz(act)] + [Nz(f), Nz(t), CommaList(NzAll(flags))];
    case Cfg(p, a, v, s) =>
      FreeThree(Nz(p), Nz(a), Nz(v), c);
      FreeThree(Nz(v), Nz(v), Nz(s), c);
      FreeAppend([Nz(p), Nz(a), Nz(v)], [Nz(s)], c);
      assert Fields(r) == [Nz(p), Nz(a), Nz(v)] + [Nz(s)];
    case Hold(p, f, t) =>
      FreeThree(Nz(p), Nz(f), Nz(t), c);
    case Src(u, s, comps, opts) =>
      CommaListAvoids(NzAll(comps), c);
      PairsAvoid(opts, c);
      CommaListAvoids(Pairs(opts), c);
      FreeThree(Nz(u), Nz(s), CommaList(NzAll(comps)), c);
      FreeAppend([Nz(u), Nz(s), CommaList(NzAll(comps))], [CommaList(Pairs(opts))], c);
      assert Fields(r) == [Nz(u), Nz(s), CommaList(NzAll(comps))] + [CommaList(Pairs(opts))];
  }

  /** Record strings are nonempty and free of the record separator. */
  lemma RecordStringShape(r: Record)
    requires RecordOk(r)
    ensures RS !in RecordString(r) && RecordString(r) != []
  {
    FieldsAvoidSeparators(r, RS);
    JoinAvoids(Fields(r), US, RS);
    JoinLength(Fields(r), US, 0);
  }

  lemma RecordStringsShape(rs: seq<Record>)
    requires RecordsOk(rs)
    ensures Free(RecordStrings(rs), RS)
    ensures [] !in RecordStrings(rs)
  {
    forall i | 0 <= i < |rs| ensures RS !in RecordStrings(rs)[i] && RecordStrings(rs)[i] != [] {
      RecordStringShape(rs[i]);
    }
  }
}

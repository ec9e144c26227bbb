/** Strict request parsing, from the JSON tree on: which trees are accepted, and what the
    parsed request holds. */
module Request {
  import opened Bytes
  import opened Names
  import opened Canon
  import opened Lists
  import opened Order
  import Encoder

  /** A JSON document as the parser library hands it over. String bytes may include NUL. */
  datatype Json =
    | JObject(members: seq<Member>)
    | JArray(items: seq<Json>)
    | JString(bytes: seq<Byte>)
    | JInteger(n: int)
    | JReal
    | JTrue
    | JFalse
    | JNull

  datatype Member = Member(key: Str, value: Json)

  const MAX_PACKAGES: nat := 256
  const MAX_DEPTH: nat := 4
  const LOCK_TIMEOUT_MAX: int := 3600
  const RECEIPT_HEXLEN: nat := 32

  const REQUEST_KEYS: seq<Str> := ["effect_receipt", "correlation_id", "plan_schema", "packages", "lock_timeout"]
  const PREVIEW_KEYS: seq<Str> := ["schema_version", "verb", "packages"]

  datatype Error = UnknownRequest | BadJson | SchemaInvalid
  datatype Result<T> = Ok(value: T) | Err(error: Error)
  datatype Arity = NoTargets | OnePlus

  datatype Request = Request(receipt: Str, cid: Str, planSchema: int, packages: seq<Str>, lockTimeout: int)
  datatype PreviewRequest = PreviewRequest(verb: Str, packages: seq<Str>)

  // ---- tree access --------------------------------------------------------------

  function Get(members: seq<Member>, key: Str): Option<Json> {
    if members == [] then None
    else if members[0].key == key then Some(members[0].value)
    else Get(members[1..], key)
  }

  /** A JSON string without an embedded NUL. */
  function StrClean(v: Option<Json>): CStr {
    if v.Some? && v.value.JString? && '\0' !in v.value.bytes then Some(v.value.bytes) else None
  }

  function IntegerOf(v: Option<Json>): Option<int> {
    if v.Some? && v.value.JInteger? then Some(v.value.n) else None
  }

  function Max(a: nat, b: nat): nat { if a < b then b else a }

  /** Nesting depth: 0 for scalars, one more than the deepest element for containers. */
  function Depth(v: Json): nat {
    match v
    case JObject(ms) => 1 + DepthMembers(ms)
    case JArray(items) => 1 + DepthItems(items)
    case _ => 0
  }

  function DepthMembers(ms: seq<Member>): nat {
    if ms == [] then 0 else Max(Depth(ms[0].value), DepthMembers(ms[1..]))
  }

  function DepthItems(items: seq<Json>): nat {
    if items == [] then 0 else Max(Depth(items[0]), DepthItems(items[1..]))
  }

  function VerbArity(verb: Str): Option<Arity> {
    if verb == "apt.update" || verb == "apt.configure" || verb == "apt.upgrade" || verb == "apt.dist_upgrade"
    then Some(NoTargets)
    else if verb == "apt.install" || verb == "apt.remove" || verb == "apt.purge"
            || verb == "apt.hold" || verb == "apt.unhold"
    then Some(OnePlus)
    else None
  }

  // ---- what is accepted -----------------------------------------------------------

  ghost predicate KeysWithin(members: seq<Member>, allowed: seq<Str>) {
    forall i :: 0 <= i < |members| ==> members[i].key in allowed
  }

  /** `v` holds a chain of `n` containers, one inside the other. */
  ghost predicate Nested(v: Json, n: nat)
    decreases n
  {
    n == 0 ||
    match v
    case JObject(ms) => n == 1 || exists i :: 0 <= i < |ms| && Nested(ms[i].value, n - 1)
    case JArray(items) => n == 1 || exists i :: 0 <= i < |items| && Nested(items[i], n - 1)
    case _ => false
  }

  /** The verbs that name packages, and those that never do. */
  ghost predicate TakesTargets(verb: Str) {
    verb in {"apt.install", "apt.remove", "apt.purge", "apt.hold", "apt.unhold"}
  }

  ghost predicate TakesNone(verb: Str) {
    verb in {"apt.update", "apt.configure", "apt.upgrade", "apt.dist_upgrade"}
  }

  ghost predicate ArityFits(arity: Arity, n: nat) {
    (arity == NoTargets ==> n == 0) && (arity == OnePlus ==> n >= 1)
  }

  /** A list of at most 256 distinct, well-formed target names. */
  ghost predicate TargetList(names: seq<Str>) {
    |names| <= 256 && NoDup(names) && forall i :: 0 <= i < |names| ==> TargetName(names[i])
  }

  /** The array `items` spells out exactly the names `names`. */
  ghost predicate Spells(items: seq<Json>, names: seq<Str>) {
    |items| == |names| && forall i :: 0 <= i < |items| ==> items[i] == JString(names[i])
  }

  /** The key "packages" lists exactly `names`, and that is a target list. */
  ghost predicate Packages(members: seq<Member>, names: seq<Str>) {
    && Get(members, "packages").Some? && Get(members, "packages").value.JArray?
    && Spells(Get(members, "packages").value.items, names) && TargetList(names)
  }

  /** Everything an effector request has to hold beside its packages. */
  ghost predicate Envelope(root: Json, receipt: Str, cid: Str, lockTimeout: int) {
    && root.JObject? && !Nested(root, 5)
    && (forall i :: 0 <= i < |root.members| ==>
          root.members[i].key in
            {"effect_receipt", "correlation_id", "plan_schema", "packages", "lock_timeout"})
    && Get(root.members, "effect_receipt") == Some(JString(receipt))
    && |receipt| == 32 && All(receipt, LowerHex)
    && Get(root.members, "correlation_id") == Some(JString(cid)) && CidGrammar(cid)
    && Get(root.members, "plan_schema") == Some(JInteger(1))
    && Get(root.members, "lock_timeout") == Some(JInteger(lockTimeout)) && 0 <= lockTimeout <= 3600
  }

  /** The complete acceptance condition of an effector request, and what it parses to. */
  ghost predicate Parses(verb: Str, root: Json, r: Request) {
    && (TakesTargets(verb) || TakesNone(verb))
    && Envelope(root, r.receipt, r.cid, r.lockTimeout) && r.planSchema == 1
    && Packages(root.members, r.packages) && (r.packages != [] <==> TakesTargets(verb))
  }

  /** Everything a preview request has to hold beside a known verb and its packages. */
  ghost predicate PreviewEnvelope(root: Json, verb: Str) {
    && root.JObject? && !Nested(root, 5)
    && (forall i :: 0 <= i < |root.members| ==> root.members[i].key in {"schema_version", "verb", "packages"})
    && Get(root.members, "schema_version") == Some(JInteger(1))
    && Get(root.members, "verb") == Some(JString(verb))
  }

  ghost predicate ParsesPreview(root: Json, r: PreviewRequest) {
    && PreviewEnvelope(root, r.verb) && (TakesTargets(r.verb) || TakesNone(r.verb))
    && Packages(root.members, r.packages) && (r.packages != [] <==> TakesTargets(r.verb))
  }

  // ---- the loops' functions against their meaning -------------------------------------

  lemma {:induction false} DepthIsNesting(v: Json, n: nat)
    ensures Depth(v) >= n <==> Nested(v, n)
    decreases n
  {
    if n > 0 {
      match v
      case JObject(ms) =>
        forall i | 0 <= i < |ms| ensures Depth(ms[i].value) >= n - 1 <==> Nested(ms[i].value, n - 1) {
          DepthIsNesting(ms[i].value, n - 1);
        }
        DeepestMember(ms, n - 1);
      case JArray(items) =>
        forall i | 0 <= i < |items| ensures Depth(items[i]) >= n - 1 <==> Nested(items[i], n - 1) {
          DepthIsNesting(items[i], n - 1);
        }
        DeepestItem(items, n - 1);
      case _ =>
    }
  }

  lemma {:induction false} DeepestMember(ms: seq<Member>, n: nat)
    ensures DepthMembers(ms) >= n <==> n == 0 || exists i :: 0 <= i < |ms| && Depth(ms[i].value) >= n
  {
    hide Depth;
    if ms != [] && n > 0 {
      DeepestMember(ms[1..], n);
      if i :| 0 <= i < |ms| && Depth(ms[i].value) >= n {
        if i > 0 { assert ms[1..][i - 1] == ms[i]; }
      }
      if i :| 0 <= i < |ms[1..]| && Depth(ms[1..][i].value) >= n { assert ms[i + 1] == ms[1..][i]; }
    }
  }

  lemma {:induction false} DeepestItem(items: seq<Json>, n: nat)
    ensures DepthItems(items) >= n <==> n == 0 || exists i :: 0 <= i < |items| && Depth(items[i]) >= n
  {
    hide Depth;
    if items != [] && n > 0 {
      DeepestItem(items[1..], n);
      if i :| 0 <= i < |items| && Depth(items[i]) >= n {
        if i > 0 { assert items[1..][i - 1] == items[i]; }
      }
      if i :| 0 <= i < |items[1..]| && Depth(items[1..][i]) >= n { assert items[i + 1] == items[1..][i]; }
    }
  }

  lemma AllowedKeys(k: Str)
    ensures k in REQUEST_KEYS <==>
            k in {"effect_receipt", "correlation_id", "plan_schema", "packages", "lock_timeout"}
    ensures k in PREVIEW_KEYS <==> k in {"schema_version", "verb", "packages"}
  {
    assert REQUEST_KEYS[0] == "effect_receipt" && REQUEST_KEYS[1] == "correlation_id";
    assert REQUEST_KEYS[2] == "plan_schema" && REQUEST_KEYS[3] == "packages" && REQUEST_KEYS[4] == "lock_timeout";
    assert PREVIEW_KEYS[0] == "schema_version" && PREVIEW_KEYS[1] == "verb" && PREVIEW_KEYS[2] == "packages";
  }

  lemma KeysAllowed(members: seq<Member>)
    ensures KeysWithin(members, REQUEST_KEYS) <==>
            forall i :: 0 <= i < |members| ==>
              members[i].key in {"effect_receipt", "correlation_id", "plan_schema", "packages", "lock_timeout"}
    ensures KeysWithin(members, PREVIEW_KEYS) <==>
            forall i :: 0 <= i < |members| ==> members[i].key in {"schema_version", "verb", "packages"}
  {
    forall i | 0 <= i < |members| { AllowedKeys(members[i].key); }
  }

  lemma ArityOfVerb(verb: Str)
    ensures VerbArity(verb) == Some(OnePlus) <==> TakesTargets(verb)
    ensures VerbArity(verb) == Some(NoTargets) <==> TakesNone(verb)
    ensures VerbArity(verb).Some? <==> TakesTargets(verb) || TakesNone(verb)
  {
  }

  // ---- the parsers as they run ------------------------------------------------------

  method OnlyKeys(members: seq<Member>, allowed: seq<Str>) returns (ok: bool)
    ensures ok <==> KeysWithin(members, allowed)
  {
    for i := 0 to |members|
      invariant forall j :: 0 <= j < i ==> members[j].key in allowed
    {
      var found := Encoder.InSet(members[i].key, allowed);
      if !found {
        return false;
      }
    }
    ok := true;
  }

  method IsLcHex(s: Str, n: nat) returns (ok: bool)
    ensures ok <==> |s| == n && All(s, LowerHex)
  {
    if |s| != n {
      return false;
    }
    for i := 0 to n
      invariant forall j :: 0 <= j < i ==> LowerHex(s[j])
    {
      var c := s[i];
      if !((c >= '0' && c <= '9') || (c >= 'a' && c <= 'f')) {
        return false;
      }
    }
    ok := true;
  }

  /** The package loop both parsers share: clean strings, well-formed, never seen before. */
  method ParsePackages(members: seq<Member>, arity: Arity) returns (r: Option<seq<Str>>)
    ensures r.Some? ==> Packages(members, r.value) && ArityFits(arity, |r.value|)
    ensures r.None? ==> forall names :: !(Packages(members, names) && ArityFits(arity, |names|))
  {
    var jpk := Get(members, "packages");
    if jpk.None? || !jpk.value.JArray? {
      return None;
    }
    var items := jpk.value.items;
    var np := |items|;
    if np > MAX_PACKAGES {
      return None;
    }
    if (arity == NoTargets && np != 0) || (arity == OnePlus && np == 0) {
      return None;
    }
    var out: seq<Str> := [];
    for i := 0 to np
      invariant |out| == i && Spells(items[..i], out)
      invariant NoDup(out) && forall j :: 0 <= j < i ==> TargetName(out[j])
    {
      var name := StrClean(Some(items[i]));
      if name.None? {
        forall names ensures !Spells(items, names) { NotClean(items, names, i); }
        return None;
      }
      var ok := NameOk(name.value);
      if !ok {
        forall names | Spells(items, names) ensures !TargetList(names) {
          assert names[i] == name.value;
        }
        return None;
      }
      for j := 0 to i
        invariant forall k :: 0 <= k < j ==> out[k] != name.value
      {
        if out[j] == name.value {
          forall names | Spells(items, names) ensures !NoDup(names) {
            assert names[i] == name.value && items[..i][j] == items[j] && names[j] == out[j];
          }
          return None;
        }
      }
      out := out + [name.value];
      assert items[..i + 1] == items[..i] + [items[i]];
    }
    assert items[..np] == items;
    r := Some(out);
  }

  lemma NotClean(items: seq<Json>, names: seq<Str>, i: nat)
    requires i < |items| && StrClean(Some(items[i])).None?
    ensures !Spells(items, names)
  {
    if |names| == |items| {
      assert '\0' !in names[i];
    }
  }

  method ParseRequest(verb: Str, tree: Option<Json>) returns (r: Result<Request>)
    ensures r.Ok? ==> tree.Some? && Parses(verb, tree.value, r.value)
    ensures r.Err? && tree.Some? ==> forall q :: !Parses(verb, tree.value, q)
    // the nine verbs, and which of them take packages
    ensures r == Err(UnknownRequest) <==>
              verb !in {"apt.install", "apt.remove", "apt.purge", "apt.upgrade", "apt.dist_upgrade", "apt.update",
                        "apt.hold", "apt.unhold", "apt.configure"}
    ensures r == Err(BadJson) <==> r != Err(UnknownRequest) && tree.None?
    ensures r.Ok? ==> (r.value.packages != [] <==>
                         verb in {"apt.install", "apt.remove", "apt.purge", "apt.hold", "apt.unhold"})
    ensures forall receipt, cid, t, names ::
              tree.Some? && Envelope(tree.value, receipt, cid, t) && Packages(tree.value.members, names)
              && (if names != [] then verb in {"apt.install", "apt.remove", "apt.purge", "apt.hold", "apt.unhold"}
                  else verb in {"apt.update", "apt.configure", "apt.upgrade", "apt.dist_upgrade"}) ==>
                r == Ok(Request(receipt, cid, 1, names, t))
  {
    hide Nested, CidGrammar, Packages, All;
    ArityOfVerb(verb);
    r := ParseKnown(verb, tree);
    if r.Ok? {
      forall receipt, cid, t, names |
        Envelope(tree.value, receipt, cid, t) && Packages(tree.value.members, names)
        && (if names != [] then TakesTargets(verb) else TakesNone(verb))
        ensures r == Ok(Request(receipt, cid, 1, names, t))
      {
        ParseIsUnique(verb, tree.value, r.value, Request(receipt, cid, 1, names, t));
      }
    } else if tree.Some? {
      forall receipt, cid, t, names
        ensures !(Envelope(tree.value, receipt, cid, t) && Packages(tree.value.members, names)
                  && if names != [] then TakesTargets(verb) else TakesNone(verb))
      {
        assert !Parses(verb, tree.value, Request(receipt, cid, 1, names, t));
      }
    }
  }

  method ParseKnown(verb: Str, tree: Option<Json>) returns (r: Result<Request>)
    ensures r.Ok? ==> tree.Some? && Parses(verb, tree.value, r.value)
    ensures r.Err? && tree.Some? ==> forall q :: !Parses(verb, tree.value, q)
    ensures r == Err(UnknownRequest) <==> !TakesTargets(verb) && !TakesNone(verb)
    ensures r == Err(BadJson) <==> (TakesTargets(verb) || TakesNone(verb)) && tree.None?
  {
    ArityOfVerb(verb);
    hide TakesTargets, TakesNone, VerbArity, Packages, Nested, Depth, CidGrammar, All;
    var arity := VerbArity(verb);
    if arity.None? {
      return Err(UnknownRequest);
    }
    if tree.None? {
      return Err(BadJson);
    }
    var frame := ParseEnvelope(tree.value);
    if frame.None? {
      return Err(SchemaInvalid);
    }
    var packages := ParsePackages(tree.value.members, arity.value);
    if packages.None? {
      return Err(SchemaInvalid);
    }
    r := Ok(frame.value.(packages := packages.value));
  }

  /** All checks but the last one, that of the packages. */
  method ParseEnvelope(root: Json) returns (r: Option<Request>)
    ensures r.Some? ==> Envelope(root, r.value.receipt, r.value.cid, r.value.lockTimeout) && r.value.planSchema == 1
    ensures r.None? ==> forall receipt, cid, t :: !Envelope(root, receipt, cid, t)
  {
    hide CidGrammar, Nested, Depth;
    DepthIsNesting(root, 5);
    if !root.JObject? || Depth(root) > MAX_DEPTH {
      return None;
    }
    var ms := root.members;
    KeysAllowed(ms);
    var keysOk := OnlyKeys(ms, REQUEST_KEYS);
    if !keysOk {
      return None;
    }
    hide KeysWithin, Get;
    var rcpt := StrClean(Get(ms, "effect_receipt"));
    if rcpt.None? {
      return None;
    }
    var hexOk := IsLcHex(rcpt.value, RECEIPT_HEXLEN);
    if !hexOk {
      return None;
    }
    hide All;
    var cid := StrClean(Get(ms, "correlation_id"));
    var cidOk := CidValid(cid);
    if !cidOk {
      return None;
    }
    if IntegerOf(Get(ms, "plan_schema")) != Some(1) {
      return None;
    }
    var t := IntegerOf(Get(ms, "lock_timeout"));
    if t.None? || t.value < 0 || t.value > LOCK_TIMEOUT_MAX {
      return None;
    }
    r := Some(Request(rcpt.value, cid.value, 1, [], t.value));
  }

  method ParsePreviewRequest(tree: Option<Json>) returns (r: Result<PreviewRequest>)
    ensures r.Ok? ==> tree.Some? && ParsesPreview(tree.value, r.value)
    ensures r.Err? && tree.Some? ==> forall q :: !ParsesPreview(tree.value, q)
    ensures r == Err(BadJson) <==> tree.None?
    // the nine verbs, and which of them take packages
    ensures r == Err(UnknownRequest) <==>
              tree.Some? && exists verb ::
                && PreviewEnvelope(tree.value, verb)
                && verb !in {"apt.install", "apt.remove", "apt.purge", "apt.upgrade", "apt.dist_upgrade", "apt.update",
                             "apt.hold", "apt.unhold", "apt.configure"}
    ensures r.Ok? ==> (r.value.packages != [] <==>
                         r.value.verb in {"apt.install", "apt.remove", "apt.purge", "apt.hold", "apt.unhold"})
    ensures forall verb, names ::
              tree.Some? && PreviewEnvelope(tree.value, verb) && Packages(tree.value.members, names)
              && (if names != [] then verb in {"apt.install", "apt.remove", "apt.purge", "apt.hold", "apt.unhold"}
                  else verb in {"apt.update", "apt.configure", "apt.upgrade", "apt.dist_upgrade"}) ==>
                r == Ok(PreviewRequest(verb, names))
  {
    hide Packages;
    if tree.None? {
      return Err(BadJson);
    }
    r := ParsePreviewTree(tree.value);
    forall verb, names |
      PreviewEnvelope(tree.value, verb) && Packages(tree.value.members, names)
      && (if names != [] then TakesTargets(verb) else TakesNone(verb))
      ensures r == Ok(PreviewRequest(verb, names))
    {
      assert ParsesPreview(tree.value, PreviewRequest(verb, names));
      PreviewIsUnique(tree.value, r.value, PreviewRequest(verb, names));
    }
  }

  method ParsePreviewTree(root: Json) returns (r: Result<PreviewRequest>)
    ensures r.Ok? ==> ParsesPreview(root, r.value)
    ensures r.Err? ==> r != Err(BadJson) && forall q :: !ParsesPreview(root, q)
    ensures r == Err(UnknownRequest) <==>
              exists verb :: PreviewEnvelope(root, verb) && !TakesTargets(verb) && !TakesNone(verb)
  {
    hide TargetList, Nested, Depth;
    DepthIsNesting(root, 5);
    if !root.JObject? || Depth(root) > MAX_DEPTH {
      return Err(SchemaInvalid);
    }
    var ms := root.members;
    KeysAllowed(ms);
    var keysOk := OnlyKeys(ms, PREVIEW_KEYS);
    if !keysOk {
      return Err(SchemaInvalid);
    }
    if IntegerOf(Get(ms, "schema_version")) != Some(1) {
      return Err(SchemaInvalid);
    }
    var verb := StrClean(Get(ms, "verb"));
    if verb.None? {
      return Err(SchemaInvalid);
    }
    ArityOfVerb(verb.value);
    hide TakesTargets, TakesNone, VerbArity;
    assert PreviewEnvelope(root, verb.value);
    var arity := VerbArity(verb.value);
    if arity.None? {
      return Err(UnknownRequest);
    }
    var packages := ParsePackages(ms, arity.value);
    if packages.None? {
      return Err(SchemaInvalid);
    }
    r := Ok(PreviewRequest(verb.value, packages.value));
  }

  // ---- a request as it is written -------------------------------------------------------

  /** The document a client sends, its keys in some order. */
  function Written(receipt: Str, cid: Str, lockTimeout: int, names: seq<Str>): Json {
    JObject([Member("effect_receipt", JString(receipt)), Member("correlation_id", JString(cid)),
             Member("plan_schema", JInteger(1)), Member("packages", JArray(Strings(names))),
             Member("lock_timeout", JInteger(lockTimeout))])
  }

  function Strings(names: seq<Str>): (items: seq<Json>)
    ensures Spells(items, names)
  {
    seq(|names|, i requires 0 <= i < |names| => JString(names[i]))
  }

  /** A written request parses, back to what was written. */
  lemma WrittenParses(verb: Str, receipt: Str, cid: Str, lockTimeout: int, names: seq<Str>)
    requires |receipt| == 32 && All(receipt, LowerHex) && CidGrammar(cid) && 0 <= lockTimeout <= 3600
    requires TargetList(names)
    requires if names != [] then verb in {"apt.install", "apt.remove", "apt.purge", "apt.hold", "apt.unhold"}
             else verb in {"apt.update", "apt.configure", "apt.upgrade", "apt.dist_upgrade"}
    ensures Parses(verb, Written(receipt, cid, lockTimeout, names), Request(receipt, cid, 1, names, lockTimeout))
  {
    hide CidGrammar, TargetList;
    var root := Written(receipt, cid, lockTimeout, names);
    WrittenLookup(root.members);
    FlatDepth(names);
    WrittenDepth(receipt, cid, lockTimeout, names);
  }

  lemma WrittenLookup(ms: seq<Member>)
    requires |ms| == 5 && ms[0].key == "effect_receipt" && ms[1].key == "correlation_id"
    requires ms[2].key == "plan_schema" && ms[3].key == "packages" && ms[4].key == "lock_timeout"
    ensures Get(ms, "effect_receipt") == Some(ms[0].value) && Get(ms, "correlation_id") == Some(ms[1].value)
    ensures Get(ms, "plan_schema") == Some(ms[2].value) && Get(ms, "packages") == Some(ms[3].value)
    ensures Get(ms, "lock_timeout") == Some(ms[4].value)
  {
    assert |"effect_receipt"| == 14 && |"correlation_id"| == 14 && |"plan_schema"| == 11;
    assert |"packages"| == 8 && |"lock_timeout"| == 12;
    assert "effect_receipt"[0] == 'e' && "correlation_id"[0] == 'c';
    var a, b, c, d := ms[1..], ms[2..], ms[3..], ms[4..];
    assert a[1..] == b && b[1..] == c && c[1..] == d;
    assert forall k :: Get(ms, k) == if ms[0].key == k then Some(ms[0].value) else Get(a, k);
    assert forall k :: Get(a, k) == if ms[1].key == k then Some(ms[1].value) else Get(b, k);
    assert forall k :: Get(b, k) == if ms[2].key == k then Some(ms[2].value) else Get(c, k);
    assert forall k :: Get(c, k) == if ms[3].key == k then Some(ms[3].value) else Get(d, k);
    assert Get(d, "lock_timeout") == Some(ms[4].value);
  }

  lemma {:induction false} FlatDepth(names: seq<Str>)
    ensures DepthItems(Strings(names)) == 0
  {
    if names != [] {
      FlatDepth(names[1..]);
      assert Strings(names)[1..] == Strings(names[1..]);
    }
  }

  lemma WrittenDepth(receipt: Str, cid: Str, lockTimeout: int, names: seq<Str>)
    requires DepthItems(Strings(names)) == 0
    ensures !Nested(Written(receipt, cid, lockTimeout, names), 5)
  {
    var root := Written(receipt, cid, lockTimeout, names);
    DeepestMember(root.members, 2);
    assert Depth(root.members[3].value) == 1;
    DepthIsNesting(root, 5);
  }

  // ---- what parsing guarantees downstream ----------------------------------------------

  /** A tree parses to at most one request. */
  lemma ParseIsUnique(verb: Str, root: Json, a: Request, b: Request)
    requires Parses(verb, root, a) && Parses(verb, root, b)
    ensures a == b
  {
    SpelledOnce(root.members, a.packages, b.packages);
  }

  lemma PreviewIsUnique(root: Json, a: PreviewRequest, b: PreviewRequest)
    requires ParsesPreview(root, a) && ParsesPreview(root, b)
    ensures a == b
  {
    SpelledOnce(root.members, a.packages, b.packages);
  }

  lemma SpelledOnce(members: seq<Member>, a: seq<Str>, b: seq<Str>)
    requires Packages(members, a) && Packages(members, b)
    ensures a == b
  {
    hide TargetList;
    var items := Get(members, "packages").value.items;
    forall i | 0 <= i < |items| ensures a[i] == b[i] {
      assert items[i] == JString(a[i]) && items[i] == JString(b[i]);
    }
    assert a == b;
  }

  lemma {:induction false} JoinBound(xs: seq<Str>, d: Chr, m: nat)
    requires forall i :: 0 <= i < |xs| ==> |xs[i]| <= m
    ensures |Join(xs, d)| <= |xs| * (m + 1)
  {
    if |xs| > 1 {
      JoinBound(xs[1..], d, m);
      assert |xs| * (m + 1) == (m + 1) + (|xs| - 1) * (m + 1);
    }
  }

  lemma ResourceLength(names: seq<Str>)
    requires TargetList(names)
    ensures |CommaList(names)| <= MAX_PACKAGES * (MAX_NAME + 1)
  {
    SortIsSortedPermutation(names);
    forall i | 0 <= i < |Sort(names)| ensures |Sort(names)[i]| <= MAX_NAME {
      assert Sort(names)[i] in multiset(names);
      var j :| 0 <= j < |names| && names[j] == Sort(names)[i];
      assert TargetName(names[j]);
    }
    hide TargetName, Sort;
    JoinBound(Sort(names), COMMA, MAX_NAME);
    assert |Sort(names)| * (MAX_NAME + 1) <= MAX_PACKAGES * (MAX_NAME + 1);
  }

  /** Every parsed package list has a resource token. */
  lemma TargetListHasResource(names: seq<Str>)
    requires TargetList(names)
    ensures Encoder.ResourceOk(Pointers(names))
  {
    hide FieldOk, TargetName, CommaList;
    forall i | 0 <= i < |names| ensures FieldOk(names[i]) {
      TargetNameIsField(names[i]);
    }
    ResourceLength(names);
  }

  /** The resource token of a parsed list names exactly its set of targets. */
  lemma ResourceNamesTheTargets(a: seq<Str>, b: seq<Str>)
    requires TargetList(a) && TargetList(b)
    ensures CommaList(a) == CommaList(b) <==> Elems(a) == Elems(b)
  {
    ListDecodes(a);
    ListDecodes(b);
    SortEqualIffSameSet(a, b);
  }

  lemma ListDecodes(a: seq<Str>)
    requires TargetList(a)
    ensures Split(CommaList(a), COMMA) == Sort(a)
  {
    SortIsSortedPermutation(a);
    forall i | 0 <= i < |Sort(a)| ensures COMMA !in Sort(a)[i] && Sort(a)[i] != [] {
      assert Sort(a)[i] in multiset(a);
      var j :| 0 <= j < |a| && a[j] == Sort(a)[i];
      TargetNameIsField(a[j]);
    }
    hide TargetName;
    SplitOfJoin(Sort(a), COMMA);
  }
}

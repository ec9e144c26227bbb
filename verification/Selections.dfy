/** hold and unhold: which selections change, the lines handed to dpkg, and the read-back. */
module Selections {
  import opened Bytes
  import opened Canon
  import opened Names
  import opened Builders
  import Decode
  import opened Order
  import opened Lists
  import Encoder
  import Invariance
  import Request

  const SPACE: Chr := ' '
  const NEWLINE: Chr := '\n'

  /** Package lookup by name, and the selection of every package. Two names may find the
      same package: a name with and without its architecture do. */
  datatype SelCache = SelCache(find: Str -> Option<nat>, sel: seq<Selection>) {
    predicate Knows(name: Str) {
      find(name).Some? && find(name).value < |sel|
    }

    function SelectionOf(name: Str): Option<Selection> {
      if Knows(name) then Some(sel[find(name).value]) else None
    }
  }

  datatype Change = Change(package: Str, from: Str, to: Str, wantHold: bool)
  datatype HoldMap =
    | MapOk(changes: seq<Change>, recs: seq<HoldRecord>)
    | Unknown(offender: Str)
    | Invalid(offender: Str)

  function SelectionWord(s: Selection): Str {
    match s
    case SelInstall => "install"
    case SelHold => "hold"
    case SelDeinstall => "deinstall"
    case SelPurge => "purge"
    case SelUnknown => "unknown"
  }

  function Wanted(hold: bool): Selection {
    if hold then SelHold else SelInstall
  }

  /** Only a package selected for install or hold can be toggled. */
  predicate Subject(c: SelCache, t: Str) {
    c.SelectionOf(t) == Some(SelInstall) || c.SelectionOf(t) == Some(SelHold)
  }

  predicate Toggles(c: SelCache, hold: bool, t: Str) {
    c.SelectionOf(t) == Some(Wanted(!hold))
  }

  function ChangeOf(hold: bool, t: Str): Change {
    Change(t, SelectionWord(Wanted(!hold)), SelectionWord(Wanted(hold)), hold)
  }

  /** The targets not yet in the intended state, in request order. */
  function Changing(c: SelCache, targets: seq<Str>, hold: bool): seq<Change> {
    if targets == [] then []
    else
      var last := targets[|targets| - 1];
      Changing(c, targets[..|targets| - 1], hold) + if Toggles(c, hold, last) then [ChangeOf(hold, last)] else []
  }

  function HoldRecordOf(h: Change): HoldRecord {
    Hold(Some(h.package), Some(h.from), Some(h.to))
  }

  function HoldRecords(changes: seq<Change>): (r: seq<HoldRecord>)
    ensures |r| == |changes| && forall i :: 0 <= i < |changes| ==> r[i] == HoldRecordOf(changes[i])
  {
    seq(|changes|, i requires 0 <= i < |changes| => HoldRecordOf(changes[i]))
  }

  ghost predicate AllSubjects(c: SelCache, targets: seq<Str>) {
    forall i :: 0 <= i < |targets| ==> Subject(c, targets[i])
  }

  /** Target `i` is the first one that cannot be toggled. */
  ghost predicate FirstOffender(c: SelCache, targets: seq<Str>, i: nat, name: Str) {
    i < |targets| && targets[i] == name && !Subject(c, name) && AllSubjects(c, targets[..i])
  }

  datatype Reading = Missing | NotSubject | Stays | Toggle(change: Change)

  method ReadTarget(c: SelCache, t: Str, hold: bool) returns (r: Reading)
    ensures r.Missing? <==> !c.Knows(t)
    ensures r.NotSubject? <==> c.Knows(t) && !Subject(c, t)
    ensures r.Toggle? <==> Toggles(c, hold, t)
    ensures r.Toggle? ==> r.change == ChangeOf(hold, t)
  {
    var toState := if hold then "hold" else "install";
    var p := c.SelectionOf(t);
    if p.None? {
      return Missing;
    }
    var fromState := SelectionWord(p.value);
    WordsTellToggle(p.value, hold);
    if fromState != "install" && fromState != "hold" {
      return NotSubject;
    }
    if fromState == toState {
      return Stays;
    }
    r := Toggle(Change(t, fromState, toState, hold));
  }

  /** Change `h` and record `r` put target `t` on hold, or back. */
  ghost predicate TogglesTo(t: Str, hold: bool, h: Change, r: HoldRecord) {
    && h.package == t && h.wantHold == hold && r.package == Some(t)
    && (hold ==> h.to == "hold" && r.fromState == Some("install") && r.toState == Some("hold"))
    && (!hold ==> h.to == "install" && r.fromState == Some("hold") && r.toState == Some("install"))
  }

  /** Every target is selected for install or hold. Change and record j are about target at[j],
      and those are the targets that are in the other state. */
  ghost predicate ListsToggles(c: SelCache, targets: seq<Str>, hold: bool, changes: seq<Change>,
                             recs: seq<HoldRecord>)
  {
    && (forall i :: 0 <= i < |targets| ==>
        c.SelectionOf(targets[i]) == Some(SelInstall) || c.SelectionOf(targets[i]) == Some(SelHold))
    && exists at: seq<nat> ::
      && InOrder(at, |targets|) && |changes| == |at| && |recs| == |at|
      && (forall i :: 0 <= i < |targets| ==>
            (i in at <==> c.SelectionOf(targets[i]) == Some(if hold then SelInstall else SelHold)))
      && (forall j :: 0 <= j < |at| ==> TogglesTo(targets[at[j]], hold, changes[j], recs[j]))
  }

  /** pkgx_apt_map_hold. */
  method MapHold(c: SelCache, targets: seq<Str>, hold: bool) returns (m: HoldMap)
    ensures m.MapOk? <==> AllSubjects(c, targets)
    ensures m.MapOk? ==> m.changes == Changing(c, targets, hold) && m.recs == HoldRecords(m.changes)
    ensures m.Unknown? ==> !c.Knows(m.offender) && exists i: nat :: FirstOffender(c, targets, i, m.offender)
    ensures m.Invalid? ==> c.Knows(m.offender) && exists i: nat :: FirstOffender(c, targets, i, m.offender)
    ensures m.MapOk? ==> ListsToggles(c, targets, hold, m.changes, m.recs)
  {
    hide Changing, HoldRecords, FirstOffender, Where, InOrder, SelCache.SelectionOf, Subject, Wants;
    m := ScanTargets(c, targets, hold);
    if m.MapOk? {
      SubjectsAre(c, targets);
      ChangingAt(c, targets, hold);
      HoldsAreWritten(c, targets, hold, m.changes, m.recs);
    }
  }

  lemma SubjectsAre(c: SelCache, targets: seq<Str>)
    ensures AllSubjects(c, targets) <==>
            forall i :: 0 <= i < |targets| ==>
              c.SelectionOf(targets[i]) == Some(SelInstall) || c.SelectionOf(targets[i]) == Some(SelHold)
  {
  }

  /** The targets that are to be toggled. */
  ghost function Wants(c: SelCache, hold: bool): Str -> bool {
    (t: Str) => Toggles(c, hold, t)
  }

  /** The changes stand where the toggled targets do. */
  lemma {:induction false} ChangingAt(c: SelCache, targets: seq<Str>, hold: bool)
    ensures var at := Where(targets, Wants(c, hold));
            && InOrder(at, |targets|) && |Changing(c, targets, hold)| == |at|
            && forall j :: 0 <= j < |at| ==> Changing(c, targets, hold)[j] == ChangeOf(hold, targets[at[j]])
  {
    hide Toggles, ChangeOf;
    WhereIsExact(targets, Wants(c, hold));
    if targets != [] {
      var init := targets[..|targets| - 1];
      ChangingAt(c, init, hold);
      var at := Where(init, Wants(c, hold));
      forall j | 0 <= j < |at| ensures init[at[j]] == targets[at[j]] {
      }
    }
  }

  lemma HoldsAreWritten(c: SelCache, targets: seq<Str>, hold: bool, changes: seq<Change>, recs: seq<HoldRecord>)
    requires var at := Where(targets, Wants(c, hold));
             && InOrder(at, |targets|) && |changes| == |at|
             && forall j :: 0 <= j < |at| ==> changes[j] == ChangeOf(hold, targets[at[j]])
    requires recs == HoldRecords(changes)
    requires forall i :: 0 <= i < |targets| ==>
               c.SelectionOf(targets[i]) == Some(SelInstall) || c.SelectionOf(targets[i]) == Some(SelHold)
    ensures ListsToggles(c, targets, hold, changes, recs)
  {
    hide SelCache.SelectionOf, Subject;
    var at := Where(targets, Wants(c, hold));
    WhereIsExact(targets, Wants(c, hold));
    forall i | 0 <= i < |targets|
      ensures Wants(c, hold)(targets[i]) <==>
              c.SelectionOf(targets[i]) == Some(if hold then SelInstall else SelHold)
    {
    }
    hide Where, InOrder, Wants, ChangeOf, HoldRecordOf, TogglesTo;
    forall j | 0 <= j < |at| { ChangeIsWritten(hold, targets[at[j]]); }
    assert InOrder(at, |targets|);
  }

  lemma ChangeIsWritten(hold: bool, t: Str)
    ensures TogglesTo(t, hold, ChangeOf(hold, t), HoldRecordOf(ChangeOf(hold, t)))
  {
  }

  method ScanTargets(c: SelCache, targets: seq<Str>, hold: bool) returns (m: HoldMap)
    ensures m.MapOk? <==> AllSubjects(c, targets)
    ensures m.MapOk? ==> m.changes == Changing(c, targets, hold) && m.recs == HoldRecords(m.changes)
    ensures m.Unknown? ==> !c.Knows(m.offender) && exists i: nat :: FirstOffender(c, targets, i, m.offender)
    ensures m.Invalid? ==> c.Knows(m.offender) && exists i: nat :: FirstOffender(c, targets, i, m.offender)
  {
    hide ChangeOf, Toggles;
    var changes: seq<Change> := [];
    for i := 0 to |targets|
      invariant AllSubjects(c, targets[..i])
      invariant changes == Changing(c, targets[..i], hold)
    {
      var t := targets[i];
      assert targets[..i + 1][..i] == targets[..i];
      var r := ReadTarget(c, t, hold);
      match r {
        case Missing =>
          assert FirstOffender(c, targets, i, t);
          return Unknown(t);
        case NotSubject =>
          assert FirstOffender(c, targets, i, t);
          return Invalid(t);
        case Stays =>
        case Toggle(h) =>
          changes := changes + [h];
      }
    }
    assert targets[..|targets|] == targets;
    var recs := BorrowRecords(changes);
    m := MapOk(changes, recs);
  }

  method BorrowRecords(changes: seq<Change>) returns (recs: seq<HoldRecord>)
    ensures recs == HoldRecords(changes)
  {
    recs := [];
    for i := 0 to |changes|
      invariant recs == HoldRecords(changes)[..i]
    {
      recs := recs + [Hold(Some(changes[i].package), Some(changes[i].from), Some(changes[i].to))];
    }
  }

  lemma WordsTellToggle(s: Selection, hold: bool)
    ensures (SelectionWord(s) == "install" || SelectionWord(s) == "hold") <==> (s == SelInstall || s == SelHold)
    ensures (s == SelInstall || s == SelHold) ==>
            (SelectionWord(s) == SelectionWord(Wanted(hold)) <==> s != Wanted(!hold))
  {
    assert "install"[0] != "hold"[0] && "install"[0] != "deinstall"[0] && "install"[0] != "purge"[0];
    assert "install"[0] != "unknown"[0];
    assert "hold"[0] != "deinstall"[0] && "hold"[0] != "purge"[0] && "hold"[0] != "unknown"[0];
  }

  lemma {:induction false} ChangesAreToggled(c: SelCache, targets: seq<Str>, hold: bool, h: Change)
    ensures h in Changing(c, targets, hold) <==>
            exists i :: 0 <= i < |targets| && Toggles(c, hold, targets[i]) && h == ChangeOf(hold, targets[i])
  {
    hide ChangeOf, Toggles;
    if targets != [] {
      var init := targets[..|targets| - 1];
      ChangesAreToggled(c, init, hold, h);
      if h in Changing(c, init, hold) {
        var i :| 0 <= i < |init| && Toggles(c, hold, init[i]) && h == ChangeOf(hold, init[i]);
        assert targets[i] == init[i];
      }
      if i :| 0 <= i < |targets| && Toggles(c, hold, targets[i]) && h == ChangeOf(hold, targets[i]) {
        if i < |init| { assert init[i] == targets[i]; }
      }
    }
  }

  /** Nothing but the package name can make the encoder refuse a hold record. */
  lemma HoldRecordDomain(hold: bool, t: Str)
    ensures RecordOk(HoldRecordOf(ChangeOf(hold, t))) <==> FieldOk(t)
  {
    hide FieldOk;
    PlainWordIsField("install");
    PlainWordIsField("hold");
    assert "hold" == HOLD_STATES[0] && "install" == HOLD_STATES[1];
  }

  /** A parsed target is a field, so every hold record built from one is in the domain. */
  lemma HoldRecordsEncodable(c: SelCache, targets: seq<Str>, hold: bool)
    requires forall i :: 0 <= i < |targets| ==> TargetName(targets[i])
    ensures RecordsOk(HoldRecords(Changing(c, targets, hold)))
  {
    hide RecordOk, TargetName, ChangeOf, FieldOk, HoldRecordOf;
    var changes := Changing(c, targets, hold);
    forall j | 0 <= j < |changes| ensures RecordOk(HoldRecordOf(changes[j])) {
      ChangesAreToggled(c, targets, hold, changes[j]);
      var i :| 0 <= i < |targets| && Toggles(c, hold, targets[i]) && changes[j] == ChangeOf(hold, targets[i]);
      TargetNameIsField(targets[i]);
      HoldRecordDomain(hold, targets[i]);
    }
  }

  ghost predicate FitsVerb(verb: Str, hold: bool) {
    verb == if hold then "apt.hold" else "apt.unhold"
  }

  lemma FitVerbIsKnown(verb: Str, hold: bool)
    requires FitsVerb(verb, hold)
    ensures verb in HOLD_VERBS && |verb| <= 10
  {
    assert "apt.hold" == HOLD_VERBS[0] && "apt.unhold" == HOLD_VERBS[1];
  }

  /** A hold record of a parsed target is at most 272 bytes long. */
  lemma HoldTextIsShort(hold: bool, t: Str)
    requires |t| <= MAX_NAME
    ensures |RecordString(HoldRecordOf(ChangeOf(hold, t)))| <= MAX_NAME + 16
  {
    hide Join;
    var from, to := SelectionWord(Wanted(!hold)), SelectionWord(Wanted(hold));
    Encoder.JoinThree(t, from, to);
  }

  lemma {:induction false} NoMoreChangesThanTargets(c: SelCache, targets: seq<Str>, hold: bool)
    ensures |Changing(c, targets, hold)| <= |targets|
  {
    if targets != [] {
      NoMoreChangesThanTargets(c, targets[..|targets| - 1], hold);
    }
  }

  lemma HoldTextsAreShort(c: SelCache, targets: seq<Str>, hold: bool)
    requires Request.TargetList(targets)
    ensures var ss := RecordStrings(HoldRecords(Changing(c, targets, hold)));
            |Join(Sort(ss), RS)| <= Request.MAX_PACKAGES * (MAX_NAME + 17)
  {
    hide RecordString, ChangeOf, TargetName, Toggles, HoldRecordOf, Sort, Join;
    var changes := Changing(c, targets, hold);
    var ss := RecordStrings(HoldRecords(changes));
    NoMoreChangesThanTargets(c, targets, hold);
    forall j | 0 <= j < |ss| ensures |ss[j]| <= MAX_NAME + 16 {
      ChangesAreToggled(c, targets, hold, changes[j]);
      var i :| 0 <= i < |targets| && Toggles(c, hold, targets[i]) && changes[j] == ChangeOf(hold, targets[i]);
      TargetNameIsShort(targets[i]);
      HoldTextIsShort(hold, targets[i]);
    }
    SortIsSortedPermutation(ss);
    forall j | 0 <= j < |Sort(ss)| ensures |Sort(ss)[j]| <= MAX_NAME + 16 {
      assert Sort(ss)[j] in multiset(ss);
    }
    Request.JoinBound(Sort(ss), RS, MAX_NAME + 16);
    assert |Sort(ss)| * (MAX_NAME + 17) <= Request.MAX_PACKAGES * (MAX_NAME + 17);
  }

  lemma TargetNameIsShort(t: Str)
    requires TargetName(t)
    ensures |t| <= MAX_NAME
  {
  }

  /** Every hold plan of a parsed list is encodable outright. */
  lemma HoldPlanEncodable(verb: Str, c: SelCache, targets: seq<Str>, hold: bool)
    requires FitsVerb(verb, hold) && Request.TargetList(targets)
    ensures Encodable(HoldPlan(Some(verb), HoldRecords(Changing(c, targets, hold))))
  {
    hide RecordOk, TargetName, Join, Sort, RecordStrings, Changing, RecordsOk;
    FitVerbIsKnown(verb, hold);
    HoldRecordsEncodable(c, targets, hold);
    HoldTextsAreShort(c, targets, hold);
  }

  // ---- the payload ------------------------------------------------------------------

  function Line(h: Change): Str {
    h.package + [SPACE] + h.to + [NEWLINE]
  }

  function Lines(changes: seq<Change>): Str {
    if changes == [] then [] else Line(changes[0]) + Lines(changes[1..])
  }

  lemma {:induction false} LinesAppend(changes: seq<Change>, h: Change)
    ensures Lines(changes + [h]) == Lines(changes) + Line(h)
    ensures Line(h) == h.package + " " + h.to + "\n"
  {
    if changes == [] {
      assert Lines([h]) == Line(h) + Lines([]);
    } else {
      LinesAppend(changes[1..], h);
      assert (changes + [h])[1..] == changes[1..] + [h];
    }
  }

  method BuildPayload(changes: seq<Change>) returns (payload: Str)
    ensures payload == Lines(changes)
  {
    payload := [];
    for i := 0 to |changes|
      invariant payload == Lines(changes[..i])
    {
      assert changes[..i + 1] == changes[..i] + [changes[i]];
      LinesAppend(changes[..i], changes[i]);
      payload := payload + changes[i].package;
      payload := payload + [SPACE];
      payload := payload + changes[i].to;
      payload := payload + [NEWLINE];
    }
    assert changes[..|changes|] == changes;
  }

  datatype Assignment = Assignment(package: Str, word: Str)

  /** Reading a selections file: one line per package, name and word apart at the space. */
  function ParsePayload(text: Str): seq<Assignment>
    decreases |text|
  {
    if text == [] then []
    else
      var e := Decode.IndexOf(text, NEWLINE);
      var line := text[..e];
      var s := Decode.IndexOf(line, SPACE);
      [Assignment(line[..s], if s < |line| then line[s + 1..] else [])]
      + ParsePayload(if e < |text| then text[e + 1..] else [])
  }

  /** The (package, to_state) projection of a digested hold record. */
  function Intended(r: HoldRecord): Assignment {
    Assignment(Nz(r.package), Nz(r.toState))
  }

  ghost predicate OneLine(h: Change) {
    SPACE !in h.package && NEWLINE !in h.package && SPACE !in h.to && NEWLINE !in h.to
  }

  lemma ParseLine(h: Change, rest: Str)
    requires OneLine(h)
    ensures ParsePayload(Line(h) + rest) == [Assignment(h.package, h.to)] + ParsePayload(rest)
  {
    var text, line := Line(h) + rest, h.package + [SPACE] + h.to;
    var e, s := |line|, |h.package|;
    assert text == line + [NEWLINE] + rest && text[..e] == line;
    Invariance.IndexOfIs(text, NEWLINE, e);
    assert line[..s] == h.package && line[s + 1..] == h.to && text[e + 1..] == rest;
    Invariance.IndexOfIs(line, SPACE, s);
  }

  /** dpkg reads back exactly the (package, to_state) pairs of the records that were
      digested and redeemed, in order. */
  lemma {:induction false} PayloadRoundTrip(changes: seq<Change>)
    requires forall i :: 0 <= i < |changes| ==> OneLine(changes[i])
    ensures ParsePayload(Lines(changes)) == Map(Intended, HoldRecords(changes))
  {
    if changes != [] {
      hide OneLine, ParsePayload, Line;
      PayloadRoundTrip(changes[1..]);
      ParseLine(changes[0], Lines(changes[1..]));
      IntendedHead(changes);
      hide HoldRecords, Intended;
    } else {
      assert ParsePayload([]) == [];
    }
  }

  lemma IntendedHead(changes: seq<Change>)
    requires changes != []
    ensures Map(Intended, HoldRecords(changes)) ==
            [Assignment(changes[0].package, changes[0].to)] + Map(Intended, HoldRecords(changes[1..]))
  {
    assert Intended(HoldRecordOf(changes[0])) == Assignment(changes[0].package, changes[0].to);
    hide Intended, HoldRecordOf;
  }

  lemma ChangesAreOneLine(c: SelCache, targets: seq<Str>, hold: bool)
    requires forall i :: 0 <= i < |targets| ==> TargetName(targets[i])
    ensures forall j :: 0 <= j < |Changing(c, targets, hold)| ==> OneLine(Changing(c, targets, hold)[j])
  {
    hide TargetName, Toggles, ChangeOf, OneLine;
    var changes := Changing(c, targets, hold);
    forall j | 0 <= j < |changes| ensures OneLine(changes[j]) {
      ChangesAreToggled(c, targets, hold, changes[j]);
      var i :| 0 <= i < |targets| && Toggles(c, hold, targets[i]) && changes[j] == ChangeOf(hold, targets[i]);
      ChangeIsOneLine(hold, targets[i]);
    }
  }

  lemma ChangeIsOneLine(hold: bool, t: Str)
    requires TargetName(t)
    ensures OneLine(ChangeOf(hold, t))
  {
    TargetNameIsField(t);
    hide TargetName;
  }

  /** Every line of the payload names a target, and says to hold it, or not to. */
  lemma PayloadWords(c: SelCache, targets: seq<Str>, hold: bool)
    requires Request.TargetList(targets)
    ensures forall a :: a in ParsePayload(Lines(Changing(c, targets, hold))) ==>
              a.package in targets && a.word == if hold then "hold" else "install"
  {
    hide TargetName, Toggles, ChangeOf, OneLine, HoldRecords, Intended, ParsePayload, Lines;
    var changes := Changing(c, targets, hold);
    ChangesAreOneLine(c, targets, hold);
    PayloadRoundTrip(changes);
    forall j | 0 <= j < |changes|
      ensures Intended(HoldRecords(changes)[j]) == Assignment(changes[j].package, changes[j].to)
      ensures changes[j].package in targets && changes[j].to == if hold then "hold" else "install"
    {
      IntendedIs(changes, j);
      ChangesAreToggled(c, targets, hold, changes[j]);
      var i :| 0 <= i < |targets| && Toggles(c, hold, targets[i]) && changes[j] == ChangeOf(hold, targets[i]);
      ChangeIsWritten(hold, targets[i]);
    }
  }

  lemma IntendedIs(changes: seq<Change>, j: nat)
    requires j < |changes|
    ensures Intended(HoldRecords(changes)[j]) == Assignment(changes[j].package, changes[j].to)
  {
  }

  // ---- applying it --------------------------------------------------------------------

  function WordSelection(w: Str): Selection {
    if w == "hold" then SelHold else if w == "install" then SelInstall
    else if w == "deinstall" then SelDeinstall else if w == "purge" then SelPurge else SelUnknown
  }

  /** Applying assignments one after the other; unknown packages are skipped. */
  function Apply(c: SelCache, todo: seq<Assignment>): SelCache
    decreases |todo|
  {
    if todo == [] then c
    else
      var a := todo[0];
      var d := if c.Knows(a.package) then c.(sel := c.sel[c.find(a.package).value := WordSelection(a.word)]) else c;
      Apply(d, todo[1..])
  }

  ghost predicate AllWord(todo: seq<Assignment>, s: Selection) {
    forall i :: 0 <= i < |todo| ==> WordSelection(todo[i].word) == s
  }

  ghost predicate Touches(todo: seq<Assignment>, c: SelCache, k: nat) {
    exists i :: 0 <= i < |todo| && c.find(todo[i].package) == Some(k)
  }

  /** When all assignments agree on the word, aliases cannot disturb each other: a package
      gets the selection if some assignment finds it and keeps its own otherwise. */
  lemma {:induction false} ApplySelections(c: SelCache, todo: seq<Assignment>, s: Selection, k: nat)
    requires AllWord(todo, s) && k < |c.sel|
    ensures Apply(c, todo).find == c.find && |Apply(c, todo).sel| == |c.sel|
    ensures Apply(c, todo).sel[k] == if Touches(todo, c, k) then s else c.sel[k]
    decreases |todo|
  {
    hide WordSelection;
    if todo != [] {
      var a, rest := todo[0], todo[1..];
      var d := if c.Knows(a.package) then c.(sel := c.sel[c.find(a.package).value := s]) else c;
      assert forall i :: 0 <= i < |rest| ==> rest[i] == todo[i + 1];
      ApplySelections(d, rest, s, k);
      if Touches(rest, d, k) {
        var i :| 0 <= i < |rest| && c.find(rest[i].package) == Some(k);
        assert c.find(todo[i + 1].package) == Some(k);
      }
      assert Touches(todo, c, k) <==> c.find(a.package) == Some(k) || Touches(rest, d, k);
    }
  }

  lemma IntendedWords(c: SelCache, targets: seq<Str>, hold: bool)
    ensures AllWord(Map(Intended, HoldRecords(Changing(c, targets, hold))), Wanted(hold))
  {
    hide Toggles;
    var changes := Changing(c, targets, hold);
    forall j | 0 <= j < |changes| ensures changes[j].to == SelectionWord(Wanted(hold)) {
      ChangesAreToggled(c, targets, hold, changes[j]);
    }
    assert WordSelection("hold") == SelHold && WordSelection("install") == SelInstall;
  }

  /** Package `k` is assigned exactly when a toggled target finds it. */
  lemma IntendedNames(c: SelCache, targets: seq<Str>, hold: bool, k: nat)
    ensures Touches(Map(Intended, HoldRecords(Changing(c, targets, hold))), c, k) <==>
            exists i :: 0 <= i < |targets| && Toggles(c, hold, targets[i]) && c.find(targets[i]) == Some(k)
  {
    hide Toggles;
    var changes := Changing(c, targets, hold);
    var todo := Map(Intended, HoldRecords(changes));
    if Touches(todo, c, k) {
      var j :| 0 <= j < |todo| && c.find(todo[j].package) == Some(k);
      ChangesAreToggled(c, targets, hold, changes[j]);
    }
    if i :| 0 <= i < |targets| && Toggles(c, hold, targets[i]) && c.find(targets[i]) == Some(k) {
      ChangesAreToggled(c, targets, hold, ChangeOf(hold, targets[i]));
      var j :| 0 <= j < |changes| && changes[j] == ChangeOf(hold, targets[i]);
      assert c.find(todo[j].package) == Some(k);
    }
  }

  /** The cache after dpkg has read the payload. */
  ghost function After(c: SelCache, targets: seq<Str>, hold: bool): SelCache {
    Apply(c, ParsePayload(Lines(Changing(c, targets, hold))))
  }

  /** The write does what was asked: every target ends in the intended selection. */
  lemma TargetsEndAsIntended(c: SelCache, targets: seq<Str>, hold: bool, i: nat)
    requires forall j :: 0 <= j < |targets| ==> TargetName(targets[j])
    requires AllSubjects(c, targets) && i < |targets|
    ensures After(c, targets, hold).SelectionOf(targets[i]) == Some(Wanted(hold))
  {
    var k := c.find(targets[i]).value;
    AfterByIndex(c, targets, hold, k);
    assert Subject(c, targets[i]);
    assert Toggles(c, hold, targets[i]) || c.sel[k] == Wanted(hold);
  }

  lemma AfterByIndex(c: SelCache, targets: seq<Str>, hold: bool, k: nat)
    requires forall j :: 0 <= j < |targets| ==> TargetName(targets[j])
    requires k < |c.sel|
    ensures After(c, targets, hold).find == c.find && |After(c, targets, hold).sel| == |c.sel|
    ensures After(c, targets, hold).sel[k] ==
            if exists i :: 0 <= i < |targets| && Toggles(c, hold, targets[i]) && c.find(targets[i]) == Some(k)
            then Wanted(hold) else c.sel[k]
  {
    hide TargetName, Toggles, OneLine, AllWord, Touches;
    var changes := Changing(c, targets, hold);
    ChangesAreOneLine(c, targets, hold);
    PayloadRoundTrip(changes);
    IntendedWords(c, targets, hold);
    IntendedNames(c, targets, hold, k);
    ApplySelections(c, Map(Intended, HoldRecords(changes)), Wanted(hold), k);
  }

  /** ... and nothing else moves. */
  lemma OthersStay(c: SelCache, targets: seq<Str>, hold: bool, k: nat)
    requires forall j :: 0 <= j < |targets| ==> TargetName(targets[j])
    requires k < |c.sel| && forall i :: 0 <= i < |targets| ==> c.find(targets[i]) != Some(k)
    ensures k < |After(c, targets, hold).sel| && After(c, targets, hold).sel[k] == c.sel[k]
  {
    AfterByIndex(c, targets, hold, k);
  }

  /** Asking again is a no-op: the builder finds nothing left to change. */
  lemma RepeatIsNoOp(c: SelCache, targets: seq<Str>, hold: bool)
    requires forall j :: 0 <= j < |targets| ==> TargetName(targets[j])
    requires AllSubjects(c, targets)
    ensures AllSubjects(After(c, targets, hold), targets)
    ensures Changing(After(c, targets, hold), targets, hold) == []
  {
    hide TargetName, Changing, After;
    var d := After(c, targets, hold);
    forall i | 0 <= i < |targets| ensures d.SelectionOf(targets[i]) == Some(Wanted(hold)) {
      TargetsEndAsIntended(c, targets, hold, i);
    }
    var again := Changing(d, targets, hold);
    if again != [] {
      ChangesAreToggled(d, targets, hold, again[0]);
    }
  }

  // ---- the read-back --------------------------------------------------------------------

  predicate IsHeld(c: SelCache, name: Str) {
    c.SelectionOf(name) == Some(SelHold)
  }

  ghost predicate Matches(c: SelCache, changes: seq<Change>) {
    forall i :: 0 <= i < |changes| ==> IsHeld(c, changes[i].package) == changes[i].wantHold
  }

  /** selections_match, over the freshly opened cache, if it opens. */
  method SelectionsMatch(reread: Option<SelCache>, changes: seq<Change>) returns (ok: bool)
    ensures ok <==> reread.Some? && Matches(reread.value, changes)
  {
    ok := false;
    if reread.Some? {
      ok := true;
      for i := 0 to |changes|
        invariant ok && forall j :: 0 <= j < i ==> IsHeld(reread.value, changes[j].package) == changes[j].wantHold
      {
        var isHold := IsHeld(reread.value, changes[i].package);
        if isHold != changes[i].wantHold {
          ok := false;
          break;
        }
      }
    }
  }

  /** A write that dpkg carried out is confirmed by the read-back. */
  lemma WriteIsConfirmed(c: SelCache, targets: seq<Str>, hold: bool)
    requires forall j :: 0 <= j < |targets| ==> TargetName(targets[j])
    requires AllSubjects(c, targets)
    ensures Matches(After(c, targets, hold), Changing(c, targets, hold))
  {
    hide TargetName, After;
    var changes := Changing(c, targets, hold);
    forall j | 0 <= j < |changes|
      ensures IsHeld(After(c, targets, hold), changes[j].package) == changes[j].wantHold
    {
      ChangesAreToggled(c, targets, hold, changes[j]);
      var i :| 0 <= i < |targets| && Toggles(c, hold, targets[i]) && changes[j] == ChangeOf(hold, targets[i]);
      TargetsEndAsIntended(c, targets, hold, i);
    }
  }

  /** What a confirmed read-back proves: after hold, every changed target is held; after
      unhold, only that none is. */
  lemma MatchMeans(c: SelCache, d: SelCache, targets: seq<Str>, hold: bool)
    ensures Matches(d, Changing(c, targets, hold)) <==>
            forall i :: 0 <= i < |targets| && Toggles(c, hold, targets[i]) ==> IsHeld(d, targets[i]) == hold
  {
    hide IsHeld, Toggles;
    var changes := Changing(c, targets, hold);
    forall i | 0 <= i < |targets| && Toggles(c, hold, targets[i]) ensures ChangeOf(hold, targets[i]) in changes {
      ChangesAreToggled(c, targets, hold, ChangeOf(hold, targets[i]));
    }
    forall j | 0 <= j < |changes|
      ensures exists i :: 0 <= i < |targets| && Toggles(c, hold, targets[i]) && changes[j] == ChangeOf(hold, targets[i])
    {
      ChangesAreToggled(c, targets, hold, changes[j]);
    }
  }

  /** What the documentation promises of a confirmed read-back: every target that was to
      change is in the intended selection. */
  ghost predicate MatchIsIntended(c: SelCache, targets: seq<Str>, hold: bool, d: SelCache) {
    Matches(d, Changing(c, targets, hold)) ==>
      forall i :: 0 <= i < |targets| && Toggles(c, hold, targets[i]) ==> d.SelectionOf(targets[i]) == Some(Wanted(hold))
  }

  /** Exactly when a confirmed read-back means that, whatever state is read back: for a hold,
      and for an unhold that changes nothing. */
  lemma MatchIsIntendedIff(c: SelCache, targets: seq<Str>, hold: bool)
    ensures (forall d :: MatchIsIntended(c, targets, hold, d)) <==> hold || Changing(c, targets, hold) == []
  {
    hide Toggles, Changing, Matches;
    forall d ensures hold || Changing(c, targets, hold) == [] ==> MatchIsIntended(c, targets, hold, d) {
      MatchMeans(c, d, targets, hold);
      NothingToggles(c, targets, hold);
    }
    if !hold && Changing(c, targets, hold) != [] {
      var removed := SelCache((n: Str) => Some(0), [SelDeinstall]);
      MatchMeans(c, removed, targets, hold);
      NothingToggles(c, targets, hold);
      assert !MatchIsIntended(c, targets, hold, removed);
    }
  }

  lemma NothingToggles(c: SelCache, targets: seq<Str>, hold: bool)
    ensures Changing(c, targets, hold) == [] <==> forall i :: 0 <= i < |targets| ==> !Toggles(c, hold, targets[i])
  {
    hide Toggles, ChangeOf;
    var changes := Changing(c, targets, hold);
    forall i | 0 <= i < |targets| && Toggles(c, hold, targets[i]) ensures changes != [] {
      ChangesAreToggled(c, targets, hold, ChangeOf(hold, targets[i]));
    }
    if changes != [] {
      ChangesAreToggled(c, targets, hold, changes[0]);
    }
  }

  /** The read-back of an unhold also accepts a target that is now selected for removal. */
  lemma UnholdAcceptsDeinstall(name: Str)
    ensures var find := (n: Str) => if n == name then Some(0) else None;
            var c, d := SelCache(find, [SelHold]), SelCache(find, [SelDeinstall]);
            && AllSubjects(c, [name]) && Changing(c, [name], false) == [ChangeOf(false, name)]
            && Matches(d, Changing(c, [name], false)) && d.SelectionOf(name) != Some(Wanted(false))
  {
  }
}

/** From the package cache and the source list to plan records. */
module Builders {
  import opened Bytes
  import opened Order
  import opened Lists
  import opened Canon
  import opened Names
  import opened Policy
  import Encoder

  // ---- what libapt shows -------------------------------------------------------

  datatype Version = Version(str: Str, required: bool)
  datatype Selection = SelUnknown | SelInstall | SelHold | SelDeinstall | SelPurge
  datatype State =
    | NotInstalled | UnPacked | HalfConfigured | HalfInstalled
    | ConfigFiles | Installed | TriggersAwaited | TriggersPending

  datatype Pkg = Pkg(name: Str, arch: Str, current: Option<Version>, selected: Selection, state: State,
                     essential: bool, important: bool)

  /** What the resolver decided for one package. */
  datatype Mark = Mark(delete: bool, purge: bool, newInstall: bool, upgrade: bool, downgrade: bool,
                       auto: bool, target: Option<Version>)

  datatype Planned = Planned(pkg: Pkg, mark: Mark)

  datatype IndexTarget = IndexTarget(component: Str, architecture: Str)
  datatype Trust = TriUnset | TriNo | TriYes | TriDontCare
  datatype Source = Source(uri: Str, dist: Str, targets: seq<IndexTarget>, signedBy: Str, trusted: Trust)

  // ---- transactions --------------------------------------------------------------

  function VerStr(v: Option<Version>): Str {
    if v.Some? then v.value.str else []
  }

  /** What happens to the package, if anything. */
  function ActionOf(m: Mark): CStr {
    if m.delete then Some(if m.purge then "purge" else "remove")
    else if m.newInstall then Some("install")
    else if m.upgrade then Some("upgrade")
    else if m.downgrade then Some("downgrade")
    else None
  }

  predicate Changes(x: Planned) {
    ActionOf(x.mark).Some?
  }

  /** Installed at a required version, or about to be; or flagged important. */
  predicate ProtectedPkg(x: Planned) {
    var v := if x.pkg.current.Some? then x.pkg.current else x.mark.target;
    (v.Some? && v.value.required) || x.pkg.important
  }

  function When(c: bool, flag: Str): seq<Str> {
    if c then [flag] else []
  }

  function FlagsOf(x: Planned): seq<Str> {
    When(x.pkg.selected == SelHold, "hold") + When(x.mark.auto, "auto")
    + When(x.pkg.essential, "essential") + When(ProtectedPkg(x), "protected")
  }

  function RecordOf(x: Planned): TxnRecord {
    Txn(Some(x.pkg.name), Some(x.pkg.arch), Some(Nz(ActionOf(x.mark))),
        Some(VerStr(x.pkg.current)), Some(VerStr(x.mark.target)), Pointers(FlagsOf(x)))
  }

  /** One record for every package that changes, in cache order. */
  function TxnRecords(dc: seq<Planned>): seq<TxnRecord> {
    if dc == [] then []
    else
      var last := dc[|dc| - 1];
      TxnRecords(dc[..|dc| - 1]) + if Changes(last) then [RecordOf(last)] else []
  }

  datatype Holder = Holder(package: Str, arch: Str, action: Str, from: Str, to: Str, flags: seq<Str>)

  function HolderRecord(h: Holder): TxnRecord {
    Txn(Some(h.package), Some(h.arch), Some(h.action), Some(h.from), Some(h.to), Pointers(h.flags))
  }

  method HolderOf(x: Planned) returns (h: Option<Holder>)
    ensures h.Some? <==> Changes(x)
    ensures h.Some? ==> HolderRecord(h.value) == RecordOf(x)
    ensures h.Some? <==> x.mark.delete || x.mark.newInstall || x.mark.upgrade || x.mark.downgrade
    ensures h.Some? ==>
              && h.value.package == x.pkg.name && h.value.arch == x.pkg.arch
              && (x.mark.delete && x.mark.purge ==> h.value.action == "purge")
              && (x.mark.delete && !x.mark.purge ==> h.value.action == "remove")
              && (!x.mark.delete && x.mark.newInstall ==> h.value.action == "install")
              && (!x.mark.delete && !x.mark.newInstall && x.mark.upgrade ==> h.value.action == "upgrade")
              && (!x.mark.delete && !x.mark.newInstall && !x.mark.upgrade ==> h.value.action == "downgrade")
              && h.value.from == (if x.pkg.current.Some? then x.pkg.current.value.str else "")
              && h.value.to == (if x.mark.target.Some? then x.mark.target.value.str else "")
  {
    var p, st := x.pkg, x.mark;
    var action: Str;
    if st.delete {
      action := if st.purge then "purge" else "remove";
    } else if st.newInstall {
      action := "install";
    } else if st.upgrade {
      action := "upgrade";
    } else if st.downgrade {
      action := "downgrade";
    } else {
      return None;
    }
    assert ActionOf(st) == Some(action);
    hide ActionOf;
    var flags := HolderFlags(x);
    h := Some(Holder(p.name, p.arch, action, VerStr(p.current), VerStr(st.target), flags));
  }

  method HolderFlags(x: Planned) returns (flags: seq<Str>)
    ensures flags == FlagsOf(x)
  {
    var p, st := x.pkg, x.mark;
    flags := [];
    if p.selected == SelHold {
      flags := flags + ["hold"];
    }
    if st.auto {
      flags := flags + ["auto"];
    }
    if p.essential {
      flags := flags + ["essential"];
    }
    var pver := if p.current.Some? then p.current else st.target;
    if (pver.Some? && pver.value.required) || p.important {
      flags := flags + ["protected"];
    }
  }

  /** The record of one change: what happens to which package, from which version to which. */
  ghost predicate DescribesChange(x: Planned, r: TxnRecord) {
    var p, m := x.pkg, x.mark;
    && r.package == Some(p.name) && r.architecture == Some(p.arch)
    && (m.delete && m.purge ==> r.action == Some("purge"))
    && (m.delete && !m.purge ==> r.action == Some("remove"))
    && (!m.delete && m.newInstall ==> r.action == Some("install"))
    && (!m.delete && !m.newInstall && m.upgrade ==> r.action == Some("upgrade"))
    && (!m.delete && !m.newInstall && !m.upgrade ==> r.action == Some("downgrade"))
    && r.fromVersion == Some(if p.current.Some? then p.current.value.str else [])
    && r.toVersion == Some(if m.target.Some? then m.target.value.str else [])
    && r.flags == (if p.selected == SelHold then [Some("hold")] else [])
                  + (if m.auto then [Some("auto")] else [])
                  + (if p.essential then [Some("essential")] else [])
                  + (if p.important || (p.current.Some? && p.current.value.required)
                        || (p.current.None? && m.target.Some? && m.target.value.required)
                     then [Some("protected")] else [])
  }

  /** Record j describes package at[j], and those are the changing packages in cache order. */
  ghost predicate ListsChanges(dc: seq<Planned>, recs: seq<TxnRecord>) {
    exists at: seq<nat> ::
      && InOrder(at, |dc|) && |recs| == |at|
      && (forall i :: 0 <= i < |dc| ==>
            (i in at <==> dc[i].mark.delete || dc[i].mark.newInstall || dc[i].mark.upgrade
                          || dc[i].mark.downgrade))
      && (forall j :: 0 <= j < |at| ==> DescribesChange(dc[at[j]], recs[j]))
  }

  /** pkgx_apt_map_txn: holders first, then the records that borrow from them. */
  method MapTxn(dc: seq<Planned>) returns (recs: seq<TxnRecord>)
    ensures recs == TxnRecords(dc)
    ensures ListsChanges(dc, recs)
  {
    recs := BorrowTxn(dc);
    TxnRecordsAt(dc);
    WhereIsExact(dc, Changes);
    hide Where, TxnRecords, RecordOf, Changes, InOrder, DescribesChange;
    forall i | 0 <= i < |dc| { RecordIsWritten(dc[i]); }
    ghost var at := Where(dc, Changes);
    forall j | 0 <= j < |at| ensures at[j] < |dc| && Changes(dc[at[j]]) { assert at[j] in at; }
  }

  method BorrowTxn(dc: seq<Planned>) returns (recs: seq<TxnRecord>)
    ensures recs == TxnRecords(dc)
  {
    hide HolderRecord, RecordOf, Changes;
    var holders: seq<Holder> := [];
    for i := 0 to |dc|
      invariant |holders| == |TxnRecords(dc[..i])|
      invariant forall j :: 0 <= j < |holders| ==> HolderRecord(holders[j]) == TxnRecords(dc[..i])[j]
    {
      assert dc[..i + 1][..i] == dc[..i];
      var h := HolderOf(dc[i]);
      if h.Some? {
        holders := holders + [h.value];
      }
    }
    assert dc[..|dc|] == dc;
    recs := [];
    for i := 0 to |holders|
      invariant recs == TxnRecords(dc)[..i]
    {
      recs := recs + [HolderRecord(holders[i])];
    }
  }

  /** One record, written out. */
  lemma RecordIsWritten(x: Planned)
    ensures Changes(x) <==> x.mark.delete || x.mark.newInstall || x.mark.upgrade || x.mark.downgrade
    ensures Changes(x) ==> DescribesChange(x, RecordOf(x))
  {
    ActionIsWritten(x.mark);
    FlagsAreWritten(x);
    hide FlagsOf, ActionOf;
  }

  lemma ActionIsWritten(m: Mark)
    ensures m.delete && m.purge ==> ActionOf(m) == Some("purge")
    ensures m.delete && !m.purge ==> ActionOf(m) == Some("remove")
    ensures !m.delete && m.newInstall ==> ActionOf(m) == Some("install")
    ensures !m.delete && !m.newInstall && m.upgrade ==> ActionOf(m) == Some("upgrade")
    ensures !m.delete && !m.newInstall && !m.upgrade && m.downgrade ==> ActionOf(m) == Some("downgrade")
    ensures ActionOf(m).Some? <==> m.delete || m.newInstall || m.upgrade || m.downgrade
  {
  }

  lemma FlagsAreWritten(x: Planned)
    ensures var p, m := x.pkg, x.mark;
            Pointers(FlagsOf(x)) ==
              (if p.selected == SelHold then [Some("hold")] else [])
              + (if m.auto then [Some("auto")] else [])
              + (if p.essential then [Some("essential")] else [])
              + (if p.important || (p.current.Some? && p.current.value.required)
                    || (p.current.None? && m.target.Some? && m.target.value.required)
                 then [Some("protected")] else [])
  {
    var a, b := When(x.pkg.selected == SelHold, "hold"), When(x.mark.auto, "auto");
    var c, d := When(x.pkg.essential, "essential"), When(ProtectedPkg(x), "protected");
    WhenPointer(x.pkg.selected == SelHold, "hold");
    WhenPointer(x.mark.auto, "auto");
    WhenPointer(x.pkg.essential, "essential");
    WhenPointer(ProtectedPkg(x), "protected");
    hide When, Pointers;
    PointersJoin(a, b);
    PointersJoin(a + b, c);
    PointersJoin(a + b + c, d);
  }

  lemma WhenPointer(c: bool, flag: Str)
    ensures Pointers(When(c, flag)) == if c then [Some(flag)] else []
  {
  }

  lemma PointersJoin(a: seq<Str>, b: seq<Str>)
    ensures Pointers(a + b) == Pointers(a) + Pointers(b)
  {
  }

  lemma {:induction false} TxnRecordsAt(dc: seq<Planned>)
    ensures var at := Where(dc, Changes);
            && InOrder(at, |dc|) && |TxnRecords(dc)| == |at|
            && forall j :: 0 <= j < |at| ==> TxnRecords(dc)[j] == RecordOf(dc[at[j]])
  {
    hide Changes, RecordOf;
    WhereIsExact(dc, Changes);
    if dc != [] {
      var init := dc[..|dc| - 1];
      TxnRecordsAt(init);
      forall j | 0 <= j < |Where(init, Changes)| ensures init[Where(init, Changes)[j]] == dc[Where(init, Changes)[j]] {
      }
    }
  }

  /** Every record describes a changing package, and every changing package has one. */
  lemma {:induction false} RecordsAreTheChanges(dc: seq<Planned>, r: TxnRecord)
    ensures r in TxnRecords(dc) <==> exists i :: 0 <= i < |dc| && Changes(dc[i]) && r == RecordOf(dc[i])
  {
    hide RecordOf, ActionOf;
    if dc != [] {
      var init := dc[..|dc| - 1];
      RecordsAreTheChanges(init, r);
      if r in TxnRecords(init) {
        var i :| 0 <= i < |init| && Changes(init[i]) && r == RecordOf(init[i]);
        assert dc[i] == init[i];
      }
      if i :| 0 <= i < |dc| && Changes(dc[i]) && r == RecordOf(dc[i]) {
        if i < |init| { assert init[i] == dc[i]; }
      }
    }
  }

  lemma FlagsInDomain(x: Planned)
    ensures NoDup(FlagsOf(x)) && forall i :: 0 <= i < |FlagsOf(x)| ==> FlagsOf(x)[i] in FLAGS
  {
  }

  lemma FlagsAreFields(flags: seq<Str>)
    requires forall i :: 0 <= i < |flags| ==> flags[i] in FLAGS
    ensures FieldsOk(flags)
  {
    assert PlainWord(FLAGS[0]) && PlainWord(FLAGS[1]) && PlainWord(FLAGS[2]) && PlainWord(FLAGS[3]);
    forall i | 0 <= i < |flags| ensures FieldOk(flags[i]) { PlainWordIsField(flags[i]); }
  }

  lemma ActionsArePlain(m: Mark)
    requires ActionOf(m).Some?
    ensures ActionOf(m).value in ACTIONS && FieldOk(ActionOf(m).value)
  {
    hide FieldOk;
    assert "install" == ACTIONS[0] && "upgrade" == ACTIONS[1] && "downgrade" == ACTIONS[2];
    assert "remove" == ACTIONS[3] && "purge" == ACTIONS[4];
    PlainWordIsField("install");
    PlainWordIsField("upgrade");
    PlainWordIsField("downgrade");
    PlainWordIsField("remove");
    PlainWordIsField("purge");
  }

  /** Nothing but the text libapt supplies can make the encoder refuse a transaction record. */
  lemma TxnRecordDomain(x: Planned)
    requires Changes(x)
    ensures RecordOk(RecordOf(x)) <==>
            && FieldOk(x.pkg.name) && FieldOk(x.pkg.arch)
            && FieldOk(VerStr(x.pkg.current)) && FieldOk(VerStr(x.mark.target))
  {
    hide FieldOk, ActionOf;
    ActionsArePlain(x.mark);
    FlagsInDomain(x);
    FlagsAreFields(FlagsOf(x));
    hide FlagsOf;
  }

  ghost predicate TxnText(x: Planned) {
    && FieldOk(x.pkg.name) && FieldOk(x.pkg.arch)
    && FieldOk(VerStr(x.pkg.current)) && FieldOk(VerStr(x.mark.target))
  }

  /** A transaction is in the encoder's domain exactly if the text of its changing packages is. */
  lemma TxnPlanDomain(dc: seq<Planned>)
    ensures RecordsOk(TxnRecords(dc)) <==> forall i :: 0 <= i < |dc| && Changes(dc[i]) ==> TxnText(dc[i])
  {
    hide RecordOk, RecordOf, TxnText, ActionOf;
    var recs := TxnRecords(dc);
    forall i | 0 <= i < |dc| && Changes(dc[i])
      ensures RecordOf(dc[i]) in recs && (RecordOk(RecordOf(dc[i])) <==> TxnText(dc[i]))
    {
      RecordsAreTheChanges(dc, RecordOf(dc[i]));
      TxnTextDecides(dc[i]);
    }
    forall j | 0 <= j < |recs| ensures exists i :: 0 <= i < |dc| && Changes(dc[i]) && recs[j] == RecordOf(dc[i]) {
      RecordsAreTheChanges(dc, recs[j]);
    }
  }

  lemma TxnTextDecides(x: Planned)
    requires Changes(x)
    ensures RecordOk(RecordOf(x)) <==> TxnText(x)
  {
    hide RecordOk, RecordOf, FieldOk, ActionOf;
    TxnRecordDomain(x);
  }

  /** The policy's verdict in terms of the cache: a plan is allowed exactly when no changing
      package is rapt-owned or held and no removed package is essential or protected. */
  lemma PolicyOfResolved(dc: seq<Planned>)
    ensures Judge(TxnRecords(dc)) == Allowed <==>
            forall i :: 0 <= i < |dc| && Changes(dc[i]) ==>
              && !RaptGrammar(dc[i].pkg.name) && dc[i].pkg.selected != SelHold
              && !(dc[i].mark.delete && (dc[i].pkg.essential || ProtectedPkg(dc[i])))
  {
    hide RaptGrammar, RecordOf, Owned, HoldFlagged, ProtectedRemoval, ProtectedPkg, ActionOf;
    var recs := TxnRecords(dc);
    forall i | 0 <= i < |dc| && Changes(dc[i])
      ensures RecordOf(dc[i]) in recs
      ensures Owned(RecordOf(dc[i])) <==> RaptGrammar(dc[i].pkg.name)
      ensures HoldFlagged(RecordOf(dc[i])) <==> dc[i].pkg.selected == SelHold
      ensures ProtectedRemoval(RecordOf(dc[i])) <==> dc[i].mark.delete && (dc[i].pkg.essential || ProtectedPkg(dc[i]))
    {
      RecordsAreTheChanges(dc, RecordOf(dc[i]));
      PolicyOfRecord(dc[i]);
    }
    forall j | 0 <= j < |recs| ensures exists i :: 0 <= i < |dc| && Changes(dc[i]) && recs[j] == RecordOf(dc[i]) {
      RecordsAreTheChanges(dc, recs[j]);
    }
  }

  lemma PolicyOfRecord(x: Planned)
    requires Changes(x)
    ensures Owned(RecordOf(x)) <==> RaptGrammar(x.pkg.name)
    ensures HoldFlagged(RecordOf(x)) <==> x.pkg.selected == SelHold
    ensures ProtectedRemoval(RecordOf(x)) <==> x.mark.delete && (x.pkg.essential || ProtectedPkg(x))
  {
    hide RaptGrammar, ProtectedPkg;
    FlagMember(x, "hold");
    FlagMember(x, "essential");
    FlagMember(x, "protected");
    hide FlagsOf;
    assert "remove" != "install" && "purge" != "install";
  }

  lemma FlagMember(x: Planned, flag: Str)
    requires flag != []
    ensures HasFlag(RecordOf(x), flag) <==> flag in FlagsOf(x)
    ensures "hold" in FlagsOf(x) <==> x.pkg.selected == SelHold
    ensures "essential" in FlagsOf(x) <==> x.pkg.essential
    ensures "protected" in FlagsOf(x) <==> ProtectedPkg(x)
  {
    hide ProtectedPkg;
    FlagIsElement(RecordOf(x), flag);
  }

  // ---- configure -----------------------------------------------------------------

  function PendingState(s: State): CStr {
    match s
    case UnPacked => Some("unpacked")
    case HalfConfigured => Some("half-configured")
    case TriggersAwaited => Some("triggers-awaited")
    case TriggersPending => Some("triggers-pending")
    case _ => None
  }

  function CfgRecordOf(p: Pkg): CfgRecord {
    Cfg(Some(p.name), Some(p.arch), Some(VerStr(p.current)), Some(Nz(PendingState(p.state))))
  }

  /** One record for every pending package, in cache order. */
  function CfgRecords(pkgs: seq<Pkg>): seq<CfgRecord> {
    if pkgs == [] then []
    else
      var last := pkgs[|pkgs| - 1];
      CfgRecords(pkgs[..|pkgs| - 1]) + if PendingState(last.state).Some? then [CfgRecordOf(last)] else []
  }

  ghost predicate NoneHalfInstalled(pkgs: seq<Pkg>) {
    forall i :: 0 <= i < |pkgs| ==> pkgs[i].state != HalfInstalled
  }

  /** Record j describes package at[j], and those are the pending packages in cache order. */
  ghost predicate ListsPending(pkgs: seq<Pkg>, recs: seq<CfgRecord>) {
    exists at: seq<nat> ::
      && InOrder(at, |pkgs|) && |recs| == |at|
      && (forall i :: 0 <= i < |pkgs| ==>
            (i in at <==> pkgs[i].state.UnPacked? || pkgs[i].state.HalfConfigured?
                          || pkgs[i].state.TriggersAwaited? || pkgs[i].state.TriggersPending?))
      && (forall j :: 0 <= j < |at| ==>
            var p, r := pkgs[at[j]], recs[j];
            && r.package == Some(p.name) && r.architecture == Some(p.arch)
            && r.currentVersion == Some(if p.current.Some? then p.current.value.str else [])
            && (p.state.UnPacked? ==> r.state == Some("unpacked"))
            && (p.state.HalfConfigured? ==> r.state == Some("half-configured"))
            && (p.state.TriggersAwaited? ==> r.state == Some("triggers-awaited"))
            && (p.state.TriggersPending? ==> r.state == Some("triggers-pending")))
  }

  /** pkgx_apt_map_configure: the records, or the first half-installed package. */
  method MapConfigure(pkgs: seq<Pkg>) returns (recs: seq<CfgRecord>, half: CStr)
    ensures half.None? <==> NoneHalfInstalled(pkgs)
    ensures half.None? ==> recs == CfgRecords(pkgs)
    ensures half.None? ==> ListsPending(pkgs, recs)
    ensures half.Some? ==> exists i: nat :: i < |pkgs| && pkgs[i].state == HalfInstalled
                                            && pkgs[i].name == half.value && NoneHalfInstalled(pkgs[..i])
  {
    hide CfgRecords, NoneHalfInstalled, PendingState, CfgRecordOf;
    recs, half := ScanPending(pkgs);
    CfgRecordsAt(pkgs);
    if half.None? { CfgRecordsAreWritten(pkgs, recs); }
  }

  method ScanPending(pkgs: seq<Pkg>) returns (recs: seq<CfgRecord>, half: CStr)
    ensures half.None? <==> NoneHalfInstalled(pkgs)
    ensures half.None? ==> recs == CfgRecords(pkgs)
    ensures half.Some? ==> exists i: nat :: i < |pkgs| && pkgs[i].state == HalfInstalled
                                            && pkgs[i].name == half.value && NoneHalfInstalled(pkgs[..i])
  {
    recs := [];
    for i := 0 to |pkgs|
      invariant NoneHalfInstalled(pkgs[..i])
      invariant recs == CfgRecords(pkgs[..i])
    {
      var p := pkgs[i];
      if p.state == HalfInstalled {
        return [], Some(p.name);
      }
      assert pkgs[..i + 1][..i] == pkgs[..i];
      var state := PendingState(p.state);
      if state.None? {
        continue;
      }
      recs := recs + [Cfg(Some(p.name), Some(p.arch), Some(VerStr(p.current)), state)];
    }
    assert pkgs[..|pkgs|] == pkgs;
    half := None;
  }

  predicate IsPending(p: Pkg) {
    PendingState(p.state).Some?
  }

  /** The records stand where the pending packages do. */
  lemma {:induction false} CfgRecordsAt(pkgs: seq<Pkg>)
    ensures var at := Where(pkgs, IsPending);
            && InOrder(at, |pkgs|) && |CfgRecords(pkgs)| == |at|
            && forall j :: 0 <= j < |at| ==> CfgRecords(pkgs)[j] == CfgRecordOf(pkgs[at[j]])
  {
    hide PendingState, CfgRecordOf;
    WhereIsExact(pkgs, IsPending);
    if pkgs != [] {
      var init := pkgs[..|pkgs| - 1];
      CfgRecordsAt(init);
      forall j | 0 <= j < |Where(init, IsPending)|
        ensures init[Where(init, IsPending)[j]] == pkgs[Where(init, IsPending)[j]]
      {
      }
    }
  }

  lemma CfgRecordsAreWritten(pkgs: seq<Pkg>, recs: seq<CfgRecord>)
    requires var at := Where(pkgs, IsPending);
             && InOrder(at, |pkgs|) && |recs| == |at|
             && forall j :: 0 <= j < |at| ==> recs[j] == CfgRecordOf(pkgs[at[j]])
    ensures ListsPending(pkgs, recs)
  {
    var at := Where(pkgs, IsPending);
    WhereIsExact(pkgs, IsPending);
    hide Where, InOrder, IsPending, CfgRecordOf, PendingState;
    forall i | 0 <= i < |pkgs| { CfgIsWritten(pkgs[i]); }
    forall j | 0 <= j < |at| ensures at[j] in at { }
    assert InOrder(at, |pkgs|);
  }

  lemma CfgIsWritten(p: Pkg)
    ensures IsPending(p) <==> p.state.UnPacked? || p.state.HalfConfigured? || p.state.TriggersAwaited?
                              || p.state.TriggersPending?
    ensures var r := CfgRecordOf(p);
            && r.package == Some(p.name) && r.architecture == Some(p.arch)
            && r.currentVersion == Some(if p.current.Some? then p.current.value.str else [])
            && (p.state.UnPacked? ==> r.state == Some("unpacked"))
            && (p.state.HalfConfigured? ==> r.state == Some("half-configured"))
            && (p.state.TriggersAwaited? ==> r.state == Some("triggers-awaited"))
            && (p.state.TriggersPending? ==> r.state == Some("triggers-pending"))
  {
  }

  lemma CfgRecordDomain(p: Pkg)
    requires PendingState(p.state).Some?
    ensures RecordOk(CfgRecordOf(p)) <==> FieldOk(p.name) && FieldOk(p.arch) && FieldOk(VerStr(p.current))
  {
    hide FieldOk;
    var s := PendingState(p.state).value;
    PlainWordIsField(s);
    assert s in CFG_STATES;
  }

  lemma {:induction false} CfgRecordsArePending(pkgs: seq<Pkg>, r: CfgRecord)
    ensures r in CfgRecords(pkgs) <==>
            exists i :: 0 <= i < |pkgs| && PendingState(pkgs[i].state).Some? && r == CfgRecordOf(pkgs[i])
  {
    hide CfgRecordOf, PendingState;
    if pkgs != [] {
      var init := pkgs[..|pkgs| - 1];
      CfgRecordsArePending(init, r);
      if r in CfgRecords(init) {
        var i :| 0 <= i < |init| && PendingState(init[i].state).Some? && r == CfgRecordOf(init[i]);
        assert pkgs[i] == init[i];
      }
      if i :| 0 <= i < |pkgs| && PendingState(pkgs[i].state).Some? && r == CfgRecordOf(pkgs[i]) {
        if i < |init| { assert init[i] == pkgs[i]; }
      }
    }
  }

  ghost predicate CfgText(p: Pkg) {
    FieldOk(p.name) && FieldOk(p.arch) && FieldOk(VerStr(p.current))
  }

  /** A configure plan is in the encoder's domain exactly if the text of its pending packages is. */
  lemma CfgPlanDomain(pkgs: seq<Pkg>)
    ensures InDomain(CfgPlan(CfgRecords(pkgs))) <==>
            forall i :: 0 <= i < |pkgs| && PendingState(pkgs[i].state).Some? ==> CfgText(pkgs[i])
  {
    hide RecordOk, CfgRecordOf, CfgText, PendingState;
    var recs := CfgRecords(pkgs);
    forall i | 0 <= i < |pkgs| && PendingState(pkgs[i].state).Some?
      ensures CfgRecordOf(pkgs[i]) in recs && (RecordOk(CfgRecordOf(pkgs[i])) <==> CfgText(pkgs[i]))
    {
      CfgRecordsArePending(pkgs, CfgRecordOf(pkgs[i]));
      CfgTextDecides(pkgs[i]);
    }
    forall j | 0 <= j < |recs|
      ensures exists i :: 0 <= i < |pkgs| && PendingState(pkgs[i].state).Some? && recs[j] == CfgRecordOf(pkgs[i])
    {
      CfgRecordsArePending(pkgs, recs[j]);
    }
  }

  lemma CfgTextDecides(p: Pkg)
    requires PendingState(p.state).Some?
    ensures RecordOk(CfgRecordOf(p)) <==> CfgText(p)
  {
    hide RecordOk, CfgRecordOf, FieldOk;
    CfgRecordDomain(p);
  }

  // ---- sources ---------------------------------------------------------------------

  /** std::set<std::string>: inserting keeps the elements in bytewise order, each once. */
  function AddUnique(xs: seq<Str>, x: Str): seq<Str> {
    if x in xs then xs else Insert(x, xs)
  }

  ghost predicate OrderedSet(xs: seq<Str>) {
    Sorted(xs) && NoDup(xs)
  }

  lemma AddUniqueKeeps(xs: seq<Str>, x: Str)
    requires OrderedSet(xs)
    ensures OrderedSet(AddUnique(xs, x)) && Elems(AddUnique(xs, x)) == Elems(xs) + {x}
  {
    hide Sorted, Insert, NoDup;
    if x !in xs {
      var ys := Insert(x, xs);
      InsertKeepsSorted(x, xs);
      InsertKeepsElements(x, xs);
      forall y ensures multiset(ys)[y] <= 1 { NoDupMultiplicity(xs, y); }
      Encoder.NoDupFromMultiset(ys);
      forall y ensures y in ys <==> y in xs || y == x {
        MembersAreMultisetMembers(ys, y);
        MembersAreMultisetMembers(xs, y);
      }
    }
  }

  ghost function Components(ts: seq<IndexTarget>): set<Str> {
    set t | t in ts && t.component != [] :: t.component
  }

  ghost function Architectures(ts: seq<IndexTarget>): set<Str> {
    set t | t in ts && t.architecture != [] :: t.architecture
  }

  method Distinct(ts: seq<IndexTarget>) returns (comps: seq<Str>, arches: seq<Str>)
    ensures OrderedSet(comps) && Elems(comps) == Components(ts)
    ensures OrderedSet(arches) && Elems(arches) == Architectures(ts)
  {
    hide AddUnique, OrderedSet;
    EmptyIsOrdered();
    comps, arches := [], [];
    for i := 0 to |ts|
      invariant OrderedSet(comps) && Elems(comps) == Components(ts[..i])
      invariant OrderedSet(arches) && Elems(arches) == Architectures(ts[..i])
    {
      assert ts[..i + 1] == ts[..i] + [ts[i]];
      AddUniqueKeeps(comps, ts[i].component);
      AddUniqueKeeps(arches, ts[i].architecture);
      if ts[i].component != [] { comps := AddUnique(comps, ts[i].component); }
      if ts[i].architecture != [] { arches := AddUnique(arches, ts[i].architecture); }
    }
    assert ts[..|ts|] == ts;
  }

  lemma EmptyIsOrdered()
    ensures OrderedSet([])
  {
  }

  /** The signing identity as the digest binds it. */
  ghost predicate SigningValue(signedBy: Str, sha: Encoder.Hash, v: Str) {
    if InlineArmor(signedBy) && sha(signedBy).Some? then v == TOKEN_PREFIX + sha(signedBy).value
    else v == signedBy
  }

  method SignedByValue(signedBy: Str, sha: Encoder.Hash) returns (v: Str)
    ensures SigningValue(signedBy, sha, v)
    ensures InlineArmor(signedBy) && sha(signedBy).Some? ==> v == "inline-sha256:" + sha(signedBy).value
    ensures !(InlineArmor(signedBy) && sha(signedBy).Some?) ==> v == signedBy
  {
    hide InlineArmor;
    var t := SignedByInlineToken(Some(signedBy), (v: seq<Byte>) => if '\0' in v then None else sha(v));
    v := if t.Inline? then t.token else signedBy;
  }

  function TrustWord(t: Trust): CStr {
    match t
    case TriYes => Some("yes")
    case TriNo => Some("no")
    case _ => None
  }

  /** What the record of source `s` has to be. */
  ghost predicate Describes(s: Source, sha: Encoder.Hash, r: SrcRecord) {
    && r.uri == Some(s.uri) && r.suite == Some(s.dist)
    && OrderedSet(NzAll(r.components)) && Elems(NzAll(r.components)) == Components(s.targets)
    && exists signed: Str, arches: seq<Str> ::
         && SigningValue(s.signedBy, sha, signed)
         && OrderedSet(arches) && Elems(arches) == Architectures(s.targets)
         && r.options == OptionList(s, signed, arches)
  }

  function WhenOpt(c: bool, key: Str, val: Str): seq<Opt> {
    if c then [Opt(Some(key), Some(val))] else []
  }

  function OptionList(s: Source, signed: Str, arches: seq<Str>): seq<Opt> {
    WhenOpt(s.signedBy != [], "signed-by", signed)
    + WhenOpt(arches != [], "architectures", Join(arches, ' '))
    + WhenOpt(TrustWord(s.trusted).Some?, "trusted", Nz(TrustWord(s.trusted)))
  }

  method JoinArches(arches: seq<Str>) returns (joined: Str)
    requires [] !in arches
    ensures joined == Join(arches, ' ')
  {
    joined := [];
    for i := 0 to |arches|
      invariant joined == Join(arches[..i], ' ')
      invariant i > 0 ==> joined != []
    {
      assert arches[..i + 1] == arches[..i] + [arches[i]];
      assert arches[i] in arches;
      if i > 0 { JoinAppend(arches[..i], ' ', arches[i]); }
      if joined != [] {
        joined := joined + [' '];
      }
      joined := joined + arches[i];
    }
    assert arches[..|arches|] == arches;
  }

  /** The present (non-NULL) sources of a list. */
  function Present(list: seq<Option<Source>>): seq<Source> {
    if list == [] then []
    else
      var last := list[|list| - 1];
      Present(list[..|list| - 1]) + if last.Some? then [last.value] else []
  }

  method DescribeSource(mi: Source, sha: Encoder.Hash) returns (r: SrcRecord)
    ensures Describes(mi, sha, r)
  {
    hide OrderedSet, SigningValue, Join;
    var comps, arches := Distinct(mi.targets);
    var signed := SignedByValue(mi.signedBy, sha);
    var opts: seq<Opt> := [];
    if mi.signedBy != [] {
      opts := opts + [Opt(Some("signed-by"), Some(signed))];
    }
    forall a | a in arches ensures a != [] { assert a in Elems(arches); }
    if arches != [] {
      var joined := JoinArches(arches);
      opts := opts + [Opt(Some("architectures"), Some(joined))];
    }
    match mi.trusted {
      case TriYes => opts := opts + [Opt(Some("trusted"), Some("yes"))];
      case TriNo => opts := opts + [Opt(Some("trusted"), Some("no"))];
      case _ =>
    }
    assert opts == OptionList(mi, signed, arches);
    r := Src(Some(mi.uri), Some(mi.dist), Pointers(comps), opts);
  }

  /** Record j describes source at[j], and those are the sources that are not NULL. */
  ghost predicate ListsSources(list: seq<Option<Source>>, sha: Encoder.Hash, recs: seq<SrcRecord>) {
    exists at: seq<nat> ::
      && InOrder(at, |list|) && |recs| == |at|
      && (forall i :: 0 <= i < |list| ==> (i in at <==> list[i] != None))
      && (forall j :: 0 <= j < |at| ==> list[at[j]] != None && Describes(list[at[j]].value, sha, recs[j]))
  }

  /** pkgx_apt_map_sources: one record per present source, in list order. */
  method MapSources(list: seq<Option<Source>>, sha: Encoder.Hash) returns (recs: seq<SrcRecord>)
    ensures |recs| == |Present(list)|
    ensures forall i :: 0 <= i < |recs| ==> Describes(Present(list)[i], sha, recs[i])
    ensures ListsSources(list, sha, recs)
  {
    hide Describes, Present, Where, InOrder, IsPresent;
    recs := DescribeAll(list, sha);
    PresentAt(list);
    WhereIsExact(list, IsPresent);
    ghost var at := Where(list, IsPresent);
    forall j | 0 <= j < |at| ensures list[at[j]] != None { assert Some(Present(list)[j]) == list[at[j]]; }
    forall i | 0 <= i < |list| ensures IsPresent(list[i]) <==> list[i] != None { PresentMeans(list[i]); }
    assert InOrder(at, |list|);
  }

  lemma PresentMeans(s: Option<Source>)
    ensures IsPresent(s) <==> s != None
  {
  }

  method DescribeAll(list: seq<Option<Source>>, sha: Encoder.Hash) returns (recs: seq<SrcRecord>)
    ensures |recs| == |Present(list)|
    ensures forall i :: 0 <= i < |recs| ==> Describes(Present(list)[i], sha, recs[i])
  {
    hide Describes;
    recs := [];
    for i := 0 to |list|
      invariant |recs| == |Present(list[..i])|
      invariant forall j :: 0 <= j < |recs| ==> Describes(Present(list[..i])[j], sha, recs[j])
    {
      assert list[..i + 1][..i] == list[..i];
      if list[i].None? {
        continue;
      }
      var r := DescribeSource(list[i].value, sha);
      recs := recs + [r];
    }
    assert list[..|list|] == list;
  }

  predicate IsPresent(s: Option<Source>) { s.Some? }

  lemma {:induction false} PresentAt(list: seq<Option<Source>>)
    ensures var at := Where(list, IsPresent);
            && InOrder(at, |list|) && |Present(list)| == |at|
            && forall j :: 0 <= j < |at| ==> Some(Present(list)[j]) == list[at[j]]
  {
    WhereIsExact(list, IsPresent);
    if list != [] {
      var init := list[..|list| - 1];
      PresentAt(init);
      forall j | 0 <= j < |Where(init, IsPresent)|
        ensures init[Where(init, IsPresent)[j]] == list[Where(init, IsPresent)[j]]
      {
      }
    }
  }

  /** The record of a source, written out: its components and architectures as ordered sets,
      an inline key as its token, and trust only where it is explicit. */
  lemma DescriptionIsWritten(s: Source, sha: Encoder.Hash, r: SrcRecord)
    ensures Describes(s, sha, r) <==>
            && r.uri == Some(s.uri) && r.suite == Some(s.dist)
            && Sorted(NzAll(r.components)) && NoDup(NzAll(r.components))
            && Elems(NzAll(r.components)) == (set t | t in s.targets && t.component != [] :: t.component)
            && exists signed: Str, arches: seq<Str> ::
                 && SigningValue(s.signedBy, sha, signed)
                 && Sorted(arches) && NoDup(arches)
                 && Elems(arches) == (set t | t in s.targets && t.architecture != [] :: t.architecture)
                 && r.options ==
                    (if s.signedBy != [] then [Opt(Some("signed-by"), Some(signed))] else [])
                    + (if arches != [] then [Opt(Some("architectures"), Some(Join(arches, ' ')))] else [])
                    + (if s.trusted == TriYes then [Opt(Some("trusted"), Some("yes"))]
                       else if s.trusted == TriNo then [Opt(Some("trusted"), Some("no"))] else [])
  {
    hide SigningValue, Join, Sorted, NoDup;
    forall signed: Str, arches: seq<Str> { OptionsAreWritten(s, signed, arches); }
    hide OptionList;
  }

  lemma OptionsAreWritten(s: Source, signed: Str, arches: seq<Str>)
    ensures OptionList(s, signed, arches) ==
            (if s.signedBy != [] then [Opt(Some("signed-by"), Some(signed))] else [])
            + (if arches != [] then [Opt(Some("architectures"), Some(Join(arches, ' ')))] else [])
            + (if s.trusted == TriYes then [Opt(Some("trusted"), Some("yes"))]
               else if s.trusted == TriNo then [Opt(Some("trusted"), Some("no"))] else [])
  {
    hide Join;
  }

  /** A described source is refused by the encoder only for its text: its components and
      option keys are distinct and known by construction. */
  lemma SrcRecordDomain(s: Source, sha: Encoder.Hash, r: SrcRecord)
    requires Describes(s, sha, r)
    ensures RecordOk(r) <==>
            && FieldOk(s.uri) && FieldOk(s.dist)
            && (forall c :: c in Components(s.targets) ==> FieldOk(c))
            && FieldsOk(Vals(r.options))
  {
    hide FieldOk, OrderedSet, SigningValue, Join;
    OptionKeysInDomain(s, r);
    ComponentsListOk(s, sha, r);
  }

  ghost predicate SrcText(s: Source, r: SrcRecord) {
    && FieldOk(s.uri) && FieldOk(s.dist)
    && (forall c :: c in Components(s.targets) ==> FieldOk(c))
    && FieldsOk(Vals(r.options))
  }

  /** An update plan is in the encoder's domain exactly if the text of its sources is. */
  lemma SrcPlanDomain(list: seq<Source>, sha: Encoder.Hash, recs: seq<SrcRecord>)
    requires |recs| == |list| && forall i :: 0 <= i < |recs| ==> Describes(list[i], sha, recs[i])
    ensures InDomain(UpdPlan(recs)) <==> forall i :: 0 <= i < |recs| ==> SrcText(list[i], recs[i])
  {
    hide RecordOk, Describes, SrcText;
    forall i | 0 <= i < |recs| ensures RecordOk(recs[i]) <==> SrcText(list[i], recs[i]) {
      SrcTextDecides(list[i], sha, recs[i]);
    }
  }

  lemma SrcTextDecides(s: Source, sha: Encoder.Hash, r: SrcRecord)
    requires Describes(s, sha, r)
    ensures RecordOk(r) <==> SrcText(s, r)
  {
    hide RecordOk, Describes, FieldOk;
    SrcRecordDomain(s, sha, r);
  }

  lemma ComponentsListOk(s: Source, sha: Encoder.Hash, r: SrcRecord)
    requires Describes(s, sha, r)
    ensures ListOk(r.components, true, None) <==> forall c :: c in Components(s.targets) ==> FieldOk(c)
  {
    hide FieldOk, SigningValue, Join, Sorted, OptionList;
    var xs := NzAll(r.components);
    assert forall i :: 0 <= i < |xs| ==> xs[i] in Elems(xs);
    forall c | c in Components(s.targets) ensures exists i :: 0 <= i < |xs| && xs[i] == c {
      assert c in Elems(xs);
    }
  }

  lemma OptionKeysInDomain(s: Source, r: SrcRecord)
    requires exists signed: Str, arches: seq<Str> :: r.options == OptionList(s, signed, arches)
    ensures NoDup(Keys(r.options)) && FieldsOk(Keys(r.options))
    ensures forall i :: 0 <= i < |r.options| ==> Keys(r.options)[i] in UPD_OPT_KEYS
  {
    hide OptionList, FieldsOk, NoDup;
    var signed: Str, arches: seq<Str> :| r.options == OptionList(s, signed, arches);
    KeysOfOptions(s, signed, arches);
    KeyListInDomain(s.signedBy != [], arches != [], TrustWord(s.trusted).Some?);
  }

  lemma KeysOfOptions(s: Source, signed: Str, arches: seq<Str>)
    ensures Keys(OptionList(s, signed, arches)) ==
            When(s.signedBy != [], "signed-by") + When(arches != [], "architectures")
            + When(TrustWord(s.trusted).Some?, "trusted")
  {
    hide Join;
  }

  lemma KeyListInDomain(a: bool, b: bool, c: bool)
    ensures var keys := When(a, "signed-by") + When(b, "architectures") + When(c, "trusted");
            NoDup(keys) && FieldsOk(keys) && forall i :: 0 <= i < |keys| ==> keys[i] in UPD_OPT_KEYS
  {
    hide FieldOk;
    PlainWordIsField("signed-by");
    PlainWordIsField("architectures");
    PlainWordIsField("trusted");
    assert "signed-by" == UPD_OPT_KEYS[0] && "architectures" == UPD_OPT_KEYS[1] && "trusted" == UPD_OPT_KEYS[2];
  }

  /** No component is empty, so the encoding's blind spot is never reached: different
      component sets give different normal forms. */
  lemma ComponentsNonempty(s: Source, sha: Encoder.Hash, r: SrcRecord)
    requires Describes(s, sha, r)
    ensures [] !in NzAll(r.components) && NzAll(r.components) != [[]]
  {
    hide OrderedSet, SigningValue, OptionList;
    var xs := NzAll(r.components);
    forall i | 0 <= i < |xs| ensures xs[i] != [] {
      assert xs[i] in Elems(xs);
    }
  }

  /** An inline key never makes a source unencodable, as long as it can be hashed. */
  lemma InlineKeyIsField(signedBy: Str, sha: Encoder.Hash, v: Str)
    requires SigningValue(signedBy, sha, v) && InlineArmor(signedBy)
    requires sha(signedBy).Some? && HexHash(sha(signedBy).value)
    ensures FieldOk(v)
  {
    TokenIsField(sha(signedBy).value);
  }
}

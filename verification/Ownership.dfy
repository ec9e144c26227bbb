/** What the ownership policies guarantee about packages, mechanism by mechanism. */
module Ownership {
  import opened Bytes
  import opened Names
  import opened Canon
  import opened Builders
  import opened Selections
  import opened Host
  import opened PlanStep
  import opened Story
  import Decode
  import Encoder
  import Invariance
  import Policy
  import Request
  import Status

  // ---- what a refused plan is reported as ------------------------------------------------------

  ghost predicate HasOwned(recs: seq<Record>) {
    exists i :: 0 <= i < |recs| && !recs[i].Src? && recs[i].package.Some? && RaptGrammar(recs[i].package.value)
  }

  ghost predicate HasHeld(recs: seq<Record>) {
    exists i :: 0 <= i < |recs| && recs[i].Txn? && Some("hold") in recs[i].flags
  }

  ghost predicate RemovesProtected(recs: seq<Record>) {
    exists i :: 0 <= i < |recs| && recs[i].Txn? && (recs[i].action == Some("remove") || recs[i].action == Some("purge"))
                && (Some("essential") in recs[i].flags || Some("protected") in recs[i].flags)
  }

  lemma PolicyIsWritten(p: Plan)
    ensures PolicyOf(p) == if HasOwned(p.Records()) then PlanNotOwned
                           else if HasHeld(p.Records()) then PlanHeld
                           else if RemovesProtected(p.Records()) then PlanProtected
                           else PlanOk
  {
    hide RaptGrammar;
    match p
    case TxnPlan(_, recs) =>
      assert Policy.AnyRecord(recs, Policy.Owned) <==> HasOwned(p.Records());
      assert Policy.AnyRecord(recs, Policy.HoldFlagged) <==> HasHeld(p.Records());
      assert Policy.AnyRecord(recs, Policy.ProtectedRemoval) <==> RemovesProtected(p.Records());
    case HoldPlan(_, recs) => assert AnyOwned(recs) <==> HasOwned(p.Records());
    case CfgPlan(recs) => assert AnyOwned(recs) <==> HasOwned(p.Records());
    case UpdPlan(_) =>
  }

  /** What is reported when the plan step settles a run: nothing to do exactly for an empty
      plan; a policy refusal exactly for what the records hold, ownership before holds before
      protection; and an internal error exactly for a resource or digest that failed. */
  lemma SettledStatus(p: Plan, s: Subject, sha: Encoder.Hash)
    requires Settled(p, s, sha).Some?
    ensures Settled(p, s, sha).value != PlanOk
    ensures Status.RefusalStatus(Settled(p, s, sha).value) ==
            if p.Records() == [] then Status.NoOp
            else if HasOwned(p.Records()) then Status.NotOwned
            else if HasHeld(p.Records()) then Status.Held
            else if RemovesProtected(p.Records()) then Status.Protected
            else Status.Internal
    ensures Settled(p, s, sha) == Some(PlanInternal) ==> !SubjectOk(s) || !Digestible(p, sha)
  {
    PolicyIsWritten(p);
    hide HasOwned, HasHeld, RemovesProtected, PolicyOf, Digestible, SubjectOk;
  }

  // ---- transactions ----------------------------------------------------------------

  /** A transaction that starts changes no rapt-owned and no held package, and removes no
      essential or protected one. */
  lemma StartedTransactionIsClean(verb: Str, targets: seq<Str>, s: Story, sha: Encoder.Hash, w: Intent)
    requires Told(TxnMech(verb, targets), s, sha, w) && s.post != []
    ensures s.work.Install? && PlansOver(s.work.dc, s.db)
    ensures forall i :: 0 <= i < |s.work.dc| && Changes(s.work.dc[i]) ==>
              && !RaptGrammar(s.db.pkgs[i].name) && s.db.pkgs[i].selected != SelHold
              && !(s.work.dc[i].mark.delete && (s.db.pkgs[i].essential || ProtectedPkg(s.work.dc[i])))
  {
    StartedPlan(TxnMech(verb, targets), s, sha, w);
    hide Told, RaptGrammar, ProtectedPkg, Changes;
    PolicyOfResolved(s.work.dc);
  }

  lemma StartedPlan(m: Mechanism, s: Story, sha: Encoder.Hash, w: Intent)
    requires Told(m, s, sha, w) && s.post != []
    ensures PolicyOf(s.plan) == PlanOk && Faithful(m, s.db, s.plan, s.subject, s.work, sha)
  {
    AuthorisedIsDigestible(s.plan, s.subject, sha, w, s.call);
    hide Faithful, Authorised, Asks, PolicyOf, LockPrefix, DpkgSuffix, RefreshSuffix;
  }

  // ---- configure -------------------------------------------------------------------

  /** A configure that starts has no rapt-owned package pending. */
  lemma StartedConfigureIsClean(s: Story, sha: Encoder.Hash, w: Intent)
    requires Told(CfgMech, s, sha, w) && s.post != []
    ensures forall i :: 0 <= i < |s.db.pkgs| && PendingState(s.db.pkgs[i].state).Some? ==>
              !RaptGrammar(s.db.pkgs[i].name)
  {
    StartedPlan(CfgMech, s, sha, w);
    hide Told, RaptGrammar, PendingState;
    var pkgs := s.db.pkgs;
    forall i | 0 <= i < |pkgs| && PendingState(pkgs[i].state).Some? ensures !RaptGrammar(pkgs[i].name) {
      CfgRecordsArePending(pkgs, CfgRecordOf(pkgs[i]));
      var j :| 0 <= j < |CfgRecords(pkgs)| && CfgRecords(pkgs)[j] == CfgRecordOf(pkgs[i]);
      assert !OwnedName(PackageOf(CfgRecords(pkgs)[j]));
    }
  }

  // ---- hold and unhold -----------------------------------------------------------------

  /** The hold policy looks at the text of the targets and at nothing else. */
  lemma HoldPolicyIsTextual(verb: Str, c: SelCache, targets: seq<Str>, hold: bool)
    ensures PolicyOf(HoldPlan(Some(verb), HoldRecords(Changing(c, targets, hold)))) == PlanOk <==>
            forall i :: 0 <= i < |targets| && Toggles(c, hold, targets[i]) ==> !RaptGrammar(targets[i])
  {
    hide RaptGrammar, Toggles;
    var changes := Changing(c, targets, hold);
    var recs := HoldRecords(changes);
    forall i | 0 <= i < |targets| && Toggles(c, hold, targets[i])
      ensures exists j :: 0 <= j < |recs| && PackageOf(recs[j]) == Some(targets[i])
    {
      ChangesAreToggled(c, targets, hold, ChangeOf(hold, targets[i]));
      var j :| 0 <= j < |changes| && changes[j] == ChangeOf(hold, targets[i]);
      assert PackageOf(recs[j]) == Some(targets[i]);
    }
    forall j | 0 <= j < |recs|
      ensures exists i :: 0 <= i < |targets| && Toggles(c, hold, targets[i]) && PackageOf(recs[j]) == Some(targets[i])
    {
      ChangesAreToggled(c, targets, hold, changes[j]);
    }
  }

  /** The part of a target before its colon, if it has one. */
  function NamePart(t: Str): Str {
    t[..Decode.IndexOf(t, ':')]
  }

  /** An architecture hides a rapt-owned name from the predicate, and nothing else does. */
  lemma OnlyQualifiersHide(t: Str)
    requires TargetName(t) && !RaptGrammar(t)
    ensures RaptGrammar(NamePart(t)) <==> exists k: nat :: Qualified(t, k) && RaptGrammar(t[..k])
  {
    hide RaptGrammar;
    var e := Decode.IndexOf(t, ':');
    NameSplit(t, e);
    if e == |t| {
      assert t[..e] == t;
    }
    forall k: nat | Qualified(t, k) ensures k == e {
      forall m | 0 <= m < k ensures t[m] != ':' { assert NameChar(t[..k][m]); }
      Invariance.IndexOfIs(t, ':', k);
    }
  }

  /** Lookup by name finds the package named before the colon. */
  ghost predicate FindsByName(db: Db, targets: seq<Str>) {
    forall i :: 0 <= i < |targets| && Cache(db).Knows(targets[i]) ==>
      db.pkgs[db.find(targets[i]).value].name == NamePart(targets[i])
  }

  ghost predicate ChangesOwned(db: Db, targets: seq<Str>, hold: bool) {
    exists i :: 0 <= i < |targets| && Toggles(Cache(db), hold, targets[i])
                && RaptGrammar(db.pkgs[db.find(targets[i]).value].name)
  }

  /** Some toggled target names a rapt-owned package together with an architecture. */
  ghost predicate QualifiesOwned(db: Db, targets: seq<Str>, hold: bool) {
    exists i, k: nat :: 0 <= i < |targets| && Toggles(Cache(db), hold, targets[i])
                        && Qualified(targets[i], k) && RaptGrammar(targets[i][..k])
  }

  /** Exactly when a hold that starts leaves rapt-owned packages alone: when no target it
      toggles is such a name with an architecture. */
  lemma StartedHoldIsClean(verb: Str, targets: seq<Str>, s: Story, sha: Encoder.Hash, w: Intent)
    requires Told(HoldMech(verb, targets), s, sha, w) && s.post != []
    requires forall i :: 0 <= i < |targets| ==> TargetName(targets[i])
    requires FindsByName(s.db, targets)
    ensures ChangesOwned(s.db, targets, verb == "apt.hold") <==> QualifiesOwned(s.db, targets, verb == "apt.hold")
  {
    StartedPlan(HoldMech(verb, targets), s, sha, w);
    hide Told, TargetName, RaptGrammar, Qualified;
    var hold := verb == "apt.hold";
    HoldPolicyIsTextual(verb, Cache(s.db), targets, hold);
    forall i | 0 <= i < |targets| && Toggles(Cache(s.db), hold, targets[i])
      ensures RaptGrammar(s.db.pkgs[s.db.find(targets[i]).value].name) <==>
              exists k: nat :: Qualified(targets[i], k) && RaptGrammar(targets[i][..k])
    {
      OnlyQualifiersHide(targets[i]);
    }
  }

  const OWNED: Str := "r-cran-foo"
  const QUALIFIED: Str := OWNED + [':'] + "amd64"

  /** A target that the parser accepts and the hold policy lets pass, although the package
      it names is rapt-owned. */
  lemma QualifiedNameSlipsThrough(verb: Str, c: SelCache, hold: bool)
    ensures TargetName(QUALIFIED) && !RaptGrammar(QUALIFIED) && RaptGrammar(NamePart(QUALIFIED))
    ensures PolicyOf(HoldPlan(Some(verb), HoldRecords(Changing(c, [QUALIFIED], hold)))) == PlanOk
  {
    QualifiedIsTarget();
    HoldPolicyIsTextual(verb, c, [QUALIFIED], hold);
  }

  lemma QualifiedIsTarget()
    ensures TargetName(QUALIFIED) && !RaptGrammar(QUALIFIED) && RaptGrammar(NamePart(QUALIFIED))
  {
    NamesAreWellFormed();
    OwnedNameIsOwned();
    hide PackageName, ArchName, RaptGrammar;
    Qualify(OWNED, "amd64");
    if RaptGrammar(QUALIFIED) { NoColonInRapt(QUALIFIED); }
    assert QUALIFIED[|OWNED|] == ':';
  }

  lemma Qualify(name: Str, arch: Str)
    requires PackageName(name) && ArchName(arch)
    ensures var t := name + [':'] + arch; Qualified(t, |name|) && NamePart(t) == name
  {
    var t := name + [':'] + arch;
    assert t[..|name|] == name && t[|name| + 1..] == arch;
    forall i | 0 <= i < |name| ensures name[i] != ':' { assert NameChar(name[i]); }
    hide PackageName, ArchName;
    Invariance.IndexOfIs(t, ':', |name|);
  }

  lemma NamesAreWellFormed()
    ensures PackageName(OWNED) && ArchName("amd64")
  {
  }

  lemma OwnedNameIsOwned()
    ensures RaptGrammar(OWNED)
  {
    var cran: Str, foo: Str := "cran", "foo";
    assert OWNED == "r-" + cran + "-" + foo;
    assert RaptSplit(OWNED, cran, foo);
  }

  lemma NoColonInRapt(t: Str)
    requires RaptGrammar(t)
    ensures ':' !in t
  {
    var a: Str, b: Str :| RaptSplit(t, a, b);
    forall i | 0 <= i < |t| ensures t[i] != ':' {
      if 2 <= i < 2 + |a| { assert t[i] == a[i - 2]; }
      if 3 + |a| <= i { assert t[i] == b[i - 3 - |a|]; }
    }
  }

  /** For a parsed hold request the plan step ends in an internal error only when hashing fails. */
  lemma HoldFailsOnlyToHash(verb: Str, c: SelCache, targets: seq<Str>, sha: Encoder.Hash)
    requires verb in HOLD_VERBS && Request.TargetList(targets)
    ensures var p := HoldPlan(Some(verb), HoldRecords(Changing(c, targets, verb == "apt.hold")));
            Settled(p, Targets(Pointers(targets)), sha) == Some(PlanInternal) <==>
            p.Records() != [] && PolicyOf(p) == PlanOk && sha(Canonical(p)).None?
  {
    hide Encodable, Canonical, Request.TargetList, Changing, HoldRecords, AnyOwned;
    VerbFits(verb);
    HoldPlanEncodable(verb, c, targets, verb == "apt.hold");
    Request.TargetListHasResource(targets);
    hide Encoder.ResourceOk;
  }

  lemma VerbFits(verb: Str)
    requires verb in HOLD_VERBS
    ensures FitsVerb(verb, verb == "apt.hold")
  {
  }
}

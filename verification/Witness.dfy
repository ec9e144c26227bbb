/** The premises of the whole-run theorems can be met: a run that is shown, redeemed and
    committed in full; and runs of the hold effector that show what the code does not keep. */
module Witness {
  import opened Bytes
  import opened Names
  import opened Canon
  import opened Builders
  import opened Host
  import opened Redeem
  import opened PlanStep
  import opened Selections
  import opened Story
  import opened Ownership
  import opened Telling
  import opened Effectors
  import opened Preview
  import Invariance
  import Kernel
  import Status
  import Encoder
  import Golden
  import Request
  import Utf8

  const PENDING: Pkg := Pkg("bash", "amd64", None, SelInstall, UnPacked, false, false)
  const SAMPLE_CID: Str := "00000000000000000001-00000000000000ab"

  lemma PendingIsListed()
    ensures CfgRecords([PENDING]) == [CfgRecordOf(PENDING)]
  {
    hide CfgRecordOf;
    assert [PENDING][..0] == [];
    assert CfgRecords([]) == [];
  }

  lemma PendingIsOk()
    ensures RecordOk(CfgRecordOf(PENDING))
  {
    hide FieldOk, RecordOk;
    PlainWordIsField("bash");
    PlainWordIsField([]);
    AmdIsField();
    CfgRecordDomain(PENDING);
  }

  lemma BashIsNotRapt()
    ensures !RaptGrammar("bash")
  {
    assert "bash"[0] != "r-"[0];
  }

  lemma AmdIsField()
    ensures FieldOk("amd64")
  {
    hide Utf8.Valid;
    Utf8.AsciiIsValid("amd64");
  }

  lemma SampleCid()
    ensures CidGrammar(SAMPLE_CID) && |SAMPLE_CID| == CID_LEN
  {
    CidParts(SAMPLE_CID);
  }

  /** The strict reply for a cid. */
  function StrictReply(cid: Str): Reply {
    Tree(Request.JObject([Request.Member("ok", Request.JTrue),
                          Request.Member("correlation_id", Request.JString(cid)),
                          Request.Member("persisted", Request.JTrue)]))
  }

  lemma StrictReplyIsStrict(cid: Str)
    requires |cid| == CID_LEN
    ensures StrictOk(StrictReply(cid), cid)
  {
    hide StrictOk, Refusal;
    WrittenReplies(cid, "receipt_invalid", "");
  }

  /** Small plans fit. */
  lemma OneRecordFits(r: CfgRecord)
    requires RecordOk(r) && |RecordString(r)| <= 100
    ensures Encodable(CfgPlan([r]))
  {
    hide RecordOk, RecordString;
    Golden.OneRecord(CfgPlan([r]), r);
  }

  lemma SampleIsShort(r: CfgRecord)
    requires r == CfgRecordOf(PENDING)
    ensures |RecordString(r)| <= 100
  {
    Golden.CfgText("bash", "amd64", [], "unpacked");
  }

  ghost predicate Ready(p: Plan, s: Subject, sha: Encoder.Hash) {
    Digestible(p, sha) && SubjectOk(s) && p.Records() != [] && PolicyOf(p) == PlanOk
  }

  lemma PlanIsReady(sha: Encoder.Hash)
    requires forall x :: sha(x).Some?
    ensures Ready(CfgPlan([CfgRecordOf(PENDING)]), Token("pending"), sha)
  {
    var r := CfgRecordOf(PENDING);
    PendingIsOk();
    SampleIsShort(r);
    OneRecordFits(r);
    BashIsNotRapt();
    hide RecordOk, RaptGrammar, Encodable, Canonical, RecordString;
    assert !AnyOwned([r]);
  }

  /** A run that commits: its story is told, its preview is ok, its binding is the issued one,
      and the hash is injective, all at once. */
  lemma CommittedRunExists() returns (s: Story, sha: Encoder.Hash, w: Intent, out: Shown)
    ensures Told(CfgMech, s, sha, w) && |s.post| == 3 && CidGrammar(w.cid)
    ensures Injective(sha) && Shows(s.plan, s.subject, sha, out) && out.status == Status.Ok
    ensures s.call != [] && s.call[0].Called? && Issued(s.call[0].req, s.plan, out)
  {
    sha := (x: Str) => Some(x);
    w := Intent("r", 0, 1, SAMPLE_CID);
    SampleCid();
    StrictReplyIsStrict(SAMPLE_CID);
    var r := CfgRecordOf(PENDING);
    PendingIsListed();
    PlanIsReady(sha);
    hide RecordOk, RecordString, CfgRecords, OwnedName, CidGrammar, StrictOk, Ready, Told, Shows;
    s, out := Assembled(r, sha, w);
  }

  lemma Assembled(r: CfgRecord, sha: Encoder.Hash, w: Intent) returns (s: Story, out: Shown)
    requires CfgRecords([PENDING]) == [r] && Ready(CfgPlan([r]), Token("pending"), sha)
    requires StrictOk(StrictReply(w.cid), w.cid)
    ensures Told(CfgMech, s, sha, w) && |s.post| == 3
    ensures Shows(s.plan, s.subject, sha, out) && out.status == Status.Ok
    ensures s.call != [] && s.call[0].Called? && Issued(s.call[0].req, s.plan, out)
  {
    s := ToldOne(r, sha, w);
    out := ShownOne(r, sha);
    hide Told, Shows, Encodable, Canonical, StrictReply, CfgRecords, PolicyOf;
  }

  lemma ToldOne(r: CfgRecord, sha: Encoder.Hash, w: Intent) returns (s: Story)
    requires CfgRecords([PENDING]) == [r] && Ready(CfgPlan([r]), Token("pending"), sha)
    requires StrictOk(StrictReply(w.cid), w.cid)
    ensures Told(CfgMech, s, sha, w) && |s.post| == 3 && s.plan == CfgPlan([r]) && s.subject == Token("pending")
    ensures s.call == [Called(Binding(CfgPlan([r]), Token("pending"), sha, w), StrictReply(w.cid))]
  {
    hide CfgRecords, Encodable, Canonical, PolicyOf, StrictOk, StrictReply;
    var plan := CfgPlan([r]);
    var req := Binding(plan, Token("pending"), sha, w);
    var db := Db([PENDING], (n: Str) => None, false, (p: Pkg) => false);
    s := Story([OuterTaken, Opened(db)], [Called(req, StrictReply(w.cid))],
               [InnerReleased, Started(ConfigurePending, db, true, false), InnerTaken],
               true, db, plan, Token("pending"), ConfigurePending);
  }

  lemma ShownOne(r: CfgRecord, sha: Encoder.Hash) returns (out: Shown)
    requires Ready(CfgPlan([r]), Token("pending"), sha)
    ensures Shows(CfgPlan([r]), Token("pending"), sha, out) && out.status == Status.Ok
    ensures out.resource == Some("pending") && out.hash == sha(Canonical(CfgPlan([r])))
  {
    hide Encodable, Canonical, PolicyOf;
    var plan := CfgPlan([r]);
    out := Shown(Status.Ok, Some("pending"), sha(Canonical(plan)),
                 Invariance.Views(Invariance.SortRecords(plan.Records())), None);
  }

  // ---- runs of the hold effector ----------------------------------------------------------

  /** A host with one package, the one that `target` names, selected for install. */
  function HostWith(target: Str): Db {
    Db([Pkg(NamePart(target), "amd64", None, SelInstall, Installed, false, false)], (n: Str) => Some(0), false,
       (p: Pkg) => true)
  }

  /** Every call succeeds, but for call `at` if `ok` is false; nobody else is about; the
      broker says yes. */
  function Fortune(db: Db, at: nat, ok: bool): nat -> Fate {
    (n: nat) => Fate(ok || n != at, [], StrictReply(SAMPLE_CID),
                     (k: nat) => Mark(false, false, false, false, false, false, None), db, [], Kernel.Done(0))
  }

  /** The number of the call of posix_spawn in a run. */
  function SpawnCall(m: Mechanism): nat
    requires m.HoldMech? || m.CfgMech?
  {
    CallsToRequest(m) + CallsToStart(m)
  }

  lemma FortuneIsFree(m: Mechanism, db: Db, ok: bool, o: Origin)
    requires (m.HoldMech? || m.CfgMech?) && o.step == 0 && o.outer == Nobody
    ensures Free(m, Fortune(db, SpawnCall(m), ok), o)
    ensures CallsOk(Fortune(db, SpawnCall(m), ok), CallsToRequest(m) + 1, CallsToStart(m)) <==> ok
    ensures Fortune(db, SpawnCall(m), ok)(CallsToRequest(m)).reply == StrictReply(SAMPLE_CID)
  {
    hide StrictReply;
    assert Fortune(db, SpawnCall(m), ok)(SpawnCall(m)).ok == ok;
  }

  lemma NoInterruptions(db: Db, at: nat, ok: bool)
    ensures forall n: nat :: !Fortune(db, at, ok)(n).outcome.Eintr?
  {
  }

  /** What the contract of an effector makes of such fortune: the run is authorised, and dpkg
      runs exactly if it can be spawned. */
  lemma ContractOfRun(m: Mechanism, db: Db, ok: bool, o: Origin, quiet: bool, e: Effect, s: Story, sha: Encoder.Hash,
                      w: Intent)
    requires (m.HoldMech? || m.CfgMech?) && o.step == 0 && o.outer == Nobody && o.db == db && w.cid == SAMPLE_CID
    requires Runs(m, Fortune(db, SpawnCall(m), ok), o, quiet, e, s, sha, w)
    requires !Blocked(m, db)
    requires forall plan, subject, work :: Faithful(m, db, plan, subject, work, sha) ==>
               Settled(plan, subject, sha).None?
    ensures s.db == db && s.reached && Authorised(s.plan, s.subject, sha, w, s.call) && Told(m, s, sha, w)
    ensures (e.issued <==> ok) && (FailureMeansRan(e) <==> ok) && (e.issued <==> HasStarted(s.post))
  {
    FortuneIsFree(m, db, ok, o);
    SampleCid();
    StrictReplyIsStrict(SAMPLE_CID);
    hide Fortune, Free, StrictReply, StrictOk, CidGrammar, CallsOk, Faithful, Blocked, Settled, Progressed, CidRule;
    hide LockPrefix, DpkgSuffix, HasStarted, Honest;
  }

  lemma OneTarget(target: Str)
    requires TargetName(target)
    ensures Request.TargetList([target])
    ensures AllSubjects(Cache(HostWith(target)), [target]) && Toggles(Cache(HostWith(target)), true, target)
    ensures HoldRecords(Changing(Cache(HostWith(target)), [target], true)) != []
  {
    hide TargetName, NamePart, ChangeOf;
    var c := Cache(HostWith(target));
    assert c.SelectionOf(target) == Some(SelInstall);
    assert [target][..0] == [] && Changing(c, [], true) == [];
    assert Changing(c, [target], true) == [ChangeOf(true, target)];
  }

  lemma HoldIsUnsettled(target: Str, sha: Encoder.Hash)
    requires TargetName(target) && !RaptGrammar(target) && forall x :: sha(x).Some?
    ensures Settled(HoldPlan(Some("apt.hold"), HoldRecords(Changing(Cache(HostWith(target)), [target], true))),
                    Targets(Pointers([target])), sha).None?
  {
    var c := Cache(HostWith(target));
    OneTarget(target);
    HoldPolicyIsTextual("apt.hold", c, [target], true);
    HoldPlanEncodable("apt.hold", c, [target], true);
    Request.TargetListHasResource([target]);
    hide Encodable, Canonical, Changing, HoldRecords, AnyOwned, RaptGrammar, Encoder.ResourceOk, TargetName, HostWith;
    hide Request.TargetList;
  }

  lemma HoldPlansAreUnsettled(target: Str, sha: Encoder.Hash)
    requires TargetName(target) && !RaptGrammar(target) && forall x :: sha(x).Some?
    ensures !Blocked(HoldMech("apt.hold", [target]), HostWith(target))
    ensures forall plan, subject, work ::
              Faithful(HoldMech("apt.hold", [target]), HostWith(target), plan, subject, work, sha) ==>
                Settled(plan, subject, sha).None?
  {
    OneTarget(target);
    HoldIsUnsettled(target, sha);
    hide Settled, TargetName, RaptGrammar, AllSubjects, Changing, HoldRecords, Lines, HostWith, Toggles;
  }

  /** One whole run of the hold effector, with the spawn of dpkg succeeding or failing. When
      it fails, the run has been authorised, reports a failed operation, and dpkg never ran. */
  method HoldRun(target: Str, spawnOk: bool)
    returns (e: Effect, ghost s: Story, ghost sha: Encoder.Hash, ghost w: Intent)
    requires TargetName(target) && !RaptGrammar(target)
    ensures Told(HoldMech("apt.hold", [target]), s, sha, w) && Authorised(s.plan, s.subject, sha, w, s.call)
    ensures s.reached && s.db == HostWith(target)
    ensures (e.issued <==> spawnOk) && (e.issued <==> HasStarted(s.post))
    ensures !spawnOk ==> e.status == Status.CommitFailed
  {
    hide Runs, Told, Fortune, HostWith, TargetName, RaptGrammar, Authorised, HoldDone, HasStarted, Blocked;
    ghost var m := HoldMech("apt.hold", [target]);
    var hash := (x: Str) => Some(x);
    var intent := Intent("r", 0, 1, SAMPLE_CID);
    sha, w := hash, intent;
    var fates := Fortune(HostWith(target), 11, spawnOk);
    var h := new Machine(fates, Nobody, HostWith(target), [], (n: nat) => 0);
    NoInterruptions(HostWith(target), 11, spawnOk);
    ghost var o := h.Now();
    e, s := HoldEffect(h, "apt.hold", [target], intent, hash);
    HoldPlansAreUnsettled(target, sha);
    ContractOfRun(m, HostWith(target), spawnOk, o, h.failed == o.failed, e, s, sha, w);
    HoldIsNeverBroken(target, fates, o, h.failed == o.failed, e, s, sha, w);
  }

  lemma HoldIsNeverBroken(target: Str, fates: nat -> Fate, o: Origin, quiet: bool, e: Effect, s: Story,
                          sha: Encoder.Hash, w: Intent)
    requires Runs(HoldMech("apt.hold", [target]), fates, o, quiet, e, s, sha, w)
    ensures !FailureMeansRan(e) ==> e.status == Status.CommitFailed
  {
    hide Told, Outcome, Reaches, ChildFate, Progressed;
  }

  /** A rapt-owned package can be put on hold: by naming it with its architecture. */
  method OwnedPackageIsHeld() returns (e: Effect, ghost s: Story)
    ensures e.issued && ChangesOwned(s.db, [QUALIFIED], true)
  {
    hide RaptGrammar, TargetName;
    QualifiedIsTarget();
    ghost var sha, w;
    e, s, sha, w := HoldRun(QUALIFIED, true);
    OneTarget(QUALIFIED);
    assert s.db.pkgs[0].name == NamePart(QUALIFIED);
  }

  // ---- runs of the configure effector ----------------------------------------------------------

  const PENDING_HOST: Db := Db([PENDING], (n: Str) => None, false, (p: Pkg) => true)

  lemma ConfigurePlansAreUnsettled(sha: Encoder.Hash)
    requires forall x :: sha(x).Some?
    ensures !Blocked(CfgMech, PENDING_HOST)
    ensures forall plan, subject, work :: Faithful(CfgMech, PENDING_HOST, plan, subject, work, sha) ==>
              Settled(plan, subject, sha).None?
  {
    hide Settled, Ready, CfgRecords, CfgRecordOf, Faithful;
    PendingIsListed();
    PlanIsReady(sha);
    ReadyIsUnsettled(CfgPlan([CfgRecordOf(PENDING)]), Token("pending"), sha);
    forall plan, subject, work | Faithful(CfgMech, PENDING_HOST, plan, subject, work, sha)
      ensures Settled(plan, subject, sha).None?
    {
      ConfigurePlan(PENDING_HOST, plan, subject, work, sha);
    }
  }

  lemma ConfigurePlan(db: Db, plan: Plan, subject: Subject, work: Work, sha: Encoder.Hash)
    requires Faithful(CfgMech, db, plan, subject, work, sha)
    ensures plan == CfgPlan(CfgRecords(db.pkgs)) && subject == Token("pending")
  {
    hide CfgRecords;
  }

  lemma ReadyIsUnsettled(p: Plan, s: Subject, sha: Encoder.Hash)
    requires Ready(p, s, sha)
    ensures Settled(p, s, sha).None?
  {
    hide Digestible, PolicyOf, SubjectOk;
  }

  /** One whole run of the configure effector: when dpkg cannot be spawned, a redeemed run
      reports a failed operation or a broken database, and dpkg never ran. */
  method ConfigureRun(spawnOk: bool) returns (e: Effect, ghost s: Story, ghost sha: Encoder.Hash, ghost w: Intent)
    ensures Told(CfgMech, s, sha, w) && Authorised(s.plan, s.subject, sha, w, s.call)
    ensures (e.issued <==> spawnOk) && (e.issued <==> HasStarted(s.post))
    ensures !spawnOk ==> e.status in {Status.CommitFailed, Status.Broken}
  {
    hide Runs, Told, Fortune, Authorised, HasStarted, Blocked;
    var hash := (x: Str) => Some(x);
    var intent := Intent("r", 0, 1, SAMPLE_CID);
    sha, w := hash, intent;
    var fates := Fortune(PENDING_HOST, 9, spawnOk);
    var h := new Machine(fates, Nobody, PENDING_HOST, [], (n: nat) => 0);
    NoInterruptions(PENDING_HOST, 9, spawnOk);
    ghost var o := h.Now();
    e, s := ConfigureEffect(h, intent, hash);
    ConfigurePlansAreUnsettled(sha);
    ContractOfRun(CfgMech, PENDING_HOST, spawnOk, o, h.failed == o.failed, e, s, sha, w);
  }

  const HALF: Pkg := Pkg("bash", "amd64", None, SelInstall, HalfInstalled, false, false)
  const HALF_HOST: Db := Db([HALF], (n: Str) => None, false, (p: Pkg) => true)

  lemma HalfIsRefused(o: Origin, quiet: bool, e: Effect, s: Story, sha: Encoder.Hash, w: Intent)
    requires o.step == 0 && o.outer == Nobody && o.db == HALF_HOST
    requires Runs(CfgMech, Fortune(HALF_HOST, 9, true), o, quiet, e, s, sha, w)
    ensures e.status == Status.Broken && !e.issued && !s.reached
  {
    FortuneIsFree(CfgMech, HALF_HOST, true, o);
    HalfIsBlocked();
    hide Told, Outcome, Honest, Progressed, ChildFate, Free, Undisturbed, CallsOk, Blocked, StrictReply;
    NotIssuedEarly(CfgMech, e, s, sha, w);
  }

  lemma HalfIsBlocked()
    ensures Blocked(CfgMech, HALF_HOST)
  {
    assert HALF_HOST.pkgs[0].state == HalfInstalled;
  }

  /** One whole run of the configure effector on a half-installed package: it reports a broken
      database without having spent the receipt or started dpkg. */
  method HalfInstalledRun() returns (e: Effect, ghost s: Story)
    ensures e.status == Status.Broken && !e.issued && !s.reached && !FailureMeansRan(e)
  {
    hide Runs, Fortune;
    var hash := (x: Str) => Some(x);
    var intent := Intent("r", 0, 1, SAMPLE_CID);
    var h := new Machine(Fortune(HALF_HOST, 9, true), Nobody, HALF_HOST, [], (n: nat) => 0);
    NoInterruptions(HALF_HOST, 9, true);
    ghost var o := h.Now();
    e, s := ConfigureEffect(h, intent, hash);
    HalfIsRefused(o, h.failed == o.failed, e, s, hash, intent);
  }
}

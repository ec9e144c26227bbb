/** A whole run of one helper binary, from its trusted uid to its exit code. */
module Entrypoint {
  import opened Bytes
  import opened Names
  import opened Host
  import opened Redeem
  import opened PlanStep
  import opened Status
  import opened Story
  import opened Telling
  import opened Effectors
  import Selections
  import Builders
  import Canon
  import Encoder
  import Request

  /** The verb a binary is built for. */
  datatype Build = TxnBuild(verb: Str) | UpdateBuild | HoldBuild(verb: Str) | ConfigureBuild
  {
    function Verb(): Str {
      match this
      case TxnBuild(v) => v
      case UpdateBuild => Canon.UPD_VERB
      case HoldBuild(v) => v
      case ConfigureBuild => Canon.CFG_VERB
    }

    /** The nine builds there are. */
    predicate Exists() {
      && (TxnBuild? ==> verb in {"apt.install", "apt.remove", "apt.purge", "apt.upgrade", "apt.dist_upgrade"})
      && (HoldBuild? ==> verb in {"apt.hold", "apt.unhold"})
    }
  }

  /** The one record a run emits. */
  datatype Record = Record(status: AptStatus, issued: bool, cid: Str)

  function MechanismOf(b: Build, targets: seq<Str>): Mechanism {
    match b
    case TxnBuild(v) => TxnMech(v, targets)
    case UpdateBuild => UpdMech
    case HoldBuild(v) => HoldMech(v, targets)
    case ConfigureBuild => CfgMech
  }

  function IntentOf(req: Request.Request, uid: nat): Intent {
    Intent(req.receipt, uid, req.planSchema, req.cid)
  }

  method Drive(h: Machine, b: Build, req: Request.Request, uid: nat, sha: Encoder.Hash)
    returns (e: Effect, ghost s: Story)
    requires h.outer != Us && h.Patient()
    modifies h
    ensures h.trace == old(h.trace) + s.Events() && h.failed >= old(h.failed)
    ensures Runs(MechanismOf(b, req.packages), h.fates, old(h.Now()), h.failed == old(h.failed), e, s, sha,
                 IntentOf(req, uid))
    ensures Truth(MechanismOf(b, req.packages), h, e, s)
    ensures MechanismOf(b, req.packages).Locks() && s.reached ==> h.outer == Us
    ensures b.TxnBuild? && s.reached ==> AskedFor(b.verb, req.packages, s.db, h.asked)
  {
    hide Runs, Told, Outcome, UpdHonest, TxnTruth, HoldTruth, CfgTruth, UpdTruth, AskedFor;
    var w := IntentOf(req, uid);
    match b {
      case TxnBuild(v) => e, s := TxnEffect(h, v, req.packages, w, sha);
      case UpdateBuild => e, s := UpdateEffect(h, Some([]), w, sha);
      case HoldBuild(v) => e, s := HoldEffect(h, v, req.packages, w, sha);
      case ConfigureBuild => e, s := ConfigureEffect(h, w, sha);
    }
  }

  /** What one run may do to the host: nothing without hygiene and one strict redemption for
      this request, no second call, no second change; and what it commits under the frontend
      lock is what was digested and redeemed. */
  ghost predicate SoundTrace(m: Mechanism, w: Intent, sha: Encoder.Hash, t: seq<Event>) {
    && Safe(t, w.cid)
    && (m.Locks() ==> forall k :: 0 <= k < |t| && t[k].Started? ==> CommitsWhatWasRedeemed(m, t, k, sha, w))
  }

  // ---- a binary keeps to its own verb --------------------------------------------------------

  /** The one redemption build `b` asks for: its own operation on the request's packages, with
      the request's receipt, on behalf of its caller. */
  ghost predicate OwnCall(b: Build, q: Request.Request, uid: nat, r: RedeemReq) {
    && r.receipt == q.receipt && r.uid == uid && r.planSchema == 1
    && match b
       case TxnBuild(v) => r.operation == v && r.resource == Canon.CommaList(q.packages)
       case HoldBuild(v) => r.operation == v && r.resource == Canon.CommaList(q.packages)
       case UpdateBuild => r.operation == "apt.update" && r.resource == ""
       case ConfigureBuild => r.operation == "apt.configure" && r.resource == "pending"
  }

  /** The one kind of work build `b` starts. */
  ghost predicate OwnWork(b: Build, q: Request.Request, work: Work) {
    match b
    case TxnBuild(_) => work.Install?
    case HoldBuild(v) =>
      work.SetSelections? && forall a :: a in Selections.ParsePayload(work.payload) ==>
        a.package in q.packages && a.word == if v == "apt.hold" then "hold" else "install"
    case UpdateBuild => work.Refresh?
    case ConfigureBuild => work.ConfigurePending?
  }

  ghost predicate OwnEvent(b: Build, q: Request.Request, uid: nat, e: Event) {
    && (e.Called? ==> OwnCall(b, q, uid, e.req))
    && (e.Started? ==> OwnWork(b, q, e.work) && (!b.UpdateBuild? ==> e.outerHeld && !e.innerHeld))
    && (b.UpdateBuild? ==> !e.OuterTaken? && !e.Opened? && !e.InnerReleased? && !e.InnerTaken?)
  }

  ghost predicate OwnTrace(b: Build, q: Request.Request, uid: nat, t: seq<Event>) {
    forall k :: 0 <= k < |t| ==> OwnEvent(b, q, uid, t[k])
  }

  /** A transaction's call comes right after the state was opened on which its targets were
      marked as its verb says. */
  ghost predicate OwnMarks(b: Build, q: Request.Request, t: seq<Event>, asked: seq<Ask>) {
    b.TxnBuild? ==> forall k :: 0 <= k < |t| && t[k].Called? ==>
      && k > 0 && t[k - 1].Opened? && MarkedFor(b.verb, q.packages, t[k - 1].db, asked)
  }

  ghost predicate MarkedFor(verb: Str, targets: seq<Str>, db: Db, asked: seq<Ask>) {
    && (verb == "apt.upgrade" ==> asked == [UpgradeAll(false)])
    && (verb == "apt.dist_upgrade" ==> asked == [UpgradeAll(true)])
    && (verb in {"apt.install", "apt.remove", "apt.purge"} ==>
          && |asked| == |targets|
          && forall i :: 0 <= i < |targets| ==>
               var at := db.find(targets[i]);
               at.Some? && asked[i] == if verb == "apt.install" then MarkInstall(at.value)
                                       else MarkDelete(at.value, verb == "apt.purge"))
  }

  lemma AskedIsMarked(verb: Str, targets: seq<Str>, db: Db, asked: seq<Ask>)
    requires AskedFor(verb, targets, db, asked)
    ensures MarkedFor(verb, targets, db, asked)
  {
    assert |"apt.upgrade"| == |"apt.install"| == 11 && |"apt.dist_upgrade"| == 16;
    assert "apt.upgrade"[4] == 'u' && "apt.install"[4] == 'i';
    assert |"apt.remove"| == 10 && |"apt.purge"| == 9;
  }

  lemma CallIsOwn(b: Build, q: Request.Request, uid: nat, s: Story, sha: Encoder.Hash)
    requires Told(MechanismOf(b, q.packages), s, sha, IntentOf(q, uid)) && s.call != [] && q.planSchema == 1
    ensures s.call[0].Called? && OwnCall(b, q, uid, s.call[0].req)
  {
    TellsPlan(b, q, uid, s, sha);
    hide Told, Faithful, Settled, Digestible, Canon.CommaList;
  }

  /** The verb and the resource of a told plan are those of the build. */
  lemma TellsPlan(b: Build, q: Request.Request, uid: nat, s: Story, sha: Encoder.Hash)
    requires Told(MechanismOf(b, q.packages), s, sha, IntentOf(q, uid)) && s.call != []
    ensures Asks(s.plan, s.subject, sha, IntentOf(q, uid), s.call)
    ensures match b
            case TxnBuild(v) => s.plan.Verb() == v && ResourceOf(s.subject) == Canon.CommaList(q.packages)
            case HoldBuild(v) => s.plan.Verb() == v && ResourceOf(s.subject) == Canon.CommaList(q.packages)
            case UpdateBuild => s.plan.Verb() == "apt.update" && ResourceOf(s.subject) == ""
            case ConfigureBuild => s.plan.Verb() == "apt.configure" && ResourceOf(s.subject) == "pending"
  {
    hide Asks, Authorised, LockPrefix, DpkgSuffix, RefreshSuffix, Canon.CommaList, TargetsFit, Selections.AllSubjects;
    hide Builders.NoneHalfInstalled, Builders.Describes, Builders.TxnRecords, Builders.CfgRecords, Selections.Changing;
  }

  /** The work of a told commit is the build's. */
  lemma WorkIsOwn(b: Build, q: Request.Request, uid: nat, s: Story, sha: Encoder.Hash)
    requires Told(MechanismOf(b, q.packages), s, sha, IntentOf(q, uid)) && s.post != []
    requires Request.TargetList(q.packages)
    ensures OwnWork(b, q, s.work)
  {
    hide Asks, Authorised, LockPrefix, DpkgSuffix, RefreshSuffix, Selections.Changing, Selections.Lines;
    hide Request.TargetList, Selections.ParsePayload, Builders.NoneHalfInstalled, Builders.Describes;
    hide Builders.TxnRecords, Builders.CfgRecords;
    if b.HoldBuild? {
      Selections.PayloadWords(Cache(s.db), q.packages, b.verb == "apt.hold");
    }
  }

  /** Every event of a told commit is one of the build's own. */
  lemma PostIsOwn(b: Build, q: Request.Request, uid: nat, s: Story, sha: Encoder.Hash, i: nat)
    requires Told(MechanismOf(b, q.packages), s, sha, IntentOf(q, uid)) && i < |s.post|
    requires Request.TargetList(q.packages)
    ensures OwnEvent(b, q, uid, s.post[i])
  {
    WorkIsOwn(b, q, uid, s, sha);
    PostEvents(MechanismOf(b, q.packages), s, sha, IntentOf(q, uid), i);
    hide Told, OwnWork, OwnCall, Request.TargetList;
  }

  lemma PostEvents(m: Mechanism, s: Story, sha: Encoder.Hash, w: Intent, i: nat)
    requires Told(m, s, sha, w) && i < |s.post|
    ensures if m.Locks() then s.post[i] in {InnerReleased, Started(s.work, s.db, true, false), InnerTaken}
            else s.post[i].Started? && s.post[i].work == s.work
  {
    hide Asks, Authorised, Faithful, LockPrefix;
  }

  lemma PreIsOwn(b: Build, q: Request.Request, uid: nat, s: Story, sha: Encoder.Hash, i: nat)
    requires Told(MechanismOf(b, q.packages), s, sha, IntentOf(q, uid)) && i < |s.pre|
    ensures OwnEvent(b, q, uid, s.pre[i])
  {
    hide Asks, Authorised, Faithful, OwnWork, OwnCall;
  }

  lemma ToldTraceIsOwn(b: Build, q: Request.Request, uid: nat, s: Story, sha: Encoder.Hash)
    requires Told(MechanismOf(b, q.packages), s, sha, IntentOf(q, uid))
    requires Request.TargetList(q.packages) && q.planSchema == 1
    ensures OwnTrace(b, q, uid, TraceOf(s))
  {
    hide Told, OwnWork, OwnCall, TraceOf, Request.TargetList;
    ToldIsShaped(MechanismOf(b, q.packages), s, sha, IntentOf(q, uid));
    forall k: nat | k < |TraceOf(s)| ensures OwnEvent(b, q, uid, TraceOf(s)[k]) {
      StoryAt(s, k);
      if 1 <= k < 1 + |s.pre| {
        PreIsOwn(b, q, uid, s, sha, k - 1);
      } else if 1 + |s.pre| <= k < 1 + |s.pre| + |s.call| {
        CallIsOwn(b, q, uid, s, sha);
      } else if k > 0 {
        PostIsOwn(b, q, uid, s, sha, k - 1 - |s.pre| - |s.call|);
      }
    }
  }

  lemma MarksAreOwn(b: Build, q: Request.Request, uid: nat, s: Story, sha: Encoder.Hash, asked: seq<Ask>)
    requires Told(MechanismOf(b, q.packages), s, sha, IntentOf(q, uid))
    requires b.TxnBuild? && s.reached ==> AskedFor(b.verb, q.packages, s.db, asked)
    ensures OwnMarks(b, q, TraceOf(s), asked)
  {
    var m := MechanismOf(b, q.packages);
    ToldIsShaped(m, s, sha, IntentOf(q, uid));
    if b.TxnBuild? && s.call != [] { CalledOnOpened(m, s, sha, IntentOf(q, uid)); }
    if b.TxnBuild? && s.reached { AskedIsMarked(b.verb, q.packages, s.db, asked); }
    hide Told, TraceOf, AskedFor, MarkedFor, Shaped;
    forall k: nat | b.TxnBuild? && k < |TraceOf(s)| && TraceOf(s)[k].Called?
      ensures k > 0 && TraceOf(s)[k - 1].Opened? && MarkedFor(b.verb, q.packages, TraceOf(s)[k - 1].db, asked)
    {
      Placement(s, IntentOf(q, uid).cid, k);
      StoryAt(s, 2);
    }
  }

  lemma CalledOnOpened(m: Mechanism, s: Story, sha: Encoder.Hash, w: Intent)
    requires Told(m, s, sha, w) && m.Locks() && s.call != []
    ensures s.reached && s.pre == [OuterTaken, Opened(s.db)]
  {
    hide Faithful, Asks, Authorised, DpkgSuffix;
  }

  // ---- what the run may say ---------------------------------------------------------------------

  /** What the run may say about it. */
  ghost predicate SoundRecord(cid: Str, t: seq<Event>, r: Record) {
    // the record tells whether the host was touched, and success means it was
    && (r.issued <==> exists k :: 0 <= k < |t| && t[k].Started?)
    && (r.status == Ok ==> r.issued)
    // the cid is the request's, or none when the broker's answer is unknown or foreign
    && (r.cid == cid || r.cid == [])
    && (r.issued ==> r.cid == cid)
    && (r.cid == [] <==> r.status == NoIntent && !AnyRefusal(t))
    // the gate never refuses a redeemed plan
    && (AnyStrictOk(t, cid) ==> r.status in {Ok, NotApplied, CommitFailed, Broken})
  }

  ghost predicate AnyRefusal(t: seq<Event>) {
    exists k, c :: 0 <= k < |t| && t[k].Called? && Redeem.Refusal(t[k].reply, c)
  }

  ghost predicate AnyStrictOk(t: seq<Event>, cid: Str) {
    exists k :: 0 <= k < |t| && t[k].Called? && StrictOk(t[k].reply, cid)
  }

  lemma StartedInTrace(s: Story, cid: Str)
    requires Shaped(s, cid)
    ensures HasStarted(s.post) <==> exists k :: 0 <= k < |TraceOf(s)| && TraceOf(s)[k].Started?
  {
    if HasStarted(s.post) {
      var i :| 0 <= i < |s.post| && s.post[i].Started?;
      StoryAt(s, 1 + |s.pre| + |s.call| + i);
    }
    if k :| 0 <= k < |TraceOf(s)| && TraceOf(s)[k].Started? {
      Placement(s, cid, k);
      assert s.post[k - 2 - |s.pre|].Started?;
    }
  }

  /** A call in the trace is the story's call. */
  lemma CallInTrace(s: Story, cid: Str, k: nat)
    requires Shaped(s, cid) && k < |TraceOf(s)| && TraceOf(s)[k].Called?
    ensures |s.call| == 1 && TraceOf(s)[k] == s.call[0]
  {
    Placement(s, cid, k);
    StoryAt(s, k);
  }

  lemma CallIsInTrace(s: Story, cid: Str)
    requires Shaped(s, cid) && s.call != []
    ensures 1 + |s.pre| < |TraceOf(s)| && TraceOf(s)[1 + |s.pre|] == s.call[0]
  {
    StoryAt(s, 1 + |s.pre|);
  }

  /** The strict reply is the only thing between a call and a commit. */
  lemma StrictMeansAuthorised(m: Mechanism, s: Story, sha: Encoder.Hash, w: Intent, e: Effect)
    requires Told(m, s, sha, w) && Outcome(e, s, sha, w) && |s.call| == 1 && CidGrammar(w.cid)
    requires s.call[0].Called? && StrictOk(s.call[0].reply, w.cid)
    ensures e.status in {Ok, NotApplied, CommitFailed, Broken}
  {
    StrictIsNoRefusal(s.call, w.cid);
    hide StrictOk, Asks, Settled, Faithful, CidGrammar, DefinitelyRefused, LockPrefix, DpkgSuffix, RefreshSuffix;
  }

  lemma StrictIsNoRefusal(call: seq<Event>, cid: Str)
    requires |call| == 1 && call[0].Called? && StrictOk(call[0].reply, cid)
    ensures !DefinitelyRefused(call)
  {
    forall c ensures !Redeem.Refusal(call[0].reply, c) { RepliesAreExclusive(call[0].reply, cid, c); }
  }

  lemma ToldTraceIsSound(m: Mechanism, s: Story, sha: Encoder.Hash, w: Intent)
    requires Told(m, s, sha, w)
    ensures SoundTrace(m, w, sha, TraceOf(s))
  {
    ToldIsSafe(m, s, sha, w);
    hide Safe, Told, CommitsWhatWasRedeemed, TraceOf;
    var t := TraceOf(s);
    if m.Locks() {
      forall k | 0 <= k < |t| && t[k].Started? ensures CommitsWhatWasRedeemed(m, t, k, sha, w) {
        CommitIsWhatWasRedeemed(m, s, sha, w, k);
      }
    }
  }

  lemma ToldRecordIsSound(m: Mechanism, s: Story, sha: Encoder.Hash, w: Intent, e: Effect)
    requires Told(m, s, sha, w) && Outcome(e, s, sha, w) && CidGrammar(w.cid)
    requires e.status == Ok ==> e.issued
    ensures SoundRecord(w.cid, TraceOf(s), Record(e.status, e.issued, e.cid))
  {
    ToldIsShaped(m, s, sha, w);
    StartedInTrace(s, w.cid);
    IssuedCid(m, s, sha, w, e);
    var t := TraceOf(s);
    if AnyStrictOk(t, w.cid) {
      var k :| 0 <= k < |t| && t[k].Called? && StrictOk(t[k].reply, w.cid);
      CallInTrace(s, w.cid, k);
      StrictMeansAuthorised(m, s, sha, w, e);
    }
    hide Told, Outcome, StrictOk, CidGrammar, TraceOf;
    if DefinitelyRefused(s.call) {
      var c :| Redeem.Refusal(s.call[0].reply, c);
      CallIsInTrace(s, w.cid);
      assert AnyRefusal(t);
    }
    if AnyRefusal(t) {
      var k, c :| 0 <= k < |t| && t[k].Called? && Redeem.Refusal(t[k].reply, c);
      CallInTrace(s, w.cid, k);
      assert DefinitelyRefused(s.call);
    }
  }

  lemma OkIsIssued(m: Mechanism, e: Effect, s: Story)
    requires Honest(m, e, s)
    ensures e.status == Ok ==> e.issued
  {
  }

  lemma IssuedCid(m: Mechanism, s: Story, sha: Encoder.Hash, w: Intent, e: Effect)
    requires Told(m, s, sha, w) && Outcome(e, s, sha, w) && CidGrammar(w.cid)
    ensures e.issued <==> HasStarted(s.post)
    ensures e.cid == w.cid || e.cid == []
    ensures e.issued ==> e.cid == w.cid
    ensures e.cid == [] <==> e.status == NoIntent && !DefinitelyRefused(s.call)
  {
    hide Settled, Asks, StrictOk, Faithful, CidGrammar, DefinitelyRefused, PolicyOf;
    hide LockPrefix, DpkgSuffix, RefreshSuffix;
  }

  /** A run without an effector: hygiene failed. */
  lemma NoRunIsSound(m: Mechanism, w: Intent, sha: Encoder.Hash)
    requires w.cid != []
    ensures SoundTrace(m, w, sha, [Hygiene(false)])
    ensures SoundRecord(w.cid, [Hygiene(false)], Record(Internal, false, w.cid))
  {
    hide StrictOk, CommitsWhatWasRedeemed, Redeem.Refusal;
  }

  lemma NoRunIsOwn(b: Build, q: Request.Request, uid: nat, asked: seq<Ask>)
    ensures OwnTrace(b, q, uid, [Hygiene(false)]) && OwnMarks(b, q, [Hygiene(false)], asked)
  {
  }

  method FailResult(h: Machine, cid: Str) returns (exit: nat, r: Record)
    modifies h`step, h`failed, h`outer, h`db
    ensures h.Kept() && exit == 1 && r == Record(Internal, false, cid)
  {
    var emitted := h.Try();
    return 1, Record(Internal, false, cid);
  }

  /** The effector's story is the whole trace, its outcome is the record, and it kept its
      contract from the origin `o` on. */
  ghost predicate RunsTo(m: Mechanism, fates: nat -> Fate, o: Origin, quiet: bool, t: seq<Event>, r: Record, s: Story,
                         sha: Encoder.Hash, w: Intent)
  {
    t == TraceOf(s) && Runs(m, fates, o, quiet, Effect(r.status, r.issued, r.cid), s, sha, w)
  }

  /** A status that claims anything of the host comes from a run that reached the plan step. */
  lemma ClaimsAreReached(m: Mechanism, e: Effect, s: Story, sha: Encoder.Hash, w: Intent)
    requires Told(m, s, sha, w) && Outcome(e, s, sha, w)
    ensures e.issued || e.status in {Ok, CommitFailed} ==> s.reached
  {
    if !s.reached { NotIssuedEarly(m, e, s, sha, w); }
    hide Told, Authorised, Settled, CidRule, HasStarted;
  }

  /** Writing the record: whatever the status claims of the host stays true while it is
      written, the frontend lock still being held. */
  method Emit(h: Machine, ghost m: Mechanism, ghost e: Effect, ghost s: Story) returns (ok: bool)
    requires Truth(m, h, e, s) && (m.Locks() && s.reached ==> h.outer == Us)
    requires e.issued || e.status in {Ok, CommitFailed} ==> s.reached
    modifies h`step, h`failed, h`outer, h`db
    ensures Truth(m, h, e, s)
    ensures h.Kept() && h.failed == old(h.failed) + if ok then 0 else 1
  {
    ok := h.Try();
    if !e.issued && e.status !in {Ok, CommitFailed} { NothingClaimed(m, h, e, s); }
  }

  /** From the parsed request on: hygiene, effector, one record, exit code. */
  method RunParsed(h: Machine, b: Build, q: Request.Request, uid: nat, sha: Encoder.Hash)
    returns (exit: nat, r: Record, ghost s: Story, ghost o: Origin)
    requires h.outer != Us && h.trace == [] && h.Patient() && CidGrammar(q.cid)
    requires Request.TargetList(q.packages) && q.planSchema == 1
    modifies h
    ensures h.failed >= old(h.failed)
    ensures OwnTrace(b, q, uid, h.trace) && OwnMarks(b, q, h.trace, h.asked)
    ensures SoundTrace(MechanismOf(b, q.packages), IntentOf(q, uid), sha, h.trace)
    ensures SoundRecord(q.cid, h.trace, r)
    ensures if !h.fates(old(h.step)).ok then h.trace == [Hygiene(false)] && h.failed > old(h.failed)
            else o.step == old(h.step) + 1
                 && RunsTo(MechanismOf(b, q.packages), h.fates, o, h.failed == old(h.failed), h.trace, r, s, sha,
                           IntentOf(q, uid))
                 && Truth(MechanismOf(b, q.packages), h, Effect(r.status, r.issued, r.cid), s)
    ensures exit == 0 ==> r.status in {Ok, NoOp}
    ensures h.failed == old(h.failed) ==> (exit == 0 <==> r.status in {Ok, NoOp})
  {
    hide Told, Outcome, Honest, SoundTrace, SoundRecord, Runs, Truth, AskedFor, OwnTrace, OwnMarks, Request.TargetList;
    ghost var m, w := MechanismOf(b, q.packages), IntentOf(q, uid);
    s := Early([], h.db);
    assert q.cid != [];
    hide CidGrammar;
    var clean := h.Scrub();
    o := h.Now();
    if !clean {
      exit, r := FailResult(h, q.cid);
      NoRunIsSound(m, w, sha);
      NoRunIsOwn(b, q, uid, h.asked);
      assert h.trace == [Hygiene(false)];
      return;
    }
    var e;
    e, s := Drive(h, b, q, uid, sha);
    assert h.trace == TraceOf(s);
    RunsIsTold(m, h.fates, o, h.failed == o.failed, e, s, sha, w);
    ToldTraceIsSound(m, s, sha, w);
    ToldTraceIsOwn(b, q, uid, s, sha);
    MarksAreOwn(b, q, uid, s, sha, h.asked);
    OkIsIssued(m, e, s);
    ToldRecordIsSound(m, s, sha, w, e);
    r := Record(e.status, e.issued, e.cid);
    ghost var quiet := h.failed == o.failed;
    ClaimsAreReached(m, e, s, sha, w);
    var emitted := Emit(h, m, e, s);
    RunsQuieter(m, h.fates, o, quiet, h.failed == old(h.failed), e, s, sha, w);
    exit := if emitted && (e.status == Ok || e.status == NoOp) then 0 else 1;
  }

  /** The same, event by event and in so many words. */
  lemma OwnTraceMeans(b: Build, q: Request.Request, uid: nat, t: seq<Event>)
    requires OwnTrace(b, q, uid, t)
    ensures forall k :: 0 <= k < |t| && t[k].Called? ==>
              && t[k].req.receipt == q.receipt && t[k].req.uid == uid && t[k].req.planSchema == 1
              && t[k].req.operation == (match b
                                        case TxnBuild(v) => v
                                        case HoldBuild(v) => v
                                        case UpdateBuild => "apt.update"
                                        case ConfigureBuild => "apt.configure")
              && t[k].req.resource == (match b
                                       case TxnBuild(_) => Canon.CommaList(q.packages)
                                       case HoldBuild(_) => Canon.CommaList(q.packages)
                                       case UpdateBuild => ""
                                       case ConfigureBuild => "pending")
    ensures forall k :: 0 <= k < |t| && t[k].Started? ==>
              && (b.TxnBuild? ==> t[k].work.Install?)
              && (b.UpdateBuild? ==> t[k].work.Refresh?)
              && (b.HoldBuild? ==> t[k].work.SetSelections?)
              && (b.ConfigureBuild? ==> t[k].work.ConfigurePending?)
              && (!b.UpdateBuild? ==> t[k].outerHeld && !t[k].innerHeld)
    ensures b.UpdateBuild? ==> forall k :: 0 <= k < |t| ==> !t[k].OuterTaken? && !t[k].InnerReleased?
    ensures forall k :: 0 <= k < |t| && b.HoldBuild? && t[k].Started? && t[k].work.SetSelections? ==>
              forall a :: a in Selections.ParsePayload(t[k].work.payload) ==>
                a.package in q.packages && a.word == if b.verb == "apt.hold" then "hold" else "install"
  {
    hide Canon.CommaList, Selections.ParsePayload;
    forall k | 0 <= k < |t| ensures OwnEvent(b, q, uid, t[k]) { }
  }

  lemma OwnMarksMean(b: Build, q: Request.Request, t: seq<Event>, asked: seq<Ask>)
    requires OwnMarks(b, q, t, asked)
    ensures forall k :: 0 <= k < |t| && b.TxnBuild? && t[k].Called? ==>
              && k > 0 && t[k - 1].Opened?
              && (b.verb == "apt.upgrade" ==> asked == [UpgradeAll(false)])
              && (b.verb == "apt.dist_upgrade" ==> asked == [UpgradeAll(true)])
              && (b.verb in {"apt.install", "apt.remove", "apt.purge"} ==> |asked| == |q.packages|)
    ensures forall k, i ::
              0 <= k < |t| && b.TxnBuild? && t[k].Called? && b.verb in {"apt.install", "apt.remove", "apt.purge"}
              && 0 <= i < |q.packages| ==>
                var at := t[k - 1].db.find(q.packages[i]);
                at.Some? && asked[i] == if b.verb == "apt.install" then MarkInstall(at.value)
                                        else MarkDelete(at.value, b.verb == "apt.purge")
  {
    forall k | 0 <= k < |t| && b.TxnBuild? && t[k].Called?
      ensures k > 0 && t[k - 1].Opened? && MarkedFor(b.verb, q.packages, t[k - 1].db, asked)
      ensures b.verb == "apt.upgrade" ==> asked == [UpgradeAll(false)]
      ensures b.verb == "apt.dist_upgrade" ==> asked == [UpgradeAll(true)]
      ensures b.verb in {"apt.install", "apt.remove", "apt.purge"} ==> |asked| == |q.packages|
    {
      assert MarkedFor(b.verb, q.packages, t[k - 1].db, asked);
    }
  }

  /** main. */
  method Run(h: Machine, b: Build, pkexecUid: Option<nat>, stdin: Option<Option<Request.Json>>, sha: Encoder.Hash)
    returns (exit: nat, r: Option<Record>, ghost req: Option<Request.Request>, ghost s: Story, ghost o: Origin)
    requires h.outer != Us && h.trace == [] && h.Patient() && b.Exists()
    modifies h
    // the binary asks for nothing but its own verb, with the request's receipt and packages, on
    // behalf of the caller that pkexec vouches for
    ensures forall k :: 0 <= k < |h.trace| && h.trace[k].Called? ==>
              && req.Some? && pkexecUid.Some?
              && h.trace[k].req.receipt == req.value.receipt && h.trace[k].req.uid == pkexecUid.value
              && h.trace[k].req.planSchema == 1
              && h.trace[k].req.operation == (match b
                                              case TxnBuild(v) => v
                                              case HoldBuild(v) => v
                                              case UpdateBuild => "apt.update"
                                              case ConfigureBuild => "apt.configure")
              && h.trace[k].req.resource == (match b
                                             case TxnBuild(_) => Canon.CommaList(req.value.packages)
                                             case HoldBuild(_) => Canon.CommaList(req.value.packages)
                                             case UpdateBuild => ""
                                             case ConfigureBuild => "pending")
    // it starts nothing but its own kind of work, and an update takes no dpkg lock
    ensures forall k :: 0 <= k < |h.trace| && h.trace[k].Started? ==>
              && (b.TxnBuild? ==> h.trace[k].work.Install?)
              && (b.UpdateBuild? ==> h.trace[k].work.Refresh?)
              && (b.HoldBuild? ==> h.trace[k].work.SetSelections?)
              && (b.ConfigureBuild? ==> h.trace[k].work.ConfigurePending?)
              && (!b.UpdateBuild? ==> h.trace[k].outerHeld && !h.trace[k].innerHeld)
    ensures b.UpdateBuild? ==> forall k :: 0 <= k < |h.trace| ==> !h.trace[k].OuterTaken? && !h.trace[k].InnerReleased?
    // dpkg is told to hold, or to unhold, packages of the request and nothing else
    ensures forall k :: 0 <= k < |h.trace| && b.HoldBuild? && h.trace[k].Started? && h.trace[k].work.SetSelections? ==>
              req.Some? && forall a :: a in Selections.ParsePayload(h.trace[k].work.payload) ==>
                a.package in req.value.packages && a.word == if b.verb == "apt.hold" then "hold" else "install"
    // and the resolver was asked for what the verb says, on the state opened before the call
    ensures forall k :: 0 <= k < |h.trace| && b.TxnBuild? && h.trace[k].Called? ==>
              && req.Some? && k > 0 && h.trace[k - 1].Opened?
              && (b.verb == "apt.upgrade" ==> h.asked == [UpgradeAll(false)])
              && (b.verb == "apt.dist_upgrade" ==> h.asked == [UpgradeAll(true)])
              && (b.verb in {"apt.install", "apt.remove", "apt.purge"} ==> |h.asked| == |req.value.packages|)
    ensures forall k, i ::
              0 <= k < |h.trace| && b.TxnBuild? && h.trace[k].Called?
              && b.verb in {"apt.install", "apt.remove", "apt.purge"} && 0 <= i < |req.value.packages| ==>
                var at := h.trace[k - 1].db.find(req.value.packages[i]);
                at.Some? && h.asked[i] == if b.verb == "apt.install" then MarkInstall(at.value)
                                          else MarkDelete(at.value, b.verb == "apt.purge")
    // without a parsed request nothing at all happens, and no cid is made up
    ensures req.Some? ==> pkexecUid.Some? && stdin.Some? && stdin.value.Some? && r.Some?
                          && Request.Parses(b.Verb(), stdin.value.value, req.value)
    ensures req.None? ==> h.trace == [] && exit == 1 && (r.Some? ==> r.value == Record(Internal, false, []))
    // with one, the run is sound, and either hygiene failed or the effector kept its contract
    ensures req.Some? ==>
              && SoundTrace(MechanismOf(b, req.value.packages), IntentOf(req.value, pkexecUid.value), sha, h.trace)
              && SoundRecord(req.value.cid, h.trace, r.value)
              && (h.trace == [Hygiene(false)]
                  || (RunsTo(MechanismOf(b, req.value.packages), h.fates, o, h.failed == old(h.failed), h.trace,
                             r.value, s, sha, IntentOf(req.value, pkexecUid.value))
                      && Truth(MechanismOf(b, req.value.packages), h,
                               Effect(r.value.status, r.value.issued, r.value.cid), s)))
    ensures exit == 0 ==> r.Some? && r.value.status in {Ok, NoOp}
    // when no call fails: a request that parses is run, and the exit code tells
    ensures h.failed == old(h.failed) && pkexecUid.Some? && stdin.Some? && stdin.value.Some? ==>
              (req.Some? <==> exists q :: Request.Parses(b.Verb(), stdin.value.value, q))
    ensures h.failed == old(h.failed) && req.Some? ==>
              && RunsTo(MechanismOf(b, req.value.packages), h.fates, o, true, h.trace, r.value, s, sha,
                        IntentOf(req.value, pkexecUid.value))
              && (exit == 0 <==> r.value.status in {Ok, NoOp})
  {
    hide SoundTrace, SoundRecord, RunsTo, Truth, Request.Parses, CidGrammar, Request.TargetList, OwnTrace, OwnMarks;
    hide Canon.CommaList, Selections.ParsePayload, MechanismOf, IntentOf, Build.Exists, Build.Verb;
    hide Request.Envelope, Request.Packages;
    req, s, r, o := None, Early([], h.db), None, h.Now();
    exit := 1;
    var channel := h.Try();
    if !channel {
      return;
    }
    if pkexecUid.None? || stdin.None? {
      var rec;
      exit, rec := FailResult(h, []);
      r := Some(rec);
      return;
    }
    var parsed := Request.ParseRequest(b.Verb(), stdin.value);
    if parsed.Err? {
      var rec;
      exit, rec := FailResult(h, []);
      r := Some(rec);
      return;
    }
    req := Some(parsed.value);
    ParsedCid(b.Verb(), stdin.value.value, parsed.value);
    ghost var before := h.failed;
    var rec;
    exit, rec, s, o := RunParsed(h, b, parsed.value, pkexecUid.value, sha);
    r := Some(rec);
    OwnTraceMeans(b, parsed.value, pkexecUid.value, h.trace);
    OwnMarksMean(b, parsed.value, h.trace, h.asked);
    if h.trace != [Hygiene(false)] {
      RunsToQuieter(MechanismOf(b, parsed.value.packages), h.fates, o, h.failed == before, h.failed == old(h.failed),
                    h.trace, rec, s, sha, IntentOf(parsed.value, pkexecUid.value));
    }
  }

  lemma RunsToQuieter(m: Mechanism, fates: nat -> Fate, o: Origin, quiet: bool, q: bool, t: seq<Event>, r: Record,
                      s: Story, sha: Encoder.Hash, w: Intent)
    requires RunsTo(m, fates, o, quiet, t, r, s, sha, w) && (q ==> quiet)
    ensures RunsTo(m, fates, o, q, t, r, s, sha, w)
  {
    hide Runs;
    RunsQuieter(m, fates, o, quiet, q, Effect(r.status, r.issued, r.cid), s, sha, w);
  }

  /** A parsed cid always passes the gate's check. */
  lemma ParsedCid(verb: Str, root: Request.Json, q: Request.Request)
    requires Request.Parses(verb, root, q)
    ensures CidGrammar(q.cid) && q.planSchema == 1 && Request.TargetList(q.packages)
  {
    hide CidGrammar;
  }
}

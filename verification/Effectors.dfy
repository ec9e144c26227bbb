/** The four effectors: lock, read, plan and redeem, commit, look again, classify. */
module Effectors {
  import opened Bytes
  import opened Names
  import opened Canon
  import opened Builders
  import opened Selections
  import opened Host
  import opened Redeem
  import opened PlanStep
  import opened Status
  import opened Story
  import opened Telling
  import opened Commits
  import Encoder
  import Spawn

  // ---- what a status claims of the host ---------------------------------------------------

  /** What an issued transaction reports is what dpkg and the look back say. */
  ghost predicate TxnTruth(h: Machine, e: Effect, s: Story)
    reads h
  {
    e.issued ==>
      && (e.status == Broken <==> !Verified(h))
      && (e.status == Ok <==> Verified(h) && h.result && |s.post| == 3)
  }

  /** What success of a hold means: the child took the whole payload and exited with 0, the
      inner lock is back, and the state read back shows every changed target held, or for
      unhold not held. */
  ghost predicate HoldDone(h: Machine, verb: Str, targets: seq<Str>, s: Story)
    reads h
  {
    && |s.post| == 3 && s.work.SetSelections? && ChildDone(h, Some(s.work.payload))
    && h.readable && Matches(Cache(h.db), Changing(Cache(s.db), targets, verb == "apt.hold"))
  }

  /** An issued hold ran dpkg as it should and fed it nothing but the start of the payload;
      it reports success exactly when it was done. */
  ghost predicate HoldTruth(h: Machine, verb: Str, targets: seq<Str>, e: Effect, s: Story)
    reads h
  {
    && (e.issued ==> ToldLocked(h, ["dpkg", "--set-selections"]) && s.work.SetSelections? && h.fed <= s.work.payload)
    && (e.status == Ok <==> e.issued && HoldDone(h, verb, targets, s))
  }

  /** An issued configure ran dpkg as it should; what a configure that was entered reports is
      what the child and the look back say. */
  ghost predicate CfgTruth(h: Machine, e: Effect, s: Story)
    reads h
  {
    && (e.issued ==> ToldLocked(h, ["dpkg", "--configure", "--pending"]))
    && (e.status == Ok <==> e.issued && |s.post| == 3 && ChildDone(h, None) && Verified(h))
    && (e.issued ==> (e.status == Broken <==> !Verified(h)))
    && (e.status == CommitFailed ==> Verified(h))
  }

  /** An issued refresh succeeded exactly if every source did and the indexes read back. */
  ghost predicate UpdTruth(h: Machine, e: Effect)
    reads h
  {
    e.issued ==> (e.status == Ok <==> h.result && h.readable)
  }

  ghost predicate Truth(m: Mechanism, h: Machine, e: Effect, s: Story)
    reads h
  {
    match m
    case TxnMech(_, _) => TxnTruth(h, e, s)
    case HoldMech(verb, targets) => HoldTruth(h, verb, targets, e, s)
    case CfgMech => CfgTruth(h, e, s)
    case UpdMech => UpdTruth(h, e)
  }

  /** A status that claims nothing is true of any host. */
  lemma NothingClaimed(m: Mechanism, h: Machine, e: Effect, s: Story)
    requires !e.issued && e.status !in {Ok, CommitFailed}
    ensures Truth(m, h, e, s)
  {
    hide HoldDone, ToldLocked, ChildDone, Verified;
  }

  // ---- before the plan step ------------------------------------------------------------

  /** Init, frontend lock, cache: the state as read under the lock, or why not. */
  datatype Entry = Ready(db: Db) | Failed(status: AptStatus)

  /** How the lock, the cache and its parts decide an entry whose first call was number `from`. */
  ghost predicate EntryCause(fates: nat -> Fate, from: nat, r: Entry, pre: seq<Event>) {
    if r.Ready? then |pre| == 2 && fates(from + 2).ok
    else if r.status == Locked then pre == []
    else
      && r.status == Internal
      && ((pre == [OuterTaken] && !fates(from + 1).ok) || (|pre| == 2 && !fates(from + 2).ok))
  }

  method EnterLocked(h: Machine) returns (r: Entry, ghost pre: seq<Event>)
    requires h.outer != Us
    modifies h`step, h`failed, h`outer, h`db, h`inner, h`trace
    ensures h.trace == old(h.trace) + pre && LockPrefix(pre, h.db)
    ensures r.Ready? ==> h.outer == Us && r.db == h.db && pre == [OuterTaken, Opened(r.db)]
    ensures r.Failed? ==> r.status in {Internal, Locked} && h.failed > old(h.failed)
    ensures h.failed >= old(h.failed)
    ensures r.Ready? ==> h.step == old(h.step) + 3
    ensures EntryCause(h.fates, old(h.step), r, pre)
    ensures old(h.outer) == Nobody && Undisturbed(h.fates, old(h.step), 3) ==> r.Ready? && r.db == old(h.db)
  {
    pre := [];
    var locked := h.LockOuter();
    if !locked {
      return Failed(Locked), pre;
    }
    pre := [OuterTaken];
    var cache := h.OpenCache();
    if cache.None? {
      return Failed(Internal), pre;
    }
    pre := pre + [Opened(h.db)];
    var usable := h.Try();
    if !usable {
      return Failed(Internal), pre;
    }
    r := Ready(cache.value);
  }

  /** Where a run stands that is about to build its redeem request. */
  ghost predicate AtRequest(m: Mechanism, h: Machine, o: Origin)
    reads h
  {
    && h.step == o.step + CallsToRequest(m) - 1 && h.failed >= o.failed
    && (m.Locks() ==> h.outer == Us && (Free(m, h.fates, o) ==> h.db == o.db))
  }

  /** Init, then the same, for the mechanisms that do nothing in between. */
  method Enter(h: Machine, ghost m: Mechanism) returns (r: Entry, ghost pre: seq<Event>)
    requires h.outer != Us && (m.HoldMech? || m.CfgMech?)
    modifies h`step, h`failed, h`outer, h`db, h`inner, h`trace
    ensures h.trace == old(h.trace) + pre && LockPrefix(pre, h.db)
    ensures r.Ready? ==> h.outer == Us && r.db == h.db && pre == [OuterTaken, Opened(r.db)]
    ensures r.Ready? ==> h.failed >= old(h.failed) && AtRequest(m, h, old(h.Now()))
    ensures r.Failed? ==> r.status in {Internal, Locked} && h.failed > old(h.failed)
    ensures r.Failed? ==> !Free(m, h.fates, old(h.Now()))
    ensures r.Ready? ==> h.fates(old(h.step)).ok && h.fates(old(h.step) + 3).ok
    ensures r.Failed? ==> EarlyCause(m, h.fates, old(h.Now()), r.status, pre, h.db)
  {
    hide Free, Undisturbed, LockPrefix;
    EmptyPrefix();
    if Free(m, h.fates, h.Now()) { FreeStart(m, h.fates, h.Now()); }
    var init := h.Try();
    if !init {
      return Failed(Internal), [];
    }
    r, pre := EnterLocked(h);
  }

  /** Looking every target up and marking it, for deletion or installation. */
  method MarkTargets(h: Machine, verb: Str, over: Db, targets: seq<Str>) returns (ok: bool)
    requires !Upgrades(verb) && h.asked == []
    modifies h`asked
    ensures ok <==> forall i :: 0 <= i < |targets| ==> over.find(targets[i]).Some?
    ensures ok ==> AskedFor(verb, targets, over, h.asked)
  {
    var purge := verb == "apt.purge";
    var removal := verb == "apt.remove" || purge;
    for i := 0 to |targets|
      invariant AskedFor(verb, targets[..i], over, h.asked)
    {
      var p := over.find(targets[i]);
      if p.None? {
        return false;
      }
      if removal {
        h.Request(MarkDelete(p.value, purge));
      } else {
        h.Request(MarkInstall(p.value));
      }
    }
    assert targets[..|targets|] == targets;
    ok := true;
  }

  // ---- A: package transactions ----------------------------------------------------------

  /** The resolve step: whole-system for the upgrades, target by target otherwise. */
  method TxnResolve(h: Machine, verb: Str, over: Db, targets: seq<Str>) returns (dc: Option<seq<Planned>>)
    requires Upgrades(verb) ==> targets == []
    modifies h`step, h`failed, h`outer, h`db, h`asked
    ensures h.Kept()
    ensures dc.Some? ==> PlansOver(dc.value, over) && AskedFor(verb, targets, over, h.asked)
    ensures dc.Some? ==> TargetsFit(verb, targets, over)
    ensures dc.None? ==> !TargetsFit(verb, targets, over) || h.failed > old(h.failed)
    ensures dc.Some? ==> h.step == old(h.step) + 1
    ensures dc.None? ==> !TargetsFit(verb, targets, over) || !h.fates(old(h.step)).ok
  {
    h.NewResolver();
    var dist := verb == "apt.dist_upgrade";
    if verb == "apt.upgrade" || dist {
      h.Request(UpgradeAll(dist));
    } else {
      var known := MarkTargets(h, verb, over, targets);
      if !known {
        return None;
      }
    }
    dc := h.Resolve(over);
  }

  /** pkgx_apt_txn_effect. */
  method TxnEffect(h: Machine, verb: Str, targets: seq<Str>, w: Intent, sha: Encoder.Hash)
    returns (e: Effect, ghost s: Story)
    requires h.outer != Us
    modifies h
    ensures h.trace == old(h.trace) + s.Events() && h.failed >= old(h.failed)
    ensures Runs(TxnMech(verb, targets), h.fates, old(h.Now()), h.failed == old(h.failed), e, s, sha, w)
    ensures TxnTruth(h, e, s) && (s.reached ==> h.outer == Us && AskedFor(verb, targets, s.db, h.asked))
    ensures (verb == "apt.upgrade" || verb == "apt.dist_upgrade") && targets != [] ==>
              s.Events() == [] && e.status in {Internal, ResolveFailed}
  {
    hide Runs, LockPrefix, Free, Undisturbed, TargetsFit, EarlyCause, TxnTruth, AskedFor;
    ghost var m, o := TxnMech(verb, targets), h.Now();
    var cid := CidEcho(Some(w.cid));
    var entry, pre := EnterTxn(h, verb, targets);
    if entry.Failed? {
      if Upgrades(verb) && targets != [] { UpgradesFitNothing(verb, targets); }
      EarlyRuns(m, h.fates, o, h.failed == o.failed, pre, h.db, entry.status, sha, w);
      e, s := Effect(entry.status, false, cid), Early(pre, h.db);
      NothingClaimed(m, h, e, s);
      return;
    }
    if Free(m, h.fates, o) { FreeStart(m, h.fates, o); }
    var dc := TxnResolve(h, verb, entry.db, targets);
    if dc.None? {
      StateDecides(m, h.fates, o, entry.db);
      EarlyRuns(m, h.fates, o, h.failed == o.failed, pre, entry.db, ResolveFailed, sha, w);
      e, s := Effect(ResolveFailed, false, cid), Early(pre, entry.db);
      NothingClaimed(m, h, e, s);
      return;
    }
    e, s := TxnRedeemAndCommit(h, verb, targets, dc.value, w, sha, o);
  }

  /** Init, the refusal of targeted upgrades, then the lock and the cache. */
  method EnterTxn(h: Machine, verb: Str, targets: seq<Str>) returns (r: Entry, ghost pre: seq<Event>)
    requires h.outer != Us
    modifies h`step, h`failed, h`outer, h`db, h`inner, h`trace
    ensures h.trace == old(h.trace) + pre && LockPrefix(pre, h.db) && h.failed >= old(h.failed)
    ensures r.Ready? ==> h.outer == Us && r.db == h.db && pre == [OuterTaken, Opened(r.db)]
    ensures r.Ready? ==> h.step == old(h.step) + 4 && (Upgrades(verb) ==> targets == [])
    ensures r.Ready? && Free(TxnMech(verb, targets), h.fates, old(h.Now())) ==> h.db == old(h.db)
    ensures r.Failed? ==> r.status in {Internal, Locked, ResolveFailed}
    ensures r.Failed? && (h.failed == old(h.failed) || Free(TxnMech(verb, targets), h.fates, old(h.Now()))) ==>
              Upgrades(verb) && targets != []
    ensures Upgrades(verb) && targets != [] ==> r.Failed? && pre == [] && r.status in {Internal, ResolveFailed}
    ensures r.Ready? ==> h.fates(old(h.step)).ok && h.fates(old(h.step) + 3).ok
    ensures r.Failed? ==> EarlyCause(TxnMech(verb, targets), h.fates, old(h.Now()), r.status, pre, h.db)
  {
    hide Free, Undisturbed, LockPrefix;
    EmptyPrefix();
    ghost var m, o := TxnMech(verb, targets), h.Now();
    if Free(m, h.fates, o) { FreeStart(m, h.fates, o); }
    var init := h.Try();
    if !init {
      return Failed(Internal), [];
    }
    if Upgrades(verb) && |targets| != 0 {
      return Failed(ResolveFailed), [];
    }
    r, pre := EnterLocked(h);
  }

  lemma UpgradesFitNothing(verb: Str, targets: seq<Str>)
    requires Upgrades(verb) && targets != []
    ensures forall db :: !TargetsFit(verb, targets, db)
  {
  }

  /** Where a run stands whose redemption succeeded. */
  ghost predicate Redeemed(m: Mechanism, h: Machine, o: Origin, s: Story, sha: Encoder.Hash, w: Intent, detail: CStr,
                           cid: Str)
    reads h
  {
    && OnCourse(m, h.fates, o, s, sha) && Faithful(m, s.db, s.plan, s.subject, s.work, sha)
    && Step(s.plan, s.subject, sha, w, s.call, PlanOk, detail, CidEcho(Some(w.cid)), cid)
    && cid == w.cid && s.post == []
    && h.step == o.step + CallsToRequest(m) + 1 && h.failed >= o.failed
    && (if m.Locks() then s.pre == [OuterTaken, Opened(s.db)] && h.outer == Us && h.db == s.db else s.pre == [])
  }

  /** From the resolved dep cache to the outcome, all under the frontend lock. */
  method TxnRedeemAndCommit(h: Machine, verb: Str, targets: seq<Str>, dc: seq<Planned>, w: Intent, sha: Encoder.Hash,
                            ghost o: Origin)
    returns (e: Effect, ghost s: Story)
    requires AtRequest(TxnMech(verb, targets), h, o)
    requires PlansOver(dc, h.db) && TargetsFit(verb, targets, h.db)
    modifies h`step, h`failed, h`outer, h`db, h`inner, h`trace, h`result, h`readable
    ensures s.pre == [OuterTaken, Opened(old(h.db))] && h.trace == old(h.trace) + s.call + s.post
    ensures h.failed >= old(h.failed)
    ensures Runs(TxnMech(verb, targets), h.fates, o, h.failed == o.failed, e, s, sha, w)
    ensures TxnTruth(h, e, s) && s.reached && h.outer == Us && s.db == old(h.db)
  {
    hide Runs, Step, DpkgSuffix, HasStarted, Settled, StrictOk, CidGrammar, Free, TargetsFit, Blocked, ListsChanges;
    ghost var m := TxnMech(verb, targets);
    var recs := MapTxn(dc);
    var pr, detail, cid, call :=
      PlanAndRedeemTxn(h, verb, recs, Pointers(targets), w, sha, CidEcho(Some(w.cid)));
    s := Story([OuterTaken, Opened(h.db)], call, [], true, h.db,
               TxnPlan(Some(verb), recs), Targets(Pointers(targets)), Install(dc));
    assert OnCourse(m, h.fates, o, s, sha);
    if pr != PlanOk {
      RefusedRuns(m, h.fates, o, h.failed == o.failed, s, sha, w, pr, detail, cid);
      return Effect(Status.RefusalStatus(pr), false, cid), s;
    }
    OkWasCalled(s.plan, s.subject, sha, w, call, detail, CidEcho(Some(w.cid)), cid);
    var _, c, broken, post := TxnThroughGate(h, pr, cid, dc);
    s := s.(post := post);
    var st := TxnClassify(c.entered, c.began, c.committedOk, broken);
    CommittedRuns(m, h.fates, o, h.failed == o.failed, s, sha, w, detail, cid, st);
    e := Effect(st, c.began, cid);
  }

  // ---- C: hold and unhold -----------------------------------------------------------------

  /** pkgx_apt_hold_effect. */
  method HoldEffect(h: Machine, verb: Str, targets: seq<Str>, w: Intent, sha: Encoder.Hash)
    returns (e: Effect, ghost s: Story)
    requires h.outer != Us && h.Patient()
    modifies h
    ensures h.trace == old(h.trace) + s.Events() && h.failed >= old(h.failed)
    ensures Runs(HoldMech(verb, targets), h.fates, old(h.Now()), h.failed == old(h.failed), e, s, sha, w)
    ensures HoldTruth(h, verb, targets, e, s) && (s.reached ==> h.outer == Us)
  {
    hide Runs, LockPrefix, Free, Undisturbed, EarlyCause, HoldTruth, ListsToggles;
    ghost var m, o := HoldMech(verb, targets), h.Now();
    var cid := CidEcho(Some(w.cid));
    var entry, pre := Enter(h, m);
    if entry.Failed? {
      EarlyRuns(m, h.fates, o, false, pre, h.db, entry.status, sha, w);
      e, s := Effect(entry.status, false, cid), Early(pre, h.db);
      NothingClaimed(m, h, e, s);
      return;
    }
    var mapped := MapHold(Cache(entry.db), targets, verb == "apt.hold");
    if !mapped.MapOk? {
      StateDecides(m, h.fates, o, entry.db);
      EarlyRuns(m, h.fates, o, h.failed == o.failed, pre, entry.db, ResolveFailed, sha, w);
      e, s := Effect(ResolveFailed, false, cid), Early(pre, entry.db);
      NothingClaimed(m, h, e, s);
      return;
    }
    e, s := HoldRedeemAndCommit(h, verb, targets, mapped.changes, mapped.recs, w, sha, o);
  }

  method HoldRedeemAndCommit(h: Machine, verb: Str, targets: seq<Str>, changes: seq<Change>, recs: seq<HoldRecord>,
                             w: Intent, sha: Encoder.Hash, ghost o: Origin)
    returns (e: Effect, ghost s: Story)
    requires AtRequest(HoldMech(verb, targets), h, o) && h.Patient()
    requires AllSubjects(Cache(h.db), targets)
    requires changes == Changing(Cache(h.db), targets, verb == "apt.hold") && recs == HoldRecords(changes)
    modifies h
    ensures s.pre == [OuterTaken, Opened(old(h.db))] && h.trace == old(h.trace) + s.call + s.post
    ensures h.failed >= old(h.failed)
    ensures Runs(HoldMech(verb, targets), h.fates, o, h.failed == o.failed, e, s, sha, w)
    ensures HoldTruth(h, verb, targets, e, s) && s.reached && h.outer == Us
  {
    hide Runs, HoldTruth, Step, DpkgSuffix, HasStarted, Settled, StrictOk, CidGrammar, Free, Blocked, CallsOk;
    hide Changing, AllSubjects, HoldRecords, Matches, Lines, Spawn.Lookup;
    ghost var m := HoldMech(verb, targets);
    var payload := BuildPayload(changes);
    var pr, detail, cid, call :=
      PlanAndRedeemHold(h, verb, recs, Pointers(targets), w, sha, CidEcho(Some(w.cid)));
    s := Story([OuterTaken, Opened(h.db)], call, [], true, h.db,
               HoldPlan(Some(verb), recs), Targets(Pointers(targets)), SetSelections(payload));
    assert OnCourse(m, h.fates, o, s, sha) && Faithful(m, s.db, s.plan, s.subject, s.work, sha);
    hide OnCourse, Faithful;
    if pr != PlanOk {
      RefusedRuns(m, h.fates, o, h.failed == o.failed, s, sha, w, pr, detail, cid);
      e := Effect(Status.RefusalStatus(pr), false, cid);
      NothingClaimed(m, h, e, s);
      return;
    }
    OkWasCalled(s.plan, s.subject, sha, w, call, detail, CidEcho(Some(w.cid)), cid);
    e, s := HoldCommitAndCheck(h, verb, targets, changes, payload, w, sha, o, s, detail, cid);
  }

  method HoldCommitAndCheck(h: Machine, verb: Str, targets: seq<Str>, changes: seq<Change>, payload: Str, w: Intent,
                            sha: Encoder.Hash, ghost o: Origin, ghost s0: Story, ghost detail: CStr, cid: Str)
    returns (e: Effect, ghost s: Story)
    requires Redeemed(HoldMech(verb, targets), h, o, s0, sha, w, detail, cid) && h.Patient()
    requires s0.work == SetSelections(payload) && changes == Changing(Cache(s0.db), targets, verb == "apt.hold")
    modifies h
    ensures s.pre == s0.pre && s.call == s0.call && h.trace == old(h.trace) + s.post
    ensures h.failed >= old(h.failed)
    ensures Runs(HoldMech(verb, targets), h.fates, o, h.failed == o.failed, e, s, sha, w)
    ensures HoldTruth(h, verb, targets, e, s) && s.reached && h.outer == Us
  {
    hide Runs, Step, DpkgSuffix, HasStarted, CidGrammar, CallsOk, OnCourse, Faithful, Changing, Matches, Spawn.Lookup;
    hide Reaches;
    CourseReaches(HoldMech(verb, targets), h.fates, o, s0, sha);
    var _, c, matched, post := HoldThroughGate(h, PlanOk, cid, changes, payload);
    s := s0.(post := post);
    SameCourse(HoldMech(verb, targets), h.fates, o, s0, post, sha);
    var st := HoldClassify(c.entered, c.ranOk, matched);
    CommittedRuns(HoldMech(verb, targets), h.fates, o, h.failed == o.failed, s, sha, w, detail, cid, st);
    e := Effect(st, c.issued, cid);
  }

  // ---- D: configure --------------------------------------------------------------------------

  /** pkgx_apt_configure_effect. */
  method ConfigureEffect(h: Machine, w: Intent, sha: Encoder.Hash) returns (e: Effect, ghost s: Story)
    requires h.outer != Us && h.Patient()
    modifies h
    ensures h.trace == old(h.trace) + s.Events() && h.failed >= old(h.failed)
    ensures Runs(CfgMech, h.fates, old(h.Now()), h.failed == old(h.failed), e, s, sha, w)
    ensures CfgTruth(h, e, s) && (s.reached ==> h.outer == Us)
  {
    hide Runs, LockPrefix, Free, Undisturbed, EarlyCause, CfgTruth, NoneHalfInstalled, ListsPending;
    ghost var o := h.Now();
    var cid := CidEcho(Some(w.cid));
    var entry, pre := Enter(h, CfgMech);
    if entry.Failed? {
      EarlyRuns(CfgMech, h.fates, o, false, pre, h.db, entry.status, sha, w);
      e, s := Effect(entry.status, false, cid), Early(pre, h.db);
      NothingClaimed(CfgMech, h, e, s);
      return;
    }
    var recs, half := MapConfigure(entry.db.pkgs);
    if half.Some? {
      StateDecides(CfgMech, h.fates, o, entry.db);
      EarlyRuns(CfgMech, h.fates, o, h.failed == o.failed, pre, entry.db, Broken, sha, w);
      e, s := Effect(Broken, false, cid), Early(pre, entry.db);
      NothingClaimed(CfgMech, h, e, s);
      return;
    }
    e, s := ConfigureRedeemAndCommit(h, recs, w, sha, o);
  }

  method ConfigureRedeemAndCommit(h: Machine, recs: seq<CfgRecord>, w: Intent, sha: Encoder.Hash, ghost o: Origin)
    returns (e: Effect, ghost s: Story)
    requires AtRequest(CfgMech, h, o) && h.Patient()
    requires NoneHalfInstalled(h.db.pkgs) && recs == CfgRecords(h.db.pkgs)
    modifies h
    ensures s.pre == [OuterTaken, Opened(old(h.db))] && h.trace == old(h.trace) + s.call + s.post
    ensures h.failed >= old(h.failed)
    ensures Runs(CfgMech, h.fates, o, h.failed == o.failed, e, s, sha, w)
    ensures CfgTruth(h, e, s) && s.reached && h.outer == Us
  {
    hide Runs, CfgTruth, Step, DpkgSuffix, HasStarted, Settled, StrictOk, CidGrammar, Free, Blocked, CallsOk;
    hide CfgRecords, Spawn.Lookup;
    var pr, detail, cid, call := PlanAndRedeemConfigure(h, recs, w, sha, CidEcho(Some(w.cid)));
    s := Story([OuterTaken, Opened(h.db)], call, [], true, h.db, CfgPlan(recs), Token("pending"), ConfigurePending);
    assert OnCourse(CfgMech, h.fates, o, s, sha) && Faithful(CfgMech, s.db, s.plan, s.subject, s.work, sha);
    hide OnCourse, Faithful, NoneHalfInstalled;
    if pr != PlanOk {
      RefusedRuns(CfgMech, h.fates, o, h.failed == o.failed, s, sha, w, pr, detail, cid);
      e := Effect(Status.RefusalStatus(pr), false, cid);
      NothingClaimed(CfgMech, h, e, s);
      return;
    }
    OkWasCalled(s.plan, s.subject, sha, w, call, detail, CidEcho(Some(w.cid)), cid);
    e, s := ConfigureCommitAndCheck(h, w, sha, o, s, detail, cid);
  }

  method ConfigureCommitAndCheck(h: Machine, w: Intent, sha: Encoder.Hash, ghost o: Origin, ghost s0: Story,
                                 ghost detail: CStr, cid: Str)
    returns (e: Effect, ghost s: Story)
    requires Redeemed(CfgMech, h, o, s0, sha, w, detail, cid) && h.Patient() && s0.work == ConfigurePending
    modifies h
    ensures s.pre == s0.pre && s.call == s0.call && h.trace == old(h.trace) + s.post
    ensures h.failed >= old(h.failed)
    ensures Runs(CfgMech, h.fates, o, h.failed == o.failed, e, s, sha, w)
    ensures CfgTruth(h, e, s) && s.reached && h.outer == Us
  {
    hide Runs, Step, DpkgSuffix, HasStarted, CidGrammar, CallsOk, OnCourse, Faithful, Spawn.Lookup, Complete, Reaches;
    CourseReaches(CfgMech, h.fates, o, s0, sha);
    var _, c, broken, post := ConfigureThroughGate(h, PlanOk, cid);
    s := s0.(post := post);
    SameCourse(CfgMech, h.fates, o, s0, post, sha);
    var st := TxnClassify(c.entered, c.entered, c.ranOk, broken);
    CommittedRuns(CfgMech, h.fates, o, h.failed == o.failed, s, sha, w, detail, cid, st);
    e := Effect(st, c.issued, cid);
  }

  // ---- B: update --------------------------------------------------------------------------------

  /** pkgx_apt_update_effect. */
  method UpdateEffect(h: Machine, resourceToken: CStr, w: Intent, sha: Encoder.Hash)
    returns (e: Effect, ghost s: Story)
    requires h.outer != Us
    modifies h
    ensures h.trace == old(h.trace) + s.Events() && h.failed >= old(h.failed)
    ensures Told(UpdMech, s, sha, w) && Outcome(e, s, sha, w) && UpdHonest(e, s)
    ensures Nz(resourceToken) == [] ==>
              Runs(UpdMech, h.fates, old(h.Now()), h.failed == old(h.failed), e, s, sha, w)
    ensures UpdTruth(h, e)
    ensures Nz(resourceToken) != [] ==>
              s.Events() == [] && e.status == if h.fates(old(h.step)).ok then ResolveFailed else Internal
  {
    hide Told, Outcome, Runs, Free, Undisturbed;
    ghost var o := h.Now();
    var cid := CidEcho(Some(w.cid));
    var entry := EnterUpdate(h, resourceToken);
    if entry.NoList? {
      s := Early([], h.db);
      EarlyIsTold(UpdMech, [], h.db, entry.status, sha, w);
      if Nz(resourceToken) == [] { EarlyRuns(UpdMech, h.fates, o, false, [], h.db, entry.status, sha, w); }
      return Effect(entry.status, false, cid), s;
    }
    e, s := UpdateRedeemAndCommit(h, resourceToken, entry.list, w, sha, o);
    RunsIsTold(UpdMech, h.fates, o, h.failed == o.failed, e, s, sha, w);
  }

  datatype UpdateEntry = List(list: seq<Option<Source>>) | NoList(status: AptStatus)

  /** Init, the refusal of subsets, the probe of the lists lock, the source list. */
  method EnterUpdate(h: Machine, resourceToken: CStr) returns (r: UpdateEntry)
    requires h.outer != Us
    modifies h`step, h`failed, h`outer, h`db
    ensures h.Kept()
    ensures r.List? ==> Nz(resourceToken) == [] && h.step == old(h.step) + 3
    ensures r.NoList? ==> r.status in {Internal, Locked, ResolveFailed}
    ensures r.NoList? && Nz(resourceToken) == [] ==>
              EarlyCause(UpdMech, h.fates, old(h.Now()), r.status, [], h.db)
    ensures r.NoList? && Nz(resourceToken) == [] ==>
              h.failed > old(h.failed) && !Free(UpdMech, h.fates, old(h.Now()))
    ensures Nz(resourceToken) != [] ==>
              r.NoList? && r.status == if h.fates(old(h.step)).ok then ResolveFailed else Internal
  {
    var init := h.Try();
    if !init {
      return NoList(Internal);
    }
    if resourceToken.Some? && resourceToken.value != [] {
      return NoList(ResolveFailed);
    }
    var probed := h.Try();       // the lists lock, taken and let go
    if !probed {
      return NoList(Locked);
    }
    var list := h.ReadMainList();
    if list.None? {
      return NoList(Internal);
    }
    r := List(list.value);
  }

  method UpdateRedeemAndCommit(h: Machine, resourceToken: CStr, list: seq<Option<Source>>, w: Intent,
                               sha: Encoder.Hash, ghost o: Origin)
    returns (e: Effect, ghost s: Story)
    requires AtRequest(UpdMech, h, o) && Nz(resourceToken) == []
    modifies h
    ensures s.pre == [] && h.trace == old(h.trace) + s.call + s.post
    ensures h.failed >= old(h.failed)
    ensures Runs(UpdMech, h.fates, o, h.failed == o.failed, e, s, sha, w)
    ensures UpdTruth(h, e)
  {
    hide Runs, Step, RefreshSuffix, HasStarted, Settled, StrictOk, CidGrammar, Free, Blocked, Describes, ListsSources;
    var recs := MapSources(list, sha);
    var pr, detail, cid, call := PlanAndRedeemUpdate(h, recs, resourceToken, w, sha, CidEcho(Some(w.cid)));
    s := Story([], call, [], true, h.db, UpdPlan(recs), Token([]), Refresh(list));
    assert OnCourse(UpdMech, h.fates, o, s, sha) && Faithful(UpdMech, s.db, s.plan, s.subject, s.work, sha);
    hide OnCourse, Faithful;
    if pr != PlanOk {
      RefusedRuns(UpdMech, h.fates, o, h.failed == o.failed, s, sha, w, pr, detail, cid);
      return Effect(Status.RefusalStatus(pr), false, cid), s;
    }
    OkWasCalled(s.plan, s.subject, sha, w, call, detail, CidEcho(Some(w.cid)), cid);
    var _, entered, refreshOk, readable, post := UpdateThroughGate(h, pr, cid, list);
    s := s.(post := post);
    var st := UpdateClassify(entered, refreshOk, readable);
    CommittedRuns(UpdMech, h.fates, o, h.failed == o.failed, s, sha, w, detail, cid, st);
    e := Effect(st, entered, cid);
  }
}

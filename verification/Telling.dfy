/** How runs end: each way out of an effector is a told story with an honest outcome. */
module Telling {
  import opened Bytes
  import opened Names
  import opened Canon
  import opened Builders
  import opened Host
  import opened Redeem
  import opened PlanStep
  import opened Status
  import opened Story
  import Encoder

  /** A story that ended before the plan step. */
  ghost function Early(pre: seq<Event>, db: Db): Story {
    Story(pre, [], [], false, db, UpdPlan([]), Token([]), ConfigurePending)
  }

  ghost predicate EarlyStatus(st: AptStatus) {
    st in {Internal, Locked, ResolveFailed, Broken}
  }

  /** Ending early is a told story with an honest outcome and the request's cid. */
  lemma EarlyIsTold(m: Mechanism, pre: seq<Event>, db: Db, st: AptStatus, sha: Encoder.Hash, w: Intent)
    requires EarlyStatus(st) && if m.Locks() then LockPrefix(pre, db) else pre == []
    ensures Told(m, Early(pre, db), sha, w)
    ensures Outcome(Effect(st, false, CidEcho(Some(w.cid))), Early(pre, db), sha, w)
  {
    hide Settled, Authorised, Faithful;
    assert !HasStarted([]);
  }

  lemma BlockedIsProgress(m: Mechanism, pre: seq<Event>, db: Db, sha: Encoder.Hash, w: Intent)
    requires Blocked(m, db)
    ensures Progressed(m, Early(pre, db), sha, w)
  {
    hide Authorised, Blocked, CidGrammar;
  }

  /** A run that the plan step ended. */
  lemma RefusedIsTold(m: Mechanism, s: Story, sha: Encoder.Hash, w: Intent, pr: PlanResult, detail: CStr, cid: Str)
    requires s.reached && s.post == [] && pr != PlanOk
    requires if m.Locks() then s.pre == [OuterTaken, Opened(s.db)] else s.pre == []
    requires Faithful(m, s.db, s.plan, s.subject, s.work, sha)
    requires Step(s.plan, s.subject, sha, w, s.call, pr, detail, CidEcho(Some(w.cid)), cid)
    ensures Told(m, s, sha, w) && !Authorised(s.plan, s.subject, sha, w, s.call)
    ensures Outcome(Effect(Status.RefusalStatus(pr), false, cid), s, sha, w)
  {
    OkMeansRedeemed(s.plan, s.subject, sha, w, s.call, pr, detail, CidEcho(Some(w.cid)), cid);
    SettledMakesNoCall(s.plan, s.subject, sha, w, s.call, pr, detail, CidEcho(Some(w.cid)), cid);
    RefusedCid(s, sha, w, pr, detail, cid);
    WhatSettles(s.plan, s.subject, sha);
    hide Step, Faithful, Asks, Authorised, CidRule, Settled, PolicyOf, Told, Outcome, Status.RefusalStatus;
    RefusedTold(m, s, sha, w);
    RefusedOutcome(s, sha, w, pr, cid);
  }

  lemma RefusedTold(m: Mechanism, s: Story, sha: Encoder.Hash, w: Intent)
    requires s.reached && s.post == []
    requires if m.Locks() then s.pre == [OuterTaken, Opened(s.db)] else s.pre == []
    requires Faithful(m, s.db, s.plan, s.subject, s.work, sha)
    requires s.call != [] ==> Asks(s.plan, s.subject, sha, w, s.call)
    ensures Told(m, s, sha, w)
  {
    hide Faithful, Settled, Asks, Authorised;
  }

  lemma RefusedOutcome(s: Story, sha: Encoder.Hash, w: Intent, pr: PlanResult, cid: Str)
    requires s.reached && s.post == [] && pr != PlanOk && !Authorised(s.plan, s.subject, sha, w, s.call)
    requires CidRule(Effect(Status.RefusalStatus(pr), false, cid), s, w)
    requires Settled(s.plan, s.subject, sha).Some? <==> pr != PlanNoIntent
    requires Settled(s.plan, s.subject, sha).Some? ==> pr == Settled(s.plan, s.subject, sha).value
    requires s.call != [] ==> Asks(s.plan, s.subject, sha, w, s.call)
    requires pr == PlanNoOp ==> s.plan.Records() == []
    requires pr in {PlanNotOwned, PlanHeld, PlanProtected} ==> PolicyOf(s.plan) == pr
    ensures Outcome(Effect(Status.RefusalStatus(pr), false, cid), s, sha, w)
  {
    hide Authorised, CidRule, Settled, PolicyOf;
    assert !HasStarted([]);
  }

  lemma WhatSettles(p: Plan, s: Subject, sha: Encoder.Hash)
    ensures Settled(p, s, sha) == Some(PlanNoOp) ==> p.Records() == []
    ensures Settled(p, s, sha).Some? && Settled(p, s, sha).value in {PlanNotOwned, PlanHeld, PlanProtected} ==>
            PolicyOf(p) == Settled(p, s, sha).value
  {
    hide Digestible, AnyOwned;
  }

  /** A run that was authorised, with what its commit left in the trace. */
  lemma CommittedIsTold(m: Mechanism, s: Story, sha: Encoder.Hash, w: Intent, detail: CStr, cid: Str, st: AptStatus)
    requires s.reached
    requires if m.Locks() then s.pre == [OuterTaken, Opened(s.db)] && DpkgSuffix(s.post, s.work, s.db)
             else s.pre == [] && RefreshSuffix(s.post, s.work)
    requires Faithful(m, s.db, s.plan, s.subject, s.work, sha)
    requires Step(s.plan, s.subject, sha, w, s.call, PlanOk, detail, CidEcho(Some(w.cid)), cid)
    requires st in {Ok, NotApplied, CommitFailed, Broken, Internal} && (st == Internal ==> !CidGrammar(w.cid))
    ensures Told(m, s, sha, w) && cid == w.cid
    ensures Outcome(Effect(st, HasStarted(s.post), cid), s, sha, w)
  {
    OkMeansRedeemed(s.plan, s.subject, sha, w, s.call, PlanOk, detail, CidEcho(Some(w.cid)), cid);
    hide Step, DpkgSuffix, RefreshSuffix, Faithful, CidGrammar;
    AuthorisedIsTold(m, s, sha, w);
    AuthorisedOutcome(s, sha, w, st);
  }

  lemma AuthorisedIsTold(m: Mechanism, s: Story, sha: Encoder.Hash, w: Intent)
    requires s.reached && Authorised(s.plan, s.subject, sha, w, s.call)
    requires if m.Locks() then s.pre == [OuterTaken, Opened(s.db)] && DpkgSuffix(s.post, s.work, s.db)
             else s.pre == [] && RefreshSuffix(s.post, s.work)
    requires Faithful(m, s.db, s.plan, s.subject, s.work, sha)
    ensures Told(m, s, sha, w)
  {
    hide Faithful, Settled, DpkgSuffix, RefreshSuffix, Asks, StrictOk;
  }

  lemma AuthorisedIsUnsettled(p: Plan, s: Subject, sha: Encoder.Hash, w: Intent, call: seq<Event>)
    requires Authorised(p, s, sha, w, call)
    ensures Settled(p, s, sha).None?
  {
    hide Settled, Binding, StrictOk;
  }

  lemma AuthorisedOutcome(s: Story, sha: Encoder.Hash, w: Intent, st: AptStatus)
    requires s.reached && Authorised(s.plan, s.subject, sha, w, s.call) && |w.cid| == CID_LEN
    requires st in {Ok, NotApplied, CommitFailed, Broken, Internal} && (st == Internal ==> !CidGrammar(w.cid))
    ensures Outcome(Effect(st, HasStarted(s.post), w.cid), s, sha, w)
  {
    AuthorisedIsUnsettled(s.plan, s.subject, sha, w, s.call);
    hide Authorised, CidGrammar, DefinitelyRefused, HasStarted, PolicyOf, Settled;
  }

  lemma RefusedCid(s: Story, sha: Encoder.Hash, w: Intent, pr: PlanResult, detail: CStr, cid: Str)
    requires pr != PlanOk
    requires Step(s.plan, s.subject, sha, w, s.call, pr, detail, CidEcho(Some(w.cid)), cid)
    ensures CidRule(Effect(Status.RefusalStatus(pr), false, cid), s, w)
  {
    hide CidGrammar, Step, Settled, Asks, Redeem.Refusal;
    if CidGrammar(w.cid) {
      CidIsWhole(w.cid);
      CidDiscipline(s.plan, s.subject, sha, w, s.call, pr, detail, cid);
      SettledMakesNoCall(s.plan, s.subject, sha, w, s.call, pr, detail, w.cid, cid);
    }
  }

  lemma CidIsWhole(cid: Str)
    requires CidGrammar(cid)
    ensures |cid| == CID_LEN
  {
  }

  lemma EmptyPrefix()
    ensures forall db: Db :: LockPrefix([], db)
  {
  }

  // ---- the whole contract ------------------------------------------------------------------

  /** What freedom gives, call by call. */
  lemma FreeStart(m: Mechanism, fates: nat -> Fate, o: Origin)
    requires Free(m, fates, o)
    ensures m.Locks() ==> o.outer == Nobody
    ensures fates(o.step).ok && fates(o.step).others == []
    ensures Undisturbed(fates, o.step + 1, 3)
    ensures fates(o.step + CallsToRequest(m) - 2).ok && fates(o.step + CallsToRequest(m) - 1).ok
  {
  }

  /** A run that ends before the plan step, for a failed call or a state that rules it out. */
  lemma EarlyRuns(m: Mechanism, fates: nat -> Fate, o: Origin, quiet: bool,
                  pre: seq<Event>, db: Db, st: AptStatus, sha: Encoder.Hash, w: Intent)
    requires EarlyCause(m, fates, o, st, pre, db) && if m.Locks() then LockPrefix(pre, db) else pre == []
    requires quiet ==> Blocked(m, db)
    requires Free(m, fates, o) ==> Blocked(m, o.db) && ReadAll(m, o, pre, db)
    ensures Runs(m, fates, o, quiet, Effect(st, false, CidEcho(Some(w.cid))), Early(pre, db), sha, w)
  {
    hide Told, Outcome, Progressed, Authorised, Settled, Blocked, LockPrefix, Undisturbed, CallsOk, EarlyCause;
    hide HasStarted, Free;
    EarlyStatuses(m, fates, o, st, pre, db);
    EarlyIsTold(m, pre, db, st, sha, w);
    if Blocked(m, db) { BlockedIsProgress(m, pre, db, sha, w); }
  }

  /** Where the state itself, or the resolver, ends the run. */
  lemma StateDecides(m: Mechanism, fates: nat -> Fate, o: Origin, db: Db)
    requires m.Locks() && fates(o.step).ok && fates(o.step + 3).ok
    requires m.TxnMech? && Upgrades(m.verb) ==> m.targets == []
    requires Blocked(m, db) || (m.TxnMech? && !fates(o.step + 4).ok)
    ensures EarlyCause(m, fates, o, if m.CfgMech? then Broken else ResolveFailed, [OuterTaken, Opened(db)], db)
    ensures LockPrefix([OuterTaken, Opened(db)], db)
  {
    hide Blocked;
  }

  lemma EarlyStatuses(m: Mechanism, fates: nat -> Fate, o: Origin, st: AptStatus, pre: seq<Event>, db: Db)
    requires EarlyCause(m, fates, o, st, pre, db)
    ensures st in {Internal, Locked, ResolveFailed} || (st == Broken && m.CfgMech?)
  {
    hide Blocked;
  }

  /** The plan step was reached on the state a free start shows, and the broker's reply is
      the oracle's. */
  ghost predicate OnCourse(m: Mechanism, fates: nat -> Fate, o: Origin, s: Story,
                           sha: Encoder.Hash)
  {
    && s.reached
    && (Free(m, fates, o) && m.Locks() ==> s.db == o.db)
    && (Settled(s.plan, s.subject, sha).None? && fates(o.step + CallsToRequest(m) - 1).ok ==>
          Replied(s.call, fates(o.step + CallsToRequest(m)).reply))
  }

  lemma SameCourse(m: Mechanism, fates: nat -> Fate, o: Origin, s: Story, post: seq<Event>, sha: Encoder.Hash)
    requires OnCourse(m, fates, o, s, sha)
    ensures OnCourse(m, fates, o, s.(post := post), sha)
  {
    hide Settled, Free, Replied;
  }

  /** A state from which a plan was computed did not rule the request out. */
  lemma PlannedIsUnblocked(m: Mechanism, db: Db, plan: Plan, subject: Subject, work: Work, sha: Encoder.Hash)
    requires Faithful(m, db, plan, subject, work, sha)
    ensures !Blocked(m, db)
  {
  }

  lemma CourseReaches(m: Mechanism, fates: nat -> Fate, o: Origin, s: Story,
                      sha: Encoder.Hash)
    requires OnCourse(m, fates, o, s, sha) && Faithful(m, s.db, s.plan, s.subject, s.work, sha)
    ensures s.reached && Reaches(m, fates, o, s, sha)
  {
    hide Settled, Blocked, Replied, Faithful, Free, ReadAll;
    if Free(m, fates, o) {
      FreeStart(m, fates, o);
      CourseIsUnblocked(m, o.db, s.db, s.plan, s.subject, s.work, sha);
    }
  }

  lemma CourseIsUnblocked(m: Mechanism, at: Db, db: Db, plan: Plan, subject: Subject, work: Work, sha: Encoder.Hash)
    requires Faithful(m, db, plan, subject, work, sha) && (m.Locks() ==> db == at)
    ensures !Blocked(m, at)
  {
    PlannedIsUnblocked(m, db, plan, subject, work, sha);
    hide Faithful;
  }

  /** A run that the plan step ended. */
  lemma RefusedRuns(m: Mechanism, fates: nat -> Fate, o: Origin, quiet: bool, s: Story,
                    sha: Encoder.Hash, w: Intent, pr: PlanResult, detail: CStr, cid: Str)
    requires OnCourse(m, fates, o, s, sha) && s.post == [] && pr != PlanOk
    requires if m.Locks() then s.pre == [OuterTaken, Opened(s.db)] else s.pre == []
    requires Faithful(m, s.db, s.plan, s.subject, s.work, sha)
    requires Step(s.plan, s.subject, sha, w, s.call, pr, detail, CidEcho(Some(w.cid)), cid)
    ensures Runs(m, fates, o, quiet, Effect(Status.RefusalStatus(pr), false, cid), s, sha, w)
  {
    RefusedIsTold(m, s, sha, w, pr, detail, cid);
    RefusalIsHonest(m, s, sha, w, pr, detail, cid);
    CourseReaches(m, fates, o, s, sha);
    hide Told, Outcome, Honest, Step, Authorised, Faithful, Settled, Blocked, Reaches, CidGrammar, CallsOk;
  }

  /** The refusals of a mechanism are those its policy knows. */
  lemma RefusalIsHonest(m: Mechanism, s: Story, sha: Encoder.Hash, w: Intent, pr: PlanResult, detail: CStr, cid: Str)
    requires s.reached && s.post == [] && pr != PlanOk
    requires Faithful(m, s.db, s.plan, s.subject, s.work, sha)
    requires Step(s.plan, s.subject, sha, w, s.call, pr, detail, CidEcho(Some(w.cid)), cid)
    ensures Honest(m, Effect(Status.RefusalStatus(pr), false, cid), s)
  {
    hide Step, Settled, Faithful, PolicyOf, Asks;
    SettledMakesNoCall(s.plan, s.subject, sha, w, s.call, pr, detail, CidEcho(Some(w.cid)), cid);
    WhatSettles(s.plan, s.subject, sha);
    KindOfPlan(m, s.db, s.plan, s.subject, s.work, sha);
    PolicyByKind(s.plan);
  }

  lemma PolicyByKind(p: Plan)
    ensures !p.TxnPlan? ==> PolicyOf(p) !in {PlanHeld, PlanProtected}
    ensures p.UpdPlan? ==> PolicyOf(p) == PlanOk
  {
    hide AnyOwned;
  }

  lemma KindOfPlan(m: Mechanism, db: Db, plan: Plan, subject: Subject, work: Work, sha: Encoder.Hash)
    requires Faithful(m, db, plan, subject, work, sha)
    ensures m.HoldMech? ==> plan.HoldPlan?
    ensures m.CfgMech? ==> plan.CfgPlan?
    ensures m.UpdMech? ==> plan.UpdPlan?
  {
  }

  /** What a commit has to show for its run to keep the contract. */
  ghost predicate WentThrough(m: Mechanism, fates: nat -> Fate, o: Origin, quiet: bool, s: Story, st: AptStatus,
                              w: Intent)
  {
    CidGrammar(w.cid) ==>
      && (quiet ==> HasStarted(s.post) && |s.post| == if m.Locks() then 3 else 1)
      && (HasStarted(s.post) <==> CallsOk(fates, o.step + CallsToRequest(m) + 1, CallsToStart(m)))
      && (m.HoldMech? || m.CfgMech? ==>
            (FailureMeansRan(Effect(st, HasStarted(s.post), w.cid)) <==> HasStarted(s.post)))
  }

  /** A run that was authorised. */
  lemma CommittedRuns(m: Mechanism, fates: nat -> Fate, o: Origin, quiet: bool, s: Story,
                      sha: Encoder.Hash, w: Intent, detail: CStr, cid: Str, st: AptStatus)
    requires OnCourse(m, fates, o, s, sha)
    requires if m.Locks() then s.pre == [OuterTaken, Opened(s.db)] && DpkgSuffix(s.post, s.work, s.db)
             else s.pre == [] && RefreshSuffix(s.post, s.work)
    requires Faithful(m, s.db, s.plan, s.subject, s.work, sha)
    requires Step(s.plan, s.subject, sha, w, s.call, PlanOk, detail, CidEcho(Some(w.cid)), cid)
    requires st in {Ok, NotApplied, CommitFailed, Broken, Internal} && (st == Internal ==> !CidGrammar(w.cid))
    requires Honest(m, Effect(st, HasStarted(s.post), cid), s)
    requires WentThrough(m, fates, o, quiet, s, st, w)
    ensures Runs(m, fates, o, quiet, Effect(st, HasStarted(s.post), cid), s, sha, w)
  {
    hide Told, Outcome, Honest, Step, Authorised, Faithful, Blocked, Reaches, CidGrammar, CallsOk;
    hide HasStarted, DpkgSuffix, RefreshSuffix, OnCourse;
    CourseReaches(m, fates, o, s, sha);
    CommittedIsTold(m, s, sha, w, detail, cid, st);
  }

  /** The promise of progress is the weaker the fewer runs count as quiet. */
  lemma RunsQuieter(m: Mechanism, fates: nat -> Fate, o: Origin, quiet: bool, q: bool, e: Effect, s: Story,
                    sha: Encoder.Hash, w: Intent)
    requires Runs(m, fates, o, quiet, e, s, sha, w) && (q ==> quiet)
    ensures Runs(m, fates, o, q, e, s, sha, w)
  {
    hide Told, Outcome, Honest, Reaches, ChildFate, Progressed;
  }

  lemma RunsIsTold(m: Mechanism, fates: nat -> Fate, o: Origin, quiet: bool, e: Effect, s: Story, sha: Encoder.Hash,
                   w: Intent)
    requires Runs(m, fates, o, quiet, e, s, sha, w)
    ensures Told(m, s, sha, w) && Outcome(e, s, sha, w) && Honest(m, e, s)
    ensures quiet ==> Progressed(m, s, sha, w)
  {
    hide Told, Outcome, Honest, Progressed, Reaches, ChildFate;
  }

  /** A plan step that ended well was not settled, made its call, and has the request's cid. */
  lemma OkWasCalled(p: Plan, s: Subject, sha: Encoder.Hash, w: Intent, run: seq<Event>, detail: CStr, cidIn: Str,
                    cid: Str)
    requires Step(p, s, sha, w, run, PlanOk, detail, cidIn, cid)
    ensures Settled(p, s, sha).None? && run != [] && cid == w.cid
  {
    OkMeansRedeemed(p, s, sha, w, run, PlanOk, detail, cidIn, cid);
    hide Settled, Step, Binding, StrictOk;
  }

  // ---- what is refused unread ------------------------------------------------------------------

  /** A transaction that is refused without having taken the lock is an upgrade with targets. */
  lemma UnreadRefusal(verb: Str, targets: seq<Str>, fates: nat -> Fate, o: Origin, quiet: bool, e: Effect, s: Story,
                      sha: Encoder.Hash, w: Intent)
    requires Runs(TxnMech(verb, targets), fates, o, quiet, e, s, sha, w)
    requires e.status == ResolveFailed && s.pre == []
    ensures (verb == "apt.upgrade" || verb == "apt.dist_upgrade") && targets != []
  {
    var m := TxnMech(verb, targets);
    hide Outcome, Progressed, Reaches, ChildFate;
    if s.reached { ReachedIsRead(m, s, sha, w); }
    hide Told;
  }

  lemma ReachedIsRead(m: Mechanism, s: Story, sha: Encoder.Hash, w: Intent)
    requires Told(m, s, sha, w) && s.reached && m.Locks()
    ensures s.pre != []
  {
    hide Faithful, Asks, Authorised, DpkgSuffix, LockPrefix;
  }

  // ---- when a failure means that dpkg ran ----------------------------------------------------

  /** A configure that could read the state under the lock and found a package half-installed. */
  ghost predicate FoundHalfInstalled(m: Mechanism, fates: nat -> Fate, o: Origin, s: Story) {
    m.CfgMech? && s.pre == [OuterTaken, Opened(s.db)] && fates(o.step + 3).ok && !NoneHalfInstalled(s.db.pkgs)
  }

  /** Over all runs of hold and configure: a failed or broken status means that dpkg ran,
      exactly if no half-installed package was found and, once the receipt was spent, every
      call up to posix_spawn succeeded. */
  lemma FailureMeansRanIff(m: Mechanism, fates: nat -> Fate, o: Origin, quiet: bool, e: Effect, s: Story,
                           sha: Encoder.Hash, w: Intent)
    requires (m.HoldMech? || m.CfgMech?) && CidGrammar(w.cid) && Runs(m, fates, o, quiet, e, s, sha, w)
    ensures FailureMeansRan(e) <==>
            && !FoundHalfInstalled(m, fates, o, s)
            && (s.reached && Authorised(s.plan, s.subject, sha, w, s.call) ==>
                  CallsOk(fates, o.step + CallsToRequest(m) + 1, CallsToStart(m)))
  {
    hide Told, Outcome, Honest, Progressed, Reaches, EarlyCause, ChildFate, Authorised, NoneHalfInstalled, CidGrammar;
    hide CallsOk;
    if s.reached {
      ReachedIsWhole(m, s, sha, w);
      if Authorised(s.plan, s.subject, sha, w, s.call) {
        ChildDecides(m, fates, o, e, s, sha, w);
      } else {
        ReachedStatus(e, s, sha, w);
      }
    } else {
      NotIssuedEarly(m, e, s, sha, w);
      EarlyFailure(m, fates, o, e, s);
    }
  }

  lemma ChildDecides(m: Mechanism, fates: nat -> Fate, o: Origin, e: Effect, s: Story, sha: Encoder.Hash, w: Intent)
    requires (m.HoldMech? || m.CfgMech?) && ChildFate(m, fates, o.step, e, s, sha, w)
    requires s.reached && Authorised(s.plan, s.subject, sha, w, s.call) && CidGrammar(w.cid)
    ensures FailureMeansRan(e) <==> CallsOk(fates, o.step + CallsToRequest(m) + 1, CallsToStart(m))
  {
    hide Authorised, CidGrammar, CallsOk;
  }

  lemma EarlyFailure(m: Mechanism, fates: nat -> Fate, o: Origin, e: Effect, s: Story)
    requires (m.HoldMech? || m.CfgMech?) && EarlyCause(m, fates, o, e.status, s.pre, s.db)
    requires LockPrefix(s.pre, s.db) && !e.issued && e.status != CommitFailed
    ensures FailureMeansRan(e) <==> !FoundHalfInstalled(m, fates, o, s)
  {
    hide NoneHalfInstalled;
  }

  lemma ReachedIsWhole(m: Mechanism, s: Story, sha: Encoder.Hash, w: Intent)
    requires Told(m, s, sha, w) && s.reached
    ensures m.CfgMech? ==> NoneHalfInstalled(s.db.pkgs)
  {
    hide NoneHalfInstalled, LockPrefix, DpkgSuffix, RefreshSuffix, Asks, Authorised;
  }

  lemma ReachedStatus(e: Effect, s: Story, sha: Encoder.Hash, w: Intent)
    requires Outcome(e, s, sha, w) && s.reached && !Authorised(s.plan, s.subject, sha, w, s.call)
    ensures FailureMeansRan(e)
  {
    hide Settled, Authorised, CidRule, HasStarted;
  }

  lemma NotIssuedEarly(m: Mechanism, e: Effect, s: Story, sha: Encoder.Hash, w: Intent)
    requires Told(m, s, sha, w) && Outcome(e, s, sha, w) && !s.reached
    ensures !e.issued && e.status != CommitFailed && (m.Locks() ==> LockPrefix(s.pre, s.db))
  {
    hide Settled, Authorised, CidRule, Asks, Faithful, LockPrefix, DpkgSuffix, RefreshSuffix;
  }
}

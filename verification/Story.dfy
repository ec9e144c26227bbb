/** What a run of an effector leaves in the trace, and what that makes safe. */
module Story {
  import opened Bytes
  import opened Names
  import opened Canon
  import opened Builders
  import opened Selections
  import opened Host
  import opened Redeem
  import opened PlanStep
  import opened Status
  import Encoder

  datatype Mechanism =
    | TxnMech(verb: Str, targets: seq<Str>)
    | HoldMech(verb: Str, targets: seq<Str>)
    | CfgMech
    | UpdMech
  {
    /** Whether the mechanism runs under the dpkg frontend lock. */
    predicate Locks() { !UpdMech? }
  }

  /** One run: the events before the plan step, its call to the broker, the commit; and the
      state, plan and work they are about. `reached` says that the plan step was reached. */
  datatype Story = Story(pre: seq<Event>, call: seq<Event>, post: seq<Event>,
                         reached: bool, db: Db, plan: Plan, subject: Subject, work: Work)
  {
    function Events(): seq<Event> { pre + call + post }
  }

  datatype Effect = Effect(status: AptStatus, issued: bool, cid: Str)

  // ---- the script --------------------------------------------------------------------

  ghost predicate LockPrefix(pre: seq<Event>, db: Db) {
    pre == [] || pre == [OuterTaken] || pre == [OuterTaken, Opened(db)]
  }

  /** The commit of a dpkg-running mechanism: the inner lock is released, the work may begin,
      the inner lock may be taken again. */
  ghost predicate DpkgSuffix(post: seq<Event>, work: Work, db: Db) {
    var go := Started(work, db, true, false);
    || post == [] || post == [InnerReleased] || post == [InnerReleased, InnerTaken]
    || post == [InnerReleased, go] || post == [InnerReleased, go, InnerTaken]
  }

  ghost predicate RefreshSuffix(post: seq<Event>, work: Work) {
    post == [] || (|post| == 1 && post[0].Started? && post[0].work == work)
  }

  function Cache(db: Db): SelCache {
    SelCache(db.find, seq(|db.pkgs|, i requires 0 <= i < |db.pkgs| => db.pkgs[i].selected))
  }

  predicate Upgrades(verb: Str) {
    verb == "apt.upgrade" || verb == "apt.dist_upgrade"
  }

  /** Upgrades are whole-system; the other transactions name packages that exist. */
  ghost predicate TargetsFit(verb: Str, targets: seq<Str>, db: Db) {
    if Upgrades(verb) then targets == [] else forall i :: 0 <= i < |targets| ==> db.find(targets[i]).Some?
  }

  /** The plan that is digested and the work that may be committed describe the same thing,
      computed from state `db`. */
  ghost predicate Faithful(m: Mechanism, db: Db, plan: Plan, subject: Subject, work: Work, sha: Encoder.Hash) {
    match m
    case TxnMech(verb, targets) =>
      && TargetsFit(verb, targets, db) && work.Install? && PlansOver(work.dc, db)
      && plan == TxnPlan(Some(verb), TxnRecords(work.dc)) && subject == Targets(Pointers(targets))
    case HoldMech(verb, targets) =>
      var changes := Changing(Cache(db), targets, verb == "apt.hold");
      && AllSubjects(Cache(db), targets)
      && work == SetSelections(Lines(changes))
      && plan == HoldPlan(Some(verb), HoldRecords(changes)) && subject == Targets(Pointers(targets))
    case CfgMech =>
      && NoneHalfInstalled(db.pkgs) && work == ConfigurePending
      && plan == CfgPlan(CfgRecords(db.pkgs)) && subject == Token("pending")
    case UpdMech =>
      && work.Refresh? && plan.UpdPlan? && subject == Token([])
      && |plan.srcs| == |Present(work.list)|
      && forall i :: 0 <= i < |plan.srcs| ==> Describes(Present(work.list)[i], sha, plan.srcs[i])
  }

  /** A run follows the script of its mechanism. */
  ghost predicate Told(m: Mechanism, s: Story, sha: Encoder.Hash, w: Intent) {
    && (if m.Locks() then LockPrefix(s.pre, s.db) && DpkgSuffix(s.post, s.work, s.db)
        else s.pre == [] && RefreshSuffix(s.post, s.work))
    && (s.reached && m.Locks() ==> s.pre == [OuterTaken, Opened(s.db)])
    && (s.reached ==> Faithful(m, s.db, s.plan, s.subject, s.work, sha))
    && (s.call != [] ==> s.reached && Asks(s.plan, s.subject, sha, w, s.call))
    && (s.post != [] ==> s.reached && Authorised(s.plan, s.subject, sha, w, s.call))
  }

  ghost predicate HasStarted(post: seq<Event>) {
    exists i :: 0 <= i < |post| && post[i].Started?
  }

  // ---- honest outcomes -----------------------------------------------------------------

  /** The broker answered, and its answer was a definite refusal. */
  ghost predicate DefinitelyRefused(call: seq<Event>) {
    call != [] && call[0].Called? && exists c :: Redeem.Refusal(call[0].reply, c)
  }

  /** The emitted cid is the request's or empty, and empty exactly when redemption was tried
      with an unknown or foreign outcome. */
  ghost predicate CidRule(e: Effect, s: Story, w: Intent) {
    CidGrammar(w.cid) ==>
      && (e.cid == w.cid || e.cid == [])
      && (e.cid == [] <==> e.status == NoIntent && !DefinitelyRefused(s.call))
  }

  /** What every mechanism's status says about how far the run came. */
  ghost predicate Outcome(e: Effect, s: Story, sha: Encoder.Hash, w: Intent) {
    var authorised := s.reached && Authorised(s.plan, s.subject, sha, w, s.call);
    && CidRule(e, s, w)
    && (e.issued <==> HasStarted(s.post))
    && (authorised ==> e.cid == w.cid && e.status in {Ok, NotApplied, CommitFailed, Broken, Internal})
    && (authorised && e.status == Internal ==> !CidGrammar(w.cid))
    && (e.status in {Ok, NotApplied, CommitFailed} ==> authorised)
    && (s.call != [] && !authorised ==> e.status == NoIntent)
    // a plan step that settled the run decides its status, and so does an unauthorised call
    && (s.reached && Settled(s.plan, s.subject, sha).Some? ==>
          && Settled(s.plan, s.subject, sha).value != PlanOk
          && e.status == RefusalStatus(Settled(s.plan, s.subject, sha).value))
    && (s.reached && Settled(s.plan, s.subject, sha).None? && !authorised ==> e.status == NoIntent)
    && (e.status == NoIntent ==> s.reached && Settled(s.plan, s.subject, sha).None?)
    && (e.status == NoOp ==> s.reached && s.plan.Records() == [])
    && (e.status == Status.NotOwned ==> s.reached && PolicyOf(s.plan) == PlanNotOwned)
    && (e.status == Status.Held ==> s.reached && PolicyOf(s.plan) == PlanHeld)
    && (e.status == Status.Protected ==> s.reached && PolicyOf(s.plan) == PlanProtected)
  }

  /** Transactions: the effect was issued exactly under these three statuses, and success
      means the inner lock was taken back. */
  ghost predicate TxnHonest(e: Effect, s: Story) {
    && (e.issued <==> e.status in {Ok, CommitFailed, Broken})
    && (e.status == Ok ==> |s.post| == 3)
    && (e.status == NotApplied ==> s.post == [])
  }

  ghost predicate UpdHonest(e: Effect, s: Story) {
    && (e.issued <==> e.status in {Ok, CommitFailed})
    && e.status !in {NotApplied, Broken, Status.NotOwned, Status.Held, Status.Protected}
  }

  /** Hold: success means issued with the inner lock back; failure may be issued or not. */
  ghost predicate HoldHonest(e: Effect, s: Story) {
    && (e.status == Ok ==> e.issued && |s.post| == 3)
    && (e.issued ==> e.status in {Ok, CommitFailed})
    && e.status !in {NotApplied, Broken, Status.Held, Status.Protected}
  }

  ghost predicate CfgHonest(e: Effect, s: Story) {
    && (e.status == Ok ==> e.issued && |s.post| == 3)
    && (e.issued ==> e.status in {Ok, CommitFailed, Broken})
    && e.status !in {NotApplied, Status.Held, Status.Protected}
  }

  /** What the status of mechanism `m` says about its effect. */
  ghost predicate Honest(m: Mechanism, e: Effect, s: Story) {
    match m
    case TxnMech(_, _) => TxnHonest(e, s)
    case HoldMech(_, _) => HoldHonest(e, s)
    case CfgMech => CfgHonest(e, s)
    case UpdMech => UpdHonest(e, s)
  }

  /** What the resolver is asked on behalf of a transaction: the whole system for the two
      upgrades, and otherwise every target, found in state `db`, to be installed or deleted. */
  ghost predicate AskedFor(verb: Str, targets: seq<Str>, db: Db, asked: seq<Ask>) {
    if verb == "apt.upgrade" then asked == [UpgradeAll(false)]
    else if verb == "apt.dist_upgrade" then asked == [UpgradeAll(true)]
    else
      && |asked| == |targets|
      && forall i :: 0 <= i < |targets| ==>
           && db.find(targets[i]).Some?
           && asked[i] == (if verb == "apt.remove" then MarkDelete(db.find(targets[i]).value, false)
                           else if verb == "apt.purge" then MarkDelete(db.find(targets[i]).value, true)
                           else MarkInstall(db.find(targets[i]).value))
  }

  // ---- progress --------------------------------------------------------------------------

  /** What in the opened state keeps the mechanism from planning at all. */
  ghost predicate Blocked(m: Mechanism, db: Db) {
    match m
    case TxnMech(verb, targets) => !TargetsFit(verb, targets, db)
    case HoldMech(verb, targets) => !AllSubjects(Cache(db), targets)
    case CfgMech => !NoneHalfInstalled(db.pkgs)
    case UpdMech => false
  }

  /** A run in which no call failed reached the plan step, unless the state it read rules
      the request out; and if it was authorised, it went through with the whole commit. */
  ghost predicate Progressed(m: Mechanism, s: Story, sha: Encoder.Hash, w: Intent) {
    && (s.reached || Blocked(m, s.db))
    && (s.reached && Authorised(s.plan, s.subject, sha, w, s.call) && CidGrammar(w.cid) ==>
          HasStarted(s.post) && |s.post| == if m.Locks() then 3 else 1)
  }

  /** The calls of a run up to and including the one that builds the redeem request. */
  function CallsToRequest(m: Mechanism): nat {
    match m
    case TxnMech(_, _) => 6     // init, lock, cache, its parts, resolver, request
    case HoldMech(_, _) => 5    // init, lock, cache, its parts, request
    case CfgMech => 5
    case UpdMech => 4           // init, lists lock, source list, request
  }

  /** A run whose first calls all succeed with no other frontend about, on a free lock: it
      reaches the plan step on the state it found, and the broker unless the plan step settles
      the matter; or that state rules the request out, and the run ends having read it. */
  ghost predicate Reaches(m: Mechanism, fates: nat -> Fate, o: Origin, s: Story, sha: Encoder.Hash) {
    Free(m, fates, o) ==>
      if Blocked(m, o.db) then !s.reached && ReadAll(m, o, s.pre, s.db)
      else
        && s.reached && (m.Locks() ==> s.db == o.db)
        && (Settled(s.plan, s.subject, sha).None? ==> Replied(s.call, fates(o.step + CallsToRequest(m)).reply))
  }

  /** The state was read as it was found; but targeted upgrades are refused unread. */
  ghost predicate ReadAll(m: Mechanism, o: Origin, pre: seq<Event>, db: Db) {
    || (m.TxnMech? && Upgrades(m.verb) && m.targets != [])
    || (pre == [OuterTaken, Opened(o.db)] && db == o.db)
  }

  /** Nothing is in the way of the first calls of a run. */
  ghost predicate Free(m: Mechanism, fates: nat -> Fate, o: Origin) {
    (m.Locks() ==> o.outer == Nobody) && Undisturbed(fates, o.step, CallsToRequest(m))
  }

  ghost predicate Replied(call: seq<Event>, reply: Reply) {
    |call| == 1 && call[0].Called? && call[0].reply == reply
  }

  /** The calls of the commit that have to succeed for the work to start. */
  function CallsToStart(m: Mechanism): nat {
    match m
    case TxnMech(_, _) => 4     // setup, archives, fetch, inner lock
    case HoldMech(_, _) => 6    // inner lock, environment, pipe, its two ends, posix_spawn
    case CfgMech => 4           // inner lock, environment, file actions, posix_spawn
    case UpdMech => 0
  }

  /** What the documentation says of a failure status: dpkg ran. */
  ghost predicate FailureMeansRan(e: Effect) {
    e.status in {CommitFailed, Broken} ==> e.issued
  }

  /** For a redeemed run whose first call was number `from`: the work is started exactly if
      every call of the commit up to there succeeds; and for hold and configure, exactly then
      does a failure status mean what the documentation says. */
  ghost predicate ChildFate(m: Mechanism, fates: nat -> Fate, from: nat, e: Effect, s: Story, sha: Encoder.Hash,
                            w: Intent)
  {
    s.reached && Authorised(s.plan, s.subject, sha, w, s.call) && CidGrammar(w.cid) ==>
      var ok := CallsOk(fates, from + CallsToRequest(m) + 1, CallsToStart(m));
      (e.issued <==> ok) && (m.HoldMech? || m.CfgMech? ==> (FailureMeansRan(e) <==> ok))
  }

  /** What decided the status of a run that ended before the plan step, by the calls it made
      and the state it read: init (or a refused upgrade), the lock, the cache, its parts, and
      then the state itself, or the resolver. */
  ghost predicate EarlyCause(m: Mechanism, fates: nat -> Fate, o: Origin, st: AptStatus, pre: seq<Event>, db: Db) {
    if !fates(o.step).ok then st == Internal && pre == []
    else if m.UpdMech? then
      if !fates(o.step + 1).ok then st == Locked else st == Internal && !fates(o.step + 2).ok
    else if m.TxnMech? && Upgrades(m.verb) && m.targets != [] then st == ResolveFailed && pre == []
    else if pre == [] then st == Locked
    else if pre == [OuterTaken] then st == Internal && !fates(o.step + 2).ok
    else if !fates(o.step + 3).ok then st == Internal
    else
      && st == (if m.CfgMech? then Broken else ResolveFailed)
      && (Blocked(m, db) || (m.TxnMech? && !fates(o.step + 4).ok))
  }

  /** Everything an effector promises about one run: the story is told and its outcome honest,
      it progressed if no call failed, and its oracle answers decide how far it came. */
  ghost predicate Runs(m: Mechanism, fates: nat -> Fate, o: Origin, quiet: bool,
                       e: Effect, s: Story, sha: Encoder.Hash, w: Intent)
  {
    && Told(m, s, sha, w) && Outcome(e, s, sha, w) && Honest(m, e, s)
    && (quiet ==> Progressed(m, s, sha, w))
    && Reaches(m, fates, o, s, sha)
    && (!s.reached ==> EarlyCause(m, fates, o, e.status, s.pre, s.db))
    && ChildFate(m, fates, o.step, e, s, sha, w)
  }

  // ---- what a scripted run guarantees ------------------------------------------------------

  /** Event k of a trace is a change of the host. It is safe when hygiene came first and
      exactly one call was made, which drew the strict reply for the request's cid. */
  ghost predicate SafeStart(t: seq<Event>, k: nat, cid: Str)
    requires k < |t|
  {
    exists i: nat :: 0 < i < k && t[0] == Hygiene(true) && t[i].Called? && StrictOk(t[i].reply, cid)
                && forall j :: 0 <= j < |t| && t[j].Called? ==> j == i
  }

  /** Over the whole trace of one process. */
  ghost predicate Safe(t: seq<Event>, cid: Str) {
    && (forall i, j :: 0 <= i < |t| && 0 <= j < |t| && t[i].Called? && t[j].Called? ==> i == j)
    && (forall i, j :: 0 <= i < |t| && 0 <= j < |t| && t[i].Started? && t[j].Started? ==> i == j)
    && (forall k: nat :: k < |t| && t[k].Started? ==> SafeStart(t, k, cid))
  }

  /** The trace of one process: hygiene, then the story. */
  ghost function TraceOf(s: Story): seq<Event> {
    [Hygiene(true)] + s.Events()
  }

  /** Where the parts of a story lie in the trace. */
  lemma StoryAt(s: Story, i: nat)
    requires i < |TraceOf(s)|
    ensures |TraceOf(s)| == 1 + |s.pre| + |s.call| + |s.post|
    ensures i == 0 ==> TraceOf(s)[i] == Hygiene(true)
    ensures 1 <= i < 1 + |s.pre| ==> TraceOf(s)[i] == s.pre[i - 1]
    ensures 1 + |s.pre| <= i < 1 + |s.pre| + |s.call| ==> TraceOf(s)[i] == s.call[i - 1 - |s.pre|]
    ensures 1 + |s.pre| + |s.call| <= i ==> TraceOf(s)[i] == s.post[i - 1 - |s.pre| - |s.call|]
  {
  }

  /** Calls and starts in a story: none before the plan step, at most one call in it, at
      most one start after it and only after a call with the strict reply. */
  ghost predicate Shaped(s: Story, cid: Str) {
    && (forall i :: 0 <= i < |s.pre| ==> !s.pre[i].Called? && !s.pre[i].Started?)
    && |s.call| <= 1 && (s.call != [] ==> s.call[0].Called?)
    && (forall i :: 0 <= i < |s.post| ==> !s.post[i].Called?)
    && (forall i, j :: 0 <= i < |s.post| && 0 <= j < |s.post| && s.post[i].Started? && s.post[j].Started? ==> i == j)
    && (s.post != [] ==> s.call != [] && StrictOk(s.call[0].reply, cid))
  }

  lemma ToldIsShaped(m: Mechanism, s: Story, sha: Encoder.Hash, w: Intent)
    requires Told(m, s, sha, w)
    ensures Shaped(s, w.cid)
  {
    hide Faithful, Settled, StrictOk, Binding;
  }

  /** The one place a call can be, and where a start can be. */
  lemma Placement(s: Story, cid: Str, i: nat)
    requires Shaped(s, cid) && i < |TraceOf(s)|
    ensures TraceOf(s)[i].Called? ==> i == 1 + |s.pre| && |s.call| == 1
    ensures TraceOf(s)[i].Started? ==>
              && i >= 2 + |s.pre| && |s.call| == 1 && TraceOf(s)[1 + |s.pre|] == s.call[0]
              && i - 2 - |s.pre| < |s.post| && s.post[i - 2 - |s.pre|] == TraceOf(s)[i]
  {
    hide StrictOk;
    StoryAt(s, i);
    if i > 1 + |s.pre| { StoryAt(s, 1 + |s.pre|); }
  }

  /** Safety from where calls and starts are: the only call at c, starts behind it. */
  lemma SafeTrace(t: seq<Event>, c: nat, post: seq<Event>, cid: Str)
    requires 0 < c && t != [] && t[0] == Hygiene(true)
    requires forall i :: 0 <= i < |t| && t[i].Called? ==> i == c
    requires forall i :: 0 <= i < |t| && t[i].Started? ==>
               && c < i && t[c].Called? && StrictOk(t[c].reply, cid)
               && i - c - 1 < |post| && post[i - c - 1] == t[i]
    requires forall i, j :: 0 <= i < |post| && 0 <= j < |post| && post[i].Started? && post[j].Started? ==> i == j
    ensures Safe(t, cid)
  {
    hide StrictOk;
    forall k: nat | k < |t| && t[k].Started? ensures SafeStart(t, k, cid) {
      assert 0 < c < k && t[0] == Hygiene(true) && t[c].Called? && StrictOk(t[c].reply, cid);
    }
    forall i, j | 0 <= i < |t| && 0 <= j < |t| && t[i].Started? && t[j].Started? ensures i == j {
      assert post[i - c - 1].Started? && post[j - c - 1].Started?;
    }
  }

  lemma ShapedIsSafe(s: Story, cid: Str)
    requires Shaped(s, cid)
    ensures Safe(TraceOf(s), cid)
  {
    hide StrictOk, Safe;
    forall i: nat | i < |TraceOf(s)|
      ensures TraceOf(s)[i].Called? ==> i == 1 + |s.pre|
      ensures TraceOf(s)[i].Started? ==>
                && i >= 2 + |s.pre| && |s.call| == 1 && TraceOf(s)[1 + |s.pre|] == s.call[0]
                && i - 2 - |s.pre| < |s.post| && s.post[i - 2 - |s.pre|] == TraceOf(s)[i]
    {
      Placement(s, cid, i);
    }
    StoryAt(s, 0);
    hide TraceOf;
    SafeTrace(TraceOf(s), 1 + |s.pre|, s.post, cid);
  }

  /** Every scripted run is safe. */
  lemma ToldIsSafe(m: Mechanism, s: Story, sha: Encoder.Hash, w: Intent)
    requires Told(m, s, sha, w)
    ensures Safe(TraceOf(s), w.cid)
  {
    ToldIsShaped(m, s, sha, w);
    ShapedIsSafe(s, w.cid);
  }

  /** The digested plan is the committed plan. When dpkg work starts, the frontend lock is
      held and the database lock is not; the state it starts on is the state that was opened
      under the lock, and the hash that was redeemed is the hash of the plan computed from
      that very state. */
  ghost predicate CommitsWhatWasRedeemed(m: Mechanism, t: seq<Event>, k: nat, sha: Encoder.Hash, w: Intent)
    requires k < |t| && t[k].Started?
  {
    exists o: nat, c: nat, plan: Plan, subject: Subject :: CommitAt(m, t, k, sha, w, o, c, plan, subject)
  }

  /** Start k commits `plan`, which was computed from the state opened at o and redeemed at c. */
  ghost predicate CommitAt(m: Mechanism, t: seq<Event>, k: nat, sha: Encoder.Hash, w: Intent,
                           o: nat, c: nat, plan: Plan, subject: Subject)
    requires k < |t| && t[k].Started?
  {
    && o < c < k && t[o] == Opened(t[k].db) && t[c].Called? && StrictOk(t[c].reply, w.cid)
    && t[k].outerHeld && !t[k].innerHeld
    && Faithful(m, t[k].db, plan, subject, t[k].work, sha)
    && Digestible(plan, sha) && t[c].req == Binding(plan, subject, sha, w)
    && PolicyOf(plan) == PlanOk
  }

  lemma AuthorisedIsDigestible(p: Plan, s: Subject, sha: Encoder.Hash, w: Intent, call: seq<Event>)
    requires Authorised(p, s, sha, w, call)
    ensures Digestible(p, sha) && PolicyOf(p) == PlanOk && p.Records() != []
    ensures |call| == 1 && call[0].Called? && call[0].req == Binding(p, s, sha, w) && StrictOk(call[0].reply, w.cid)
  {
    hide PolicyOf, Digestible, StrictOk;
  }

  lemma CommitIsWhatWasRedeemed(m: Mechanism, s: Story, sha: Encoder.Hash, w: Intent, k: nat)
    requires Told(m, s, sha, w) && m.Locks()
    requires k < |TraceOf(s)| && TraceOf(s)[k].Started?
    ensures CommitsWhatWasRedeemed(m, TraceOf(s), k, sha, w)
  {
    hide Told, TraceOf, Faithful, Asks, Authorised, Shaped, CommitsWhatWasRedeemed;
    ToldIsShaped(m, s, sha, w);
    StartIsPosted(s, w.cid, k);
    StartedEvent(m, s, sha, w, k - 2 - |s.pre|);
    OpenedAndCalled(s, s.db);
    CommitWitness(m, TraceOf(s), k, s, sha, w);
  }

  /** A start in the trace is a start of the commit. */
  lemma StartIsPosted(s: Story, cid: Str, k: nat)
    requires Shaped(s, cid) && k < |TraceOf(s)| && TraceOf(s)[k].Started?
    ensures |s.call| == 1 && k >= 2 + |s.pre| && k - 2 - |s.pre| < |s.post|
    ensures s.post[k - 2 - |s.pre|] == TraceOf(s)[k]
  {
    hide Shaped, TraceOf;
    Placement(s, cid, k);
  }

  /** Behind hygiene and the lock come the opened state and the call. */
  lemma OpenedAndCalled(s: Story, db: Db)
    requires s.pre == [OuterTaken, Opened(db)] && |s.call| == 1
    ensures |TraceOf(s)| >= 4 && TraceOf(s)[2] == Opened(db) && TraceOf(s)[3] == s.call[0]
  {
  }

  lemma CommitWitness(m: Mechanism, t: seq<Event>, k: nat, s: Story, sha: Encoder.Hash, w: Intent)
    requires 3 < k < |t| && t[k] == Started(s.work, s.db, true, false)
    requires t[2] == Opened(s.db) && |s.call| == 1 && t[3] == s.call[0]
    requires Authorised(s.plan, s.subject, sha, w, s.call) && Faithful(m, s.db, s.plan, s.subject, s.work, sha)
    ensures CommitsWhatWasRedeemed(m, t, k, sha, w)
  {
    hide Faithful, StrictOk, Settled, Binding, Digestible, PolicyOf, Authorised;
    AuthorisedIsDigestible(s.plan, s.subject, sha, w, s.call);
    assert CommitAt(m, t, k, sha, w, 2, 3, s.plan, s.subject);
  }

  lemma StartedEvent(m: Mechanism, s: Story, sha: Encoder.Hash, w: Intent, i: nat)
    requires Told(m, s, sha, w) && m.Locks() && i < |s.post| && s.post[i].Started?
    ensures s.post[i] == Started(s.work, s.db, true, false)
    ensures s.pre == [OuterTaken, Opened(s.db)]
    ensures Authorised(s.plan, s.subject, sha, w, s.call) && Faithful(m, s.db, s.plan, s.subject, s.work, sha)
  {
    hide Faithful, Settled, Authorised;
  }

  /** For a source refresh, which takes no frontend lock: the list that is refreshed is the
      list that was digested and redeemed. */
  lemma RefreshIsWhatWasRedeemed(s: Story, sha: Encoder.Hash, w: Intent)
    requires Told(UpdMech, s, sha, w) && s.post != []
    ensures s.post[0].Started? && |s.call| == 1 && s.call[0].Called? && StrictOk(s.call[0].reply, w.cid)
    ensures Faithful(UpdMech, s.db, s.plan, s.subject, s.post[0].work, sha)
    ensures Digestible(s.plan, sha) && s.call[0].req == Binding(s.plan, s.subject, sha, w)
  {
    AuthorisedIsDigestible(s.plan, s.subject, sha, w, s.call);
    hide Faithful, StrictOk, Settled, Binding, Digestible, PolicyOf, Authorised;
  }
}

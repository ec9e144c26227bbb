/** The unprivileged preview, and its agreement with what the effectors redeem. */
module Preview {
  import opened Bytes
  import opened Canon
  import opened Policy
  import opened Builders
  import opened Selections
  import opened Host
  import opened PlanStep
  import opened Decode
  import Invariance
  import Status
  import Story
  import Encoder
  import Request

  type St = Status.AptStatus

  /** One preview record; plan_schema is 1 exactly when there is a hash. */
  datatype Shown = Shown(status: St, resource: CStr, hash: CStr, records: seq<View>, detail: CStr)

  /** What the resolver came to on the preview's unlocked cache. */
  datatype Resolution = UnknownPackage(name: Str) | Stuck | Resolved(dc: seq<Planned>)

  function Bare(status: St, resource: CStr, detail: CStr): Shown {
    Shown(status, resource, None, [], detail)
  }

  function PolicyStatus(pr: PlanResult): St {
    if pr == PlanOk then Status.Ok else Status.RefusalStatus(pr)
  }

  /** The status of a previewed plan. */
  ghost function PreviewStatus(p: Plan, s: Subject, sha: Encoder.Hash): St {
    if !SubjectOk(s) then Status.Internal
    else if p.Records() == [] then Status.NoOp
    else if !Digestible(p, sha) then Status.Internal
    else PolicyStatus(PolicyOf(p))
  }

  /** A previewed plan: with its status, and beside every status that has a hash, the
      resource, the hash of the plan, its normalised records in canonical order, and the
      first record a refusal is about. */
  ghost predicate Shows(p: Plan, s: Subject, sha: Encoder.Hash, out: Shown) {
    && out.status == PreviewStatus(p, s, sha)
    && (out.hash.Some? <==> SubjectOk(s) && p.Records() != [] && Digestible(p, sha))
    && (out.hash.Some? ==>
          && out.hash == sha(Canonical(p)) && out.resource == Some(ResourceOf(s))
          && out.records == Invariance.Views(Invariance.SortRecords(p.Records())))
    && (out.hash.None? ==> out.records == [])
    && (out.status in {Status.Ok, Status.NoOp} ==> out.detail == None)
    && (out.status == Status.Internal ==> out.detail == Some("digest"))
    && (out.hash.Some? ==> NamesOffender(p, PolicyOf(p), out.detail))
  }

  /** compute_resource. */
  method ComputeResource(pkgs: seq<Str>) returns (r: CStr)
    ensures r.Some? <==> SubjectOk(Targets(Pointers(pkgs)))
    ensures r.Some? ==> r.value == ResourceOf(Targets(Pointers(pkgs)))
  {
    r := Encoder.Resource(Pointers(pkgs));
  }

  /** The preview's last steps: digest, decode the very bytes that were hashed, report. */
  lemma DecodedRecords(p: Plan, sha: Encoder.Hash)
    requires Digestible(p, sha) && p.Records() != []
    ensures DecodeCanon(Canonical(p), Invariance.PlanKind(p)) == Invariance.Views(Invariance.SortRecords(p.Records()))
  {
    hide InDomain, Canonical, DecodeCanon;
    Invariance.DecodeInvertsPlan(p);
  }

  /** ... and what is reported then shows the plan. */
  lemma ReportShows(p: Plan, s: Subject, sha: Encoder.Hash, d: Encoder.Digest, out: Shown)
    requires SubjectOk(s) && p.Records() != [] && Encoder.Encodes(p, sha, Some(d))
    requires out.status == PolicyStatus(PolicyOf(p)) && out.resource == Some(ResourceOf(s)) && out.hash == Some(d.hex)
    requires out.records == DecodeCanon(d.canon, Invariance.PlanKind(p))
    requires NamesOffender(p, PolicyOf(p), out.detail) && (PolicyOf(p) == PlanOk ==> out.detail == None)
    ensures Shows(p, s, sha, out)
  {
    DecodedRecords(p, sha);
    PolicyNeverWaits(p);
    hide Encodable, Canonical, SubjectOk, PolicyOf, ResourceOf, Invariance.SortRecords, DecodeCanon, NamesOffender;
  }

  lemma UndigestedShows(p: Plan, s: Subject, sha: Encoder.Hash, out: Shown)
    requires SubjectOk(s) && p.Records() != [] && Encoder.Encodes(p, sha, None)
    requires out.status == Status.Internal && out.hash == None && out.records == [] && out.detail == Some("digest")
    ensures Shows(p, s, sha, out)
  {
    hide Encodable, Canonical, SubjectOk;
  }

  /** What stood in the way of resolving. */
  function Unresolved(r: Resolution): CStr {
    match r
    case UnknownPackage(name) => Some(name)
    case Stuck => Some("resolve")
    case Resolved(_) => None
  }

  method PreviewTxn(verb: Str, pkgs: seq<Str>, cacheOk: bool, resolution: Resolution, sha: Encoder.Hash)
    returns (out: Shown)
    ensures SubjectOk(Targets(Pointers(pkgs))) && cacheOk && resolution.Resolved? ==>
              Shows(TxnPlan(Some(verb), TxnRecords(resolution.dc)), Targets(Pointers(pkgs)), sha, out)
    ensures !SubjectOk(Targets(Pointers(pkgs))) ==> out == Bare(Status.Internal, None, Some("resource"))
    ensures SubjectOk(Targets(Pointers(pkgs))) && !(cacheOk && resolution.Resolved?) ==>
              out == if !cacheOk then Bare(Status.Internal, Some(ResourceOf(Targets(Pointers(pkgs)))), Some("cache"))
                     else Bare(Status.ResolveFailed, Some(ResourceOf(Targets(Pointers(pkgs)))), Unresolved(resolution))
  {
    hide Encodable, Canonical, DecodeCanon, Encoder.ResourceOk, Judge, TxnRecords, ListsChanges;
    var resource := ComputeResource(pkgs);
    if resource.None? {
      return Bare(Status.Internal, None, Some("resource"));
    }
    if !cacheOk {
      return Bare(Status.Internal, resource, Some("cache"));
    }
    match resolution {
      case UnknownPackage(name) => return Bare(Status.ResolveFailed, resource, Some(name));
      case Stuck => return Bare(Status.ResolveFailed, resource, Some("resolve"));
      case Resolved(dc) =>
        var recs := MapTxn(dc);
        out := PreviewRecords(verb, recs, pkgs, resource.value, sha);
    }
  }

  method PreviewRecords(verb: Str, recs: seq<TxnRecord>, pkgs: seq<Str>, resource: Str, sha: Encoder.Hash)
    returns (out: Shown)
    requires SubjectOk(Targets(Pointers(pkgs))) && resource == ResourceOf(Targets(Pointers(pkgs)))
    ensures Shows(TxnPlan(Some(verb), recs), Targets(Pointers(pkgs)), sha, out)
  {
    hide DecodeCanon, SubjectOk, Judge, ResourceOf, Digestible, Encoder.Encodes;
    ghost var p, s := TxnPlan(Some(verb), recs), Targets(Pointers(pkgs));
    if |recs| == 0 {
      return Bare(Status.NoOp, Some(resource), None);
    }
    hide Shows;
    var verdict, offender := PolicyCheck(recs);
    var d := Encoder.DigestPkgTxn(Some(verb), recs, sha);
    if d.None? {
      out := Bare(Status.Internal, Some(resource), Some("digest"));
      UndigestedShows(p, s, sha, out);
      return;
    }
    var records := DecodeRecords(d.value.canon, TxnKind);
    out := Shown(VerdictStatus(verdict), Some(resource), Some(d.value.hex), records, offender);
    ReportShows(p, s, sha, d.value, out);
  }

  function VerdictStatus(v: Verdict): St {
    match v
    case Allowed => Status.Ok
    case NotOwned => Status.NotOwned
    case Held => Status.Held
    case Protected => Status.Protected
  }

  method PreviewUpdate(list: Option<seq<Option<Source>>>, sha: Encoder.Hash)
    returns (out: Shown, ghost srcs: seq<SrcRecord>)
    ensures list.Some? ==>
              && |srcs| == |Present(list.value)|
              && (forall i :: 0 <= i < |srcs| ==> Describes(Present(list.value)[i], sha, srcs[i]))
              && Shows(UpdPlan(srcs), Token([]), sha, out)
    ensures list.None? ==> out == Bare(Status.Internal, Some([]), Some("sources"))
  {
    hide DecodeCanon, Describes, Digestible, Encoder.Encodes, ListsSources;
    srcs := [];
    if list.None? {
      return Bare(Status.Internal, Some([]), Some("sources")), srcs;
    }
    var recs := MapSources(list.value, sha);
    srcs := recs;
    if |recs| == 0 {
      return Bare(Status.NoOp, Some([]), None), srcs;
    }
    hide Shows;
    var d := Encoder.DigestUpdate(recs, sha);
    if d.None? {
      out := Bare(Status.Internal, Some([]), Some("digest"));
      UndigestedShows(UpdPlan(recs), Token([]), sha, out);
      return;
    }
    var records := DecodeRecords(d.value.canon, SrcKind);
    out := Shown(Status.Ok, Some([]), Some(d.value.hex), records, None);
    ReportShows(UpdPlan(recs), Token([]), sha, d.value, out);
  }

  method PreviewHold(verb: Str, pkgs: seq<Str>, cache: Option<SelCache>, sha: Encoder.Hash) returns (out: Shown)
    ensures SubjectOk(Targets(Pointers(pkgs))) && cache.Some? && AllSubjects(cache.value, pkgs) ==>
              Shows(HoldPlan(Some(verb), HoldRecords(Changing(cache.value, pkgs, verb == "apt.hold"))),
                    Targets(Pointers(pkgs)), sha, out)
    ensures !SubjectOk(Targets(Pointers(pkgs))) ==> out == Bare(Status.Internal, None, Some("resource"))
    ensures SubjectOk(Targets(Pointers(pkgs))) && cache.None? ==>
              out == Bare(Status.Internal, Some(ResourceOf(Targets(Pointers(pkgs)))), Some("cache"))
    ensures SubjectOk(Targets(Pointers(pkgs))) && cache.Some? && !AllSubjects(cache.value, pkgs) ==>
              exists i: nat, name: Str ::
                && FirstOffender(cache.value, pkgs, i, name)
                && out == Bare(Status.ResolveFailed, Some(ResourceOf(Targets(Pointers(pkgs)))), Some(name))
  {
    hide Encodable, Canonical, DecodeCanon, Encoder.ResourceOk, AnyOwned, Changing, AllSubjects, ListsToggles;
    var resource := ComputeResource(pkgs);
    if resource.None? {
      return Bare(Status.Internal, None, Some("resource"));
    }
    if cache.None? {
      return Bare(Status.Internal, resource, Some("cache"));
    }
    var mapped := MapHold(cache.value, pkgs, verb == "apt.hold");
    if !mapped.MapOk? {
      return Bare(Status.ResolveFailed, resource, Some(mapped.offender));
    }
    out := PreviewHolds(verb, mapped.recs, pkgs, resource.value, sha);
  }

  method PreviewHolds(verb: Str, recs: seq<HoldRecord>, pkgs: seq<Str>, resource: Str, sha: Encoder.Hash)
    returns (out: Shown)
    requires SubjectOk(Targets(Pointers(pkgs))) && resource == ResourceOf(Targets(Pointers(pkgs)))
    ensures Shows(HoldPlan(Some(verb), recs), Targets(Pointers(pkgs)), sha, out)
  {
    hide DecodeCanon, SubjectOk, AnyOwned, ResourceOf, Digestible, Encoder.Encodes;
    ghost var p, s := HoldPlan(Some(verb), recs), Targets(Pointers(pkgs));
    if |recs| == 0 {
      return Bare(Status.NoOp, Some(resource), None);
    }
    hide Shows;
    var owned := FindOwned(recs);
    var d := Encoder.DigestHold(Some(verb), recs, sha);
    if d.None? {
      out := Bare(Status.Internal, Some(resource), Some("digest"));
      UndigestedShows(p, s, sha, out);
      return;
    }
    var records := DecodeRecords(d.value.canon, HoldKind);
    out := if owned.Some?
           then Shown(Status.NotOwned, Some(resource), Some(d.value.hex), records, recs[owned.value].package)
           else Shown(Status.Ok, Some(resource), Some(d.value.hex), records, None);
    ReportShows(p, s, sha, d.value, out);
  }

  ghost predicate FirstHalf(pkgs: seq<Pkg>, i: nat) {
    i < |pkgs| && pkgs[i].state == HalfInstalled && NoneHalfInstalled(pkgs[..i])
  }

  method PreviewConfigure(pkgs: Option<seq<Pkg>>, sha: Encoder.Hash) returns (out: Shown)
    ensures pkgs.Some? && NoneHalfInstalled(pkgs.value) ==>
              Shows(CfgPlan(CfgRecords(pkgs.value)), Token("pending"), sha, out)
    ensures pkgs.Some? && !NoneHalfInstalled(pkgs.value) ==>
              exists i: nat :: FirstHalf(pkgs.value, i)
                               && out == Bare(Status.Broken, Some("pending"), Some(pkgs.value[i].name))
    ensures pkgs.None? ==> out == Bare(Status.Internal, Some("pending"), Some("cache"))
  {
    hide DecodeCanon, AnyOwned, CfgRecords, NoneHalfInstalled, Digestible, Encoder.Encodes, ListsPending;
    if pkgs.None? {
      return Bare(Status.Internal, Some("pending"), Some("cache"));
    }
    var recs, half := MapConfigure(pkgs.value);
    if half.Some? {
      return Bare(Status.Broken, Some("pending"), half);
    }
    ghost var p, s := CfgPlan(recs), Token("pending");
    if |recs| == 0 {
      return Bare(Status.NoOp, Some("pending"), None);
    }
    hide Shows;
    var owned := FindOwned(recs);
    var d := Encoder.DigestConfigure(recs, sha);
    if d.None? {
      out := Bare(Status.Internal, Some("pending"), Some("digest"));
      UndigestedShows(p, s, sha, out);
      return;
    }
    var records := DecodeRecords(d.value.canon, CfgKind);
    out := if owned.Some?
           then Shown(Status.NotOwned, Some("pending"), Some(d.value.hex), records, recs[owned.value].package)
           else Shown(Status.Ok, Some("pending"), Some(d.value.hex), records, None);
    ReportShows(p, s, sha, d.value, out);
  }

  // ---- agreement ---------------------------------------------------------------------------

  /** On the same plan and subject, the preview reports ok exactly when the plan step goes on
      to redeem, and then with the very verb, resource and hash of the redemption. */
  lemma PreviewMatchesPlanStep(p: Plan, s: Subject, sha: Encoder.Hash, w: Intent, out: Shown)
    requires Shows(p, s, sha, out)
    ensures out.status == Status.Ok <==> Settled(p, s, sha).None?
    ensures out.status == Status.Ok ==>
              var req := Binding(p, s, sha, w);
              req.operation == p.Verb() && out.resource == Some(req.resource) && out.hash == Some(req.hash)
  {
    hide Encodable, Canonical, SubjectOk, Invariance.SortRecords;
    PolicyNeverWaits(p);
    hide PolicyOf;
  }

  lemma PolicyNeverWaits(p: Plan)
    ensures PolicyOf(p) !in {PlanNoOp, PlanNoIntent, PlanInternal}
  {
  }

  /** The two differ only in precedence: a plan whose policy fails is reported as such by the
      plan step even if it cannot be digested, and an empty plan as empty even without a
      resource; the preview reports both as internal. */
  lemma WhereTheyDiffer(p: Plan, s: Subject, sha: Encoder.Hash)
    ensures var settled := Settled(p, s, sha);
            PreviewStatus(p, s, sha) != (if settled.Some? then Status.RefusalStatus(settled.value) else Status.Ok) <==>
            || (p.Records() != [] && PolicyOf(p) != PlanOk && !(SubjectOk(s) && Digestible(p, sha)))
            || (p.Records() == [] && !SubjectOk(s))
  {
    hide Digestible, SubjectOk;
    PolicyNeverWaits(p);
    hide PolicyOf;
  }

  /** No two byte strings hash alike. */
  ghost predicate Injective(sha: Encoder.Hash) {
    forall a, b :: sha(a).Some? && sha(a) == sha(b) ==> a == b
  }

  /** The binding issued for a previewed plan. */
  ghost predicate Issued(req: RedeemReq, p: Plan, shown: Shown) {
    req.operation == p.Verb() && Some(req.resource) == shown.resource && Some(req.hash) == shown.hash
  }

  /** What was shown is what is redeemed. If the broker accepts only the binding of a
      previewed plan, and the hash is injective, then a successful redemption of any plan
      means that its verb and its multiset of normalised records are the ones shown. */
  lemma RedeemedIsPreviewed(p: Plan, sp: Subject, out: Shown, q: Plan, sq: Subject, sha: Encoder.Hash,
                            w: Intent, call: seq<Event>)
    requires Injective(sha) && Shows(p, sp, sha, out) && out.status == Status.Ok
    requires Authorised(q, sq, sha, w, call) && Issued(call[0].req, p, out)
    ensures q.Verb() == p.Verb() && ResourceOf(sq) == ResourceOf(sp)
    ensures multiset(Invariance.Views(q.Records())) == multiset(Invariance.Views(p.Records()))
    ensures multiset(Invariance.Views(q.Records())) == multiset(out.records)
  {
    Story.AuthorisedIsDigestible(q, sq, sha, w, call);
    PreviewMatchesPlanStep(p, sp, sha, w, out);
    SettledNone(p, sp, sha);
    hide Authorised, Settled, PreviewStatus, PolicyOf, ResourceOf;
    SameHashSamePlan(p, q, sha);
    ShownRecords(p);
  }

  lemma SettledNone(p: Plan, s: Subject, sha: Encoder.Hash)
    ensures Settled(p, s, sha).None? ==> Digestible(p, sha) && p.Records() != []
  {
    hide Digestible, PolicyOf;
  }

  /** Under an injective hash, equal hashes mean the same plan, and the same plan in any
      order has the same hash. */
  lemma SameHashSamePlan(p: Plan, q: Plan, sha: Encoder.Hash)
    requires Digestible(p, sha) && Digestible(q, sha) && Injective(sha)
    ensures sha(Canonical(p)) == sha(Canonical(q)) <==>
            p.Verb() == q.Verb() && multiset(Invariance.Views(p.Records())) == multiset(Invariance.Views(q.Records()))
  {
    hide InDomain, Canonical, Invariance.Views;
    Invariance.EqualBytesIffSamePlan(p, q);
  }

  lemma ShownRecords(p: Plan)
    ensures multiset(Invariance.Views(Invariance.SortRecords(p.Records()))) == multiset(Invariance.Views(p.Records()))
  {
    hide Invariance.ViewOf, Invariance.SortRecords;
    Invariance.SortRecordsTexts(p.Records());
    Invariance.ImagesAreMaps(p.Records());
    Invariance.ImagesAreMaps(Invariance.SortRecords(p.Records()));
    SameMap(p.Records(), Invariance.SortRecords(p.Records()));
  }

  lemma SameMap(a: seq<Record>, b: seq<Record>)
    requires multiset(a) == multiset(b)
    ensures multiset(Map(Invariance.ViewOf, a)) == multiset(Map(Invariance.ViewOf, b))
  {
    var same := (r: Record) => r;
    assert Map(same, a) == a && Map(same, b) == b;
    Invariance.MultisetTransfer(same, Invariance.ViewOf, a, b);
  }

  /** The targets too: for parsed requests, equal resources mean equal sets of names. */
  lemma RedeemedTargetsArePreviewed(a: seq<Str>, b: seq<Str>)
    requires Request.TargetList(a) && Request.TargetList(b)
    ensures ResourceOf(Targets(Pointers(a))) == ResourceOf(Targets(Pointers(b))) <==> Elems(a) == Elems(b)
  {
    hide Request.TargetList, CommaList;
    Request.ResourceNamesTheTargets(a, b);
  }

  /** For a parsed request the resource can always be computed. */
  lemma ParsedTargetsAreSubjects(targets: seq<Str>)
    requires Request.TargetList(targets)
    ensures SubjectOk(Targets(Pointers(targets)))
  {
    Request.TargetListHasResource(targets);
  }

  /** End to end: if the broker accepts only the binding of a previewed plan, then whenever a
      run starts to change the host, the plan it commits has the records that were shown, and
      that plan was computed from the very state the change starts on. */
  lemma CommittedIsShown(m: Story.Mechanism, s: Story.Story, p: Plan, sp: Subject, out: Shown,
                         sha: Encoder.Hash, w: Intent)
    requires Story.Told(m, s, sha, w) && s.post != []
    requires Injective(sha) && Shows(p, sp, sha, out) && out.status == Status.Ok
    requires s.call != [] && s.call[0].Called? && Issued(s.call[0].req, p, out)
    ensures s.plan.Verb() == p.Verb() && multiset(Invariance.Views(s.plan.Records())) == multiset(out.records)
    ensures Story.Faithful(m, s.db, s.plan, s.subject, s.work, sha)
  {
    WhatWasTold(m, s, sha, w);
    hide Story.Told, Story.Faithful, Shows, Authorised, Injective;
    RedeemedIsPreviewed(p, sp, out, s.plan, s.subject, sha, w, s.call);
  }

  lemma WhatWasTold(m: Story.Mechanism, s: Story.Story, sha: Encoder.Hash, w: Intent)
    requires Story.Told(m, s, sha, w) && s.post != []
    ensures Authorised(s.plan, s.subject, sha, w, s.call)
    ensures Story.Faithful(m, s.db, s.plan, s.subject, s.work, sha)
  {
    hide Story.Faithful, Authorised, Asks, Story.LockPrefix, Story.DpkgSuffix, Story.RefreshSuffix;
  }
}

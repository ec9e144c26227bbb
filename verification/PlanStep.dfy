/** The plan step of each mechanism: policy, resource, digest, then redemption, in that order. */
module PlanStep {
  import opened Bytes
  import opened Names
  import opened Canon
  import opened Policy
  import opened Host
  import opened Redeem
  import Encoder

  datatype PlanResult = PlanOk | PlanNoOp | PlanNotOwned | PlanHeld | PlanProtected | PlanNoIntent | PlanInternal

  /** What a request says about who asks and under which intent. */
  datatype Intent = Intent(receipt: Str, uid: nat, planSchema: int, cid: Str)

  ghost predicate OwnedName(p: CStr) {
    p.Some? && RaptGrammar(p.value)
  }

  function PackageOf(r: Record): CStr {
    if r.Src? then None else r.package
  }

  ghost predicate AnyOwned(rs: seq<Record>) {
    exists i :: 0 <= i < |rs| && OwnedName(PackageOf(rs[i]))
  }

  /** The policy of the mechanism, over its records: everything for transactions, ownership
      for holds and configure, nothing for a source refresh. */
  ghost function PolicyOf(p: Plan): PlanResult {
    match p
    case TxnPlan(_, recs) =>
      (match Judge(recs)
       case Allowed => PlanOk
       case NotOwned => PlanNotOwned
       case Held => PlanHeld
       case Protected => PlanProtected)
    case HoldPlan(_, recs) => if AnyOwned(recs) then PlanNotOwned else PlanOk
    case CfgPlan(recs) => if AnyOwned(recs) then PlanNotOwned else PlanOk
    case UpdPlan(_) => PlanOk
  }

  /** A refused plan is refused for its first record that the policy rejects. */
  ghost predicate NamesOffender(p: Plan, pr: PlanResult, detail: CStr) {
    match p
    case TxnPlan(_, recs) =>
      && (pr == PlanNotOwned ==> exists i: nat :: First(recs, Owned, i) && detail == recs[i].package)
      && (pr == PlanHeld ==> exists i: nat :: First(recs, HoldFlagged, i) && detail == recs[i].package)
      && (pr == PlanProtected ==> exists i: nat :: First(recs, ProtectedRemoval, i) && detail == recs[i].package)
    case HoldPlan(_, recs) => pr == PlanNotOwned ==> exists i: nat :: FirstOwned(recs, i) && detail == recs[i].package
    case CfgPlan(recs) => pr == PlanNotOwned ==> exists i: nat :: FirstOwned(recs, i) && detail == recs[i].package
    case UpdPlan(_) => true
  }

  /** Record `i` is the first rapt-owned one. */
  ghost predicate FirstOwned(rs: seq<Record>, i: nat) {
    i < |rs| && OwnedName(PackageOf(rs[i])) && !AnyOwned(rs[..i])
  }

  /** What the resource depends on: target names, or a fixed token. */
  datatype Subject = Targets(names: seq<CStr>) | Token(token: Str)

  ghost predicate SubjectOk(s: Subject) {
    s.Targets? ==> Encoder.ResourceOk(s.names)
  }

  function ResourceOf(s: Subject): Str {
    match s
    case Targets(names) => CommaList(NzAll(names))
    case Token(t) => t
  }

  ghost predicate Digestible(p: Plan, sha: Encoder.Hash) {
    Encodable(p) && sha(Canonical(p)).Some?
  }

  /** The result that settles the matter before the receipt is touched, if there is one. */
  ghost function Settled(p: Plan, s: Subject, sha: Encoder.Hash): Option<PlanResult> {
    if p.Records() == [] then Some(PlanNoOp)
    else if PolicyOf(p) != PlanOk then Some(PolicyOf(p))
    else if SubjectOk(s) && Digestible(p, sha) then None
    else Some(PlanInternal)
  }

  /** The redemption that plan `p` on subject `s` asks for. */
  ghost function Binding(p: Plan, s: Subject, sha: Encoder.Hash, w: Intent): RedeemReq
    requires Digestible(p, sha)
  {
    RedeemReq(w.receipt, w.uid, p.Verb(), ResourceOf(s), w.planSchema, sha(Canonical(p)).value)
  }

  /** The redeem tail: PlanOk exactly on the strict reply, with the request's cid; after a
      refusal the cid is echoed; after anything unknown it is cleared. */
  ghost predicate Tail(run: seq<Event>, req: RedeemReq, cid: Str, pr: PlanResult, detail: CStr, outCid: Str) {
    if run == [] then pr == PlanNoIntent && detail == Some("protocol") && outCid == []
    else
      && |run| == 1 && run[0].Called? && run[0].req == req
      && exists st: Status, code: Str ::
           && Classified(run[0].reply, cid, st, code)
           && detail == Some(code) && Follows(st, cid, pr, outCid)
  }

  ghost predicate Follows(st: Status, cid: Str, pr: PlanResult, outCid: Str) {
    && pr == (if st == RedeemOk then PlanOk else PlanNoIntent)
    && outCid == if st == RedeemOk then cid else if st == Refused then CidEcho(Some(cid)) else []
  }

  /** The whole plan step, for any mechanism. */
  ghost predicate Step(p: Plan, s: Subject, sha: Encoder.Hash, w: Intent, run: seq<Event>,
                       pr: PlanResult, detail: CStr, cidIn: Str, outCid: Str)
  {
    var settled := Settled(p, s, sha);
    if settled.Some? then run == [] && pr == settled.value && outCid == cidIn
    else Tail(run, Binding(p, s, sha, w), w.cid, pr, detail, outCid)
  }

  method RedeemTail(h: Machine, req: RedeemReq, cid: Str, cidIn: Str)
    returns (pr: PlanResult, detail: CStr, outCid: Str, ghost run: seq<Event>)
    modifies h`step, h`failed, h`outer, h`db, h`trace
    ensures h.Kept() && h.trace == old(h.trace) + run
    ensures Tail(run, req, cid, pr, detail, outCid)
    ensures run == [] ==> h.failed > old(h.failed)
    ensures Dialled(h.fates, old(h.step), h.step, run)
  {
    hide Classified, Dialled;
    var st, code;
    st, code, outCid, run := Spend(h, req, cid, cidIn);
    detail := Some(code);
    if st == RedeemOk {
      detail := Some("ok");
      pr := PlanOk;
      OkCode(run[0].reply, cid, code);
      assert Follows(st, cid, pr, outCid);
      return;
    }
    if st == Refused {
      outCid := CidEcho(Some(cid));
    } else {
      outCid := [];
    }
    pr := PlanNoIntent;
    assert Follows(st, cid, pr, outCid);
  }

  lemma OkCode(reply: Reply, cid: Str, code: Str)
    requires Classified(reply, cid, RedeemOk, code)
    ensures code == "ok"
  {
  }

  /** pkgx_plan_and_redeem. */
  method PlanAndRedeemTxn(h: Machine, verb: Str, recs: seq<TxnRecord>, targets: seq<CStr>, w: Intent,
                          sha: Encoder.Hash, cidIn: Str)
    returns (pr: PlanResult, detail: CStr, outCid: Str, ghost run: seq<Event>)
    modifies h`step, h`failed, h`outer, h`db, h`trace
    ensures h.Kept() && h.trace == old(h.trace) + run
    ensures Step(TxnPlan(Some(verb), recs), Targets(targets), sha, w, run, pr, detail, cidIn, outCid)
    ensures Settled(TxnPlan(Some(verb), recs), Targets(targets), sha).None? ==>
              Dialled(h.fates, old(h.step), h.step, run)
    ensures pr == PlanNoOp ==> detail == Some("no_op")
    ensures NamesOffender(TxnPlan(Some(verb), recs), pr, detail)
  {
    hide Judge, Encodable, Canonical, Encoder.ResourceOk, Tail, Dialled;
    run := [];
    if |recs| == 0 {
      return PlanNoOp, Some("no_op"), cidIn, run;
    }
    var verdict, offender := PolicyCheck(recs);
    match verdict {
      case Allowed =>
      case NotOwned => return PlanNotOwned, offender, cidIn, run;
      case Held => return PlanHeld, offender, cidIn, run;
      case Protected => return PlanProtected, offender, cidIn, run;
    }
    var resource := Encoder.Resource(targets);
    if resource.None? {
      return PlanInternal, Some([]), cidIn, run;
    }
    var d := Encoder.DigestPkgTxn(Some(verb), recs, sha);
    if d.None? {
      return PlanInternal, Some([]), cidIn, run;
    }
    pr, detail, outCid, run :=
      RedeemTail(h, RedeemReq(w.receipt, w.uid, verb, resource.value, w.planSchema, d.value.hex), w.cid, cidIn);
    TailResults(run, pr, detail, outCid);
  }

  lemma TailResults(run: seq<Event>, pr: PlanResult, detail: CStr, outCid: Str)
    ensures forall req, cid :: Tail(run, req, cid, pr, detail, outCid) ==> pr == PlanOk || pr == PlanNoIntent
  {
    hide Classified;
  }

  /** pkgx_plan_and_redeem_update. */
  method PlanAndRedeemUpdate(h: Machine, srcs: seq<SrcRecord>, resourceToken: CStr, w: Intent,
                             sha: Encoder.Hash, cidIn: Str)
    returns (pr: PlanResult, detail: CStr, outCid: Str, ghost run: seq<Event>)
    modifies h`step, h`failed, h`outer, h`db, h`trace
    ensures h.Kept() && h.trace == old(h.trace) + run
    ensures Step(UpdPlan(srcs), Token(Nz(resourceToken)), sha, w, run, pr, detail, cidIn, outCid)
    ensures Settled(UpdPlan(srcs), Token(Nz(resourceToken)), sha).None? ==> Dialled(h.fates, old(h.step), h.step, run)
    ensures pr == PlanNoOp ==> detail == Some("no_op")
  {
    hide Encodable, Canonical, Tail, Dialled;
    run := [];
    if |srcs| == 0 {
      return PlanNoOp, Some("no_op"), cidIn, run;
    }
    var d := Encoder.DigestUpdate(srcs, sha);
    if d.None? {
      return PlanInternal, Some([]), cidIn, run;
    }
    var resource := Nz(resourceToken);
    pr, detail, outCid, run :=
      RedeemTail(h, RedeemReq(w.receipt, w.uid, "apt.update", resource, w.planSchema, d.value.hex), w.cid, cidIn);
    TailResults(run, pr, detail, outCid);
  }

  /** The ownership loop of hold and configure: the first rapt-owned record. */
  method FindOwned(recs: seq<Record>) returns (at: Option<nat>)
    ensures at.None? <==> !AnyOwned(recs)
    ensures at.Some? ==> FirstOwned(recs, at.value)
  {
    hide RaptGrammar;
    for i := 0 to |recs|
      invariant forall j :: 0 <= j < i ==> !OwnedName(PackageOf(recs[j]))
    {
      var nm := Nz(PackageOf(recs[i]));
      EmptyIsNotOwned();
      var owned := IsRaptOwned(nm);
      if owned {
        return Some(i);
      }
    }
    at := None;
  }

  /** pkgx_plan_and_redeem_hold. */
  method PlanAndRedeemHold(h: Machine, verb: Str, holds: seq<HoldRecord>, targets: seq<CStr>, w: Intent,
                           sha: Encoder.Hash, cidIn: Str)
    returns (pr: PlanResult, detail: CStr, outCid: Str, ghost run: seq<Event>)
    modifies h`step, h`failed, h`outer, h`db, h`trace
    ensures h.Kept() && h.trace == old(h.trace) + run
    ensures Step(HoldPlan(Some(verb), holds), Targets(targets), sha, w, run, pr, detail, cidIn, outCid)
    ensures Settled(HoldPlan(Some(verb), holds), Targets(targets), sha).None? ==>
              Dialled(h.fates, old(h.step), h.step, run)
    ensures pr == PlanNoOp ==> detail == Some("no_op")
    ensures NamesOffender(HoldPlan(Some(verb), holds), pr, detail)
  {
    hide Encodable, Canonical, Encoder.ResourceOk, Tail, RaptGrammar, AnyOwned, Dialled;
    run := [];
    if |holds| == 0 {
      return PlanNoOp, Some("no_op"), cidIn, run;
    }
    var owned := FindOwned(holds);
    if owned.Some? {
      return PlanNotOwned, holds[owned.value].package, cidIn, run;
    }
    var resource := Encoder.Resource(targets);
    if resource.None? {
      return PlanInternal, Some([]), cidIn, run;
    }
    var d := Encoder.DigestHold(Some(verb), holds, sha);
    if d.None? {
      return PlanInternal, Some([]), cidIn, run;
    }
    pr, detail, outCid, run :=
      RedeemTail(h, RedeemReq(w.receipt, w.uid, verb, resource.value, w.planSchema, d.value.hex), w.cid, cidIn);
    TailResults(run, pr, detail, outCid);
  }

  /** pkgx_plan_and_redeem_configure. */
  method PlanAndRedeemConfigure(h: Machine, cfgs: seq<CfgRecord>, w: Intent, sha: Encoder.Hash, cidIn: Str)
    returns (pr: PlanResult, detail: CStr, outCid: Str, ghost run: seq<Event>)
    modifies h`step, h`failed, h`outer, h`db, h`trace
    ensures h.Kept() && h.trace == old(h.trace) + run
    ensures Step(CfgPlan(cfgs), Token("pending"), sha, w, run, pr, detail, cidIn, outCid)
    ensures Settled(CfgPlan(cfgs), Token("pending"), sha).None? ==> Dialled(h.fates, old(h.step), h.step, run)
    ensures pr == PlanNoOp ==> detail == Some("no_op")
    ensures NamesOffender(CfgPlan(cfgs), pr, detail)
  {
    hide Encodable, Canonical, Tail, RaptGrammar, AnyOwned, Dialled;
    run := [];
    if |cfgs| == 0 {
      return PlanNoOp, Some("no_op"), cidIn, run;
    }
    var owned := FindOwned(cfgs);
    if owned.Some? {
      return PlanNotOwned, cfgs[owned.value].package, cidIn, run;
    }
    var d := Encoder.DigestConfigure(cfgs, sha);
    if d.None? {
      return PlanInternal, Some([]), cidIn, run;
    }
    pr, detail, outCid, run :=
      RedeemTail(h, RedeemReq(w.receipt, w.uid, "apt.configure", "pending", w.planSchema, d.value.hex), w.cid, cidIn);
    TailResults(run, pr, detail, outCid);
  }

  // ---- what the plan step guarantees ----------------------------------------------------

  /** Nothing settled the plan earlier, and the one call to the broker was for exactly this
      plan's binding. */
  ghost predicate Asks(p: Plan, s: Subject, sha: Encoder.Hash, w: Intent, run: seq<Event>) {
    if Settled(p, s, sha).Some? then false
    else |run| == 1 && run[0].Called? && run[0].req == Binding(p, s, sha, w)
  }

  /** ... and that call drew the strict reply for this cid. */
  ghost predicate Authorised(p: Plan, s: Subject, sha: Encoder.Hash, w: Intent, run: seq<Event>) {
    Asks(p, s, sha, w, run) && StrictOk(run[0].reply, w.cid)
  }

  /** A plan step ends in PlanOk exactly when it was authorised. */
  lemma OkMeansRedeemed(p: Plan, s: Subject, sha: Encoder.Hash, w: Intent, run: seq<Event>,
                        pr: PlanResult, detail: CStr, cidIn: Str, outCid: Str)
    requires Step(p, s, sha, w, run, pr, detail, cidIn, outCid)
    ensures pr == PlanOk <==> Authorised(p, s, sha, w, run)
    ensures pr == PlanOk ==> outCid == w.cid && |outCid| == CID_LEN
  {
    SettledMakesNoCall(p, s, sha, w, run, pr, detail, cidIn, outCid);
    hide Settled, Binding, OkReply, Encodable, ForeignOk, Refusal;
  }

  /** The cid discipline of the step: with a valid cid seeded, the cid is cleared exactly
      when redemption was reached and its outcome is unknown or foreign. */
  lemma CidDiscipline(p: Plan, s: Subject, sha: Encoder.Hash, w: Intent, run: seq<Event>,
                      pr: PlanResult, detail: CStr, outCid: Str)
    requires Step(p, s, sha, w, run, pr, detail, w.cid, outCid) && CidGrammar(w.cid)
    ensures outCid == w.cid || outCid == []
    ensures outCid == [] <==>
            && Settled(p, s, sha).None? && pr == PlanNoIntent
            && (run == [] || forall c :: !Refusal(run[0].reply, c))
  {
    hide Settled, Binding, StrictOk, ForeignOk, Refusal;
    assert |w.cid| == CID_LEN && w.cid != [];
  }

  /** A plan of nothing, a refused policy, a bad resource or digest: no call is made. */
  lemma SettledMakesNoCall(p: Plan, s: Subject, sha: Encoder.Hash, w: Intent, run: seq<Event>,
                           pr: PlanResult, detail: CStr, cidIn: Str, outCid: Str)
    requires Step(p, s, sha, w, run, pr, detail, cidIn, outCid)
    ensures Settled(p, s, sha).Some? <==> pr != PlanOk && pr != PlanNoIntent
    ensures Settled(p, s, sha).Some? ==> run == [] && pr == Settled(p, s, sha).value
    ensures run != [] ==> run[0].Called? && Asks(p, s, sha, w, run)
  {
    hide Classified, Encodable, Canonical, Judge, AnyOwned;
  }
}

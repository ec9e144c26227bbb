/** The policy over a resolved transaction: ownership, then holds, then protection. */
module Policy {
  import opened Bytes
  import opened Names
  import opened Canon
  import Invariance

  datatype Verdict = Allowed | NotOwned | Held | Protected

  ghost predicate Owned(r: TxnRecord) {
    r.package.Some? && RaptGrammar(r.package.value)
  }

  predicate HasFlag(r: TxnRecord, flag: Str) {
    Some(flag) in r.flags
  }

  predicate Removal(action: CStr) {
    action == Some("remove") || action == Some("purge")
  }

  predicate HoldFlagged(r: TxnRecord) {
    HasFlag(r, "hold")
  }

  predicate ProtectedRemoval(r: TxnRecord) {
    Removal(r.action) && (HasFlag(r, "essential") || HasFlag(r, "protected"))
  }

  ghost predicate AnyRecord(recs: seq<TxnRecord>, p: TxnRecord -> bool) {
    exists i :: 0 <= i < |recs| && p(recs[i])
  }

  /** The verdict on a whole transaction. */
  ghost function Judge(recs: seq<TxnRecord>): Verdict {
    if AnyRecord(recs, Owned) then NotOwned
    else if AnyRecord(recs, HoldFlagged) then Held
    else if AnyRecord(recs, ProtectedRemoval) then Protected
    else Allowed
  }

  /** Record `i` is the first one that satisfies `p`. */
  ghost predicate First(recs: seq<TxnRecord>, p: TxnRecord -> bool, i: nat) {
    i < |recs| && p(recs[i]) && forall j :: 0 <= j < i ==> !p(recs[j])
  }

  method CheckFlag(r: TxnRecord, flag: Str) returns (has: bool)
    ensures has <==> HasFlag(r, flag)
  {
    for i := 0 to |r.flags|
      invariant Some(flag) !in r.flags[..i]
    {
      if r.flags[i].Some? && r.flags[i].value == flag {
        return true;
      }
    }
    return false;
  }

  /** pkgx_policy_check: the verdict, and the first record that earned it. */
  method PolicyCheck(recs: seq<TxnRecord>) returns (v: Verdict, offender: CStr)
    ensures v == Judge(recs)
    // ownership goes first, then holds, then protection
    ensures v == NotOwned <==>
              exists i :: 0 <= i < |recs| && recs[i].package.Some? && RaptGrammar(recs[i].package.value)
    ensures v == Held <==> v != NotOwned && exists i :: 0 <= i < |recs| && Some("hold") in recs[i].flags
    ensures v == Protected <==>
              && v != NotOwned && v != Held
              && exists i :: 0 <= i < |recs| && (recs[i].action == Some("remove") || recs[i].action == Some("purge"))
                             && (Some("essential") in recs[i].flags || Some("protected") in recs[i].flags)
    ensures v == Allowed ==> offender == None
    ensures v == NotOwned ==> exists i: nat :: First(recs, Owned, i) && offender == recs[i].package
    ensures v == Held ==> exists i: nat :: First(recs, HoldFlagged, i) && offender == recs[i].package
    ensures v == Protected ==> exists i: nat :: First(recs, ProtectedRemoval, i) && offender == recs[i].package
  {
    hide RaptGrammar;
    for i := 0 to |recs|
      invariant forall j :: 0 <= j < i ==> !Owned(recs[j])
    {
      if recs[i].package.Some? {
        var owned := IsRaptOwned(recs[i].package.value);
        if owned {
          assert First(recs, Owned, i);
          return NotOwned, recs[i].package;
        }
      }
    }
    for i := 0 to |recs|
      invariant forall j :: 0 <= j < i ==> !HoldFlagged(recs[j])
    {
      var held := CheckFlag(recs[i], "hold");
      if held {
        assert First(recs, HoldFlagged, i);
        return Held, recs[i].package;
      }
    }
    for i := 0 to |recs|
      invariant forall j :: 0 <= j < i ==> !ProtectedRemoval(recs[j])
    {
      var essential := CheckFlag(recs[i], "essential");
      var prot := CheckFlag(recs[i], "protected");
      if Removal(recs[i].action) && (essential || prot) {
        assert First(recs, ProtectedRemoval, i);
        return Protected, recs[i].package;
      }
    }
    return Allowed, None;
  }

  // ---- the digest binds the verdict ------------------------------------------------

  lemma FlagIsElement(r: TxnRecord, flag: Str)
    requires flag != []
    ensures HasFlag(r, flag) <==> flag in Elems(NzAll(r.flags))
  {
    var items := NzAll(r.flags);
    if flag in items {
      var i :| 0 <= i < |items| && items[i] == flag;
      assert r.flags[i] == Some(flag);
    }
    if Some(flag) in r.flags {
      var i :| 0 <= i < |r.flags| && r.flags[i] == Some(flag);
      assert items[i] == flag;
    }
  }

  lemma FlagFromView(r: TxnRecord, q: TxnRecord, flag: Str)
    requires Elems(NzAll(r.flags)) == Elems(NzAll(q.flags)) && flag != []
    ensures HasFlag(r, flag) == HasFlag(q, flag)
  {
    FlagIsElement(r, flag);
    FlagIsElement(q, flag);
  }

  /** The policy sees nothing of a record but its normal form. */
  lemma VerdictFromView(r: TxnRecord, q: TxnRecord)
    requires RecordOk(r) && RecordOk(q) && Invariance.ViewOf(r) == Invariance.ViewOf(q)
    ensures Owned(r) == Owned(q) && HoldFlagged(r) == HoldFlagged(q) && ProtectedRemoval(r) == ProtectedRemoval(q)
  {
    hide RecordOk, HasFlag, RaptGrammar, Invariance.ViewOf;
    Invariance.FlagsCompareAsSets(r, q);
    FlagFromView(r, q, "hold");
    FlagFromView(r, q, "essential");
    FlagFromView(r, q, "protected");
    EmptyIsNotOwned();
  }

  lemma EmptyIsNotOwned()
    ensures !RaptGrammar([])
  {
  }

  lemma SomeCarriesOver(a: seq<TxnRecord>, b: seq<TxnRecord>, p: TxnRecord -> bool)
    requires RecordsOk(a) && RecordsOk(b)
    requires multiset(Invariance.Views(a)) == multiset(Invariance.Views(b))
    requires forall r: TxnRecord, q: TxnRecord ::
      RecordOk(r) && RecordOk(q) && Invariance.ViewOf(r) == Invariance.ViewOf(q) ==> p(r) == p(q)
    ensures AnyRecord(a, p) ==> AnyRecord(b, p)
  {
    hide RecordOk, Invariance.ViewOf;
    if AnyRecord(a, p) {
      var i :| 0 <= i < |a| && p(a[i]);
      assert Invariance.Views(a)[i] in multiset(Invariance.Views(b));
      var j :| 0 <= j < |b| && Invariance.Views(b)[j] == Invariance.ViewOf(a[i]);
    }
  }

  /** Plans with equal bytes get equal verdicts: what was approved by hash cannot be judged
      differently by policy later. */
  lemma EqualBytesSameVerdict(verb: CStr, a: seq<TxnRecord>, b: seq<TxnRecord>)
    requires InDomain(TxnPlan(verb, a)) && InDomain(TxnPlan(verb, b))
    requires Canonical(TxnPlan(verb, a)) == Canonical(TxnPlan(verb, b))
    ensures Judge(a) == Judge(b)
  {
    hide RecordOk, Invariance.ViewOf, Owned, HoldFlagged, ProtectedRemoval, Canonical;
    Invariance.EqualBytesIffSamePlan(TxnPlan(verb, a), TxnPlan(verb, b));
    forall r: TxnRecord, q: TxnRecord | RecordOk(r) && RecordOk(q) && Invariance.ViewOf(r) == Invariance.ViewOf(q)
      ensures Owned(r) == Owned(q) && HoldFlagged(r) == HoldFlagged(q) && ProtectedRemoval(r) == ProtectedRemoval(q)
    {
      VerdictFromView(r, q);
    }
    SomeCarriesOver(a, b, Owned);
    SomeCarriesOver(b, a, Owned);
    SomeCarriesOver(a, b, HoldFlagged);
    SomeCarriesOver(b, a, HoldFlagged);
    SomeCarriesOver(a, b, ProtectedRemoval);
    SomeCarriesOver(b, a, ProtectedRemoval);
  }
}

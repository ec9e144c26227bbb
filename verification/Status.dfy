/** The commit gate and the classification of what happened. */
module Status {
  import opened PlanStep

  datatype AptStatus =
    | Ok | NoOp | Locked | NotOwned | Held | Protected | NoIntent | ResolveFailed
    | NotApplied | CommitFailed | Broken | Internal

  datatype EffectStatus = EffectOk | EffectNoOp | EffectRefused | EffectCommitFailed

  // ---- the gate -----------------------------------------------------------------

  /** Whether the gate calls the committer. */
  predicate Admits(pr: PlanResult, hasCommitter: bool, cidValid: bool) {
    pr == PlanOk && hasCommitter && cidValid
  }

  /** What pkgx_effect_gate returns, given what the committer it called returned. */
  function Gate(pr: PlanResult, hasCommitter: bool, cidValid: bool, committed: bool): (st: EffectStatus)
    ensures st == EffectOk <==> Admits(pr, hasCommitter, cidValid) && committed
    ensures st == EffectCommitFailed <==> pr == PlanOk && !(hasCommitter && cidValid && committed)
    ensures st == EffectNoOp <==> pr == PlanNoOp
  {
    if Admits(pr, hasCommitter, cidValid) then (if committed then EffectOk else EffectCommitFailed)
    else if pr == PlanOk then EffectCommitFailed
    else if pr == PlanNoOp then EffectNoOp
    else EffectRefused
  }

  // ---- classifiers -----------------------------------------------------------------

  function TxnClassify(entered: bool, began: bool, committedOk: bool, broken: bool): (st: AptStatus)
    ensures st in {Ok, CommitFailed, Broken} <==> entered && began
    ensures st == NotApplied <==> entered && !began
    ensures st == Ok <==> entered && began && committedOk && !broken
    ensures st == Broken <==> entered && began && broken
  {
    if !entered then Internal
    else if !began then NotApplied
    else if broken then Broken
    else if committedOk then Ok
    else CommitFailed
  }

  function UpdateClassify(entered: bool, refreshOk: bool, readable: bool): (st: AptStatus)
    ensures st in {Ok, CommitFailed} <==> entered
    ensures st == Ok <==> entered && refreshOk && readable
  {
    if !entered then Internal else if refreshOk && readable then Ok else CommitFailed
  }

  function HoldClassify(entered: bool, applied: bool, matches: bool): (st: AptStatus)
    ensures st in {Ok, CommitFailed} <==> entered
    ensures st == Ok <==> entered && applied && matches
  {
    if !entered then Internal else if applied && matches then Ok else CommitFailed
  }

  datatype LockOutcome = LockOutcome(began: bool, committedOk: bool)

  /** pkgx_commit_lock_handoff. */
  function LockHandoff(unlocked: bool, completed: bool, relocked: bool): (o: LockOutcome)
    ensures o.committedOk ==> o.began
  {
    LockOutcome(unlocked, unlocked && completed && relocked)
  }

  /** What the entrypoint answers when the plan step settled the run. */
  function RefusalStatus(pr: PlanResult): AptStatus
    requires pr != PlanOk
  {
    match pr
    case PlanNoOp => NoOp
    case PlanNotOwned => NotOwned
    case PlanHeld => Held
    case PlanProtected => Protected
    case PlanNoIntent => NoIntent
    case PlanInternal => Internal
  }

  /** The classifier never reports success on a lost lock, nor a clean failure of the host
      when nothing began. */
  lemma HandoffIsHonest(unlocked: bool, completed: bool, relocked: bool, broken: bool)
    ensures var o := LockHandoff(unlocked, completed, relocked);
            var st := TxnClassify(true, o.began, o.committedOk, broken);
            && (st == Ok <==> unlocked && completed && relocked && !broken)
            && (st == NotApplied <==> !unlocked)
            && (st == Broken <==> unlocked && broken)
  {
  }
}

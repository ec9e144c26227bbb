/** Committing through the gate, and looking at what came of it. */
module Commits {
  import opened Bytes
  import opened Names
  import opened Builders
  import opened Selections
  import opened Host
  import opened PlanStep
  import opened Status
  import opened Story
  import Spawn

  // ---- commits ---------------------------------------------------------------------

  /** How far txn_commit came. */
  datatype TxnCtx = TxnCtx(entered: bool, fetched: bool, began: bool, committedOk: bool)

  /** txn_commit: set up, fetch, hand over the inner lock, run dpkg, take the lock back. */
  method TxnCommit(h: Machine, dc: seq<Planned>) returns (c: TxnCtx, ghost post: seq<Event>)
    requires h.outer == Us
    modifies h`step, h`failed, h`outer, h`db, h`inner, h`trace, h`result
    ensures h.outer == Us && h.trace == old(h.trace) + post
    ensures DpkgSuffix(post, Install(dc), old(h.db))
    ensures c.entered && (c.began <==> HasStarted(post)) && (!c.began ==> post == [])
    ensures c.began <==> CallsOk(h.fates, old(h.step), 4)
    ensures c.committedOk <==> c.began && |post| == 3 && h.result
    ensures h.failed >= old(h.failed) && (|post| != 3 ==> h.failed > old(h.failed))
  {
    FourCalls(h.fates, h.step);
    hide CallsOk, HasStarted, DpkgSuffix;
    NothingStarted();
    c, post := TxnCtx(true, false, false, false), [];
    var ready := h.Try();        // dep cache, package cache, sources, package manager, records
    if !ready {
      return;
    }
    var queued := h.Try();       // GetArchives
    if !queued {
      return;
    }
    var fetched := h.Try();      // fetcher.Run()
    if !fetched {
      return;
    }
    c := c.(fetched := true);
    var unlocked, completed, relocked;
    unlocked, completed, relocked, post := HandOver(h, Install(dc));
    var o := LockHandoff(unlocked, completed, relocked);
    c := c.(began := o.began, committedOk := o.committedOk);
  }

  /** The inner lock is released, the work runs, the inner lock is taken back. */
  method HandOver(h: Machine, work: Work)
    returns (unlocked: bool, completed: bool, relocked: bool, ghost post: seq<Event>)
    requires h.outer == Us
    modifies h`step, h`failed, h`outer, h`db, h`inner, h`trace, h`result
    ensures h.outer == Us && h.trace == old(h.trace) + post
    ensures DpkgSuffix(post, work, old(h.db))
    ensures unlocked == h.fates(old(h.step)).ok && (unlocked <==> HasStarted(post)) && (!unlocked ==> post == [])
    ensures unlocked && completed && relocked <==> |post| == 3 && h.result
    ensures |post| == 3 ==> unlocked
    ensures h.failed >= old(h.failed) && (|post| != 3 ==> h.failed > old(h.failed))
  {
    post := [];
    unlocked := h.UnLockInner();
    completed, relocked := false, false;
    if unlocked {
      post := [InnerReleased];
      ghost var at;
      completed, at := h.Start(work);
      post := post + [Started(work, at, true, false)];
      relocked := h.LockInner();
      if relocked {
        post := post + [InnerTaken];
      }
      assert post[1].Started?;
    }
  }

  lemma FourCalls(fates: nat -> Fate, i: nat)
    ensures CallsOk(fates, i, 4) <==> fates(i).ok && fates(i + 1).ok && fates(i + 2).ok && fates(i + 3).ok
  {
    if fates(i).ok && fates(i + 1).ok && fates(i + 2).ok && fates(i + 3).ok {
      forall j: nat | i <= j < i + 4 ensures fates(j).ok {
        assert j == i || j == i + 1 || j == i + 2 || j == i + 3;
      }
    }
  }

  datatype DpkgCtx = DpkgCtx(entered: bool, issued: bool, ranOk: bool)

  const FRONTEND_LOCKED: Str := "DPKG_FRONTEND_LOCKED" + [EQUALS] + "true"

  /** The child took all of its input and exited with 0. */
  ghost predicate ChildDone(h: Machine, input: CStr)
    reads h
  {
    Spawn.Delivered(h, input) && h.exit == Some(0)
  }

  /** The child was run with these arguments and told that the frontend lock is held. */
  ghost predicate ToldLocked(h: Machine, argv: seq<Str>)
    reads h
  {
    h.childArgv == argv && Spawn.Lookup(h.childEnv, "DPKG_FRONTEND_LOCKED") == Some("true")
  }

  const SET_SELECTIONS: seq<Str> := ["dpkg", "--set-selections"]
  const CONFIGURE_PENDING: seq<Str> := ["dpkg", "--configure", "--pending"]

  /** Whatever the process inherited, the child reads the lock as held by its parent. */
  lemma ChildIsToldLocked(environ: seq<Str>)
    ensures Spawn.Lookup(Spawn.ChildEnv(Some([FRONTEND_LOCKED]), environ), "DPKG_FRONTEND_LOCKED") == Some("true")
  {
    Spawn.ExtraWins("DPKG_FRONTEND_LOCKED", "true", environ, []);
  }

  /** The calls from the release of the inner lock to posix_spawn: six with input, four without. */
  function ChildCalls(input: CStr): (n: nat)
    ensures n == if input.Some? then 6 else 4
  {
    1 + Spawn.LaunchCalls(input, Some([FRONTEND_LOCKED]))
  }

  /** hold_commit and configure_commit: hand over the inner lock, run dpkg with the frontend
      lock declared held, take the inner lock back. */
  method DpkgCommit(h: Machine, argv: seq<Str>, work: Work, input: CStr) returns (c: DpkgCtx, ghost post: seq<Event>)
    requires h.outer == Us && h.Patient()
    modifies h`step, h`failed, h`outer, h`db, h`inner, h`trace
    modifies h`fed, h`ignoring, h`guarded, h`exit, h`childArgv, h`childEnv
    ensures h.outer == Us && h.trace == old(h.trace) + post
    ensures DpkgSuffix(post, work, old(h.db))
    ensures c.entered && (c.issued <==> HasStarted(post))
    ensures c.issued <==> argv != [] && CallsOk(h.fates, old(h.step), ChildCalls(input))
    ensures c.issued ==> ToldLocked(h, argv)
    ensures c.issued && input.Some? ==> h.fed <= input.value
    ensures c.ranOk <==> c.issued && |post| == 3 && ChildDone(h, input)
    ensures h.failed >= old(h.failed)
    ensures argv != [] && !(c.issued && |post| == 3) ==> h.failed > old(h.failed)
  {
    hide Spawn.Lookup, Spawn.ChildEnv, CallsOk;
    ChildIsToldLocked(h.environ);
    Spawn.CallsSplit(h.fates, h.step, 1, ChildCalls(input) - 1);
    Spawn.OneCall(h.fates, h.step);
    c, post := DpkgCtx(true, false, false), [];
    var unlocked := h.UnLockInner();
    if !unlocked {
      return;
    }
    post := [InnerReleased];
    var ok, started, run := Spawn.SpawnWaitEnv(h, argv, work, input, Some([FRONTEND_LOCKED]));
    post := post + run;
    if started {
      assert post == [InnerReleased, Started(work, old(h.db), true, false)];
    }
    var relocked := h.LockInner();
    if relocked {
      post := post + [InnerTaken];
    }
    c := DpkgCtx(true, started, ok && relocked);
    assert started ==> post[1].Started?;
  }

  /** update_commit. */
  method UpdateCommit(h: Machine, list: seq<Option<Source>>) returns (refreshOk: bool, ghost post: seq<Event>)
    modifies h`step, h`outer, h`db, h`trace, h`result
    ensures refreshOk == h.result
    ensures h.trace == old(h.trace) + post && RefreshSuffix(post, Refresh(list)) && HasStarted(post) && |post| == 1
    ensures (h.outer == Us) == (old(h.outer) == Us)
  {
    ghost var at;
    refreshOk, at := h.Start(Refresh(list));
    post := [Started(Refresh(list), at, h.outer == Us, h.inner)];
    assert post[0].Started?;
  }

  // ---- reading back -----------------------------------------------------------------

  /** Nothing is left incomplete. */
  ghost predicate Complete(db: Db) {
    !db.broken && forall i :: 0 <= i < |db.pkgs| ==> db.settled(db.pkgs[i])
  }

  /** The state could be read back and is complete. */
  ghost predicate Verified(h: Machine)
    reads h
  {
    h.readable && Complete(h.db)
  }

  /** pkgx_apt_ground_truth_broken: unreadable counts as broken. */
  method GroundTruthBroken(h: Machine) returns (bad: bool)
    modifies h`step, h`failed, h`outer, h`db, h`readable
    ensures h.Kept()
    ensures bad <==> !Verified(h)
    ensures bad <==>
              !h.readable || h.db.broken || exists i :: 0 <= i < |h.db.pkgs| && !h.db.settled(h.db.pkgs[i])
  {
    bad := true;
    var reread := h.Reread();
    if reread.Some? {
      bad := reread.value.broken;
      var i := 0;
      while !bad && i < |reread.value.pkgs|
        invariant i <= |reread.value.pkgs|
        invariant !bad ==> !reread.value.broken && forall j :: 0 <= j < i ==> reread.value.settled(reread.value.pkgs[j])
        invariant bad ==> !Complete(reread.value)
      {
        if !reread.value.settled(reread.value.pkgs[i]) {
          bad := true;
        }
        i := i + 1;
      }
    }
  }

  // ---- through the gate ------------------------------------------------------------------

  method CidOk(cid: Str) returns (ok: bool)
    ensures ok <==> CidGrammar(cid)
  {
    ok := CidValid(Some(cid));
  }

  lemma NothingStarted()
    ensures !HasStarted([])
    ensures forall work, db :: DpkgSuffix([], work, db)
  {
  }

  lemma NothingRefreshed()
    ensures forall work :: RefreshSuffix([], work)
  {
  }

  /** Opening a fresh cache and comparing the selections. */
  method CheckSelections(h: Machine, changes: seq<Change>) returns (ok: bool)
    modifies h`step, h`failed, h`outer, h`db, h`readable
    ensures h.Kept()
    ensures ok <==> h.readable && Matches(Cache(h.db), changes)
  {
    var reread := h.Reread();
    var cache := if reread.Some? then Some(Cache(reread.value)) else None;
    ok := SelectionsMatch(cache, changes);
  }

  /** The gate, the commit it admits, and the look back once dpkg has run. */
  method TxnThroughGate(h: Machine, pr: PlanResult, cid: Str, dc: seq<Planned>)
    returns (g: EffectStatus, c: TxnCtx, broken: bool, ghost post: seq<Event>)
    requires h.outer == Us
    modifies h`step, h`failed, h`outer, h`db, h`inner, h`trace, h`result, h`readable
    ensures h.outer == Us
    ensures h.trace == old(h.trace) + post && DpkgSuffix(post, Install(dc), old(h.db))
    ensures c.entered <==> Admits(pr, true, CidGrammar(cid))
    ensures g == Gate(pr, true, CidGrammar(cid), c.committedOk)
    ensures (c.began <==> HasStarted(post)) && (c.began ==> c.entered) && (!c.began ==> post == [])
    ensures c.began <==> c.entered && CallsOk(h.fates, old(h.step), 4)
    ensures c.committedOk <==> c.began && |post| == 3 && h.result
    ensures if c.began then broken <==> !Verified(h) else !broken
    ensures h.failed >= old(h.failed) && (c.entered && |post| != 3 ==> h.failed > old(h.failed))
  {
    hide CidGrammar, CallsOk;
    NothingStarted();
    c, broken, post := TxnCtx(false, false, false, false), false, [];
    var cidOk := CidOk(cid);
    if Admits(pr, true, cidOk) {
      c, post := TxnCommit(h, dc);
    }
    g := Gate(pr, true, cidOk, c.committedOk);
    if c.began {
      broken := GroundTruthBroken(h);
    }
  }

  /** The gate, the commit it admits, and the read-back of the selections. */
  method HoldThroughGate(h: Machine, pr: PlanResult, cid: Str, changes: seq<Change>, payload: Str)
    returns (g: EffectStatus, c: DpkgCtx, matched: bool, ghost post: seq<Event>)
    requires h.outer == Us && h.Patient()
    modifies h
    ensures h.outer == Us
    ensures h.trace == old(h.trace) + post && DpkgSuffix(post, SetSelections(payload), old(h.db))
    ensures c.entered <==> Admits(pr, true, CidGrammar(cid))
    ensures g == Gate(pr, true, CidGrammar(cid), c.ranOk)
    ensures c.issued <==> HasStarted(post)
    ensures c.issued <==> c.entered && CallsOk(h.fates, old(h.step), 6)
    ensures c.issued ==> ToldLocked(h, ["dpkg", "--set-selections"]) && h.fed <= payload
    ensures h.failed >= old(h.failed)
    ensures c.entered && !(c.issued && |post| == 3) ==> h.failed > old(h.failed)
    ensures c.ranOk <==> c.issued && |post| == 3 && ChildDone(h, Some(payload))
    ensures c.entered ==> (matched <==> h.readable && Matches(Cache(h.db), changes))
  {
    hide Spawn.Lookup, Matches, CidGrammar, CallsOk;
    NothingStarted();
    c, matched, post := DpkgCtx(false, false, false), false, [];
    var cidOk := CidOk(cid);
    if Admits(pr, true, cidOk) {
      c, post := DpkgCommit(h, SET_SELECTIONS, SetSelections(payload), Some(payload));
      matched := CheckSelections(h, changes);
    }
    g := Gate(pr, true, cidOk, c.ranOk);
  }

  /** The gate, the commit it admits, and the look back once it was entered. */
  method ConfigureThroughGate(h: Machine, pr: PlanResult, cid: Str)
    returns (g: EffectStatus, c: DpkgCtx, broken: bool, ghost post: seq<Event>)
    requires h.outer == Us && h.Patient()
    modifies h
    ensures h.outer == Us
    ensures h.trace == old(h.trace) + post && DpkgSuffix(post, ConfigurePending, old(h.db))
    ensures c.entered <==> Admits(pr, true, CidGrammar(cid))
    ensures g == Gate(pr, true, CidGrammar(cid), c.ranOk)
    ensures c.issued <==> HasStarted(post)
    ensures c.issued <==> c.entered && CallsOk(h.fates, old(h.step), 4)
    ensures c.issued ==> ToldLocked(h, ["dpkg", "--configure", "--pending"])
    ensures h.failed >= old(h.failed)
    ensures c.entered && !(c.issued && |post| == 3) ==> h.failed > old(h.failed)
    ensures c.ranOk <==> c.issued && |post| == 3 && ChildDone(h, None)
    ensures c.entered ==> (broken <==> !Verified(h))
  {
    hide Spawn.Lookup, CidGrammar, CallsOk;
    NothingStarted();
    c, broken, post := DpkgCtx(false, false, false), false, [];
    var cidOk := CidOk(cid);
    if Admits(pr, true, cidOk) {
      c, post := DpkgCommit(h, CONFIGURE_PENDING, ConfigurePending, None);
      broken := GroundTruthBroken(h);
    }
    g := Gate(pr, true, cidOk, c.ranOk);
  }

  /** The gate, the refresh it admits, and the reading of the new indexes. */
  method UpdateThroughGate(h: Machine, pr: PlanResult, cid: Str, list: seq<Option<Source>>)
    returns (g: EffectStatus, entered: bool, refreshOk: bool, readable: bool, ghost post: seq<Event>)
    modifies h
    ensures h.trace == old(h.trace) + post && RefreshSuffix(post, Refresh(list))
    ensures entered <==> Admits(pr, true, CidGrammar(cid))
    ensures g == Gate(pr, true, CidGrammar(cid), refreshOk)
    ensures (entered <==> HasStarted(post)) && (entered ==> |post| == 1)
    ensures entered ==> refreshOk == h.result && readable == h.readable
    ensures h.failed >= old(h.failed)
  {
    hide CidGrammar;
    NothingStarted();
    NothingRefreshed();
    entered, refreshOk, readable, post := false, false, false, [];
    var cidOk := CidOk(cid);
    if Admits(pr, true, cidOk) {
      refreshOk, post := UpdateCommit(h, list);
      entered := true;
    }
    g := Gate(pr, true, cidOk, refreshOk);
    if entered {
      var reread := h.Reread();
      readable := reread.Some?;
    }
  }
}

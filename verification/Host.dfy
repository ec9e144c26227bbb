/** The host as one helper process meets it: locks shared with other apt frontends, package
    state, a broker, and calls that may succeed or fail. Every answer comes from an oracle. */
module Host {
  import opened Bytes
  import opened Builders
  import opened Request
  import Kernel

  // ---- what the process can see -----------------------------------------------------

  /** The package state a cache shows when it is opened; `broken` and `settled` are libapt's
      own judgement of its dependencies and of each package. */
  datatype Db = Db(pkgs: seq<Pkg>, find: Str -> Option<nat>, broken: bool, settled: Pkg -> bool)

  datatype Holder = Nobody | Us | Others

  /** What another apt frontend may try. Only the holder of the frontend lock writes. */
  datatype Action = Grab | LetGo | Write(db: Db)

  /** The receipt redemption the broker is asked for. */
  datatype RedeemReq =
    RedeemReq(receipt: Str, uid: nat, operation: Str, resource: Str, planSchema: int, hash: Str)

  /** No frame at all, a frame that is no JSON document, or a document. */
  datatype Reply = NoReply | NotJson | Tree(root: Json)

  /** A change of the host: DoInstall over a retained dep cache, a dpkg child, or ListUpdate
      over a retained source list. */
  datatype Work =
    | Install(dc: seq<Planned>)
    | SetSelections(payload: Str)
    | ConfigurePending
    | Refresh(list: seq<Option<Source>>)

  datatype Event =
    | Hygiene(ok: bool)
    | OuterTaken
    | Opened(db: Db)
    | Called(req: RedeemReq, reply: Reply)
    | InnerReleased
    | Started(work: Work, db: Db, outerHeld: bool, innerHeld: bool)
    | InnerTaken

  /** What the oracles have in store for call number n. */
  datatype Fate = Fate(ok: bool, others: seq<Action>, reply: Reply, marks: nat -> Mark, db: Db,
                       list: seq<Option<Source>>, outcome: Kernel.Outcome)

  /** The `n` calls from number `from` on all succeed. */
  ghost predicate CallsOk(fates: nat -> Fate, from: nat, n: nat) {
    forall i: nat :: from <= i < from + n ==> fates(i).ok
  }

  /** ... and no other frontend acts around them. */
  ghost predicate Undisturbed(fates: nat -> Fate, from: nat, n: nat) {
    forall i: nat :: from <= i < from + n ==> fates(i).ok && fates(i).others == []
  }

  /** The exit status an answer of waitpid() reports: none for a failure or a signal. */
  function ExitOf(o: Kernel.Outcome): Option<nat> {
    if o.Done? then Some(o.n) else None
  }

  /** The dep cache over state `db` after some resolver run. */
  function Planning(db: Db, marks: nat -> Mark): (dc: seq<Planned>)
    ensures |dc| == |db.pkgs| && forall i :: 0 <= i < |dc| ==> dc[i].pkg == db.pkgs[i]
  {
    seq(|db.pkgs|, i requires 0 <= i < |db.pkgs| => Planned(db.pkgs[i], marks(i)))
  }

  /** The dep cache `dc` was computed from state `db`. */
  ghost predicate PlansOver(dc: seq<Planned>, db: Db) {
    |dc| == |db.pkgs| && forall i :: 0 <= i < |dc| ==> dc[i].pkg == db.pkgs[i]
  }

  /** What the resolver is asked: to install or delete one package, or to upgrade them all. */
  datatype Ask = MarkInstall(at: nat) | MarkDelete(at: nat, purge: bool) | UpgradeAll(mayRemove: bool)

  /** The world as a run finds it: the number of its first call, the frontend lock, the
      package state, and the calls that had failed before. */
  datatype Origin = Origin(step: nat, outer: Holder, db: Db, failed: nat)

  class Machine {
    const fates: nat -> Fate
    var step: nat
    var outer: Holder              // the frontend lock
    var inner: bool                // whether this process holds the dpkg database lock
    var db: Db                     // the package state right now
    ghost var failed: nat          // how many calls have failed so far
    ghost var trace: seq<Event>
    ghost var fed: seq<Byte>       // what the last child was given on its standard input
    ghost var ignoring: bool       // whether SIGPIPE was set to be ignored
    ghost var guarded: bool        // whether it was, and was restored afterwards
    ghost var exit: Option<nat>    // how the last child was seen to end
    ghost var childArgv: seq<Str>  // what the last child was started with
    ghost var childEnv: seq<CStr>
    ghost var result: bool         // whether the last work reported success
    ghost var readable: bool       // whether the last look back could read the state
    ghost var asked: seq<Ask>      // what the last resolver was asked, in order
    const environ: seq<Str>        // this process's own environment
    ghost const patience: nat -> nat

    constructor (fates: nat -> Fate, outer: Holder, db: Db, environ: seq<Str>, ghost patience: nat -> nat)
      requires outer != Us
      ensures this.fates == fates && this.outer == outer && !inner && this.db == db
      ensures this.environ == environ && this.patience == patience && trace == [] && step == 0
    {
      this.fates, this.step, this.outer, this.inner, this.db := fates, 0, outer, false, db;
      this.environ, this.patience := environ, patience;
      failed, trace, fed, exit, childArgv, childEnv, asked := 0, [], [], None, [], [], [];
    }

    ghost function Now(): Origin
      reads this
    {
      Origin(step, outer, db, failed)
    }

    /** Signals do not interrupt calls forever: every run of EINTR answers is finite. */
    ghost predicate Patient() {
      forall n: nat :: fates(n).outcome.Eintr? ==> patience(n + 1) < patience(n)
    }

    /** The rule of the frontend lock: its holder keeps it and sees no foreign change, and
        nobody else hands it to this process. */
    twostate predicate Kept()
      reads `outer, `db, `failed
    {
      && (old(outer) == Us ==> outer == Us && db == old(db))
      && (old(outer) != Us ==> outer != Us)
      && failed >= old(failed)
    }

    /** Other frontends run. While this process holds the frontend lock, they change nothing. */
    method Interleave()
      modifies `outer, `db
      ensures Kept()
      ensures fates(step).others == [] ==> outer == old(outer) && db == old(db)
    {
      var todo := fates(step).others;
      for i := 0 to |todo|
        modifies `outer, `db
        invariant Kept()
        invariant i == 0 ==> outer == old(outer) && db == old(db)
      {
        match todo[i] {
          case Grab => if outer == Nobody { outer := Others; }
          case LetGo => if outer == Others { outer := Nobody; }
          case Write(d) => if outer == Others { db := d; }
        }
      }
    }

    /** Any call that may fail and changes nothing this model tracks. */
    method Try() returns (ok: bool)
      modifies `step, `failed, `outer, `db
      ensures Kept() && step == old(step) + 1 && ok == fates(old(step)).ok
      ensures failed == old(failed) + if ok then 0 else 1
      ensures fates(old(step)).others == [] ==> outer == old(outer) && db == old(db)
    {
      Interleave();
      ok := fates(step).ok;
      step := step + 1;
      failed := failed + if ok then 0 else 1;
    }

    /** A call whose answer is data, not success. */
    method Pass()
      modifies `step, `outer, `db
      ensures Kept() && step == old(step) + 1
    {
      Interleave();
      step := step + 1;
    }

    method Scrub() returns (ok: bool)
      modifies `step, `failed, `outer, `db, `trace
      ensures Kept() && trace == old(trace) + [Hygiene(ok)] && (!ok ==> failed > old(failed))
      ensures step == old(step) + 1 && ok == fates(old(step)).ok
    {
      ok := Try();
      trace := trace + [Hygiene(ok)];
    }

    /** _system->Lock(): both locks or neither. */
    method LockOuter() returns (ok: bool)
      requires outer != Us
      modifies `step, `failed, `outer, `inner, `db, `trace
      ensures step == old(step) + 1
      ensures fates(old(step)).ok && fates(old(step)).others == [] && old(outer) == Nobody ==> ok && db == old(db)
      ensures ok ==> outer == Us && inner && trace == old(trace) + [OuterTaken]
      ensures !ok ==> outer != Us && inner == old(inner) && trace == old(trace) && failed > old(failed)
      ensures failed >= old(failed)
    {
      ok := Try();
      if ok && outer != Nobody {
        ok, failed := false, failed + 1;
      }
      if ok {
        outer, inner := Us, true;
        trace := trace + [OuterTaken];
      }
    }

    /** Opening a cache without taking a lock: the state as it is now, if it can be read. */
    method OpenCache() returns (r: Option<Db>)
      modifies `step, `failed, `outer, `db, `trace
      ensures Kept() && step == old(step) + 1 && (r.Some? <==> fates(old(step)).ok)
      ensures r.Some? ==> r.value == db && trace == old(trace) + [Opened(db)]
      ensures r.None? ==> trace == old(trace) && failed > old(failed)
    {
      var ok := Try();
      if !ok {
        return None;
      }
      trace := trace + [Opened(db)];
      r := Some(db);
    }

    /** Reading the state back after a commit, from a fresh cache. */
    method Reread() returns (r: Option<Db>)
      modifies `step, `failed, `outer, `db, `readable
      ensures Kept() && readable == r.Some? && (r.None? ==> failed > old(failed))
      ensures r.Some? ==> r.value == db
    {
      var ok := Try();
      readable := ok;
      r := if ok then Some(db) else None;
    }

    method NewResolver()
      modifies `asked
      ensures asked == []
    {
      asked := [];
    }

    method Request(a: Ask)
      modifies `asked
      ensures asked == old(asked) + [a]
    {
      asked := asked + [a];
    }

    /** The resolver's decisions over an opened cache; None when it gives up. */
    method Resolve(over: Db) returns (r: Option<seq<Planned>>)
      modifies `step, `failed, `outer, `db
      ensures Kept()
      ensures r.Some? ==> PlansOver(r.value, over)
      ensures step == old(step) + 1 && (r.Some? <==> fates(old(step)).ok)
      ensures r.None? ==> failed > old(failed)
    {
      var marks := fates(step).marks;
      var ok := Try();
      r := if ok then Some(Planning(over, marks)) else None;
    }

    method ReadMainList() returns (r: Option<seq<Option<Source>>>)
      modifies `step, `failed, `outer, `db
      ensures Kept() && (r.None? ==> failed > old(failed))
      ensures step == old(step) + 1 && (r.Some? <==> fates(old(step)).ok)
    {
      var list := fates(step).list;
      var ok := Try();
      r := if ok then Some(list) else None;
    }

    /** One exchange with the broker over the authenticated transport. */
    method Transact(req: RedeemReq) returns (reply: Reply)
      modifies `step, `outer, `db, `trace
      ensures Kept() && step == old(step) + 1 && reply == fates(old(step)).reply
      ensures trace == old(trace) + [Called(req, reply)]
    {
      reply := fates(step).reply;
      Pass();
      trace := trace + [Called(req, reply)];
    }

    method UnLockInner() returns (ok: bool)
      modifies `step, `failed, `outer, `db, `inner, `trace
      ensures Kept() && step == old(step) + 1 && ok == fates(old(step)).ok
      ensures ok ==> !inner && trace == old(trace) + [InnerReleased]
      ensures !ok ==> inner == old(inner) && trace == old(trace) && failed > old(failed)
    {
      ok := Try();
      if ok {
        inner := false;
        trace := trace + [InnerReleased];
      }
    }

    method LockInner() returns (ok: bool)
      modifies `step, `failed, `outer, `db, `inner, `trace
      ensures Kept()
      ensures ok ==> inner && trace == old(trace) + [InnerTaken]
      ensures !ok ==> inner == old(inner) && trace == old(trace) && failed > old(failed)
    {
      ok := Try();
      if ok {
        inner := true;
        trace := trace + [InnerTaken];
      }
    }

    /** The work begins: from here on the host may be changed in any way. */
    method Start(work: Work) returns (ok: bool, ghost at: Db)
      modifies `step, `outer, `db, `trace, `result
      ensures ok == result
      ensures (outer == Us) == (old(outer) == Us)
      ensures trace == old(trace) + [Started(work, at, outer == Us, inner)]
      ensures old(outer) == Us ==> at == old(db)
    {
      var left := fates(step).db;
      ok := fates(step).ok;
      Pass();
      at, result := db, ok;
      trace := trace + [Started(work, db, outer == Us, inner)];
      if !work.Refresh? {
        db := left;
      }
    }

    // ---- the calls around a child process ---------------------------------------------

    /** posix_spawn(): on success the child exists, with these arguments and this environment;
        it has been fed nothing yet and has not ended, and the host may be changed. */
    method PosixSpawn(argv: seq<Str>, env: seq<CStr>, work: Work) returns (ok: bool, ghost run: seq<Event>)
      modifies `step, `failed, `outer, `db, `trace, `fed, `guarded, `exit, `childArgv, `childEnv
      ensures step == old(step) + 1 && ok == fates(old(step)).ok
      ensures failed == old(failed) + if ok then 0 else 1
      ensures (outer == Us) == (old(outer) == Us)
      ensures !ok ==> run == [] && (old(outer) == Us ==> db == old(db))
      ensures ok ==> |run| == 1 && run[0].Started? && run[0].work == work
      ensures ok && old(outer) == Us ==> run == [Started(work, old(db), true, inner)]
      ensures ok ==> childArgv == argv && childEnv == env && fed == [] && !guarded && exit == None
      ensures trace == old(trace) + run
    {
      var left := fates(step).db;
      ok := Try();
      run := [];
      if ok {
        run := [Started(work, db, outer == Us, inner)];
        trace := trace + run;
        childArgv, childEnv, fed, guarded, exit := argv, env, [], false, None;
        db := left;
      }
    }

    /** sigaction(): ignore SIGPIPE. */
    method IgnoreSigpipe() returns (ok: bool)
      modifies `step, `failed, `outer, `db, `ignoring, `guarded
      ensures Kept() && ignoring == ok && !guarded && ok == fates(old(step)).ok
    {
      ok := Try();
      ignoring, guarded := ok, false;
    }

    /** sigaction(): restore the disposition that was replaced. */
    method RestoreSigpipe() returns (ok: bool)
      modifies `step, `failed, `outer, `db, `guarded
      ensures Kept() && guarded == (ignoring && ok) && ok == fates(old(step)).ok
    {
      ok := Try();
      guarded := ignoring && ok;
    }

    /** write(): the child takes some prefix of the data, possibly none, or the call fails. */
    method WriteChild(data: seq<Byte>) returns (r: Kernel.Outcome)
      modifies `step, `outer, `db, `fed
      ensures Kept() && step == old(step) + 1
      ensures r.Eintr? <==> fates(old(step)).outcome.Eintr?
      ensures r.Done? ==> r.n <= |data| && fed == old(fed) + data[..r.n]
      ensures !r.Done? ==> fed == old(fed)
    {
      r := fates(step).outcome;
      if r.Done? && r.n > |data| {
        r := Kernel.Done(|data|);
      }
      Pass();
      if r.Done? {
        fed := fed + data[..r.n];
      }
    }

    /** waitpid(): interrupted, or an answer about how the child ended. */
    method Waitpid() returns (r: Kernel.Outcome)
      modifies `step, `outer, `db, `exit
      ensures Kept() && step == old(step) + 1
      ensures r == fates(old(step)).outcome && exit == ExitOf(r)
    {
      r := fates(step).outcome;
      Pass();
      exit := ExitOf(r);
    }
  }
}

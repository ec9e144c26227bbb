/** Running a child with given standard input and extra environment, without a shell. */
module Spawn {
  import opened Bytes
  import opened Host

  // ---- the child's environment ---------------------------------------------------

  /** build_child_env: the extra entries, then the inherited ones, then NULL. */
  method BuildChildEnv(extra: seq<Str>, environ: seq<Str>) returns (envp: array<CStr>)
    ensures fresh(envp) && envp[..] == Pointers(extra) + Pointers(environ) + [None]
  {
    var nextra, nenv := |extra|, |environ|;
    envp := new CStr[nextra + nenv + 1](_ => None);
    var k := 0;
    for i := 0 to nextra
      invariant k == i && forall j :: 0 <= j < i ==> envp[j] == Some(extra[j])
    {
      envp[k] := Some(extra[i]);
      k := k + 1;
    }
    for i := 0 to nenv
      invariant k == nextra + i
      invariant forall j :: 0 <= j < nextra ==> envp[j] == Some(extra[j])
      invariant forall j :: 0 <= j < i ==> envp[nextra + j] == Some(environ[j])
    {
      envp[k] := Some(environ[i]);
      k := k + 1;
    }
    envp[k] := None;
  }

  /** getenv: the first entry of the form NAME=value before the NULL. */
  function Lookup(env: seq<CStr>, name: Str): CStr {
    if env == [] || env[0].None? then None
    else if name + [EQUALS] <= env[0].value then Some(env[0].value[|name| + 1..])
    else Lookup(env[1..], name)
  }

  /** An extra entry takes precedence over any inherited one of the same name, and leaves
      every other variable as inherited. */
  lemma ExtraWins(name: Str, value: Str, environ: seq<Str>, other: Str)
    requires EQUALS !in name && EQUALS !in other
    ensures Lookup(Pointers([name + [EQUALS] + value]) + Pointers(environ) + [None], name) == Some(value)
    ensures other != name ==>
            Lookup(Pointers([name + [EQUALS] + value]) + Pointers(environ) + [None], other)
            == Lookup(Pointers(environ) + [None], other)
  {
    var entry := name + [EQUALS] + value;
    var env := Pointers([entry]) + Pointers(environ) + [None];
    assert env[0] == Some(entry) && entry[..|name| + 1] == name + [EQUALS];
    assert env[1..] == Pointers(environ) + [None];
    if other + [EQUALS] <= entry {
      assert entry[|other|] == EQUALS && entry[|name|] == EQUALS;
      assert forall i :: 0 <= i < |other| ==> entry[i] == other[i];
      assert |other| == |name|;
      assert other == entry[..|name|] == name;
    }
  }

  // ---- the child -----------------------------------------------------------------

  /** The delivery loop: what the calls of write() took is the first `off` bytes. */
  method Deliver(h: Machine, input: Str) returns (off: nat)
    requires h.Patient()
    modifies h`step, h`outer, h`db, h`fed
    ensures h.Kept()
    ensures off <= |input| && h.fed == old(h.fed) + input[..off]
  {
    off := 0;
    while off < |input|
      modifies h`step, h`outer, h`db, h`fed
      invariant h.Kept()
      invariant off <= |input| && h.fed == old(h.fed) + input[..off]
      decreases |input| - off, h.patience(h.step)
    {
      var w := h.WriteChild(input[off..]);
      if w.Eintr? {
        continue;
      }
      if !w.Done? || w.n == 0 {
        break;
      }
      assert input[..off + w.n] == input[..off] + input[off..][..w.n];
      off := off + w.n;
    }
  }

  /** All answers before call `last` were interruptions, and that one was not. */
  ghost predicate FirstAnswer(h: Machine, from: nat, last: nat) {
    && from <= last && !h.fates(last).outcome.Eintr?
    && forall i: nat :: from <= i < last ==> h.fates(i).outcome.Eintr?
  }

  /** waitpid until it is not interrupted: the first real answer counts. */
  method Wait(h: Machine) returns (status: Option<nat>)
    requires h.Patient()
    modifies h`step, h`outer, h`db, h`exit
    ensures h.Kept() && h.exit == status
    ensures h.step > old(h.step) && FirstAnswer(h, old(h.step), h.step - 1)
    ensures status == ExitOf(h.fates(h.step - 1).outcome)
  {
    var w := h.Waitpid();
    while w.Eintr?
      modifies h`step, h`outer, h`db, h`exit
      invariant h.Kept() && h.step > old(h.step) && w == h.fates(h.step - 1).outcome && h.exit == ExitOf(w)
      invariant forall i: nat :: old(h.step) <= i < h.step - 1 ==> h.fates(i).outcome.Eintr?
      decreases h.patience(h.step - 1) + (if w.Eintr? then 1 else 0)
    {
      w := h.Waitpid();
    }
    status := if w.Done? then Some(w.n) else None;
  }

  /** Was the child's input delivered in full, under the signal guard? With no input there is
      nothing to deliver. */
  ghost predicate Delivered(h: Machine, input: CStr)
    reads h
  {
    input.Some? ==> h.fed == input.value && h.guarded
  }

  method Feed(h: Machine, input: Str) returns (ok: bool)
    requires h.Patient() && h.fed == []
    modifies h`step, h`failed, h`outer, h`db, h`fed, h`ignoring, h`guarded
    ensures h.Kept() && h.fed <= input && (ok <==> h.fed == input && h.guarded)
  {
    var ignored := h.IgnoreSigpipe();
    if !ignored {
      return false;
    }
    var off := Deliver(h, input);
    ok := off == |input|;
    var restored := h.RestoreSigpipe();
    ok := ok && restored;
    assert input[..off] == input ==> off == |input|;
  }

  ghost function ChildEnv(extra: Option<seq<Str>>, environ: seq<Str>): seq<CStr> {
    (if extra.Some? then Pointers(extra.value) else []) + Pointers(environ) + [None]
  }

  function EnvCalls(extra: Option<seq<Str>>): nat {
    if extra.Some? then 1 else 0
  }

  function PipeCalls(input: CStr): nat {
    if input.Some? then 3 else 1
  }

  /** The calls up to and including posix_spawn: the environment, the pipe and the file
      actions, the child. */
  function LaunchCalls(input: CStr, extra: Option<seq<Str>>): nat {
    EnvCalls(extra) + PipeCalls(input) + 1
  }

  /** The environment array for the child: nothing extra means the inherited one. */
  method PrepareEnv(h: Machine, extra: Option<seq<Str>>) returns (env: Option<seq<CStr>>)
    modifies h`step, h`failed, h`outer, h`db
    ensures h.Kept()
    ensures env.Some? ==> env.value == ChildEnv(extra, h.environ)
    ensures env.Some? <==> CallsOk(h.fates, old(h.step), EnvCalls(extra))
    ensures env.Some? ==> h.step == old(h.step) + EnvCalls(extra)
    ensures env.None? ==> h.failed > old(h.failed)
  {
    if extra.None? {
      return Some(Pointers(h.environ) + [None]);
    }
    var built := h.Try();
    if !built {
      return None;
    }
    var envp := BuildChildEnv(extra.value, h.environ);
    env := Some(envp[..]);
  }

  /** The pipe and the file actions, every result checked. */
  method PreparePipe(h: Machine, input: CStr) returns (ok: bool)
    modifies h`step, h`failed, h`outer, h`db
    ensures h.Kept() && (!ok ==> h.failed > old(h.failed))
    ensures ok <==> CallsOk(h.fates, old(h.step), PipeCalls(input))
    ensures ok ==> h.step == old(h.step) + PipeCalls(input)
  {
    if input.Some? {
      var piped := h.Try();
      if !piped {
        return false;
      }
    }
    ok := h.Try();
    if ok && input.Some? {
      ok := h.Try();
    }
  }

  lemma CallsSplit(fates: nat -> Fate, from: nat, a: nat, b: nat)
    ensures CallsOk(fates, from, a + b) <==> CallsOk(fates, from, a) && CallsOk(fates, from + a, b)
  {
  }

  /** Everything up to posix_spawn: the child exists exactly if each of these calls succeeds. */
  method Launch(h: Machine, argv: seq<Str>, work: Work, input: CStr, extra: Option<seq<Str>>)
    returns (started: bool, ghost run: seq<Event>)
    modifies h`step, h`failed, h`outer, h`db, h`trace, h`fed, h`guarded, h`exit, h`childArgv, h`childEnv
    ensures (h.outer == Us) == (old(h.outer) == Us)
    ensures h.trace == old(h.trace) + run
    ensures run == [] || (|run| == 1 && run[0].Started? && run[0].work == work)
    ensures started <==> run != []
    ensures started <==> argv != [] && CallsOk(h.fates, old(h.step), LaunchCalls(input, extra))
    ensures started && old(h.outer) == Us ==> run[0] == Started(work, old(h.db), true, h.inner)
    ensures started ==> h.childArgv == argv && h.childEnv == ChildEnv(extra, h.environ) && h.fed == []
    ensures !started && old(h.outer) == Us ==> h.db == old(h.db)
    ensures h.failed >= old(h.failed) && (!started && argv != [] ==> h.failed > old(h.failed))
  {
    hide ChildEnv, Pointers, CallsOk;
    run := [];
    started := false;
    if argv == [] {
      return;
    }
    CallsSplit(h.fates, h.step, EnvCalls(extra), PipeCalls(input) + 1);
    CallsSplit(h.fates, h.step + EnvCalls(extra), PipeCalls(input), 1);
    OneCall(h.fates, h.step + EnvCalls(extra) + PipeCalls(input));
    var env := PrepareEnv(h, extra);
    if env.None? {
      return;
    }
    var piped := PreparePipe(h, input);
    if !piped {
      return;
    }
    started, run := h.PosixSpawn(argv, env.value, work);
  }

  lemma OneCall(fates: nat -> Fate, i: nat)
    ensures CallsOk(fates, i, 1) <==> fates(i).ok
  {
  }

  /** pkgx_spawn_wait_env. `started` says that the child exists; success says more: it took
      all of its input and exited with 0. */
  method SpawnWaitEnv(h: Machine, argv: seq<Str>, work: Work, input: CStr, extra: Option<seq<Str>>)
    returns (ok: bool, started: bool, ghost run: seq<Event>)
    requires h.Patient()
    modifies h`step, h`failed, h`outer, h`db, h`trace, h`fed, h`ignoring, h`guarded, h`exit, h`childArgv, h`childEnv
    ensures (h.outer == Us) == (old(h.outer) == Us)
    ensures h.trace == old(h.trace) + run
    ensures run == [] || (|run| == 1 && run[0].Started? && run[0].work == work)
    ensures started <==> run != []
    ensures started <==> argv != [] && CallsOk(h.fates, old(h.step), LaunchCalls(input, extra))
    ensures started && old(h.outer) == Us ==> run[0] == Started(work, old(h.db), true, h.inner)
    ensures started ==> h.childArgv == argv && h.childEnv == ChildEnv(extra, h.environ)
    ensures ok <==> started && Delivered(h, input) && h.exit == Some(0)
    ensures started && input.Some? ==> h.fed <= input.value
    ensures !started && old(h.outer) == Us ==> h.db == old(h.db)
    ensures h.failed >= old(h.failed) && (!started && argv != [] ==> h.failed > old(h.failed))
  {
    hide ChildEnv, CallsOk, FirstAnswer;
    ok := false;
    started, run := Launch(h, argv, work, input, extra);
    if !started {
      return;
    }
    var deliverOk := true;
    if input.Some? {
      deliverOk := Feed(h, input.value);
    }
    var status := Wait(h);
    ok := status == Some(0) && deliverOk;
  }
}

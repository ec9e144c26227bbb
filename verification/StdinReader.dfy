/** Reading the whole request from a pipe: capped, doubling, against an absolute deadline. */
module StdinReader {
  import opened Bytes
  import opened Deadline
  import opened Kernel

  const MAX_STDIN: nat := 65536
  const FIRST_CAP: nat := 4096

  datatype Error = TooLarge | DeadlinePassed | Io
  datatype Body = Ok(bytes: seq<Byte>) | Err(error: Error)

  /** A pipe holding one finite stream. A read of at least one byte returns 0 at the end of
      the stream and only there; a read of zero bytes returns 0 anywhere. */
  class Pipe {
    const stream: seq<Byte>
    const clock: Clock
    const outcomes: nat -> Outcome
    var ticks: nat
    var calls: nat
    var taken: nat
    ghost var trouble: nat         // calls that failed
    ghost var timedOut: bool       // a poll said that the time was up

    constructor (stream: seq<Byte>, clock: Clock, outcomes: nat -> Outcome)
      ensures this.stream == stream && this.clock == clock && ticks == 0 && taken == 0 && trouble == 0
      ensures !timedOut
    {
      this.stream, this.clock, this.outcomes := stream, clock, outcomes;
      ticks, calls, taken, trouble, timedOut := 0, 0, 0, 0, false;
    }

    method ClockGettime() returns (now: Option<Timespec>)
      modifies `ticks, `trouble
      ensures now == clock(old(ticks)) && ticks == old(ticks) + 1
      ensures trouble == old(trouble) + if now.None? then 1 else 0
    {
      now := clock(ticks);
      trouble := trouble + if now.None? then 1 else 0;
      ticks := ticks + 1;
    }

    /** poll, malloc, realloc: an outcome, no bytes. */
    method Call(kind: Kind) returns (r: Outcome)
      modifies `calls, `trouble, `timedOut
      ensures trouble == old(trouble) + if Fails(r, kind) then 1 else 0
      ensures timedOut == (old(timedOut) || (kind == PollOnce && r == Done(0)))
    {
      r := outcomes(calls);
      timedOut := timedOut || (kind == PollOnce && r == Done(0));
      trouble := trouble + if Fails(r, kind) then 1 else 0;
      calls := calls + 1;
    }

    /** read(): any nonempty part of what is left, or end of file, or a failure. */
    method Read(buf: array<Byte>, off: nat, room: nat) returns (r: Outcome)
      requires off + room <= buf.Length && taken <= |stream|
      modifies `calls, `taken, `trouble, buf
      ensures trouble == old(trouble) + if r.Fail? || r.Eagain? then 1 else 0
      ensures old(taken) <= taken <= |stream|
      ensures r.Done? ==> r.n <= room && taken == old(taken) + r.n
      ensures r == Done(0) ==> room == 0 || old(taken) == |stream|
      ensures !r.Done? ==> taken == old(taken)
      ensures forall i :: off <= i < off + taken - old(taken) ==> buf[i] == stream[old(taken) + i - off]
      ensures forall i :: 0 <= i < buf.Length && !(off <= i < off + taken - old(taken)) ==> buf[i] == old(buf[i])
    {
      r := outcomes(calls);
      calls := calls + 1;
      trouble := trouble + if r.Fail? || r.Eagain? then 1 else 0;
      if r.Done? {
        var left := |stream| - taken;
        var most := if room < left then room else left;
        var n := if r.n > most then most else if r.n == 0 && most > 0 then 1 else r.n;
        r := Done(n);
        forall i | 0 <= i < n {
          buf[off + i] := stream[taken + i];
        }
        taken := taken + n;
      }
    }
  }

  /** The buffer after growth: double, but never beyond one byte more than the cap, so that
      an oversized stream shows itself as one byte too many. */
  function Grown(cap: nat): nat {
    if cap * 2 > MAX_STDIN + 1 then MAX_STDIN + 1 else cap * 2
  }

  /** The latest clock reading shows that the deadline has passed. */
  ghost predicate Late(p: Pipe, start: Timespec, deadlineMs: nat)
    reads p
  {
    && p.ticks > 0 && p.clock(p.ticks - 1).Some?
    && deadlineMs - MsLeft(p.clock(p.ticks - 1).value, start) <= 0
  }

  /** One clock check of the loop: the milliseconds that remain, or None on clock failure. */
  method Remaining(p: Pipe, start: Timespec, deadlineMs: nat, ghost limit: nat) returns (left: Option<int>)
    requires WellFormed(p.clock) && Normal(start)
    requires PastFrom(p.clock, DeadlineAt(start, deadlineMs), limit)
    modifies p`ticks, p`trouble
    ensures p.ticks == old(p.ticks) + 1
    ensures left.None? ==> p.trouble > old(p.trouble)
    ensures left.Some? ==> p.trouble == old(p.trouble)
    ensures left.Some? && left.value <= 0 ==> Late(p, start, deadlineMs)
    ensures left.Some? && left.value > 0 ==> old(p.ticks) < limit
  {
    var now := p.ClockGettime();
    if now.None? {
      return None;
    }
    var elapsed := MsLeft(now.value, start);
    left := Some(deadlineMs - elapsed);
    MsLeftIsSound(now.value, start);
    DeadlineIsExact(start, deadlineMs);
  }

  /** pkgx_read_stdin_deadline. Every read offers at least one byte of room, so a read of 0
      bytes is the end of the stream; the terminating NUL lands inside the allocation. */
  method ReadStdin(p: Pipe, deadlineMs: nat, ghost rate: nat) returns (r: Body)
    requires p.taken == 0 && p.ticks == 0 && p.trouble == 0 && !p.timedOut
    requires WellFormed(p.clock) && Progressing(p.clock, rate)
    modifies p
    ensures r.Ok? ==> r.bytes == p.stream && |r.bytes| <= 65536
    ensures |p.stream| > 65536 ==> r.Err?
    ensures r == Err(TooLarge) ==> |p.stream| > 65536
    // it fails only for an oversized stream, a failed call, or a deadline that has passed
    ensures r.Err? && p.trouble == 0 ==> r.error == TooLarge || r.error == DeadlinePassed
    ensures r == Err(Io) ==> p.trouble > 0 && !p.timedOut
    ensures r == Err(DeadlinePassed) && !p.timedOut ==>
              && p.ticks > 0 && p.clock(0).Some? && p.clock(p.ticks - 1).Some?
              && (p.clock(p.ticks - 1).value.sec - p.clock(0).value.sec) * 1000000000
                 + p.clock(p.ticks - 1).value.nsec - p.clock(0).value.nsec > (deadlineMs - 1) * 1000000
    ensures p.timedOut ==> r == Err(DeadlinePassed)
    ensures p.ticks <= ReadingLimit(rate, deadlineMs) + 2
  {
    var start := p.ClockGettime();
    if start.None? {
      return Err(Io);
    }
    ReadingsAreBounded(p.clock, rate, 0, deadlineMs);
    ghost var limit := ReadingLimit(rate, deadlineMs);
    r := ReadLoop(p, start.value, deadlineMs, limit);
    if r == Err(DeadlinePassed) && !p.timedOut { MsLeftIsSound(p.clock(p.ticks - 1).value, start.value); }
  }

  method ReadLoop(p: Pipe, start: Timespec, deadlineMs: nat, ghost limit: nat) returns (r: Body)
    requires p.taken == 0 && WellFormed(p.clock) && Normal(start) && !p.timedOut
    requires PastFrom(p.clock, DeadlineAt(start, deadlineMs), limit)
    modifies p`ticks, p`calls, p`taken, p`trouble, p`timedOut
    ensures r.Ok? ==> r.bytes == p.stream && |r.bytes| <= 65536
    ensures r == Err(TooLarge) ==> |p.stream| > 65536
    ensures p.trouble >= old(p.trouble)
    ensures r == Err(Io) ==> p.trouble > old(p.trouble) && !p.timedOut
    ensures r == Err(DeadlinePassed) && !p.timedOut ==> Late(p, start, deadlineMs)
    ensures p.timedOut ==> r == Err(DeadlinePassed)
    ensures p.ticks <= old(p.ticks) + 1 || p.ticks <= limit + 1
  {
    hide MsLeft, DeadlineAt;
    var cap, n := FIRST_CAP, 0;
    var m := p.Call(Malloc);
    if !m.Done? {
      return Err(Io);
    }
    var buf := new Byte[cap + 1];
    while true
      invariant p.trouble == old(p.trouble) && !p.timedOut
      invariant fresh(buf) && buf.Length == cap + 1 && FIRST_CAP <= cap <= MAX_STDIN + 1
      invariant n == p.taken <= |p.stream| && n <= MAX_STDIN && n <= cap && Holds(buf, p.stream, n)
      invariant p.ticks == old(p.ticks) || p.ticks <= limit
      decreases limit - p.ticks
    {
      var ready := AwaitInput(p, start, deadlineMs, limit);
      if ready.Stop? {
        return Err(ready.error);
      }
      if ready.Again? {
        continue;
      }
      if n == cap {
        var nb := Grow(p, buf, cap, n);
        if nb.None? {
          return Err(Io);
        }
        buf, cap := nb.value, Grown(cap);
      }
      assert cap - n >= 1;          // room for at least one byte
      var got := ReadMore(p, buf, n, cap - n);
      if got.Eintr? {
        continue;
      }
      if !got.Done? {
        return Err(Io);
      }
      if got.n == 0 {
        break;
      }
      n := n + got.n;
      if n > MAX_STDIN {
        return Err(TooLarge);
      }
    }
    buf[n] := '\0';
    r := Ok(buf[..n]);
  }

  /** The first `n` bytes of the buffer are the first `n` bytes of the stream. */
  ghost predicate Holds(buf: array<Byte>, stream: seq<Byte>, n: nat)
    reads buf
  {
    n <= buf.Length && n <= |stream| && forall i :: 0 <= i < n ==> buf[i] == stream[i]
  }

  datatype Await = Ready | Again | Stop(error: Error)

  /** The clock, then poll: input, an interruption, or a reason to stop. */
  method AwaitInput(p: Pipe, start: Timespec, deadlineMs: nat, ghost limit: nat) returns (r: Await)
    requires WellFormed(p.clock) && Normal(start) && PastFrom(p.clock, DeadlineAt(start, deadlineMs), limit)
    requires !p.timedOut
    modifies p`ticks, p`calls, p`trouble, p`timedOut
    ensures p.ticks == old(p.ticks) + 1 && p.trouble >= old(p.trouble)
    ensures !r.Stop? ==> old(p.ticks) < limit && p.trouble == old(p.trouble)
    ensures r.Stop? ==> r.error != TooLarge
    ensures r == Stop(Io) ==> p.trouble > old(p.trouble) && !p.timedOut
    ensures r == Stop(DeadlinePassed) && !p.timedOut ==> Late(p, start, deadlineMs)
    ensures p.timedOut ==> r == Stop(DeadlinePassed)
  {
    hide MsLeft, DeadlineAt;
    var remaining := Remaining(p, start, deadlineMs, limit);
    if remaining.None? {
      return Stop(Io);
    }
    if remaining.value <= 0 {
      return Stop(DeadlinePassed);
    }
    var pr := p.Call(PollOnce);
    if pr.Eintr? {
      return Again;
    }
    if !pr.Done? {
      return Stop(Io);
    }
    if pr.n == 0 {
      return Stop(DeadlinePassed);
    }
    r := Ready;
  }

  /** realloc: a larger buffer with the same bytes, if there is one. */
  method Grow(p: Pipe, buf: array<Byte>, cap: nat, n: nat) returns (nb: Option<array<Byte>>)
    requires n <= buf.Length && n <= cap && FIRST_CAP <= cap <= MAX_STDIN + 1
    requires !p.timedOut
    modifies p`calls, p`trouble, p`timedOut
    ensures !p.timedOut
    ensures nb.Some? ==> fresh(nb.value) && nb.value.Length == Grown(cap) + 1 && p.trouble == old(p.trouble)
    ensures nb.Some? ==> forall i :: 0 <= i < n ==> nb.value[i] == buf[i]
    ensures nb.None? ==> p.trouble > old(p.trouble)
  {
    var ra := p.Call(Malloc);
    if !ra.Done? {
      return None;
    }
    var a := new Byte[Grown(cap) + 1];
    forall i | 0 <= i < n {
      a[i] := buf[i];
    }
    nb := Some(a);
  }

  /** One read behind what is already there. */
  method ReadMore(p: Pipe, buf: array<Byte>, n: nat, room: nat) returns (got: Outcome)
    requires n + room < buf.Length && 1 <= room && n == p.taken && Holds(buf, p.stream, n)
    modifies p`calls, p`taken, p`trouble, buf
    ensures p.taken <= |p.stream| && Holds(buf, p.stream, p.taken)
    ensures got.Done? ==> got.n <= room && p.taken == n + got.n && p.trouble == old(p.trouble)
    ensures got == Done(0) ==> p.taken == |p.stream|
    ensures !got.Done? ==> p.taken == n
    ensures got.Eintr? ==> p.trouble == old(p.trouble)
    ensures !got.Done? && !got.Eintr? ==> p.trouble > old(p.trouble)
  {
    got := p.Read(buf, n, room);
  }
}

/** The operating system as the byte loops meet it: every call's outcome comes from an
    oracle the proofs know nothing about, and a monitor watches what the process does. */
module Kernel {
  import opened Bytes
  import opened Deadline

  /** What a call can report. For transfers `n` is the count, for socket() a descriptor,
      for getsockopt() the value read, for poll() the number of ready descriptors. */
  datatype Outcome = Done(n: nat) | Eintr | Eagain | Fail

  /** The life of the process's one socket. Bad is entered, for good, by any call that is
      out of turn: a second socket while one is open, a close without an open one, a look at
      the peer before the connection stands, a transfer before the peer is known, or a
      transfer that does not directly follow a clock reading before the deadline. */
  datatype Phase = Idle | Up(connected: bool, authenticated: bool, inTime: bool) | Bad

  datatype Event =
    | Opened
    | Connected
    | Closed
    | PeerSeen(uid: nat)
    | ClockRead(at: Option<Timespec>)
    | Transfer
    | Other

  function Step(ph: Phase, e: Event, requiredUid: nat, dl: Timespec): Phase {
    if ph.Bad? then Bad
    else
      match e
      case Opened => if ph.Idle? then Up(false, false, false) else Bad
      case Connected => if ph.Up? then Up(true, ph.authenticated, false) else Bad
      case Closed => if ph.Up? then Idle else Bad
      case PeerSeen(uid) => if ph.Up? && ph.connected then Up(true, uid == requiredUid, false) else Bad
      case ClockRead(at) =>
        if ph.Up? then Up(ph.connected, ph.authenticated, at.Some? && Nanos(at.value) < Nanos(dl)) else Idle
      case Transfer =>
        if ph.Up? && ph.connected && ph.authenticated && ph.inTime then Up(true, true, false) else Bad
      case Other => if ph.Up? then Up(ph.connected, ph.authenticated, false) else Idle
  }

  /** The monitor's verdict on a whole run of events. */
  function Verdict(events: seq<Event>, requiredUid: nat, dl: Timespec): Phase {
    if events == [] then Idle
    else Step(Verdict(events[..|events| - 1], requiredUid, dl), events[|events| - 1], requiredUid, dl)
  }

  /** Once out of turn, always out of turn: a run that ends well was well all along. */
  lemma {:induction false} VerdictOfPrefix(events: seq<Event>, i: nat, requiredUid: nat, dl: Timespec)
    requires i <= |events| && !Verdict(events, requiredUid, dl).Bad?
    ensures !Verdict(events[..i], requiredUid, dl).Bad?
    decreases |events|
  {
    if i == |events| {
      assert events[..i] == events;
    } else {
      var shorter := events[..|events| - 1];
      VerdictOfPrefix(shorter, i, requiredUid, dl);
      assert shorter[..i] == events[..i];
    }
  }

  function Count(events: seq<Event>, e: Event): nat {
    if events == [] then 0
    else Count(events[..|events| - 1], e) + if events[|events| - 1] == e then 1 else 0
  }

  /** A run the monitor passes closes every socket it opens, exactly once. */
  lemma {:induction false} SocketsBalance(events: seq<Event>, requiredUid: nat, dl: Timespec)
    requires !Verdict(events, requiredUid, dl).Bad?
    ensures Count(events, Opened) == Count(events, Closed) + if Verdict(events, requiredUid, dl).Up? then 1 else 0
  {
    if events != [] {
      SocketsBalance(events[..|events| - 1], requiredUid, dl);
    }
  }

  /** In a run the monitor passes, every transfer comes right after a clock reading that
      was before the deadline. */
  lemma TransfersAreInTime(events: seq<Event>, i: nat, requiredUid: nat, dl: Timespec)
    requires !Verdict(events, requiredUid, dl).Bad? && i < |events| && events[i] == Transfer
    ensures i > 0 && events[i - 1].ClockRead? && events[i - 1].at.Some?
            && Nanos(events[i - 1].at.value) < Nanos(dl)
  {
    VerdictOfPrefix(events, i + 1, requiredUid, dl);
    assert events[..i + 1][..i] == events[..i];
    if i > 0 { assert events[..i][..i - 1] == events[..i - 1]; }
  }

  /** In a run the monitor passes, a transfer happens only after the peer of the socket in
      use was seen to be the required user, with no other socket opened since. */
  lemma {:induction false} AuthenticatedMeansSeen(events: seq<Event>, requiredUid: nat, dl: Timespec)
    returns (k: nat)
    requires var v := Verdict(events, requiredUid, dl); v.Up? && v.authenticated
    ensures k < |events| && events[k] == PeerSeen(requiredUid)
    ensures forall m :: k < m < |events| ==> events[m] != Opened && events[m] != Closed
  {
    var init, last := events[..|events| - 1], events[|events| - 1];
    if last == PeerSeen(requiredUid) {
      k := |events| - 1;
    } else {
      k := AuthenticatedMeansSeen(init, requiredUid, dl);
      assert events[k] == init[k];
      forall m | k < m < |events| ensures events[m] != Opened && events[m] != Closed {
        if m < |init| { assert events[m] == init[m]; }
      }
    }
  }

  /** No byte moves to or from a peer that was not seen, on the socket in use, to be the
      required user. */
  lemma TransfersAreAuthenticated(events: seq<Event>, i: nat, requiredUid: nat, dl: Timespec) returns (k: nat)
    requires !Verdict(events, requiredUid, dl).Bad? && i < |events| && events[i] == Transfer
    ensures k < i && events[k] == PeerSeen(requiredUid)
    ensures forall m :: k < m < i ==> events[m] != Opened && events[m] != Closed
  {
    VerdictOfPrefix(events, i + 1, requiredUid, dl);
    var before := events[..i];
    assert events[..i + 1][..i] == before;
    k := AuthenticatedMeansSeen(before, requiredUid, dl);
    forall m | k < m < i ensures events[m] != Opened && events[m] != Closed {
      assert before[m] == events[m];
    }
  }

  lemma {:induction false} ConnectedMeansMade(events: seq<Event>, requiredUid: nat, dl: Timespec) returns (k: nat)
    requires var v := Verdict(events, requiredUid, dl); v.Up? && v.connected
    ensures k < |events| && events[k] == Connected
    ensures forall m :: k < m < |events| ==> events[m] != Opened && events[m] != Closed
  {
    var init, last := events[..|events| - 1], events[|events| - 1];
    if last == Connected {
      k := |events| - 1;
    } else {
      k := ConnectedMeansMade(init, requiredUid, dl);
      assert events[k] == init[k];
      forall m | k < m < |events| ensures events[m] != Opened && events[m] != Closed {
        if m < |init| { assert events[m] == init[m]; }
      }
    }
  }

  /** No byte moves on a socket whose connection was not seen to be made: by connect() itself,
      or by SO_ERROR once it had been left in progress. */
  lemma TransfersAreConnected(events: seq<Event>, i: nat, requiredUid: nat, dl: Timespec) returns (k: nat)
    requires !Verdict(events, requiredUid, dl).Bad? && i < |events| && events[i] == Transfer
    ensures k < i && events[k] == Connected
    ensures forall m :: k < m < i ==> events[m] != Opened && events[m] != Closed
  {
    VerdictOfPrefix(events, i + 1, requiredUid, dl);
    var before := events[..i];
    assert events[..i + 1][..i] == before;
    k := ConnectedMeansMade(before, requiredUid, dl);
    forall m | k < m < i ensures events[m] != Opened && events[m] != Closed {
      assert before[m] == events[m];
    }
  }

  /** Calls that move no bytes and create no socket, by what counts as their failure. */
  datatype Kind = Connect | Poll | PollOnce | SockOpt | Malloc

  predicate Fails(o: Outcome, kind: Kind) {
    match kind
    case Connect => o.Fail?
    case Poll => o.Fail? || o.Eagain?
    case PollOnce => o.Fail? || o.Eagain? || o == Done(0)
    case SockOpt => o != Done(0)
    case Malloc => !o.Done?
  }

  /** What makes the connection: connect() itself, or a clean SO_ERROR after it was left in progress. */
  predicate Makes(o: Outcome, kind: Kind) {
    (kind.Connect? && o.Done?) || (kind.SockOpt? && o == Done(0))
  }

  /** A transfer of at least one byte that failed or moved nothing. */
  predicate Stuck(o: Outcome) {
    o.Fail? || o == Done(0)
  }

  /** A clock reading that shows no time left. */
  predicate NoTime(now: Option<Timespec>, dl: Timespec) {
    now.None? || MsLeft(dl, now.value) <= 0
  }

  class Os {
    const clock: Clock
    const outcomes: nat -> Outcome
    const inbox: nat -> Byte          // the bytes the peer will ever send, in order
    var ticks: nat                    // clock readings so far
    var calls: nat                    // other calls so far
    var taken: nat                    // bytes read from the peer so far
    ghost var events: seq<Event>
    ghost var sent: seq<Byte>         // bytes that have left the process
    ghost var uid: nat                // what the monitor watches for
    ghost var dl: Timespec
    ghost var phase: Phase            // its verdict on the events so far
    ghost var trouble: nat            // failed calls and expired clock readings since Watch
    ghost var hungUp: bool            // a read met the end of the peer's stream

    ghost predicate Valid()
      reads this
    {
      phase == Verdict(events, uid, dl)
    }

    constructor (clock: Clock, outcomes: nat -> Outcome, inbox: nat -> Byte)
      ensures this.clock == clock && this.outcomes == outcomes && this.inbox == inbox
      ensures ticks == 0 && calls == 0 && taken == 0 && events == [] && sent == []
      ensures Valid() && phase == Idle && !hungUp
    {
      this.clock, this.outcomes, this.inbox, hungUp := clock, outcomes, inbox, false;
      ticks, calls, taken, events, sent := 0, 0, 0, [], [];
      uid, dl, phase, trouble := 0, Timespec(0, 0), Idle, 0;
    }

    /** The bytes read since position `from`. */
    ghost function Received(from: nat): seq<Byte>
      reads this
      requires from <= taken
    {
      Bytes(from, taken - from)
    }

    function Bytes(from: nat, n: nat): (r: seq<Byte>)
      ensures |r| == n && forall i :: 0 <= i < n ==> r[i] == inbox(from + i)
    {
      seq(n, i requires 0 <= i < n => inbox(from + i))
    }

    /** Point the monitor at a required uid and a deadline; it judges from the first event. */
    ghost method Watch(uid: nat, dl: Timespec)
      modifies `uid, `dl, `phase, `trouble
      ensures Valid() && this.uid == uid && this.dl == dl && trouble == 0
    {
      this.uid, this.dl, trouble := uid, dl, 0;
      phase := Verdict(events, uid, dl);
    }

    ghost method Record(e: Event)
      requires Valid()
      modifies `events, `phase
      ensures Valid() && events == old(events) + [e] && phase == Step(old(phase), e, uid, dl)
    {
      assert (events + [e])[..|events|] == events;
      phase := Step(phase, e, uid, dl);
      events := events + [e];
    }

    method ClockGettime() returns (now: Option<Timespec>)
      requires Valid()
      modifies `ticks, `events, `phase, `trouble
      ensures trouble == old(trouble) + if NoTime(now, dl) then 1 else 0
      ensures Valid() && now == clock(old(ticks)) && ticks == old(ticks) + 1
      ensures events == old(events) + [ClockRead(now)]
      ensures phase == Step(old(phase), ClockRead(now), uid, dl)
    {
      now := clock(ticks);
      ticks := ticks + 1;
      trouble := trouble + if NoTime(now, dl) then 1 else 0;
      Record(ClockRead(now));
    }

    /** Any call that neither moves bytes nor creates or destroys a socket. */
    method Call(kind: Kind) returns (r: Outcome)
      requires Valid()
      modifies `calls, `events, `phase, `trouble
      ensures trouble == old(trouble) + if Fails(r, kind) then 1 else 0
      ensures Valid() && phase == Step(old(phase), if Makes(r, kind) then Connected else Other, uid, dl)
    {
      r := outcomes(calls);
      calls := calls + 1;
      trouble := trouble + if Fails(r, kind) then 1 else 0;
      Record(if Makes(r, kind) then Connected else Other);
    }

    /** socket(): only a success creates one. */
    method Socket() returns (r: Outcome)
      requires Valid()
      modifies `calls, `events, `phase, `trouble
      ensures trouble == old(trouble) + if r.Done? then 0 else 1
      ensures Valid() && phase == Step(old(phase), if r.Done? then Opened else Other, uid, dl)
    {
      r := outcomes(calls);
      calls := calls + 1;
      trouble := trouble + if r.Done? then 0 else 1;
      Record(if r.Done? then Opened else Other);
    }

    method Close()
      requires Valid()
      modifies `events, `phase
      ensures Valid() && phase == Step(old(phase), Closed, uid, dl) && events == old(events) + [Closed]
    {
      Record(Closed);
    }

    /** SO_PEERCRED: the kernel-verified uid of the peer. */
    method PeerCred() returns (r: Outcome)
      requires Valid()
      modifies `calls, `events, `phase, `trouble
      ensures trouble == old(trouble) + if r.Done? then 0 else 1
      ensures Valid() && phase == Step(old(phase), if r.Done? then PeerSeen(r.n) else Other, uid, dl)
      ensures events == old(events) + [if r.Done? then PeerSeen(r.n) else Other]
    {
      r := outcomes(calls);
      calls := calls + 1;
      trouble := trouble + if r.Done? then 0 else 1;
      Record(if r.Done? then PeerSeen(r.n) else Other);
    }

    /** send(): moves some prefix of the data, possibly empty, or fails. */
    method Send(data: seq<Byte>) returns (r: Outcome)
      requires Valid()
      modifies `calls, `events, `phase, `sent, `trouble
      ensures trouble == old(trouble) + if Stuck(r) then 1 else 0
      ensures Valid() && phase == Step(old(phase), Transfer, uid, dl)
      ensures r.Done? ==> r.n <= |data| && sent == old(sent) + data[..r.n]
      ensures !r.Done? ==> sent == old(sent)
    {
      r := outcomes(calls);
      if r.Done? && r.n > |data| {
        r := Done(|data|);
      }
      calls := calls + 1;
      trouble := trouble + if Stuck(r) then 1 else 0;
      Record(Transfer);
      if r.Done? {
        sent := sent + data[..r.n];
      }
    }

    /** read(): stores up to `room` of the next bytes at `off`, or fails; 0 is end of file. */
    method Read(buf: array<Byte>, off: nat, room: nat) returns (r: Outcome)
      requires Valid() && off + room <= buf.Length
      modifies `calls, `taken, `events, `phase, `trouble, `hungUp, buf
      ensures hungUp == (old(hungUp) || r == Done(0))
      ensures trouble == old(trouble) + if Stuck(r) then 1 else 0
      ensures Valid() && phase == Step(old(phase), Transfer, uid, dl)
      ensures r.Done? ==> r.n <= room && taken == old(taken) + r.n
      ensures !r.Done? ==> taken == old(taken)
      ensures forall i :: off <= i < off + taken - old(taken) ==> buf[i] == inbox(old(taken) + i - off)
      ensures forall i :: 0 <= i < buf.Length && !(off <= i < off + taken - old(taken)) ==> buf[i] == old(buf[i])
    {
      hide MsLeft, Verdict, Step;
      r := outcomes(calls);
      if r.Done? && r.n > room {
        r := Done(room);
      }
      calls := calls + 1;
      trouble, hungUp := trouble + if Stuck(r) then 1 else 0, hungUp || r == Done(0);
      Record(Transfer);
      if r.Done? {
        forall i | 0 <= i < r.n {
          buf[off + i] := inbox(taken + i);
        }
        taken := taken + r.n;
      }
    }
  }
}

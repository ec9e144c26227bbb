/** One framed request and one framed reply over an authenticated socket, all of it under
    one absolute deadline. */
module Transport {
  import opened Bytes
  import opened Deadline
  import opened Kernel

  const FRAME_VERSION: int := 1
  const FRAME_MAX_BODY: nat := 65536
  const DEFAULT_TIMEOUT_MS: int := 5000
  const SUN_PATH_SIZE: nat := 108

  datatype Error =
    | RequestSize | ClockError | SocketPath | SocketError | ConnectError | DeadlineError | Peer | PeerUid
    | SendError | RecvError | FrameEof | FrameVersion | FrameTooLarge | Oom

  datatype Reply = Ok(body: seq<Byte>) | Err(error: Error)

  /** Outcome of one transfer loop. */
  datatype Io = Complete | Eof | Failed | TimedOut

  // ---- framing ------------------------------------------------------------------

  function Octet(n: int): Byte
    requires 0 <= n < 256
  {
    n as char
  }

  /** Version byte and big-endian length. */
  function EncodeHeader(n: nat): (h: seq<Byte>)
    requires n < 0x1_0000_0000
    ensures |h| == 5
  {
    [Octet(FRAME_VERSION), Octet(n / 0x100_0000 % 256), Octet(n / 0x1_0000 % 256), Octet(n / 0x100 % 256),
     Octet(n % 256)]
  }

  function DecodeLength(h: seq<Byte>): (n: nat)
    requires |h| == 5
    ensures n < 0x1_0000_0000
  {
    h[1] as int * 0x100_0000 + h[2] as int * 0x1_0000 + h[3] as int * 0x100 + h[4] as int
  }

  lemma DecodeInvertsEncode(n: nat)
    requires n < 0x1_0000_0000
    ensures DecodeLength(EncodeHeader(n)) == n
  {
    var a, b, c := n / 0x100, n / 0x1_0000, n / 0x100_0000;
    assert b == a / 256 && c == b / 256;
    assert n == a * 256 + n % 256 && a == b * 256 + a % 256 && b == c * 256 + b % 256;
  }

  /** Reading four bytes as one big-endian number, one byte at a time. */
  lemma EncodeInvertsDecode(h: seq<Byte>)
    requires |h| == 5 && h[0] == Octet(FRAME_VERSION)
    ensures EncodeHeader(DecodeLength(h)) == h
  {
    var n := DecodeLength(h);
    var b1, b2, b3, b4 := h[1] as nat, h[2] as nat, h[3] as nat, h[4] as nat;
    var n2, n3 := b1 * 256 + b2, (b1 * 256 + b2) * 256 + b3;
    assert n == n3 * 256 + b4;
    Digit256(n3, b4);
    Digit256(n2, b3);
    Digit256(b1, b2);
    assert n / 0x1_0000 == n / 0x100 / 0x100 && n / 0x100_0000 == n / 0x100 / 0x100 / 0x100;
    var e := EncodeHeader(n);
    assert e[1] == h[1] && e[2] == h[2] && e[3] == h[3] && e[4] == h[4];
  }

  /** Appending a byte to a big-endian number and taking it off again. */
  lemma Digit256(q: nat, b: nat)
    requires b < 256
    ensures (q * 256 + b) / 256 == q && (q * 256 + b) % 256 == b
  {
  }

  function Frame(body: seq<Byte>): seq<Byte>
    requires |body| <= FRAME_MAX_BODY
  {
    EncodeHeader(|body|) + body
  }

  /** The frame byte by byte: version 1, four length bytes with the highest first, the body. */
  lemma FrameBytes(body: seq<Byte>)
    requires |body| <= 65536
    ensures |Frame(body)| == 5 + |body| && Frame(body)[0] as int == 1 && Frame(body)[5..] == body
    ensures Frame(body)[1] as int == |body| / 0x100_0000 && Frame(body)[2] as int == |body| / 0x1_0000 % 256
    ensures Frame(body)[3] as int == |body| / 0x100 % 256 && Frame(body)[4] as int == |body| % 256
    ensures |body| == Frame(body)[1] as int * 0x100_0000 + Frame(body)[2] as int * 0x1_0000
                      + Frame(body)[3] as int * 0x100 + Frame(body)[4] as int
  {
    DecodeInvertsEncode(|body|);
  }

  // ---- the loops --------------------------------------------------------------------

  /** What every loop keeps: a well-formed clock, the monitored deadline, and the number of
      readings after which that deadline has passed. */
  ghost predicate Timed(k: Os, dl: Timespec, limit: nat)
    reads k
  {
    k.Valid() && WellFormed(k.clock) && Normal(dl) && k.dl == dl && PastFrom(k.clock, dl, limit)
  }

  /** The latest clock reading failed, or showed no millisecond left. */
  ghost predicate Expired(k: Os)
    reads k`ticks, k`dl
  {
    k.ticks > 0 && NoTime(k.clock(k.ticks - 1), k.dl)
  }

  /** An authenticated socket, in turn. */
  ghost predicate Ready(ph: Phase) {
    ph.Up? && ph.connected && ph.authenticated
  }

  /** The socket is as connected and as authenticated as before. */
  predicate SameSocket(a: Phase, b: Phase)
    requires a.Up? && b.Up?
  {
    a.connected == b.connected && a.authenticated == b.authenticated
  }

  /** ms_left: the milliseconds remaining; a failing clock reads as expired. */
  method MsLeftNow(k: Os, dl: Timespec, ghost limit: nat) returns (left: int)
    requires Timed(k, dl, limit)
    modifies k`trouble, k`ticks, k`events, k`phase
    ensures Timed(k, dl, limit) && k.ticks == old(k.ticks) + 1
    ensures left > 0 ==> old(k.ticks) < limit
    ensures left <= 0 <==> Expired(k)
    ensures k.trouble == old(k.trouble) + if left <= 0 then 1 else 0
    ensures old(k.phase).Up? ==> k.phase.Up? && SameSocket(old(k.phase), k.phase)
    ensures old(k.phase).Up? && left > 0 ==> k.phase.inTime
    ensures old(k.phase).Idle? ==> k.phase.Idle?
  {
    var now := k.ClockGettime();
    if now.None? {
      return 0;
    }
    left := MsLeft(dl, now.value);
    MsLeftIsSound(dl, now.value);
  }

  /** wait_fd: poll until ready, error or deadline. An interrupted or timed-out poll goes
      back to the clock; the clock runs out. */
  method WaitFd(k: Os, dl: Timespec, ghost limit: nat) returns (r: Io)
    requires Timed(k, dl, limit) && k.phase.Up?
    modifies k`trouble, k`ticks, k`calls, k`events, k`phase
    ensures Timed(k, dl, limit) && k.phase.Up? && SameSocket(old(k.phase), k.phase)
    ensures r == Complete || r == Failed || r == TimedOut
    ensures r == TimedOut <==> Expired(k)
    ensures if r == Complete then k.trouble == old(k.trouble) else k.trouble > old(k.trouble)
    ensures old(k.ticks) < k.ticks && (r != TimedOut ==> k.ticks <= limit)
    ensures k.ticks <= old(k.ticks) + 1 || k.ticks <= limit + 1
  {
    while true
      invariant Timed(k, dl, limit) && k.phase.Up? && SameSocket(old(k.phase), k.phase)
      invariant k.trouble == old(k.trouble)
      invariant k.ticks == old(k.ticks) || old(k.ticks) < k.ticks <= limit
      decreases limit - k.ticks
    {
      var left := MsLeftNow(k, dl, limit);
      if left <= 0 {
        return TimedOut;
      }
      var p := k.Call(Poll);
      match p {
        case Eintr =>
        case Eagain =>
          return Failed;
        case Fail =>
          return Failed;
        case Done(n) =>
          if n != 0 {
            return Complete;
          }
      }
    }
  }

  /** write_full: send all of `data`, re-reading the clock before every send. Whatever the
      outcome, exactly a prefix of the data has left. */
  method WriteFull(k: Os, data: seq<Byte>, dl: Timespec, ghost limit: nat) returns (r: Io)
    requires Timed(k, dl, limit) && Ready(k.phase) && !Expired(k)
    modifies k`trouble, k`ticks, k`calls, k`events, k`phase, k`sent
    ensures Timed(k, dl, limit) && Ready(k.phase)
    ensures r == Complete || r == Failed || r == TimedOut
    ensures r == TimedOut <==> Expired(k)
    ensures if r == Complete then k.trouble == old(k.trouble) else k.trouble > old(k.trouble)
    ensures old(k.sent) <= k.sent <= old(k.sent) + data
    ensures r == Complete <==> k.sent == old(k.sent) + data
    ensures k.ticks <= old(k.ticks) + 1 || k.ticks <= limit + 1
    ensures r == Complete && data != [] ==> k.ticks <= limit
  {
    hide MsLeft, NoTime, Expired, Verdict;
    var done := 0;
    assert data[..0] == [];
    while done < |data|
      invariant Timed(k, dl, limit) && Ready(k.phase) && !Expired(k)
      invariant k.trouble == old(k.trouble)
      invariant done <= |data| && k.sent == old(k.sent) + data[..done]
      invariant (k.ticks == old(k.ticks) && done == 0) || old(k.ticks) < k.ticks <= limit
      decreases limit - k.ticks
    {
      var left := MsLeftNow(k, dl, limit);
      if left <= 0 {
        return TimedOut;
      }
      var w := k.Send(data[done..]);
      match w {
        case Eintr =>
        case Eagain =>
          var wr := WaitFd(k, dl, limit);
          if wr != Complete {
            return wr;
          }
        case Fail =>
          return Failed;
        case Done(n) =>
          if n == 0 {
            return Failed;
          }
          assert data[..done + n] == data[..done] + data[done..][..n];
          done := done + n;
      }
    }
    assert data[..done] == data;
    r := Complete;
  }

  /** read_full: fill the first `n` bytes of `buf`, re-reading the clock before every read.
      Success stores exactly the next `n` bytes the peer sent. */
  method ReadFull(k: Os, buf: array<Byte>, n: nat, dl: Timespec, ghost limit: nat) returns (r: Io)
    requires Timed(k, dl, limit) && Ready(k.phase) && n <= buf.Length && !Expired(k) && !k.hungUp
    modifies k`trouble, k`ticks, k`calls, k`taken, k`events, k`phase, k`hungUp, buf
    ensures Timed(k, dl, limit) && Ready(k.phase)
    ensures (r == TimedOut <==> Expired(k)) && (r == Eof <==> k.hungUp)
    ensures old(k.taken) <= k.taken <= old(k.taken) + n
    ensures r == Complete <==> k.taken == old(k.taken) + n
    ensures if r == Complete then k.trouble == old(k.trouble) else k.trouble > old(k.trouble)
    ensures r == Complete ==> buf[..n] == k.Bytes(old(k.taken), n)
    ensures k.ticks <= old(k.ticks) + 1 || k.ticks <= limit + 1
    ensures r == Complete && n > 0 ==> k.ticks <= limit
  {
    hide MsLeft, NoTime, Expired, Verdict;
    var got := 0;
    while got < n
      invariant Timed(k, dl, limit) && Ready(k.phase) && !Expired(k) && !k.hungUp
      invariant k.trouble == old(k.trouble)
      invariant got <= n && k.taken == old(k.taken) + got
      invariant forall i :: 0 <= i < got ==> buf[i] == k.inbox(old(k.taken) + i)
      invariant (k.ticks == old(k.ticks) && got == 0) || old(k.ticks) < k.ticks <= limit
      decreases limit - k.ticks
    {
      var left := MsLeftNow(k, dl, limit);
      if left <= 0 {
        return TimedOut;
      }
      var got0 := k.Read(buf, got, n - got);
      match got0 {
        case Eintr =>
        case Eagain =>
          var wr := WaitFd(k, dl, limit);
          if wr != Complete {
            return wr;
          }
        case Fail =>
          return Failed;
        case Done(m) =>
          if m == 0 {
            return Eof;
          }
          got := got + m;
      }
    }
    r := Complete;
  }

  /** connect_deadline: one socket at a time; a full backlog retries on a fresh one. On
      success exactly one socket is open, on failure none. */
  method ConnectDeadline(k: Os, path: CStr, dl: Timespec, ghost limit: nat) returns (err: Option<Error>)
    requires Timed(k, dl, limit) && k.phase.Idle? && !Expired(k)
    modifies k`trouble, k`ticks, k`calls, k`events, k`phase
    ensures Timed(k, dl, limit) && (err == Some(DeadlineError) <==> Expired(k))
    ensures err.None? ==> k.phase.Up? && k.phase.connected && (k.ticks == old(k.ticks) || k.ticks <= limit)
    ensures err.Some? ==> k.phase.Idle?
    ensures err.Some? ==> err.value in {SocketPath, SocketError, ConnectError, DeadlineError}
    ensures k.ticks <= old(k.ticks) + 1 || k.ticks <= limit + 1
    ensures err.Some? && err != Some(SocketPath) ==> k.trouble > old(k.trouble)
    ensures err.None? ==> k.trouble == old(k.trouble)
    ensures err == Some(SocketPath) <==> path.None? || path.value == [] || |path.value| >= 108
  {
    hide MsLeft, NoTime, Expired, Verdict;
    if path.None? || path.value == [] || |path.value| >= SUN_PATH_SIZE {
      return Some(SocketPath);
    }
    while true
      invariant Timed(k, dl, limit) && k.phase.Idle? && k.trouble == old(k.trouble) && !Expired(k)
      invariant k.ticks == old(k.ticks) || old(k.ticks) < k.ticks <= limit
      decreases limit - k.ticks
    {
      var s := k.Socket();
      if !s.Done? {
        return Some(SocketError);
      }
      var c := k.Call(Connect);
      if c.Done? {
        return None;
      }
      if c.Eintr? {               // EINTR or EINPROGRESS: wait for the result
        var wr := WaitFd(k, dl, limit);
        if wr == Complete {
          var so := k.Call(SockOpt);
          if so == Done(0) {
            return None;
          }
          k.Close();
          return Some(ConnectError);
        }
        k.Close();
        return Some(if wr == TimedOut then DeadlineError else ConnectError);
      }
      if c.Eagain? {
        k.Close();
        var left := MsLeftNow(k, dl, limit);
        if left <= 0 {
          return Some(DeadlineError);
        }
        continue;
      }
      k.Close();
      return Some(ConnectError);
    }
  }

  /** Send the frame: header, then body. */
  method SendFrame(k: Os, req: seq<Byte>, dl: Timespec, ghost limit: nat) returns (r: Io)
    requires Timed(k, dl, limit) && Ready(k.phase) && 0 < |req| <= FRAME_MAX_BODY && k.sent == [] && !Expired(k)
    modifies k`trouble, k`ticks, k`calls, k`events, k`phase, k`sent
    ensures Timed(k, dl, limit) && Ready(k.phase)
    ensures k.sent <= Frame(req)
    ensures r == Complete <==> k.sent == Frame(req)
    ensures r != Eof && (r == TimedOut <==> Expired(k))
    ensures if r == Complete then k.trouble == old(k.trouble) else k.trouble > old(k.trouble)
    ensures k.ticks <= old(k.ticks) + 1 || k.ticks <= limit + 1
    ensures r == Complete ==> k.ticks <= limit
  {
    hide MsLeft, NoTime, Expired, Verdict;
    var hdr := EncodeHeader(|req|);
    r := WriteFull(k, hdr, dl, limit);
    assert [] + hdr == hdr;
    if r == Complete {
      r := WriteFull(k, req, dl, limit);
    }
  }

  /** The header at position `at` announces more than a body may hold. */
  ghost predicate TooLong(k: Os, at: nat) {
    k.inbox(at + 1) as int * 0x100_0000 + k.inbox(at + 2) as int * 0x1_0000
    + k.inbox(at + 3) as int * 0x100 + k.inbox(at + 4) as int > 65536
  }

  /** Receive one frame: header, checks, body. */
  method ReceiveFrame(k: Os, dl: Timespec, ghost limit: nat) returns (r: Reply)
    requires Timed(k, dl, limit) && Ready(k.phase) && !Expired(k) && !k.hungUp
    modifies k`trouble, k`ticks, k`calls, k`taken, k`events, k`phase, k`hungUp
    ensures Timed(k, dl, limit) && k.phase.Up?
    ensures (r == Err(DeadlineError) <==> Expired(k)) && (r == Err(FrameEof) <==> k.hungUp)
    ensures k.taken >= old(k.taken)
    ensures r.Ok? ==> |r.body| <= FRAME_MAX_BODY && k.Received(old(k.taken)) == Frame(r.body)
    ensures r.Err? ==> r.error in {FrameEof, DeadlineError, RecvError, FrameVersion, FrameTooLarge, Oom}
    // only trouble, or a peer that breaks the framing, keeps the reply from being returned
    ensures if r.Ok? || r.error in {FrameVersion, FrameTooLarge} then k.trouble == old(k.trouble)
            else k.trouble > old(k.trouble)
    ensures r == Err(FrameVersion) ==> k.inbox(old(k.taken)) as int != 1
    ensures r == Err(FrameTooLarge) ==> TooLong(k, old(k.taken))
    ensures k.ticks <= old(k.ticks) + 1 || k.ticks <= limit + 1
  {
    hide EncodeHeader, DecodeLength, MsLeft, NoTime, Expired, Verdict;
    var header := ReceiveHeader(k, dl, limit);
    if header.NoHeader? {
      return Err(header.error);
    }
    r := ReceiveBody(k, header.len, dl, limit);
    assert r.Ok? ==> k.Received(old(k.taken)) == k.Bytes(old(k.taken), 5) + r.body;
  }

  /** Room for the body and its terminator, then the body. */
  method ReceiveBody(k: Os, rlen: nat, dl: Timespec, ghost limit: nat) returns (r: Reply)
    requires Timed(k, dl, limit) && Ready(k.phase) && !Expired(k) && !k.hungUp
    modifies k`trouble, k`ticks, k`calls, k`taken, k`events, k`phase, k`hungUp
    ensures Timed(k, dl, limit) && k.phase.Up?
    ensures (r == Err(DeadlineError) <==> Expired(k)) && (r == Err(FrameEof) <==> k.hungUp)
    ensures k.taken >= old(k.taken)
    ensures r.Ok? ==> |r.body| == rlen && k.taken == old(k.taken) + rlen && r.body == k.Bytes(old(k.taken), rlen)
    ensures r.Err? ==> r.error in {FrameEof, DeadlineError, RecvError, Oom}
    ensures if r.Ok? then k.trouble == old(k.trouble) else k.trouble > old(k.trouble)
    ensures k.ticks <= old(k.ticks) + 1 || k.ticks <= limit + 1
  {
    hide MsLeft, NoTime, Expired, Verdict;
    var m := k.Call(Malloc);
    if !m.Done? {
      return Err(Oom);
    }
    var body := new Byte[rlen + 1];
    var rr := ReadFull(k, body, rlen, dl, limit);
    if rr != Complete {
      return Err(ReadError(rr));
    }
    body[rlen] := '\0';
    r := Ok(body[..rlen]);
  }

  datatype Header = Length(len: nat) | NoHeader(error: Error)

  function ReadError(rr: Io): Error {
    if rr == Eof then FrameEof else if rr == TimedOut then DeadlineError else RecvError
  }

  /** The five header bytes, and the checks on version and length. */
  method ReceiveHeader(k: Os, dl: Timespec, ghost limit: nat) returns (r: Header)
    requires Timed(k, dl, limit) && Ready(k.phase) && !Expired(k) && !k.hungUp
    modifies k`trouble, k`ticks, k`calls, k`taken, k`events, k`phase, k`hungUp
    ensures Timed(k, dl, limit) && Ready(k.phase)
    ensures (r == NoHeader(DeadlineError) <==> Expired(k)) && (r == NoHeader(FrameEof) <==> k.hungUp)
    ensures old(k.taken) <= k.taken
    // a header is accepted for its version byte and its four length bytes, the highest first
    ensures r.Length? ==>
              && k.inbox(old(k.taken)) as int == 1 && r.len <= 65536 && k.taken == old(k.taken) + 5
              && r.len == k.inbox(old(k.taken) + 1) as int * 0x100_0000 + k.inbox(old(k.taken) + 2) as int * 0x1_0000
                          + k.inbox(old(k.taken) + 3) as int * 0x100 + k.inbox(old(k.taken) + 4) as int
    ensures r.Length? ==> k.Bytes(old(k.taken), 5) == EncodeHeader(r.len) && k.ticks <= limit
    ensures r.NoHeader? ==> r.error in {FrameEof, DeadlineError, RecvError, FrameVersion, FrameTooLarge}
    ensures if r.Length? || r.error in {FrameVersion, FrameTooLarge} then k.trouble == old(k.trouble)
            else k.trouble > old(k.trouble)
    ensures r == NoHeader(FrameVersion) ==> k.inbox(old(k.taken)) as int != 1
    ensures r == NoHeader(FrameTooLarge) ==>
              k.inbox(old(k.taken) + 1) as int * 0x100_0000 + k.inbox(old(k.taken) + 2) as int * 0x1_0000
              + k.inbox(old(k.taken) + 3) as int * 0x100 + k.inbox(old(k.taken) + 4) as int > 65536
    ensures k.ticks <= old(k.ticks) + 1 || k.ticks <= limit + 1
  {
    hide EncodeHeader, MsLeft, NoTime, Expired, Verdict;
    var rhdr := new Byte[5];
    var rr := ReadFull(k, rhdr, 5, dl, limit);
    if rr != Complete {
      return NoHeader(ReadError(rr));
    }
    var h := rhdr[..];
    assert rhdr[..5] == h;
    assert forall i :: 0 <= i < 5 ==> h[i] == k.inbox(old(k.taken) + i);
    if h[0] != Octet(FRAME_VERSION) {
      return NoHeader(FrameVersion);
    }
    var rlen := DecodeLength(h);
    if rlen > FRAME_MAX_BODY {
      return NoHeader(FrameTooLarge);
    }
    EncodeInvertsDecode(h);
    r := Length(rlen);
  }

  lemma FirstReading(now: Option<Timespec>, uid: nat, dl: Timespec)
    ensures Verdict([ClockRead(now)], uid, dl) == Idle
  {
    assert [ClockRead(now)][..0] == [];
  }

  /** A run that has not started yet. */
  ghost predicate Fresh(k: Os, rate: nat)
    reads k
  {
    && k.Valid() && k.events == [] && k.sent == [] && k.taken == 0 && k.ticks == 0 && !k.hungUp
    && WellFormed(k.clock) && Progressing(k.clock, rate)
  }

  /** Take the first clock reading and fix the deadline for the whole exchange. */
  method Arm(k: Os, requiredUid: nat, ms: nat, ghost rate: nat) returns (dl: Option<Timespec>)
    requires Fresh(k, rate) && ms > 0
    modifies k`trouble, k`ticks, k`events, k`phase, k`uid, k`dl
    ensures k.Valid() && k.phase == Idle && k.uid == requiredUid && k.ticks == 1 && k.trouble == 0
    ensures dl.None? ==> k.clock(0).None?
    ensures dl.Some? ==> k.clock(0).Some? && dl.value == DeadlineAt(k.clock(0).value, ms)
    ensures dl.Some? ==> Timed(k, dl.value, ReadingLimit(rate, ms)) && !Expired(k)
    ensures !k.hungUp && k.sent == [] && k.taken == 0
  {
    var now := k.ClockGettime();
    if now.None? {
      k.Watch(requiredUid, k.dl);
      FirstReading(now, requiredUid, k.dl);
      return None;
    }
    dl := Some(DeadlineAt(now.value, ms));
    DeadlineIsExact(now.value, ms);
    ReadingsAreBounded(k.clock, rate, 0, ms);
    k.Watch(requiredUid, dl.value);
    FirstReading(now, requiredUid, dl.value);
    MsLeftIsSound(dl.value, now.value);
    assert MsLeft(dl.value, now.value) > 0;
  }

  /** pkgx_transport_tx: connect, authenticate the peer, send one frame, read one frame,
      close; all within one absolute deadline. */
  method TransportTx(k: Os, path: CStr, requiredUid: nat, timeoutMs: int, req: Option<seq<Byte>>, ghost rate: nat)
    returns (r: Reply)
    requires Fresh(k, rate)
    modifies k
    // every socket is closed exactly once and no transfer was out of turn or late
    ensures k.Valid() && k.phase == Idle && k.uid == requiredUid
    ensures r.Ok? || k.sent != [] ==>
              && k.clock(0).Some? && 0 <= k.dl.nsec < 1000000000
              && k.dl.sec * 1000000000 + k.dl.nsec ==
                 k.clock(0).value.sec * 1000000000 + k.clock(0).value.nsec
                 + (if timeoutMs > 0 then timeoutMs else 5000) * 1000000
    // what left the process is a prefix of the one frame: version, length, body
    ensures k.sent != [] ==> req.Some? && 0 < |req.value| <= 65536 && |k.sent| <= 5 + |req.value|
    ensures forall i :: 0 <= i < |k.sent| ==>
              k.sent[i] as int == if i == 0 then 1
                                  else if i == 1 then |req.value| / 0x100_0000
                                  else if i == 2 then |req.value| / 0x1_0000 % 256
                                  else if i == 3 then |req.value| / 0x100 % 256
                                  else if i == 4 then |req.value| % 256
                                  else req.value[i - 5] as int
    // success means a whole frame each way
    ensures r.Ok? ==>
              && req.Some? && 0 < |req.value| <= 65536 && |k.sent| == 5 + |req.value| && k.sent[0] as int == 1
              && |req.value| == k.sent[1] as int * 0x100_0000 + k.sent[2] as int * 0x1_0000
                                + k.sent[3] as int * 0x100 + k.sent[4] as int
              && k.sent[5..] == req.value
    ensures r.Ok? ==>
              && |r.body| <= 65536 && |k.Received(0)| == 5 + |r.body| && k.Received(0)[0] as int == 1
              && |r.body| == k.Received(0)[1] as int * 0x100_0000 + k.Received(0)[2] as int * 0x1_0000
                             + k.Received(0)[3] as int * 0x100 + k.Received(0)[4] as int
              && k.Received(0)[5..] == r.body
    ensures r == Err(RequestSize) <==> req.None? || req.value == [] || |req.value| > 65536
    // what an error says of the peer
    ensures r == Err(Peer) || r == Err(PeerUid) ==> k.sent == []
    ensures r == Err(PeerUid) ==>
              exists i :: 0 <= i < |k.events| && k.events[i].PeerSeen? && k.events[i].uid != requiredUid
    ensures r == Err(FrameEof) <==> k.hungUp
    ensures r == Err(FrameVersion) ==> k.inbox(0) as int != 1
    ensures r == Err(FrameTooLarge) ==>
              k.inbox(1) as int * 0x100_0000 + k.inbox(2) as int * 0x1_0000
              + k.inbox(3) as int * 0x100 + k.inbox(4) as int > 65536
    // and of how far the exchange came
    ensures r == Err(SendError) ==> |k.sent| < 5 + |req.value|
    ensures r.Err? && r.error in {RecvError, FrameEof, FrameVersion, FrameTooLarge, Oom} ==>
              |k.sent| == 5 + |req.value|
    ensures r == Err(DeadlineError) ==>
              && k.ticks > 0
              && (k.clock(k.ticks - 1).None?
                  || (k.dl.sec - k.clock(k.ticks - 1).value.sec) * 1000000000
                     + k.dl.nsec - k.clock(k.ticks - 1).value.nsec < 1000000)
    // it fails only for bad arguments, for a peer that is foreign or breaks the framing, or
    // because a call failed or time ran out
    ensures r == Err(ClockError) ==> k.clock(0).None?
    ensures r == Err(SocketPath) ==> path.None? || path.value == [] || |path.value| >= 108
    ensures r.Err? && k.trouble == 0 ==>
              r.error in {RequestSize, ClockError, SocketPath, PeerUid, FrameVersion, FrameTooLarge}
    // the exchange ends: the clock is read only so often
    ensures k.ticks <= ReadingLimit(rate, if timeoutMs > 0 then timeoutMs else 5000) + 2
  {
    hide ReadingLimit, Progressing, Frame, MsLeft, DeadlineAt, NoTime, Verdict, Expired, Timed;
    if req.None? || req.value == [] || |req.value| > FRAME_MAX_BODY {
      k.Watch(requiredUid, k.dl);
      NoEvents(requiredUid, k.dl);
      return Err(RequestSize);
    }
    var ms := Budget(timeoutMs);
    r := Conduct(k, path, requiredUid, req.value, ms, rate);
    SentBytes(k.sent, req.value);
    if r.Ok? { FrameBytes(r.body); }
    if k.clock(0).Some? { DeadlineIsExact(k.clock(0).value, ms); }
    if r == Err(DeadlineError) { LatestIsLate(k); }
  }

  lemma NoEvents(uid: nat, dl: Timespec)
    ensures Verdict([], uid, dl) == Idle
  {
  }

  /** The exchange as such: arm the deadline, connect, talk. */
  method Conduct(k: Os, path: CStr, requiredUid: nat, req: seq<Byte>, ms: nat, ghost rate: nat) returns (r: Reply)
    requires Fresh(k, rate) && 0 < |req| <= FRAME_MAX_BODY && ms > 0
    modifies k
    ensures k.Valid() && k.phase == Idle && k.uid == requiredUid && WellFormed(k.clock)
    ensures r != Err(ClockError) ==>
              k.clock(0).Some? && k.dl == DeadlineAt(k.clock(0).value, ms) && Normal(k.dl)
    ensures k.sent <= Frame(req) && (r == Err(ClockError) ==> k.sent == [] && k.clock(0).None?)
    ensures r.Ok? ==> k.sent == Frame(req) && |r.body| <= FRAME_MAX_BODY && k.Received(0) == Frame(r.body)
    ensures Talked(k, requiredUid, req, r) && r != Err(RequestSize)
    ensures r == Err(DeadlineError) ==> Expired(k)
    ensures r == Err(SocketPath) ==> path.None? || path.value == [] || |path.value| >= 108
    ensures r.Err? && k.trouble == 0 ==> r.error in {ClockError, SocketPath, PeerUid, FrameVersion, FrameTooLarge}
    ensures k.ticks <= ReadingLimit(rate, ms) + 2
  {
    hide ReadingLimit, Progressing, Frame, MsLeft, DeadlineAt, NoTime, Verdict, Expired, TooLong;
    var armed := Arm(k, requiredUid, ms, rate);
    if armed.None? {
      return Err(ClockError);
    }
    var dl := armed.value;
    ghost var limit := ReadingLimit(rate, ms);
    var err := ConnectDeadline(k, path, dl, limit);
    if err.Some? {
      return Err(err.value);
    }
    r := Exchange(k, requiredUid, req, dl, limit);
  }

  /** What a prefix of the frame looks like. */
  lemma SentBytes(sent: seq<Byte>, req: seq<Byte>)
    requires |req| <= 65536 && sent <= Frame(req)
    ensures |sent| <= 5 + |req| && (sent == Frame(req) <==> |sent| == 5 + |req|)
    ensures forall i :: 0 <= i < |sent| ==>
              sent[i] as int == if i == 0 then 1
                                else if i == 1 then |req| / 0x100_0000
                                else if i == 2 then |req| / 0x1_0000 % 256
                                else if i == 3 then |req| / 0x100 % 256
                                else if i == 4 then |req| % 256
                                else req[i - 5] as int
    ensures sent == Frame(req) ==>
              && |req| == sent[1] as int * 0x100_0000 + sent[2] as int * 0x1_0000
                          + sent[3] as int * 0x100 + sent[4] as int
              && sent[5..] == req
  {
    FrameBytes(req);
    hide Frame;
    forall i | 5 <= i < |sent| ensures sent[i] == req[i - 5] {
      assert Frame(req)[5..][i - 5] == req[i - 5];
    }
  }

  /** Where the clock says that the time is up, less than a millisecond is left. */
  lemma LatestIsLate(k: Os)
    requires Expired(k) && WellFormed(k.clock) && Normal(k.dl)
    ensures k.ticks > 0
    ensures k.clock(k.ticks - 1).None?
            || (k.dl.sec - k.clock(k.ticks - 1).value.sec) * 1000000000
               + k.dl.nsec - k.clock(k.ticks - 1).value.nsec < 1000000
  {
    if k.clock(k.ticks - 1).Some? { MsLeftIsSound(k.dl, k.clock(k.ticks - 1).value); }
  }

  /** What an error says of the peer, and of how far the exchange came. */
  ghost predicate Talked(k: Os, requiredUid: nat, req: seq<Byte>, r: Reply)
    requires |req| <= FRAME_MAX_BODY
    reads k
  {
    && (r == Err(Peer) || r == Err(PeerUid) ==> k.sent == [])
    && (r == Err(PeerUid) ==>
          exists i :: 0 <= i < |k.events| && k.events[i].PeerSeen? && k.events[i].uid != requiredUid)
    && (r == Err(FrameEof) <==> k.hungUp)
    && (r == Err(FrameVersion) ==> k.inbox(0) as int != 1)
    && (r == Err(FrameTooLarge) ==> TooLong(k, 0))
    && (r == Err(SendError) ==> k.sent != Frame(req))
    && (r.Err? && r.error in {RecvError, FrameEof, FrameVersion, FrameTooLarge, Oom} ==> k.sent == Frame(req))
  }

  /** The part of the exchange that happens on the connected socket. */
  method Exchange(k: Os, requiredUid: nat, req: seq<Byte>, dl: Timespec, ghost limit: nat) returns (r: Reply)
    requires Timed(k, dl, limit) && k.phase.Up? && k.phase.connected && k.uid == requiredUid
    requires k.taken == 0 && k.sent == []
    requires 0 < |req| <= FRAME_MAX_BODY && !Expired(k) && !k.hungUp
    modifies k`trouble, k`ticks, k`calls, k`taken, k`events, k`phase, k`sent, k`hungUp
    ensures Timed(k, dl, limit) && k.phase == Idle
    ensures (r == Err(DeadlineError) <==> Expired(k)) && Talked(k, requiredUid, req, r)
    ensures k.sent <= Frame(req)
    ensures r.Ok? ==> k.sent == Frame(req) && |r.body| <= FRAME_MAX_BODY && k.Received(0) == Frame(r.body)
    ensures r.Err? ==> r.error !in {RequestSize, ClockError, SocketPath}
    ensures r.Err? && r.error !in {PeerUid, FrameVersion, FrameTooLarge} ==> k.trouble > old(k.trouble)
    ensures k.trouble >= old(k.trouble)
    ensures k.ticks <= old(k.ticks) + 1 || k.ticks <= limit + 1
  {
    hide MsLeft, NoTime, Frame, Verdict, Expired, TooLong;
    var cr := k.PeerCred();
    if !cr.Done? {
      k.Close();
      return Err(Peer);
    }
    if cr.n != requiredUid {
      k.Close();
      assert k.events[|k.events| - 2] == PeerSeen(cr.n);
      return Err(PeerUid);
    }
    var wr := SendFrame(k, req, dl, limit);
    if wr != Complete {
      k.Close();
      return Err(if wr == TimedOut then DeadlineError else SendError);
    }
    r := ReceiveFrame(k, dl, limit);
    k.Close();
  }

  /** The whole-exchange budget; a nonpositive setting means the default. */
  function Budget(timeoutMs: int): nat {
    if timeoutMs > 0 then timeoutMs else DEFAULT_TIMEOUT_MS
  }
}

/** The encoder's growable byte buffer: geometric growth under a hard cap. */
module Buffer {
  import opened Bytes

  const MAX_CANON: nat := 4 * 1024 * 1024
  const FIRST_CAP: nat := 64

  /** 64 * 2^k, the capacities the doubling loop can produce. */
  function Capacity(k: nat): nat {
    if k == 0 then FIRST_CAP else 2 * Capacity(k - 1)
  }

  lemma {:induction false} CapacityMonotone(j: nat, k: nat)
    requires j <= k
    ensures Capacity(j) <= Capacity(k)
    decreases k - j
  {
    if j < k { CapacityMonotone(j + 1, k); }
  }

  /** The cap is itself a capacity, so a capacity below it doubles to at most the cap. */
  lemma DoublingStaysBelowCap(k: nat)
    requires Capacity(k) < 4194304
    ensures Capacity(0) == 64 && Capacity(k + 1) == 2 * Capacity(k) <= 4194304
  {
    assert Capacity(16) == MAX_CANON by {
      assert Capacity(4) == 1024;
      assert Capacity(8) == 16 * 1024;
      assert Capacity(12) == 256 * 1024;
    }
    if k >= 16 { CapacityMonotone(16, k); }
    CapacityMonotone(k + 1, 16);
  }

  /** What one append does to the contents: all of the chunk or nothing. */
  function Appended(c: seq<Byte>, d: seq<Byte>): seq<Byte> {
    if |c| + |d| <= MAX_CANON then c + d else c
  }

  /** A whole sequence of appends. */
  function AppendAll(c: seq<Byte>, ds: seq<seq<Byte>>): seq<Byte>
    decreases ds
  {
    if ds == [] then c else AppendAll(Appended(c, ds[0]), ds[1..])
  }

  function Concat(ds: seq<seq<Byte>>): seq<Byte> {
    if ds == [] then [] else ds[0] + Concat(ds[1..])
  }

  /** The chunks a run of appends takes in. */
  function Accepted(c: seq<Byte>, ds: seq<seq<Byte>>): seq<seq<Byte>>
    decreases ds
  {
    if ds == [] then []
    else if |c| + |ds[0]| <= MAX_CANON then [ds[0]] + Accepted(c + ds[0], ds[1..])
    else Accepted(c, ds[1..])
  }

  /** After any run of appends the contents are the old contents followed by the
      accepted chunks, in order; and if everything fits, nothing is refused. */
  lemma {:induction false} AppendsConcatenate(c: seq<Byte>, ds: seq<seq<Byte>>)
    requires |c| <= MAX_CANON
    ensures AppendAll(c, ds) == c + Concat(Accepted(c, ds))
    ensures |AppendAll(c, ds)| <= MAX_CANON
    ensures |c| + |Concat(ds)| <= MAX_CANON ==> Accepted(c, ds) == ds
    decreases ds
  {
    if ds != [] {
      AppendsConcatenate(Appended(c, ds[0]), ds[1..]);
      if |c| + |ds[0]| <= MAX_CANON {
        var rest := Accepted(c + ds[0], ds[1..]);
        assert ([ds[0]] + rest)[1..] == rest;
        assert c + ds[0] + Concat(rest) == c + (ds[0] + Concat(rest));
      }
    }
  }

  class Buf {
    var p: array<Byte>
    var len: nat
    var cap: nat
    ghost var contents: seq<Byte>   // the bytes appended so far
    ghost var grown: nat            // log2(cap / 64), when there is an allocation
    ghost var moved: nat            // bytes copied by all reallocations so far

    ghost predicate Valid()
      reads this, p
    {
      && len <= cap == p.Length <= MAX_CANON
      && contents == p[..len]
      && (cap == 0 || cap == Capacity(grown))
      && (cap == 0 ==> moved == 0)
      && (cap > 0 ==> moved + FIRST_CAP <= cap)
    }

    constructor ()
      ensures Valid() && fresh(p) && contents == []
    {
      p := new Byte[0];
      len, cap, contents, grown, moved := 0, 0, [], 0, 0;
    }

    /** Make room for `extra` bytes. Refusing is decided by the cap alone, and refusing
        changes nothing; growing never loses a byte. */
    method Reserve(extra: nat) returns (ok: bool)
      requires Valid()
      modifies this
      ensures Valid() && len == old(len) && (p == old(p) || fresh(p))
      ensures ok <==> len + extra <= MAX_CANON
      ensures ok ==> len + extra <= cap
      ensures !ok ==> p == old(p) && cap == old(cap)
      ensures contents == old(contents)
      ensures cap >= old(cap)
    {
      if len > MAX_CANON || extra > MAX_CANON - len {
        return false;
      }
      var need := len + extra;
      if need <= cap {
        return true;
      }
      var nc := if cap != 0 then cap else FIRST_CAP;
      ghost var k: nat := if cap != 0 then grown else 0;
      while nc < need
        invariant nc == Capacity(k) <= MAX_CANON
        invariant cap != 0 ==> nc >= cap && (nc == cap || nc >= 2 * cap)
        invariant nc >= FIRST_CAP
        modifies {}
        decreases need - nc
      {
        DoublingStaysBelowCap(k);
        nc := nc * 2;
        k := k + 1;
      }
      var np := new Byte[nc];
      forall i | 0 <= i < len {
        np[i] := p[i];
      }
      assert np[..len] == contents;
      moved := moved + len;
      p := np;
      cap := nc;
      grown := k;
      ok := true;
    }

    /** Append a chunk: everything, or (past the cap) nothing. */
    method Add(d: seq<Byte>) returns (ok: bool)
      requires Valid()
      modifies this, p
      ensures Valid() && (p == old(p) || fresh(p))
      ensures ok <==> |old(contents)| + |d| <= MAX_CANON
      ensures contents == Appended(old(contents), d)
      ensures !ok ==> p == old(p) && cap == old(cap)
    {
      ok := Reserve(|d|);
      if !ok {
        return;
      }
      forall i | 0 <= i < |d| {
        p[len + i] := d[i];
      }
      len := len + |d|;
      assert p[..len] == contents + d;
      contents := contents + d;
    }

    method Addc(c: Byte) returns (ok: bool)
      requires Valid()
      modifies this, p
      ensures Valid() && (p == old(p) || fresh(p))
      ensures ok <==> |old(contents)| + 1 <= MAX_CANON
      ensures contents == Appended(old(contents), [c])
      ensures !ok ==> p == old(p) && cap == old(cap)
    {
      ok := Add([c]);
    }
  }
}

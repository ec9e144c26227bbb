/** Strict UTF-8, against sections 3 and 4 of RFC 3629. */
module Utf8 {
  import opened Bytes

  // ---- the standard: scalar values and their encodings --------------------

  /** A Unicode scalar value a NUL-terminated string can carry. */
  predicate Scalar(cp: int) {
    0 < cp <= 0x10FFFF && !(0xD800 <= cp <= 0xDFFF)
  }

  /** Section 3 of RFC 3629: the octets of the one encoding of a scalar value. */
  function Octets(cp: int): (r: seq<int>)
    requires Scalar(cp)
    ensures 1 <= |r| <= 4
    ensures forall i :: 0 <= i < |r| ==> 0 < r[i] < 256
  {
    if cp < 0x80 then [cp]
    else if cp < 0x800 then [0xC0 + cp / 64, 0x80 + cp % 64]
    else if cp < 0x10000 then [0xE0 + cp / 64 / 64, 0x80 + cp / 64 % 64, 0x80 + cp % 64]
    else [0xF0 + cp / 64 / 64 / 64, 0x80 + cp / 64 / 64 % 64, 0x80 + cp / 64 % 64, 0x80 + cp % 64]
  }

  function Encode(cp: int): (r: Str)
    requires Scalar(cp)
    ensures |r| == |Octets(cp)|
  {
    var o := Octets(cp);
    seq(|o|, i requires 0 <= i < |o| => o[i] as char)
  }

  ghost predicate AllScalars(cps: seq<int>) {
    forall i :: 0 <= i < |cps| ==> Scalar(cps[i])
  }

  ghost function EncodeAll(cps: seq<int>): Str
    requires AllScalars(cps)
  {
    if cps == [] then [] else Encode(cps[0]) + EncodeAll(cps[1..])
  }

  // ---- the checker's step ---------------------------------------------------

  function CodeAt(s: Str, i: nat): int
    requires i <= |s|
  {
    At(s, i) as int
  }

  predicate IsTail(c: int) {
    0x80 <= c < 0xC0
  }

  /** Length of the sequence a lead octet announces; 0 for an octet that cannot lead. */
  function LeadLength(c: int): nat {
    if 0 < c < 0x80 then 1
    else if 0xC0 <= c < 0xE0 then 2
    else if 0xE0 <= c < 0xF0 then 3
    else if 0xF0 <= c < 0xF8 then 4
    else 0
  }

  function LeadBits(c: int): int {
    if c < 0x80 then c else if c < 0xE0 then c - 0xC0 else if c < 0xF0 then c - 0xE0 else c - 0xF0
  }

  function Minimum(n: nat): int {
    if n == 2 then 0x80 else if n == 3 then 0x800 else if n == 4 then 0x10000 else 1
  }

  /** The value accumulated from the first `k` octets of a sequence. */
  function Accumulated(o: seq<int>, k: nat): int
    requires 1 <= k <= |o|
  {
    if k == 1 then LeadBits(o[0]) else Accumulated(o, k - 1) * 64 + o[k - 1] % 64
  }

  /** One accepted sequence of octets. */
  predicate Accepted(o: seq<int>) {
    && o != []
    && |o| == LeadLength(o[0])
    && (forall k :: 1 <= k < |o| ==> IsTail(o[k]))
    && Minimum(|o|) <= Accumulated(o, |o|)
    && Scalar(Accumulated(o, |o|))
  }

  /** The first `n` bytes of a string, as numbers. */
  function Front(s: Str, n: nat): (r: seq<int>)
    requires n <= |s|
    ensures |r| == n
  {
    seq(n, i requires 0 <= i < n => s[i] as int)
  }

  /** `s` begins with one accepted sequence of `n` octets. */
  predicate Accepts(s: Str, n: nat) {
    n <= |s| && Accepted(Front(s, n))  && n == LeadLength(CodeAt(s, 0))
  }

  predicate Valid(s: Str) {
    s == [] || (var n := LeadLength(CodeAt(s, 0)); Accepts(s, n) && Valid(s[n..]))
  }

  // ---- the step accepts exactly the encodings ---------------------------------

  lemma {:induction false} AccumulatedAppend(o: seq<int>, t: int, k: nat)
    requires 1 <= k <= |o|
    ensures Accumulated(o + [t], k) == Accumulated(o, k)
  {
    if k > 1 { AccumulatedAppend(o, t, k - 1); }
  }

  /** The accumulated value of a whole sequence, octet by octet. */
  lemma AccumulatedDigits(o: seq<int>)
    requires 1 <= |o| <= 4
    ensures |o| == 1 ==> Accumulated(o, 1) == LeadBits(o[0])
    ensures |o| == 2 ==> Accumulated(o, 2) == LeadBits(o[0]) * 64 + o[1] % 64
    ensures |o| == 3 ==> Accumulated(o, 3) == (LeadBits(o[0]) * 64 + o[1] % 64) * 64 + o[2] % 64
    ensures |o| == 4 ==> Accumulated(o, 4) == ((LeadBits(o[0]) * 64 + o[1] % 64) * 64 + o[2] % 64) * 64 + o[3] % 64
  {
    if |o| >= 2 { assert Accumulated(o, 2) == Accumulated(o, 1) * 64 + o[1] % 64; }
    if |o| >= 3 { assert Accumulated(o, 3) == Accumulated(o, 2) * 64 + o[2] % 64; }
  }

  /** Appending a base-64 digit and taking it off again. */
  lemma Digit64(q: nat, t: nat)
    requires t < 64
    ensures (q * 64 + t) / 64 == q && (q * 64 + t) % 64 == t
  {
  }

  lemma TailDigit(c: int)
    requires IsTail(c)
    ensures 0 <= c % 64 < 64 && c == 0x80 + c % 64
  {
  }

  /** Three digits in base 64, recovered by division. */
  lemma Digits64(a: nat, b: nat, c: nat)
    requires b < 64 && c < 64
    ensures var v := (a * 64 + b) * 64 + c;
            v % 64 == c && v / 64 == a * 64 + b && v / 64 % 64 == b && v / 64 / 64 == a
  {
    Digit64(a * 64 + b, c);
    Digit64(a, b);
  }

  lemma AcceptedAreOctets(o: seq<int>)
    requires Accepted(o)
    ensures o == Octets(Accumulated(o, |o|))
  {
    AccumulatedDigits(o);
    hide Accumulated;
    if |o| == 2 {
      TailDigit(o[1]);
      Digit64(LeadBits(o[0]), o[1] % 64);
    } else if |o| == 3 {
      AcceptedThree(o);
    } else if |o| == 4 {
      AcceptedFour(o);
    }
  }

  lemma AcceptedThree(o: seq<int>)
    requires Accepted(o) && |o| == 3
    ensures o == Octets(Accumulated(o, 3))
  {
    AccumulatedDigits(o);
    hide Accumulated;
    TailDigit(o[1]);
    TailDigit(o[2]);
    Digits64(LeadBits(o[0]), o[1] % 64, o[2] % 64);
  }

  lemma AcceptedFour(o: seq<int>)
    requires Accepted(o) && |o| == 4
    ensures o == Octets(Accumulated(o, 4))
  {
    AccumulatedDigits(o);
    hide Accumulated;
    TailDigit(o[1]);
    TailDigit(o[2]);
    TailDigit(o[3]);
    Digits64(LeadBits(o[0]), o[1] % 64, o[2] % 64);
    Digit64((LeadBits(o[0]) * 64 + o[1] % 64) * 64 + o[2] % 64, o[3] % 64);
  }

  lemma OctetsAreAccepted(cp: int)
    requires Scalar(cp)
    ensures Accepted(Octets(cp)) && Accumulated(Octets(cp), |Octets(cp)|) == cp
  {
    if cp < 0x10000 {
      ShortOctetsAreAccepted(cp);
    } else {
      var o := Octets(cp);
      AccumulatedDigits(o);
      hide Accumulated;
      Digit64(2, cp % 64);
      Digit64(2, cp / 64 % 64);
      Digit64(2, cp / 64 / 64 % 64);
      assert cp == ((cp / 64 / 64 / 64 * 64 + cp / 64 / 64 % 64) * 64 + cp / 64 % 64) * 64 + cp % 64;
    }
  }

  lemma ShortOctetsAreAccepted(cp: int)
    requires Scalar(cp) && cp < 0x10000
    ensures Accepted(Octets(cp)) && Accumulated(Octets(cp), |Octets(cp)|) == cp
  {
    var o := Octets(cp);
    AccumulatedDigits(o);
    hide Accumulated;
    Digit64(2, cp % 64);
    Digit64(2, cp / 64 % 64);
    assert cp == (cp / 64 / 64 * 64 + cp / 64 % 64) * 64 + cp % 64;
  }

  lemma AcceptedIsEncoding(s: Str, n: nat)
    requires Accepts(s, n)
    ensures 1 <= n && Scalar(Accumulated(Front(s, n), n))
    ensures s[..n] == Encode(Accumulated(Front(s, n), n))
  {
    AcceptedAreOctets(Front(s, n));
    var e := Encode(Accumulated(Front(s, n), n));
    forall k | 0 <= k < n ensures s[k] == e[k] {
      assert e[k] == Front(s, n)[k] as char;
    }
  }

  lemma EncodingIsAccepted(cp: int, rest: Str)
    requires Scalar(cp)
    ensures Accepts(Encode(cp) + rest, |Encode(cp)|)
    ensures Front(Encode(cp) + rest, |Encode(cp)|) == Octets(cp)
  {
    OctetsAreAccepted(cp);
    assert Front(Encode(cp) + rest, |Encode(cp)|) == Octets(cp);
    assert CodeAt(Encode(cp) + rest, 0) == Octets(cp)[0];
  }

  lemma {:induction false} EncodingsAreValid(cps: seq<int>)
    requires AllScalars(cps)
    ensures Valid(EncodeAll(cps))
  {
    if cps != [] {
      var head, rest := Encode(cps[0]), EncodeAll(cps[1..]);
      EncodingIsAccepted(cps[0], rest);
      EncodingsAreValid(cps[1..]);
      assert (head + rest)[|head|..] == rest;
    }
  }

  lemma {:induction false} ValidHasScalars(s: Str) returns (cps: seq<int>)
    requires Valid(s)
    ensures AllScalars(cps) && EncodeAll(cps) == s
  {
    hide Accumulated, Accepted, Encode;
    if s == [] {
      cps := [];
    } else {
      var n := LeadLength(CodeAt(s, 0));
      AcceptedIsEncoding(s, n);
      var tail := ValidHasScalars(s[n..]);
      cps := [Accumulated(Front(s, n), n)] + tail;
      assert cps[1..] == tail;
      assert s == s[..n] + s[n..];
    }
  }

  /** The accepted strings are exactly the concatenations of encodings of Unicode
      scalar values: no overlong form, no surrogate, nothing above U+10FFFF. */
  lemma ValidIffEncodedScalars(s: Str)
    ensures Valid(s) <==> exists cps :: AllScalars(cps) && EncodeAll(cps) == s
  {
    if Valid(s) {
      var cps := ValidHasScalars(s);
    }
    forall cps | AllScalars(cps) && EncodeAll(cps) == s ensures Valid(s) {
      EncodingsAreValid(cps);
    }
  }

  /** A valid string decodes in one way only. */
  lemma {:induction false} EncodeAllInjective(a: seq<int>, b: seq<int>)
    requires AllScalars(a) && AllScalars(b) && EncodeAll(a) == EncodeAll(b)
    ensures a == b
  {
    if a != [] && b != [] {
      var s := EncodeAll(a);
      EncodingIsAccepted(a[0], EncodeAll(a[1..]));
      EncodingIsAccepted(b[0], EncodeAll(b[1..]));
      assert |Encode(a[0])| == LeadLength(CodeAt(s, 0)) == |Encode(b[0])|;
      OctetsAreAccepted(a[0]);
      OctetsAreAccepted(b[0]);
      assert s[|Encode(a[0])|..] == EncodeAll(a[1..]);
      assert s[|Encode(a[0])|..] == EncodeAll(b[1..]);
      EncodeAllInjective(a[1..], b[1..]);
    } else {
      assert |EncodeAll(a)| == |EncodeAll(b)|;
    }
  }

  /** ASCII text is valid. */
  lemma {:induction false} AsciiIsValid(s: Str)
    requires forall i :: 0 <= i < |s| ==> s[i] as int < 0x80
    ensures Valid(s)
  {
    if s != [] {
      assert Accepts(s, 1);
      AsciiIsValid(s[1..]);
    }
  }

  // ---- the scanning loop ------------------------------------------------------

  /** The `n` bytes behind position `p` are all continuation octets. */
  ghost predicate TailsAt(s: Str, p: nat, n: nat) {
    p + n < |s| && forall k :: p < k <= p + n ==> IsTail(CodeAt(s, k))
  }

  /** Reads `n` continuation octets behind the lead octet at `start`, folding their six
      bits each into the value: the scanner's inner loop. */
  method ReadTails(s: Str, start: nat, n: nat, lead: int) returns (ok: bool, cp: int)
    requires start < |s| && n <= 3 && lead == LeadBits(CodeAt(s, start))
    ensures ok <==> TailsAt(s, start, n)
    ensures ok ==> cp == Accumulated(Front(s[start..], n + 1), n + 1)
  {
    cp := lead;
    ghost var rest := s[start..];
    for i := 0 to n
      invariant start + i < |s|
      invariant TailsAt(s, start, i)
      invariant cp == Accumulated(Front(rest, i + 1), i + 1)
    {
      var t := At(s, start + i + 1) as int;
      assert t == CodeAt(s, start + i + 1);
      assert start + i + 1 < |s| ==> t == rest[i + 1] as int;
      if t / 64 != 2 {              // (*p & 0xC0) != 0x80
        return false, cp;
      }
      cp := cp * 64 + t % 64;       // (cp << 6) | (*p & 0x3F)
      AccumulatedAppend(Front(rest, i + 1), t, i + 1);
      assert Front(rest, i + 2) == Front(rest, i + 1) + [t];
    }
    ok := true;
  }

  lemma AcceptsAt(s: Str, p: nat, n: nat)
    requires p < |s| && n == LeadLength(CodeAt(s, p))
    ensures Accepts(s[p..], n) <==>
            && 1 <= n && p + n <= |s|
            && TailsAt(s, p, n - 1)
            && Minimum(n) <= Accumulated(Front(s[p..], n), n)
            && Scalar(Accumulated(Front(s[p..], n), n))
  {
    if 1 <= n && p + n <= |s| {
      var o := Front(s[p..], n);
      forall k | 0 <= k < n ensures o[k] == CodeAt(s, p + k) {
      }
      forall k | p < k < p + n ensures CodeAt(s, k) == o[k - p] {
      }
      assert CodeAt(s[p..], 0) == CodeAt(s, p);
    }
  }

  /** One accepted sequence at `p` moves the question on; anything else settles it. */
  lemma ValidStep(s: Str, p: nat)
    requires p < |s|
    ensures var n := LeadLength(CodeAt(s, p));
            Valid(s[p..]) <==> Accepts(s[p..], n) && Valid(s[p + n..])
  {
    var n := LeadLength(CodeAt(s, p));
    assert CodeAt(s[p..], 0) == CodeAt(s, p);
    if Accepts(s[p..], n) { assert s[p..][n..] == s[p + n..]; }
  }

  lemma AsciiAccepted(s: Str, p: nat)
    requires p < |s| && CodeAt(s, p) < 0x80
    ensures Accepts(s[p..], 1)
  {
    assert CodeAt(s[p..], 0) == CodeAt(s, p);
    assert Accumulated(Front(s[p..], 1), 1) == LeadBits(CodeAt(s, p));
  }

  lemma ValidAtEnd(s: Str)
    ensures Valid(s[|s|..]) && s[0..] == s
  {
  }

  /** Walks the string with one cursor. Every read goes through At, so it never looks
      behind the terminator. */
  method Utf8Valid(s: Str) returns (ok: bool)
    ensures ok <==> Valid(s)
  {
    hide Valid, Accepts, Accumulated, Front;
    ValidAtEnd(s);
    var p := 0;
    while At(s, p) != '\0'
      invariant p <= |s|
      invariant Valid(s) <==> Valid(s[p..])
      decreases |s| - p
    {
      var c := At(s, p) as int;
      var n, cp, min := 0, 0, 0;
      ValidStep(s, p);
      AcceptsAt(s, p, LeadLength(c));
      if c < 0x80 {
        AsciiAccepted(s, p);
        p := p + 1;
        continue;
      } else if c / 32 == 6 {         // (c & 0xE0) == 0xC0
        n, min, cp := 1, 0x80, c % 32;
      } else if c / 16 == 14 {        // (c & 0xF0) == 0xE0
        n, min, cp := 2, 0x800, c % 16;
      } else if c / 8 == 30 {         // (c & 0xF8) == 0xF0
        n, min, cp := 3, 0x10000, c % 8;
      } else {
        return false;
      }
      var ok: bool;
      ok, cp := ReadTails(s, p, n, cp);
      if !ok {
        return false;
      }
      if cp < min || cp > 0x10FFFF || (cp >= 0xD800 && cp <= 0xDFFF) {
        return false;
      }
      p := p + n + 1;
    }
    ok := true;
  }

  /** The mask tests and shifts of the scanner on machine bytes are the divisions and
      remainders used above. */
  lemma MasksAreDivisions(c: bv8)
    ensures (c & 0xE0 == 0xC0) <==> c / 32 == 6
    ensures (c & 0xF0 == 0xE0) <==> c / 16 == 14
    ensures (c & 0xF8 == 0xF0) <==> c / 8 == 30
    ensures (c & 0xC0 == 0x80) <==> c / 64 == 2
    ensures c & 0x1F == c % 32 && c & 0x0F == c % 16 && c & 0x07 == c % 8 && c & 0x3F == c % 64
  {
  }
}

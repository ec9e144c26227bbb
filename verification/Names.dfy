/** The hand-written scanners, each against the grammar it stands for. */
module Names {
  import opened Bytes
  import opened Canon
  import Utf8

  const MAX_NAME: nat := 256
  const CID_LEN: nat := 37

  predicate Lower(c: Byte) { 'a' <= c <= 'z' }
  predicate Digit(c: Byte) { '0' <= c <= '9' }
  predicate LowerHex(c: Byte) { Digit(c) || 'a' <= c <= 'f' }
  predicate Alnum(c: Byte) { Lower(c) || Digit(c) }
  predicate NameChar(c: Byte) { Alnum(c) || c == '+' || c == '.' || c == '-' }
  predicate ArchChar(c: Byte) { Alnum(c) || c == '-' }
  predicate RaptTailChar(c: Byte) { Alnum(c) || c == '.' }
  predicate White(c: Byte) { c == '\n' || c == '\r' || c == ' ' || c == '\t' }

  ghost predicate All(s: seq<Byte>, p: Byte -> bool) {
    forall i :: 0 <= i < |s| ==> p(s[i])
  }

  lemma AllExtend(s: seq<Byte>, from: nat, to: nat, p: Byte -> bool)
    requires from <= to < |s| && All(s[from..to], p) && p(s[to])
    ensures All(s[from..to + 1], p)
  {
    assert s[from..to + 1] == s[from..to] + [s[to]];
  }

  // ---- package names ----------------------------------------------------------

  /** A Debian package name: a letter or digit, then at least one more name character. */
  ghost predicate PackageName(s: Str) {
    |s| >= 2 && Alnum(s[0]) && All(s, NameChar)
  }

  ghost predicate ArchName(s: Str) {
    |s| >= 1 && Alnum(s[0]) && All(s, ArchChar)
  }

  ghost predicate Qualified(s: Str, k: nat) {
    k < |s| && s[k] == ':' && PackageName(s[..k]) && ArchName(s[k + 1..])
  }

  /** A package name, optionally followed by a colon and an architecture. */
  ghost predicate TargetName(s: Str) {
    |s| <= 256 && (PackageName(s) || exists k: nat :: Qualified(s, k))
  }

  /** strchr. */
  method FindChar(s: Str, c: Chr) returns (at: Option<nat>)
    ensures at.None? ==> c !in s
    ensures at.Some? ==> at.value < |s| && s[at.value] == c && c !in s[..at.value]
  {
    for i := 0 to |s|
      invariant c !in s[..i]
    {
      if s[i] == c {
        return Some(i);
      }
    }
    at := None;
  }

  method NameOk(s: Str) returns (ok: bool)
    ensures ok <==> TargetName(s)
  {
    var n := |s|;
    if n < 2 || n > MAX_NAME {
      return false;
    }
    var colon := FindChar(s, ':');
    var namelen := if colon.Some? then colon.value else n;
    NameSplit(s, namelen);
    if namelen < 2 {
      return false;
    }
    for i := 0 to namelen
      invariant forall j :: 0 <= j < i ==> NameChar(s[j])
      invariant i > 0 ==> Alnum(s[0])
    {
      var c, first := s[i], i == 0;
      var cok := Lower(c) || Digit(c) || (!first && (c == '+' || c == '.' || c == '-'));
      if !cok {
        assert !Alnum(s[..namelen][0]) || !NameChar(s[..namelen][i]);
        return false;
      }
    }
    assert PackageName(s[..namelen]);
    if colon.Some? {
      var arch := namelen + 1;
      if At(s, arch) == '\0' {
        return false;
      }
      var p := arch;
      while At(s, p) != '\0'
        invariant arch <= p <= |s|
        invariant forall j :: arch <= j < p ==> ArchChar(s[j])
        invariant p > arch ==> Alnum(s[arch])
        decreases |s| - p
      {
        var c, first := s[p], p == arch;
        var cok := Lower(c) || Digit(c) || (!first && c == '-');
        if !cok {
          assert !Alnum(s[arch..][0]) || !ArchChar(s[arch..][p - arch]);
          return false;
        }
        p := p + 1;
      }
      assert ArchName(s[arch..]);
    }
    ok := true;
  }

  /** The first colon is the only place a qualified name can split. */
  lemma NameSplit(s: Str, k: nat)
    requires k <= |s| && ':' !in s[..k] && (k < |s| ==> s[k] == ':')
    ensures (PackageName(s) || exists j: nat :: Qualified(s, j)) <==>
            if k == |s| then PackageName(s[..k]) else Qualified(s, k)
  {
    if k == |s| {
      assert s[..k] == s;
    } else {
      assert !NameChar(s[k]);
    }
    forall j: nat | Qualified(s, j) ensures j == k {
      assert s[..k] == s[..k];
      forall m | 0 <= m < j ensures s[m] != ':' { assert NameChar(s[..j][m]); }
      forall m | 0 <= m < k ensures s[m] != ':' { assert s[..k][m] == s[m]; }
    }
  }

  /** What the name scanner accepts lies in the next scanners' domains: it is a field
      value for the digest, and it fits on one line of a selections file. */
  lemma TargetNameIsField(s: Str)
    requires TargetName(s)
    ensures FieldOk(s) && ' ' !in s && '\n' !in s && s != []
  {
    forall i | 0 <= i < |s| ensures NameChar(s[i]) || s[i] == ':' {
      if !PackageName(s) {
        var k: nat :| Qualified(s, k);
        if i < k {
          assert NameChar(s[..k][i]);
        } else if i > k {
          assert ArchChar(s[k + 1..][i - k - 1]);
        }
      }
    }
    Utf8.AsciiIsValid(s);
  }

  // ---- correlation ids ----------------------------------------------------------

  /** Twenty digits, a dash, sixteen lower-case hex digits. */
  ghost predicate CidGrammar(s: Str) {
    exists a: Str, b: Str :: |a| == 20 && |b| == 16 && All(a, Digit) && All(b, LowerHex) && s == a + ['-'] + b
  }

  method CidValid(s: CStr) returns (ok: bool)
    ensures ok <==> s.Some? && CidGrammar(s.value)
  {
    if s.None? || |s.value| != 20 + 1 + 16 {
      return false;
    }
    var v := s.value;
    CidParts(v);
    for i := 0 to 20
      invariant forall j :: 0 <= j < i ==> Digit(v[j])
    {
      if v[i] < '0' || v[i] > '9' {
        return false;
      }
    }
    if v[20] != '-' {
      return false;
    }
    for i := 21 to 37
      invariant forall j :: 21 <= j < i ==> LowerHex(v[j])
    {
      var c := v[i];
      if !((c >= '0' && c <= '9') || (c >= 'a' && c <= 'f')) {
        return false;
      }
    }
    ok := true;
  }

  lemma CidParts(s: Str)
    requires |s| == CID_LEN
    ensures CidGrammar(s) <==>
            && (forall j :: 0 <= j < 20 ==> Digit(s[j])) && s[20] == '-'
            && (forall j :: 21 <= j < 37 ==> LowerHex(s[j]))
  {
    var a, b := s[..20], s[21..];
    if (forall j :: 0 <= j < 20 ==> Digit(s[j])) && s[20] == '-' && (forall j :: 21 <= j < 37 ==> LowerHex(s[j])) {
      assert s == a + ['-'] + b;
    }
    forall x: Str, y: Str | |x| == 20 && |y| == 16 && All(x, Digit) && All(y, LowerHex) && s == x + ['-'] + y
      ensures (forall j :: 0 <= j < 20 ==> Digit(s[j])) && s[20] == '-' && forall j :: 21 <= j < 37 ==> LowerHex(s[j])
    {
      forall j | 0 <= j < 20 ensures Digit(s[j]) { assert s[j] == x[j]; }
      forall j | 21 <= j < 37 ensures LowerHex(s[j]) { assert s[j] == y[j - 21]; }
    }
  }

  // ---- rapt ownership -------------------------------------------------------------

  /** ^r-[a-z]+-[a-z0-9.]+$ */
  ghost predicate RaptGrammar(s: Str) {
    exists a: Str, b: Str :: RaptSplit(s, a, b)
  }

  ghost predicate RaptSplit(s: Str, a: Str, b: Str) {
    a != [] && All(a, Lower) && b != [] && All(b, RaptTailChar) && s == "r-" + a + "-" + b
  }

  method IsRaptOwned(name: Str) returns (owned: bool)
    ensures owned <==> RaptGrammar(name)
  {
    if At(name, 0) != 'r' || At(name, 1) != '-' {
      return false;
    }
    var p := 2;
    while 'a' <= At(name, p) <= 'z'
      invariant 2 <= p <= |name|
      invariant All(name[2..p], Lower)
      decreases |name| - p
    {
      AllExtend(name, 2, p, Lower);
      p := p + 1;
    }
    RaptFirstRun(name, p);
    if p == 2 || At(name, p) != '-' {
      return false;
    }
    p := p + 1;
    var start := p;
    while Lower(At(name, p)) || Digit(At(name, p)) || At(name, p) == '.'
      invariant start <= p <= |name|
      invariant All(name[start..p], RaptTailChar)
      decreases |name| - p
    {
      AllExtend(name, start, p, RaptTailChar);
      p := p + 1;
    }
    if p == start {
      assert name[start..] == [] || !RaptTailChar(name[start..][0]);
      return false;
    }
    owned := At(name, p) == '\0';
    if owned {
      assert name[start..] == name[start..p];
    } else {
      assert !RaptTailChar(name[start..][p - start]);
    }
  }

  /** The letters after "r-" end at the first byte that is no letter; what follows them
      decides the match. */
  lemma RaptFirstRun(s: Str, p: nat)
    requires 2 <= p <= |s| && s[0] == 'r' && s[1] == '-' && All(s[2..p], Lower) && !Lower(At(s, p))
    ensures RaptGrammar(s) <==>
            p > 2 && At(s, p) == '-' && s[p + 1..] != [] && All(s[p + 1..], RaptTailChar)
  {
    if p > 2 && At(s, p) == '-' && s[p + 1..] != [] && All(s[p + 1..], RaptTailChar) {
      assert s == "r-" + s[2..p] + "-" + s[p + 1..];
      assert RaptSplit(s, s[2..p], s[p + 1..]);
    }
    forall a: Str, b: Str | RaptSplit(s, a, b) ensures p == 2 + |a| && b == s[p + 1..] {
      var q := 2 + |a|;
      assert s[q] == '-' && s[2..q] == a && s[q + 1..] == b;
      forall j | 2 <= j < q ensures Lower(s[j]) { assert s[j] == a[j - 2]; }
      forall j | 2 <= j < p ensures Lower(s[j]) { assert s[j] == s[2..p][j - 2]; }
      assert !Lower(s[q]);
    }
  }

  // ---- inline armored keys ----------------------------------------------------------

  const BEGIN: Str := "-----BEGIN PGP PUBLIC KEY BLOCK-----"
  const END: Str := "-----END PGP PUBLIC KEY BLOCK-----"
  const TOKEN_PREFIX: Str := "inline-sha256:"

  ghost predicate OccursAt(value: seq<Byte>, pat: Str, i: nat) {
    i + |pat| <= |value| && value[i..i + |pat|] == pat
  }

  /** BEGIN, any body, END, then nothing but whitespace. */
  ghost predicate InlineArmor(value: seq<Byte>) {
    exists body: seq<Byte>, tail: seq<Byte> ::
      && All(tail, White)
      && value == "-----BEGIN PGP PUBLIC KEY BLOCK-----" + body + "-----END PGP PUBLIC KEY BLOCK-----" + tail
  }

  datatype Token = Original | Inline(token: Str) | HashFailure

  /** The scan for the last footer at or behind `from`. */
  method LastOccurrence(value: seq<Byte>, pat: Str, from: nat) returns (at: Option<nat>)
    ensures at.None? ==> forall i: nat :: from <= i ==> !OccursAt(value, pat, i)
    ensures at.Some? ==> from <= at.value && OccursAt(value, pat, at.value)
    ensures at.Some? ==> forall i :: at.value < i ==> !OccursAt(value, pat, i)
  {
    at := None;
    var i := from;
    while i + |pat| <= |value|
      invariant from <= i
      invariant at.None? ==> forall j :: from <= j < i ==> !OccursAt(value, pat, j)
      invariant at.Some? ==> from <= at.value < i && OccursAt(value, pat, at.value)
      invariant at.Some? ==> forall j :: at.value < j < i ==> !OccursAt(value, pat, j)
      decreases |value| - i
    {
      if value[i..i + |pat|] == pat {
        at := Some(i);
      }
      i := i + 1;
    }
  }

  /** Some footer has only whitespace behind it. */
  ghost predicate FooterThenWhite(value: seq<Byte>, i: nat) {
    |BEGIN| <= i && OccursAt(value, END, i) && All(value[i + |END|..], White)
  }

  lemma CutArmor(value: seq<Byte>, b: Str, e: Str, i: nat)
    requires b <= value && |b| <= i && OccursAt(value, e, i)
    ensures value == b + value[|b|..i] + e + value[i + |e|..]
  {
    assert value == value[..|b|] + value[|b|..i] + value[i..i + |e|] + value[i + |e|..];
  }

  lemma PasteArmor(b: Str, body: seq<Byte>, e: Str, tail: seq<Byte>)
    ensures var value := b + body + e + tail;
            b <= value && OccursAt(value, e, |b| + |body|) && value[|b| + |body| + |e|..] == tail
  {
    var value, i := b + body + e + tail, |b| + |body|;
    assert value[i..i + |e|] == e;
  }

  lemma ArmorIffFooter(value: seq<Byte>)
    ensures InlineArmor(value) <==> BEGIN <= value && exists i: nat :: FooterThenWhite(value, i)
  {
    if InlineArmor(value) {
      var body: seq<Byte>, tail: seq<Byte> :| All(tail, White) && value == BEGIN + body + END + tail;
      PasteArmor(BEGIN, body, END, tail);
      assert FooterThenWhite(value, |BEGIN| + |body|);
    }
    if BEGIN <= value && exists i: nat :: FooterThenWhite(value, i) {
      var i: nat :| FooterThenWhite(value, i);
      CutArmor(value, BEGIN, END, i);
    }
  }

  /** A footer followed only by whitespace is the last footer, overlaps included: a later
      one would put its closing dash among the whitespace. */
  lemma FooterIsLast(value: seq<Byte>, i: nat, j: nat)
    requires OccursAt(value, END, j) && i < j
    ensures !FooterThenWhite(value, i)
  {
    var e := j + |END| - 1;
    assert value[j..j + |END|][|END| - 1] == value[e];
    assert value[e] == '-' && !White('-');
    if i + |END| <= e {
      assert value[i + |END|..][e - i - |END|] == value[e];
    }
  }

  lemma JunkBehindLastFooter(value: seq<Byte>, last: nat, i: nat, k: nat)
    requires OccursAt(value, END, last) && last + |END| <= i < |value| && !White(value[i])
    requires forall j :: last < j ==> !OccursAt(value, END, j)
    ensures !FooterThenWhite(value, k)
  {
    if k < last {
      FooterIsLast(value, k, last);
    } else if k == last {
      assert value[k + |END|..][i - k - |END|] == value[i];
    }
  }

  method SignedByInlineToken(value: Option<seq<Byte>>, sha: seq<Byte> -> Option<Str>) returns (t: Token)
    ensures t.Original? <==> value.None? || !InlineArmor(value.value)
    ensures t.Inline? ==> sha(value.value).Some? && t.token == "inline-sha256:" + sha(value.value).value
    ensures t.HashFailure? ==> sha(value.value).None?
  {
    if value.None? || |value.value| < |BEGIN| || value.value[..|BEGIN|] != BEGIN {
      return Original;
    }
    var v := value.value;
    ArmorIffFooter(v);
    var at := LastOccurrence(v, END, |BEGIN|);
    if at.None? {
      return Original;
    }
    var i := at.value + |END|;
    while i < |v|
      invariant at.value + |END| <= i <= |v|
      invariant forall k :: at.value + |END| <= k < i ==> White(v[k])
    {
      var c := v[i];
      if c != '\n' && c != '\r' && c != ' ' && c != '\t' {
        forall k: nat ensures !FooterThenWhite(v, k) {
          JunkBehindLastFooter(v, at.value, i, k);
        }
        return Original;
      }
      i := i + 1;
    }
    assert FooterThenWhite(v, at.value);
    var hex := sha(v);
    if hex.None? {
      return HashFailure;
    }
    t := Inline(TOKEN_PREFIX + hex.value);
  }

  /** Sixty-four lower-case hex digits: what the hash renders. */
  ghost predicate HexHash(h: Str) {
    |h| == 64 && All(h, LowerHex)
  }

  /** The token that replaces an inline key always passes the field check. */
  lemma TokenIsField(hex: Str)
    requires HexHash(hex)
    ensures FieldOk(TOKEN_PREFIX + hex) && |TOKEN_PREFIX + hex| == 78
  {
    var t := TOKEN_PREFIX + hex;
    forall i | 0 <= i < |t| ensures t[i] == ':' || t[i] == '-' || Alnum(t[i]) {
      if i >= |TOKEN_PREFIX| { assert t[i] == hex[i - |TOKEN_PREFIX|]; }
    }
    Utf8.AsciiIsValid(t);
  }
}

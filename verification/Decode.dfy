/** The preview's decoder: canonical bytes back to structured records. */
module Decode {
  import opened Bytes
  import opened Lists

  datatype Kind = TxnKind | CfgKind | HoldKind | SrcKind

  /** A record as the preview shows it. It doubles as the normal form of an encoder
      record: NULL read as "", lists in bytewise order, options as a map. */
  datatype View =
    | VTxn(package: Str, architecture: Str, action: Str, fromVersion: Str, toVersion: Str, flags: seq<Str>)
    | VCfg(package: Str, architecture: Str, currentVersion: Str, state: Str)
    | VHold(package: Str, fromState: Str, toState: Str)
    | VSrc(uri: Str, suite: Str, components: seq<Str>, options: map<Str, Str>)

  // ---- what decoding means ----------------------------------------------------

  /** Position of the first `c`, or the length of the string. */
  function IndexOf(s: Str, c: Chr): (i: nat)
    ensures i <= |s| && c !in s[..i] && (i < |s| ==> s[i] == c)
  {
    if s == [] || s[0] == c then 0
    else
      var i := 1 + IndexOf(s[1..], c);
      assert s[..i] == [s[0]] + s[1..][..i - 1];
      i
  }

  function KeyOf(kv: Str): Str {
    kv[..IndexOf(kv, EQUALS)]
  }

  function ValOf(kv: Str): Str {
    var eq := IndexOf(kv, EQUALS);
    if eq == |kv| then [] else kv[eq + 1..]
  }

  /** A JSON object filled in order, a later key replacing an earlier one. */
  function OptionsOf(kvs: seq<Str>): map<Str, Str> {
    if kvs == [] then map[]
    else
      var last := kvs[|kvs| - 1];
      OptionsOf(kvs[..|kvs| - 1])[KeyOf(last) := ValOf(last)]
  }

  /** A field by position; a missing one reads as empty. */
  function Fld(f: seq<Str>, i: nat): Str {
    if i < |f| then f[i] else []
  }

  function DecodeFields(f: seq<Str>, kind: Kind): View {
    match kind
    case TxnKind => VTxn(Fld(f, 0), Fld(f, 1), Fld(f, 2), Fld(f, 3), Fld(f, 4), Split(Fld(f, 5), COMMA))
    case CfgKind => VCfg(Fld(f, 0), Fld(f, 1), Fld(f, 2), Fld(f, 3))
    case HoldKind => VHold(Fld(f, 0), Fld(f, 1), Fld(f, 2))
    case SrcKind => VSrc(Fld(f, 0), Fld(f, 1), Split(Fld(f, 2), COMMA), OptionsOf(Split(Fld(f, 3), COMMA)))
  }

  function DecodeRecord(s: Str, kind: Kind): View {
    DecodeFields(Split(s, US), kind)
  }

  /** Everything behind the schema tag and the verb, decoded piece by piece. */
  function DecodeCanon(canon: Str, kind: Kind): seq<View> {
    var parts := Split(canon, RS);
    if |parts| < 2 then []
    else seq(|parts| - 2, i requires 0 <= i < |parts| - 2 => DecodeRecord(parts[i + 2], kind))
  }

  // ---- the decoder as it runs --------------------------------------------------

  method CsvArray(field: Str) returns (a: seq<Str>)
    ensures a == Split(field, COMMA)
  {
    var xs := SplitOn(field, COMMA);
    a := [];
    for i := 0 to |xs|
      invariant a == xs[..i]
    {
      a := a + [xs[i]];
    }
  }

  method OptionsObject(field: Str) returns (o: map<Str, Str>)
    ensures o == OptionsOf(Split(field, COMMA))
  {
    var xs := SplitOn(field, COMMA);
    o := map[];
    for i := 0 to |xs|
      invariant o == OptionsOf(xs[..i])
    {
      var kv := xs[i];
      var eq := IndexOf(kv, EQUALS);
      var k := if eq == |kv| then kv else kv[..eq];
      var v := if eq == |kv| then [] else kv[eq + 1..];
      assert k == KeyOf(kv) && v == ValOf(kv);
      assert xs[..i + 1][..i] == xs[..i];
      o := o[k := v];
    }
    assert xs[..|xs|] == xs;
  }

  method DecodeRecords(canon: Str, kind: Kind) returns (arr: seq<View>)
    ensures arr == DecodeCanon(canon, kind)
  {
    var parts := SplitOn(canon, RS);
    arr := [];
    var i := 2;
    while i < |parts|
      invariant 2 <= i && (|parts| >= 2 ==> i <= |parts|)
      invariant |parts| >= 2 ==> |arr| == i - 2 && forall j :: 2 <= j < i ==> arr[j - 2] == DecodeRecord(parts[j], kind)
      invariant |parts| < 2 ==> arr == []
    {
      var f := SplitOn(parts[i], US);
      var rec: View;
      match kind {
        case TxnKind =>
          var flags := CsvArray(Fld(f, 5));
          rec := VTxn(Fld(f, 0), Fld(f, 1), Fld(f, 2), Fld(f, 3), Fld(f, 4), flags);
        case CfgKind =>
          rec := VCfg(Fld(f, 0), Fld(f, 1), Fld(f, 2), Fld(f, 3));
        case HoldKind =>
          rec := VHold(Fld(f, 0), Fld(f, 1), Fld(f, 2));
        case SrcKind =>
          var comps := CsvArray(Fld(f, 2));
          var opts := OptionsObject(Fld(f, 3));
          rec := VSrc(Fld(f, 0), Fld(f, 1), comps, opts);
      }
      arr := arr + [rec];
      i := i + 1;
    }
  }
}

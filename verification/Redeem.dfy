/** Spending the receipt: which broker replies mean what. */
module Redeem {
  import opened Bytes
  import opened Names
  import opened Request
  import opened Host

  datatype Status = RedeemOk | Refused | CidMismatch | Protocol

  const REDEEM_ERRORS: seq<Str> := [
    "receipt_invalid", "receipt_expired", "receipt_redeemed", "receipt_mismatch",
    "receipt_unauthorized", "receipt_actor_mismatch", "rate_limited", "persist_failed"]
  const OK_KEYS: seq<Str> := ["ok", "correlation_id", "persisted"]
  const ERR_KEYS: seq<Str> := ["ok", "error", "message"]

  /** A JSON string read as a C string: up to the first NUL. */
  function CText(bytes: seq<Byte>): Str {
    if bytes == [] || bytes[0] == '\0' then [] else [bytes[0]] + CText(bytes[1..])
  }

  function TextOf(v: Option<Json>): CStr {
    if v.Some? && v.value.JString? then Some(CText(v.value.bytes)) else None
  }

  // ---- the reply grammar -----------------------------------------------------------

  /** {ok: true, correlation_id: cid, persisted: true} and nothing else. */
  ghost predicate OkReply(root: Json, cid: Str) {
    && root.JObject? && KeysWithin(root.members, OK_KEYS)
    && Get(root.members, "ok") == Some(JTrue) && Get(root.members, "persisted") == Some(JTrue)
    && TextOf(Get(root.members, "correlation_id")) == Some(cid)
  }

  /** {ok: false, error: code, message: text} with a code of the closed set. */
  ghost predicate ErrorReply(root: Json, code: Str) {
    && root.JObject? && KeysWithin(root.members, ERR_KEYS)
    && Get(root.members, "ok") == Some(JFalse)
    && TextOf(Get(root.members, "error")) == Some(code) && code in REDEEM_ERRORS
    && TextOf(Get(root.members, "message")).Some?
  }

  /** The one reply that authorises a commit: an ok reply for exactly the expected cid. */
  ghost predicate StrictOk(reply: Reply, expected: Str) {
    reply.Tree? && OkReply(reply.root, expected) && |expected| == CID_LEN
  }

  ghost predicate ForeignOk(reply: Reply, expected: Str) {
    reply.Tree? && exists cid :: OkReply(reply.root, cid) && (cid != expected || |cid| != CID_LEN)
  }

  ghost predicate Refusal(reply: Reply, code: Str) {
    reply.Tree? && ErrorReply(reply.root, code)
  }

  lemma ErrorsAre(code: Str)
    ensures code in REDEEM_ERRORS <==>
            code in {"receipt_invalid", "receipt_expired", "receipt_redeemed", "receipt_mismatch",
                     "receipt_unauthorized", "receipt_actor_mismatch", "rate_limited", "persist_failed"}
  {
    assert REDEEM_ERRORS[0] == "receipt_invalid" && REDEEM_ERRORS[1] == "receipt_expired";
    assert REDEEM_ERRORS[2] == "receipt_redeemed" && REDEEM_ERRORS[3] == "receipt_mismatch";
    assert REDEEM_ERRORS[4] == "receipt_unauthorized" && REDEEM_ERRORS[5] == "receipt_actor_mismatch";
    assert REDEEM_ERRORS[6] == "rate_limited" && REDEEM_ERRORS[7] == "persist_failed";
  }

  // ---- classification ----------------------------------------------------------------

  method KnownError(code: Str) returns (known: bool)
    ensures known <==> code in REDEEM_ERRORS
    ensures known <==> code in {"receipt_invalid", "receipt_expired", "receipt_redeemed", "receipt_mismatch",
                                "receipt_unauthorized", "receipt_actor_mismatch", "rate_limited", "persist_failed"}
  {
    ErrorsAre(code);
    for i := 0 to |REDEEM_ERRORS|
      invariant code !in REDEEM_ERRORS[..i]
    {
      if code == REDEEM_ERRORS[i] {
        return true;
      }
    }
    return false;
  }

  /** Of a reply: ok exactly on the strict reply, refused exactly on an error of the closed
      set, a mismatch exactly on an ok reply for another cid, a protocol fault otherwise. */
  ghost predicate Classified(reply: Reply, expected: Str, st: Status, code: Str) {
    && (st == RedeemOk <==> StrictOk(reply, expected))
    && (st == CidMismatch <==> ForeignOk(reply, expected))
    && (st == Refused <==> exists c :: Refusal(reply, c))
    && (st == RedeemOk ==> code == "ok")
    && (st == CidMismatch ==> code == "cid_mismatch")
    && (st == Refused ==> Refusal(reply, code))
    && (st == Protocol ==> code == if reply.NoReply? then "transport" else "protocol")
  }

  method Classify(reply: Reply, expected: Str) returns (st: Status, code: Str)
    ensures Classified(reply, expected, st, code)
  {
    hide KeysWithin, CText;
    if reply.NoReply? {
      return Protocol, "transport";
    }
    if reply.NotJson? || !reply.root.JObject? {
      return Protocol, "protocol";
    }
    var ms := reply.root.members;
    var jok := Get(ms, "ok");
    hide Get;
    if jok == Some(JTrue) {
      hide Classified;
      st, code := ClassifyOk(reply, expected);
    } else if jok == Some(JFalse) {
      hide Classified;
      st, code := ClassifyError(reply, expected);
    } else {
      return Protocol, "protocol";
    }
  }

  /** An ok reply carries one cid, and that cid decides. */
  lemma CidDecides(reply: Reply, cid: Str, expected: Str)
    requires reply.Tree? && OkReply(reply.root, cid)
    ensures StrictOk(reply, expected) <==> cid == expected && |cid| == CID_LEN
    ensures ForeignOk(reply, expected) <==> cid != expected || |cid| != CID_LEN
  {
    hide KeysWithin, CText, Get;
  }

  lemma OkIsNoRefusal(reply: Reply)
    requires reply.Tree? && reply.root.JObject? && Get(reply.root.members, "ok") == Some(JTrue)
    ensures forall c :: !Refusal(reply, c)
  {
  }

  lemma RefusalIsNotOk(reply: Reply, expected: Str)
    requires reply.Tree? && reply.root.JObject? && Get(reply.root.members, "ok") == Some(JFalse)
    ensures !StrictOk(reply, expected) && !ForeignOk(reply, expected)
  {
  }

  method ClassifyOk(reply: Reply, expected: Str) returns (st: Status, code: Str)
    requires reply.Tree? && reply.root.JObject? && Get(reply.root.members, "ok") == Some(JTrue)
    ensures Classified(reply, expected, st, code)
  {
    hide KeysWithin, CText, Get, Refusal, ErrorReply;
    OkIsNoRefusal(reply);
    var ms := reply.root.members;
    var jcid := TextOf(Get(ms, "correlation_id"));
    var keysOk := OnlyKeys(ms, OK_KEYS);
    if !keysOk || jcid.None? || Get(ms, "persisted") != Some(JTrue) {
      return Protocol, "protocol";
    }
    var cid := jcid.value;
    CidDecides(reply, cid, expected);
    hide StrictOk, ForeignOk, OkReply;
    if |cid| != CID_LEN || cid != expected {
      return CidMismatch, "cid_mismatch";
    }
    return RedeemOk, "ok";
  }

  method ClassifyError(reply: Reply, expected: Str) returns (st: Status, code: Str)
    requires reply.Tree? && reply.root.JObject? && Get(reply.root.members, "ok") == Some(JFalse)
    ensures Classified(reply, expected, st, code)
  {
    hide KeysWithin, CText, Get, StrictOk, ForeignOk;
    RefusalIsNotOk(reply, expected);
    var ms := reply.root.members;
    var jerr := TextOf(Get(ms, "error"));
    var keysOk := OnlyKeys(ms, ERR_KEYS);
    if !keysOk || jerr.None? || TextOf(Get(ms, "message")).None? {
      return Protocol, "protocol";
    }
    var known := KnownError(jerr.value);
    if !known {
      return Protocol, "protocol";
    }
    assert Refusal(reply, jerr.value);
    return Refused, jerr.value;
  }

  /** Between call numbers `from` and `to`: the request is built if that call succeeds, and
      then the broker is called, whose reply is the oracle's. */
  ghost predicate Dialled(fates: nat -> Fate, from: nat, to: nat, run: seq<Event>) {
    && (run != [] <==> fates(from).ok)
    && (run != [] ==> to == from + 2 && |run| == 1 && run[0].Called? && run[0].reply == fates(from + 1).reply)
  }

  /** pkgx_redeem: at most one call to the broker; the cid is taken over only from a strict
      ok reply and left alone otherwise. */
  method Spend(h: Machine, req: RedeemReq, expected: Str, cidIn: Str)
    returns (st: Status, code: Str, outCid: Str, ghost run: seq<Event>)
    modifies h`step, h`failed, h`outer, h`db, h`trace
    ensures h.Kept() && h.trace == old(h.trace) + run
    ensures run == [] ==> st == Protocol && code == "protocol" && h.failed > old(h.failed)
    ensures run != [] ==> |run| == 1 && run[0].Called? && run[0].req == req
                          && Classified(run[0].reply, expected, st, code)
    ensures Dialled(h.fates, old(h.step), h.step, run)
    ensures outCid == if st == RedeemOk then expected else cidIn
  {
    outCid := cidIn;
    var built := h.Try();
    if !built {
      return Protocol, "protocol", cidIn, [];
    }
    var reply := h.Transact(req);
    run := [Called(req, reply)];
    st, code := Classify(reply, expected);
    if st == RedeemOk {
      outCid := expected;
    }
  }

  /** pkgx_cid_echo. */
  function CidEcho(expected: CStr): (r: Str)
    ensures r != [] <==> expected.Some? && |expected.value| == CID_LEN
    ensures r != [] ==> expected == Some(r)
  {
    if expected.Some? && |expected.value| == CID_LEN then expected.value else []
  }

  // ---- what the classification guarantees ---------------------------------------------

  /** No reply is taken two ways. */
  lemma RepliesAreExclusive(reply: Reply, expected: Str, code: Str)
    ensures !(StrictOk(reply, expected) && ForeignOk(reply, expected))
    ensures !(StrictOk(reply, expected) && Refusal(reply, code))
    ensures !(ForeignOk(reply, expected) && Refusal(reply, code))
  {
  }

  ghost predicate DistinctNames(ms: seq<Member>) {
    forall i, j :: 0 <= i < j < |ms| ==> ms[i].key != ms[j].key
  }

  ghost function KeySet(ms: seq<Member>): set<Str> {
    set m | m in ms :: m.key
  }

  lemma {:induction false} GetFinds(ms: seq<Member>, key: Str)
    ensures Get(ms, key).Some? <==> exists i :: 0 <= i < |ms| && ms[i].key == key
  {
    if ms != [] {
      GetFinds(ms[1..], key);
      if ms[0].key != key {
        if i :| 0 <= i < |ms| && ms[i].key == key { assert ms[1..][i - 1].key == key; }
        if i :| 0 <= i < |ms[1..]| && ms[1..][i].key == key { assert ms[i + 1].key == key; }
      }
    }
  }

  /** The members of an object in which just the keys of `keys` occur, each of them found. */
  lemma ExactKeys(ms: seq<Member>, keys: seq<Str>)
    requires KeysWithin(ms, keys) && DistinctNames(ms) && NoDup(keys)
    requires forall k :: k in keys ==> Get(ms, k).Some?
    ensures |ms| == |keys| && KeySet(ms) == Elems(keys)
  {
    forall k | k in keys { GetFinds(ms, k); }
    hide Get;
    var names := seq(|ms|, i requires 0 <= i < |ms| => ms[i].key);
    forall k ensures k in names <==> k in keys {
      if k in names {
        var i :| 0 <= i < |names| && names[i] == k;
        assert ms[i].key in keys;
      }
      if k in keys {
        var i :| 0 <= i < |ms| && ms[i].key == k;
        assert names[i] == k;
      }
    }
    assert Elems(names) == Elems(keys);
    forall k ensures k in KeySet(ms) <==> k in names {
      if k in KeySet(ms) {
        var m :| m in ms && m.key == k;
        var i :| 0 <= i < |ms| && ms[i] == m;
        assert names[i] == k;
      }
      if k in names {
        var i :| 0 <= i < |names| && names[i] == k;
        assert ms[i] in ms;
      }
    }
    CardinalityOfDistinct(names);
    CardinalityOfDistinct(keys);
  }

  /** With duplicate keys refused by the parser, a strict ok reply has exactly its three keys,
      and they say so. */
  lemma StrictReplyIsExact(ms: seq<Member>, cid: Str)
    requires OkReply(JObject(ms), cid) && DistinctNames(ms)
    ensures |ms| == 3 && KeySet(ms) == {"ok", "correlation_id", "persisted"}
    ensures Get(ms, "ok") == Some(JTrue) && Get(ms, "persisted") == Some(JTrue)
    ensures Get(ms, "correlation_id").Some? && TextOf(Get(ms, "correlation_id")) == Some(cid)
  {
    OkKeysAre();
    hide CText, Get, KeySet, REDEEM_ERRORS;
    forall k | k in OK_KEYS ensures Get(ms, k).Some? { assert k in Elems(OK_KEYS); }
    ExactKeys(ms, OK_KEYS);
  }

  /** ... and a refusal has exactly its own three. */
  lemma RefusalIsExact(ms: seq<Member>, code: Str)
    requires ErrorReply(JObject(ms), code) && DistinctNames(ms)
    ensures |ms| == 3 && KeySet(ms) == {"ok", "error", "message"}
    ensures Get(ms, "ok") == Some(JFalse) && TextOf(Get(ms, "error")) == Some(code)
  {
    ErrKeysAre();
    hide CText, Get, KeySet, REDEEM_ERRORS;
    forall k | k in ERR_KEYS ensures Get(ms, k).Some? { assert k in Elems(ERR_KEYS); }
    ExactKeys(ms, ERR_KEYS);
  }

  /** The two replies a broker writes are taken for what they are. */
  lemma WrittenReplies(cid: Str, code: Str, message: Str)
    requires |cid| == 37
    requires code in {"receipt_invalid", "receipt_expired", "receipt_redeemed", "receipt_mismatch",
                      "receipt_unauthorized", "receipt_actor_mismatch", "rate_limited", "persist_failed"}
    ensures StrictOk(Tree(JObject([Member("ok", JTrue), Member("correlation_id", JString(cid)),
                                   Member("persisted", JTrue)])), cid)
    ensures Refusal(Tree(JObject([Member("ok", JFalse), Member("error", JString(code)),
                                  Member("message", JString(message))])), code)
  {
    ErrorsAre(code);
    hide StrictOk, Refusal, REDEEM_ERRORS;
    WrittenOk(cid);
    WrittenRefusal(code, message);
  }

  lemma WrittenOk(cid: Str)
    requires |cid| == 37
    ensures StrictOk(Tree(JObject([Member("ok", JTrue), Member("correlation_id", JString(cid)),
                                   Member("persisted", JTrue)])), cid)
  {
    var ms := [Member("ok", JTrue), Member("correlation_id", JString(cid)), Member("persisted", JTrue)];
    assert |"ok"| == 2 && |"correlation_id"| == 14 && |"persisted"| == 9;
    ThirdMember(ms);
    TextOfStr(cid);
    OkKeysAre();
    hide Get, CText;
    assert ms[0].key in Elems(OK_KEYS) && ms[1].key in Elems(OK_KEYS) && ms[2].key in Elems(OK_KEYS);
  }

  lemma WrittenRefusal(code: Str, message: Str)
    requires code in REDEEM_ERRORS
    ensures Refusal(Tree(JObject([Member("ok", JFalse), Member("error", JString(code)),
                                  Member("message", JString(message))])), code)
  {
    hide REDEEM_ERRORS;
    var ms := [Member("ok", JFalse), Member("error", JString(code)), Member("message", JString(message))];
    assert |"ok"| == 2 && |"error"| == 5 && |"message"| == 7;
    ThirdMember(ms);
    TextOfStr(code);
    TextOfStr(message);
    ErrKeysAre();
    hide Get, CText;
    assert ms[0].key in Elems(ERR_KEYS) && ms[1].key in Elems(ERR_KEYS) && ms[2].key in Elems(ERR_KEYS);
  }

  lemma ThirdMember(ms: seq<Member>)
    requires |ms| == 3 && ms[0].key != ms[1].key && ms[0].key != ms[2].key && ms[1].key != ms[2].key
    ensures forall i :: 0 <= i < 3 ==> Get(ms, ms[i].key) == Some(ms[i].value)
  {
    var rest := ms[1..];
    assert rest[0] == ms[1] && rest[1..][0] == ms[2];
    assert Get(rest, ms[2].key) == Get(rest[1..], ms[2].key) == Some(ms[2].value);
    assert Get(rest, ms[1].key) == Some(ms[1].value);
  }

  lemma {:induction false} TextOfStr(s: Str)
    ensures CText(s) == s
  {
    if s != [] { TextOfStr(s[1..]); }
  }

  lemma OkKeysAre()
    ensures NoDup(OK_KEYS) && |OK_KEYS| == 3
    ensures Elems(OK_KEYS) == {"ok", "correlation_id", "persisted"}
  {
    assert OK_KEYS[0] == "ok" && OK_KEYS[1] == "correlation_id" && OK_KEYS[2] == "persisted";
  }

  lemma ErrKeysAre()
    ensures NoDup(ERR_KEYS) && |ERR_KEYS| == 3
    ensures Elems(ERR_KEYS) == {"ok", "error", "message"}
  {
    assert ERR_KEYS[0] == "ok" && ERR_KEYS[1] == "error" && ERR_KEYS[2] == "message";
  }

  lemma {:induction false} CardinalityOfDistinct(xs: seq<Str>)
    requires NoDup(xs)
    ensures |Elems(xs)| == |xs|
  {
    if xs != [] {
      var init, last := xs[..|xs| - 1], xs[|xs| - 1];
      CardinalityOfDistinct(init);
      assert last !in init;
      assert Elems(xs) == Elems(init) + {last};
    }
  }
}

/** Published test vectors of the encoding, as consequences of the model. */
module Golden {
  import opened Bytes
  import opened Order
  import opened Lists
  import opened Canon
  import Builders
  import Encoder

  const NGINX: TxnRecord :=
    Txn(Some("nginx"), Some("amd64"), Some("install"), Some(""), Some("1.24.0-1"), [])
  const LIBPCRE: TxnRecord :=
    Txn(Some("libpcre3"), Some("amd64"), Some("install"), Some(""), Some("2:8.39-15"), [Some("auto")])

  /** The resolver's plan to install nginx, which is not there yet. */
  const NGINX_PLANNED: Builders.Planned :=
    Builders.Planned(Builders.Pkg("nginx", "amd64", None, Builders.SelInstall, Builders.NotInstalled, false, false),
                     Builders.Mark(false, false, true, false, false, false, Some(Builders.Version("1.24.0-1", false))))

  /** Whatever lists the changes of that plan is the one record of the published vector. */
  lemma InstallIsRecorded(recs: seq<TxnRecord>)
    requires Builders.ListsChanges([NGINX_PLANNED], recs)
    ensures recs == [NGINX]
  {
    var dc := [NGINX_PLANNED];
    var at: seq<nat> :|
      && InOrder(at, |dc|) && |recs| == |at|
      && (forall i :: 0 <= i < |dc| ==>
            (i in at <==> dc[i].mark.delete || dc[i].mark.newInstall || dc[i].mark.upgrade || dc[i].mark.downgrade))
      && forall j :: 0 <= j < |at| ==> Builders.DescribesChange(dc[at[j]], recs[j]);
    assert dc[0].mark.newInstall && 0 in at;
    InOrderIsShort(at, |dc|);
    assert recs == [recs[0]] && Builders.DescribesChange(NGINX_PLANNED, recs[0]);
  }

  lemma SortOne(a: Str)
    ensures Sort([a]) == [a]
  {
    assert Sort([]) == [];
  }

  lemma SortTwo(a: Str, b: Str)
    requires !Leq(a, b)
    ensures Sort([a, b]) == [b, a]
  {
    SortOne(b);
    assert [a, b][1..] == [b];
    assert Insert(a, []) == [a];
  }

  lemma JoinTwo(a: Str, b: Str, d: Chr)
    ensures Join([a, b], d) == a + [d] + b
  {
    assert [a, b][1..] == [b];
  }

  /** Two records, the one with the smaller first byte given last. */
  lemma TwoRecords(verb: Str, r: TxnRecord, q: TxnRecord)
    requires RecordString(r) != [] && RecordString(q) != [] && RecordString(r)[0] > RecordString(q)[0]
    ensures Canonical(TxnPlan(Some(verb), [r, q])) == Header(verb) + (RecordString(q) + [RS] + RecordString(r))
  {
    hide RecordString;
    var a, b := RecordString(r), RecordString(q);
    assert !Leq(a, b);
    SortTwo(a, b);
    JoinTwo(b, a, RS);
    assert RecordStrings([r, q]) == [a, b];
  }

  lemma HeaderOfInstall()
    ensures Header("apt.install") == "1\U{1e}apt.install\U{1e}"
  {
    assert Header("apt.install") == "1" + "\U{1e}" + "apt.install" + "\U{1e}";
  }

  /** install_multi: two records given in the wrong order, one of them with a flag. */
  lemma InstallMulti()
    ensures Canonical(TxnPlan(Some("apt.install"), [NGINX, LIBPCRE])) ==
            "1\U{1e}apt.install\U{1e}"
            + ("libpcre3\U{1f}amd64\U{1f}install\U{1f}\U{1f}2:8.39-15\U{1f}auto"
               + [RS] + "nginx\U{1f}amd64\U{1f}install\U{1f}\U{1f}1.24.0-1\U{1f}")
  {
    TextOfNginx();
    TextOfLibpcre();
    HeaderOfInstall();
    hide RecordString, Canonical, Header;
    assert "nginx\U{1f}amd64\U{1f}install\U{1f}\U{1f}1.24.0-1\U{1f}"[0] == 'n';
    assert "libpcre3\U{1f}amd64\U{1f}install\U{1f}\U{1f}2:8.39-15\U{1f}auto"[0] == 'l';
    TwoRecords("apt.install", NGINX, LIBPCRE);
  }

  lemma TextOfNginx()
    ensures RecordString(NGINX) == "nginx\U{1f}amd64\U{1f}install\U{1f}\U{1f}1.24.0-1\U{1f}"
  {
    assert NzAll([]) == [] && CommaList([]) == [];
    hide CommaList, Join;
    Encoder.JoinSix("nginx", "amd64", "install", "", "1.24.0-1", "");
  }

  lemma AutoList()
    ensures CommaList(NzAll([Some("auto")])) == "auto"
  {
    assert NzAll([Some("auto")]) == ["auto"];
    SortOne("auto");
  }

  lemma TextOfLibpcre()
    ensures RecordString(LIBPCRE) == "libpcre3\U{1f}amd64\U{1f}install\U{1f}\U{1f}2:8.39-15\U{1f}auto"
  {
    AutoList();
    hide CommaList, Join, Sort;
    Encoder.JoinSix("libpcre3", "amd64", "install", "", "2:8.39-15", "auto");
  }

  const ARCHIVE: Str := "http://archive.ubuntu.com/ubuntu"
  const KEYRING: Str := "/usr/share/keyrings/" + "ubuntu-archive-keyring.gpg"

  /** A source with two components out of order and one option. */
  lemma SrcText(uri: Str, suite: Str, a: Str, b: Str, key: Str, val: Str)
    requires !Leq(a, b)
    ensures RecordString(Src(Some(uri), Some(suite), [Some(a), Some(b)], [Opt(Some(key), Some(val))])) ==
            uri + [US] + suite + [US] + (b + [COMMA] + a) + [US] + (key + [EQUALS] + val)
  {
    TwoItems(a, b);
    OneOption(key, val);
    hide CommaList, Join, Leq;
    Encoder.JoinFour(uri, suite, b + [COMMA] + a, key + [EQUALS] + val);
  }

  lemma TwoItems(a: Str, b: Str)
    requires !Leq(a, b)
    ensures CommaList(NzAll([Some(a), Some(b)])) == b + [COMMA] + a
  {
    assert NzAll([Some(a), Some(b)]) == [a, b];
    SortTwo(a, b);
    JoinTwo(b, a, COMMA);
  }

  lemma OneOption(key: Str, val: Str)
    ensures CommaList(Pairs([Opt(Some(key), Some(val))])) == key + [EQUALS] + val
  {
    assert Pairs([Opt(Some(key), Some(val))]) == [Pair(key, val)];
    SortOne(Pair(key, val));
  }

  /** update_single: components given out of order, and the signing keyring. */
  lemma UpdateSingle()
    ensures Canonical(UpdPlan([Src(Some(ARCHIVE), Some("noble"), [Some("universe"), Some("main")],
                                   [Opt(Some("signed-by"), Some(KEYRING))])])) ==
            Header("apt.update")
            + (ARCHIVE + [US] + "noble" + [US] + ("main" + [COMMA] + "universe") + [US]
               + ("signed-by" + [EQUALS] + KEYRING))
  {
    var r := Src(Some(ARCHIVE), Some("noble"), [Some("universe"), Some("main")],
                 [Opt(Some("signed-by"), Some(KEYRING))]);
    assert "universe"[0] == 'u' && "main"[0] == 'm';
    SrcText(ARCHIVE, "noble", "universe", "main", "signed-by", KEYRING);
    hide RecordString, Canonical, Header;
    OneRecord(UpdPlan([r]), r);
  }

  lemma OneRecord(p: Plan, r: Record)
    requires p.Records() == [r]
    ensures Canonical(p) == Header(p.Verb()) + RecordString(r)
  {
    hide RecordString;
    assert RecordStrings([r]) == [RecordString(r)];
    SortOne(RecordString(r));
  }

  lemma HoldText(p: Str, f: Str, t: Str)
    ensures RecordString(Hold(Some(p), Some(f), Some(t))) == p + [US] + f + [US] + t
  {
    Encoder.JoinThree(p, f, t);
  }

  lemma CfgText(p: Str, a: Str, v: Str, s: Str)
    ensures RecordString(Cfg(Some(p), Some(a), Some(v), Some(s))) == p + [US] + a + [US] + v + [US] + s
  {
    Encoder.JoinFour(p, a, v, s);
  }

  /** hold_single. */
  lemma HoldSingle()
    ensures Canonical(HoldPlan(Some("apt.hold"), [Hold(Some("nginx"), Some("install"), Some("hold"))])) ==
            Header("apt.hold") + ("nginx" + [US] + "install" + [US] + "hold")
  {
    var r := Hold(Some("nginx"), Some("install"), Some("hold"));
    HoldText("nginx", "install", "hold");
    hide RecordString, Canonical, Header;
    OneRecord(HoldPlan(Some("apt.hold"), [r]), r);
  }

  /** configure_single. */
  lemma ConfigureSingle()
    ensures Canonical(CfgPlan([Cfg(Some("nginx"), Some("amd64"), Some("1.24.0-1"), Some("half-configured"))])) ==
            Header("apt.configure") + ("nginx" + [US] + "amd64" + [US] + "1.24.0-1" + [US] + "half-configured")
  {
    var r := Cfg(Some("nginx"), Some("amd64"), Some("1.24.0-1"), Some("half-configured"));
    CfgText("nginx", "amd64", "1.24.0-1", "half-configured");
    hide RecordString, Canonical, Header;
    OneRecord(CfgPlan([r]), r);
  }
}

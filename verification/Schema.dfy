/** The schema-1 encoding written out: which plans it covers, and what each one looks like. */
module Schema {
  import opened Bytes
  import opened Order
  import opened Lists
  import opened Canon
  import Encoder
  import Utf8

  /** A field is text in strict UTF-8 without the four bytes the encoding uses itself. */
  lemma FieldIsWritten(s: Str)
    ensures FieldOk(s) <==>
            && '\U{1e}' !in s && '\U{1f}' !in s && ',' !in s && '=' !in s
            && exists cps :: Utf8.AllScalars(cps) && s == Utf8.EncodeAll(cps)
  {
    Utf8.ValidIffEncodedScalars(s);
    hide Utf8.Valid;
  }

  // ---- the domain ---------------------------------------------------------------------

  lemma Words(s: Str)
    ensures s in TXN_VERBS <==> s in {"apt.install", "apt.remove", "apt.purge", "apt.upgrade", "apt.dist_upgrade"}
    ensures s in HOLD_VERBS <==> s in {"apt.hold", "apt.unhold"}
    ensures s in ACTIONS <==> s in {"install", "upgrade", "downgrade", "remove", "purge"}
    ensures s in FLAGS <==> s in {"hold", "auto", "essential", "protected"}
  {
    assert TXN_VERBS[0] == "apt.install" && TXN_VERBS[1] == "apt.remove" && TXN_VERBS[2] == "apt.purge";
    assert TXN_VERBS[3] == "apt.upgrade" && TXN_VERBS[4] == "apt.dist_upgrade";
    assert HOLD_VERBS[0] == "apt.hold" && HOLD_VERBS[1] == "apt.unhold";
    assert ACTIONS[0] == "install" && ACTIONS[1] == "upgrade" && ACTIONS[2] == "downgrade";
    assert ACTIONS[3] == "remove" && ACTIONS[4] == "purge";
    assert FLAGS[0] == "hold" && FLAGS[1] == "auto" && FLAGS[2] == "essential" && FLAGS[3] == "protected";
  }

  lemma States(s: Str)
    ensures s in CFG_STATES <==>
            s in {"half-installed", "unpacked", "half-configured", "triggers-awaited", "triggers-pending"}
    ensures s in HOLD_STATES <==> s in {"hold", "install"}
    ensures s in UPD_OPT_KEYS <==> s in {"signed-by", "architectures", "trusted"}
  {
    assert CFG_STATES[0] == "half-installed" && CFG_STATES[1] == "unpacked" && CFG_STATES[2] == "half-configured";
    assert CFG_STATES[3] == "triggers-awaited" && CFG_STATES[4] == "triggers-pending";
    assert HOLD_STATES[0] == "hold" && HOLD_STATES[1] == "install";
    assert UPD_OPT_KEYS[0] == "signed-by" && UPD_OPT_KEYS[1] == "architectures" && UPD_OPT_KEYS[2] == "trusted";
  }

  lemma TxnRecordIsWritten(r: TxnRecord)
    ensures RecordOk(r) <==>
            && Nz(r.action) in {"install", "upgrade", "downgrade", "remove", "purge"}
            && NoDup(NzAll(r.flags))
            && (forall i :: 0 <= i < |r.flags| ==> Nz(r.flags[i]) in {"hold", "auto", "essential", "protected"})
            && FieldOk(Nz(r.package)) && FieldOk(Nz(r.architecture))
            && FieldOk(Nz(r.fromVersion)) && FieldOk(Nz(r.toVersion))
    ensures RecordString(r) ==
            Nz(r.package) + "\U{1f}" + Nz(r.architecture) + "\U{1f}" + Nz(r.action) + "\U{1f}"
            + Nz(r.fromVersion) + "\U{1f}" + Nz(r.toVersion) + "\U{1f}" + CommaList(NzAll(r.flags))
  {
    hide FieldOk, CommaList, Join;
    Words(Nz(r.action));
    forall i | 0 <= i < |r.flags| { Words(Nz(r.flags[i])); }
    WordsAreFields(r);
    Encoder.JoinSix(Nz(r.package), Nz(r.architecture), Nz(r.action), Nz(r.fromVersion), Nz(r.toVersion),
                    CommaList(NzAll(r.flags)));
  }

  lemma WordsAreFields(r: TxnRecord)
    ensures Nz(r.action) in ACTIONS ==> FieldOk(Nz(r.action))
    ensures forall i :: 0 <= i < |r.flags| && Nz(r.flags[i]) in FLAGS ==> FieldOk(Nz(r.flags[i]))
  {
    hide FieldOk;
    assert PlainWord(ACTIONS[0]) && PlainWord(ACTIONS[1]) && PlainWord(ACTIONS[2]);
    assert PlainWord(ACTIONS[3]) && PlainWord(ACTIONS[4]);
    assert PlainWord(FLAGS[0]) && PlainWord(FLAGS[1]) && PlainWord(FLAGS[2]) && PlainWord(FLAGS[3]);
    if Nz(r.action) in ACTIONS { PlainWordIsField(Nz(r.action)); }
    forall i | 0 <= i < |r.flags| && Nz(r.flags[i]) in FLAGS { PlainWordIsField(Nz(r.flags[i])); }
  }

  lemma CfgRecordIsWritten(r: CfgRecord)
    ensures RecordOk(r) <==>
            && Nz(r.state) in {"half-installed", "unpacked", "half-configured", "triggers-awaited", "triggers-pending"}
            && FieldOk(Nz(r.package)) && FieldOk(Nz(r.architecture)) && FieldOk(Nz(r.currentVersion))
    ensures RecordString(r) ==
            Nz(r.package) + "\U{1f}" + Nz(r.architecture) + "\U{1f}" + Nz(r.currentVersion) + "\U{1f}" + Nz(r.state)
  {
    hide FieldOk, Join;
    States(Nz(r.state));
    assert PlainWord(CFG_STATES[0]) && PlainWord(CFG_STATES[1]) && PlainWord(CFG_STATES[2]);
    assert PlainWord(CFG_STATES[3]) && PlainWord(CFG_STATES[4]);
    if Nz(r.state) in CFG_STATES { PlainWordIsField(Nz(r.state)); }
    Encoder.JoinFour(Nz(r.package), Nz(r.architecture), Nz(r.currentVersion), Nz(r.state));
  }

  lemma HoldRecordIsWritten(r: HoldRecord)
    ensures RecordOk(r) <==>
            && Nz(r.fromState) in {"hold", "install"} && Nz(r.toState) in {"hold", "install"}
            && FieldOk(Nz(r.package))
    ensures RecordString(r) == Nz(r.package) + "\U{1f}" + Nz(r.fromState) + "\U{1f}" + Nz(r.toState)
  {
    hide FieldOk, Join;
    States(Nz(r.fromState));
    States(Nz(r.toState));
    assert PlainWord(HOLD_STATES[0]) && PlainWord(HOLD_STATES[1]);
    if Nz(r.fromState) in HOLD_STATES { PlainWordIsField(Nz(r.fromState)); }
    if Nz(r.toState) in HOLD_STATES { PlainWordIsField(Nz(r.toState)); }
    Encoder.JoinThree(Nz(r.package), Nz(r.fromState), Nz(r.toState));
  }

  lemma SrcRecordIsWritten(r: SrcRecord)
    ensures RecordOk(r) <==>
            && FieldOk(Nz(r.uri)) && FieldOk(Nz(r.suite))
            && NoDup(NzAll(r.components)) && FieldsOk(NzAll(r.components))
            && NoDup(Keys(r.options)) && FieldsOk(Vals(r.options))
            && forall i :: 0 <= i < |r.options| ==> Nz(r.options[i].key) in {"signed-by", "architectures", "trusted"}
    ensures RecordString(r) ==
            Nz(r.uri) + "\U{1f}" + Nz(r.suite) + "\U{1f}" + CommaList(NzAll(r.components)) + "\U{1f}"
            + CommaList(Pairs(r.options))
    ensures forall i :: 0 <= i < |r.options| ==>
              Pairs(r.options)[i] == Nz(r.options[i].key) + "=" + Nz(r.options[i].val)
  {
    hide FieldOk, CommaList, Join;
    forall i | 0 <= i < |r.options|
      ensures Keys(r.options)[i] in UPD_OPT_KEYS <==>
              Nz(r.options[i].key) in {"signed-by", "architectures", "trusted"}
      ensures Keys(r.options)[i] in UPD_OPT_KEYS ==> FieldOk(Keys(r.options)[i])
    {
      States(Nz(r.options[i].key));
      OptionKeyIsField(Keys(r.options)[i]);
    }
    Encoder.JoinFour(Nz(r.uri), Nz(r.suite), CommaList(NzAll(r.components)), CommaList(Pairs(r.options)));
  }

  lemma OptionKeyIsField(k: Str)
    ensures k in UPD_OPT_KEYS ==> FieldOk(k)
  {
    hide FieldOk;
    assert PlainWord(UPD_OPT_KEYS[0]) && PlainWord(UPD_OPT_KEYS[1]) && PlainWord(UPD_OPT_KEYS[2]);
    if k in UPD_OPT_KEYS { PlainWordIsField(k); }
  }

  // ---- whole plans ------------------------------------------------------------------------

  /** The verb of each encoder, the cap of four mebibytes, and the frame around the sorted
      records. */
  lemma PlanIsWritten(p: Plan)
    ensures Encodable(p) <==>
            && RecordsOk(p.Records()) && |Canonical(p)| <= 4194304
            && (p.TxnPlan? ==> p.verb.Some? && p.verb.value in {"apt.install", "apt.remove", "apt.purge",
                                                                "apt.upgrade", "apt.dist_upgrade"})
            && (p.HoldPlan? ==> p.verb.Some? && p.verb.value in {"apt.hold", "apt.unhold"})
    ensures p.Verb() == match p
                        case TxnPlan(v, _) => Nz(v)
                        case HoldPlan(v, _) => Nz(v)
                        case CfgPlan(_) => "apt.configure"
                        case UpdPlan(_) => "apt.update"
    ensures Canonical(p) ==
            "1" + "\U{1e}" + p.Verb() + "\U{1e}" + Join(Sort(RecordStrings(p.Records())), '\U{1e}')
  {
    hide RecordOk, RecordStrings, Sort, Join;
    if (p.TxnPlan? || p.HoldPlan?) && p.verb.Some? { Words(p.verb.value); }
  }
}

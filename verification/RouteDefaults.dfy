/** Installing the default route rules behind the existing ones, skipping those whose signature is already
    there. */
module RouteDefaults {
  import opened Wrappers
  import opened GoValue

  /** `stringValue` */
  function StringValue(v: Option<Val>): string {
    if v.Some? && v.value.Str? then v.value.s else ""
  }

  /** The first string of a generic list, or "". */
  function FirstString(v: Option<Val>): string {
    if v.Some? && v.value.List? && |v.value.items| > 0 && v.value.items[0].Str? then v.value.items[0].s else ""
  }

  function NetworkSignature(network: string, rule: Object, printFloat: real -> string): string {
    "network:" + network + "->" + PortValue(At(rule, "port"), printFloat) + "->" + StringValue(At(rule, "action"))
    + "->" + StringValue(At(rule, "outbound"))
  }

  /** `ruleSignature` */
  function Signature(rule: Object, printFloat: real -> string): string {
    var network, networks := StringAt(rule, "network"), FirstString(At(rule, "network"));
    var protocol := StringAt(rule, "protocol");
    var outbound := StringValue(At(rule, "outbound"));
    var sets := At(rule, "rule_set");
    if network != "" then NetworkSignature(network, rule, printFloat)
    else if networks != "" then NetworkSignature(networks, rule, printFloat)
    else if protocol != "" then "protocol:" + protocol + "->" + outbound + "->" + StringValue(At(rule, "action"))
    else if At(rule, "ip_is_private") == Some(Bool(true)) then "ip_is_private->" + outbound
    else if sets.Some? && sets.value.Strings? && |sets.value.strings| > 0 then
      "rule_set:" + sets.value.strings[0] + "->" + outbound
    else if FirstString(sets) != "" then "rule_set:" + FirstString(sets) + "->" + outbound
    else outbound
  }

  function RuleSetRule(ruleSet: string, outbound: string): Object {
    map["rule_set" := Strings([ruleSet]), "outbound" := Str(outbound)]
  }

  /** The first of the rule sets that is configured gives a rule. */
  function Preferred(ruleSets: set<string>, first: string, second: string, outbound: string): seq<Object> {
    if first in ruleSets then [RuleSetRule(first, outbound)]
    else if second in ruleSets then [RuleSetRule(second, outbound)]
    else []
  }

  const SNIFF: Object := map["action" := Str("sniff")]

  function AlwaysRules(): seq<Object> {
    [SNIFF, map["protocol" := Str("dns"), "action" := Str("hijack-dns")]]
  }

  function PrivateRules(outbounds: set<string>, direct: string): seq<Object> {
    if direct in outbounds then
      [map["ip_is_private" := Bool(true), "outbound" := Str(direct)],
       map["network" := Str("icmp"), "outbound" := Str(direct)]]
    else []
  }

  function BlockRules(outbounds: set<string>, ruleSets: set<string>): seq<Object> {
    if "block" in outbounds then
      [map["network" := Str("udp"), "port" := Int(443), "action" := Str("reject")]]
      + Preferred(ruleSets, "loyalsoldier-reject", "geosite-category-ads-all", "block")
    else []
  }

  function DomesticRules(outbounds: set<string>, ruleSets: set<string>, direct: string): seq<Object> {
    if direct in outbounds then
      Preferred(ruleSets, "loyalsoldier-direct", "geosite-cn", direct)
      + (if "geoip-cn" in ruleSets then [RuleSetRule("geoip-cn", direct)] else [])
    else []
  }

  function ProxyRules(outbounds: set<string>, ruleSets: set<string>): seq<Object> {
    if "proxy" in outbounds then Preferred(ruleSets, "loyalsoldier-proxy", "geosite-google-play", "proxy") else []
  }

  /** The default rules for the configured outbounds and rule sets, in order. */
  function DefaultRules(outbounds: set<string>, ruleSets: set<string>): seq<Object> {
    var direct := if "bypass" in outbounds then "bypass" else "direct";
    AlwaysRules() + PrivateRules(outbounds, direct) + BlockRules(outbounds, ruleSets)
    + DomesticRules(outbounds, ruleSets, direct) + ProxyRules(outbounds, ruleSets)
  }

  function Signatures(rules: seq<Val>, printFloat: real -> string): set<string> {
    set v | v in rules && v.Map? :: Signature(v.fields, printFloat)
  }

  /** The defaults whose signature was not seen before. */
  function Added(defaults: seq<Object>, seen: set<string>, printFloat: real -> string): seq<Val> {
    if defaults == [] then []
    else
      var signature := Signature(defaults[0], printFloat);
      if signature in seen then Added(defaults[1..], seen, printFloat)
      else [Map(defaults[0])] + Added(defaults[1..], seen + {signature}, printFloat)
  }

  function Merged(existing: seq<Val>, defaults: seq<Object>, printFloat: real -> string): seq<Val> {
    existing + Added(defaults, Signatures(existing, printFloat), printFloat)
  }

  /** `Install`, from the existing rules and the configured tags. */
  method Install(existing: seq<Val>, outbounds: set<string>, ruleSets: set<string>, printFloat: real -> string)
    returns (merged: seq<Val>, installed: seq<Val>)
    ensures merged == Merged(existing, DefaultRules(outbounds, ruleSets), printFloat)
    ensures merged == existing + installed
  {
    merged, installed := Merge(existing, DefaultRules(outbounds, ruleSets), printFloat);
  }

  method Merge(existing: seq<Val>, defaults: seq<Object>, printFloat: real -> string)
    returns (merged: seq<Val>, installed: seq<Val>)
    ensures merged == Merged(existing, defaults, printFloat)
    ensures merged == existing + installed
  {
    merged := [];
    var seen: set<string> := {};
    for i := 0 to |existing|
      invariant merged == existing[..i] && seen == Signatures(existing[..i], printFloat)
    {
      SignaturesStep(existing, i, printFloat);
      if existing[i].Map? {
        seen := seen + {Signature(existing[i].fields, printFloat)};
      }
      merged := merged + [existing[i]];
    }
    assert existing[..|existing|] == existing;
    installed := [];
    AddedEnds([], defaults, seen, printFloat);
    for i := 0 to |defaults|
      invariant merged == existing + installed
      invariant installed + Added(defaults[i..], seen, printFloat) ==
                Added(defaults, Signatures(existing, printFloat), printFloat)
    {
      var signature := Signature(defaults[i], printFloat);
      AddedStep(installed, defaults, seen, i, printFloat);
      if signature in seen {
        continue;
      }
      seen := seen + {signature};
      merged := merged + [Map(defaults[i])];
      installed := installed + [Map(defaults[i])];
    }
    AddedEnds(installed, defaults, seen, printFloat);
  }

  lemma SignaturesStep(rules: seq<Val>, i: nat, printFloat: real -> string)
    requires i < |rules|
    ensures rules[..i + 1] == rules[..i] + [rules[i]]
    ensures Signatures(rules[..i + 1], printFloat) ==
            Signatures(rules[..i], printFloat)
            + if rules[i].Map? then {Signature(rules[i].fields, printFloat)} else {}
  {
    SignaturesAppend(rules[..i], rules[i], printFloat);
    assert rules[..i + 1] == rules[..i] + [rules[i]];
  }

  lemma SignaturesAppend(rules: seq<Val>, v: Val, printFloat: real -> string)
    ensures Signatures(rules + [v], printFloat) ==
            Signatures(rules, printFloat) + if v.Map? then {Signature(v.fields, printFloat)} else {}
  {
    forall w
      ensures w in rules + [v] <==> w in rules || w == v
    {}
  }

  lemma AddedStep(installed: seq<Val>, defaults: seq<Object>, seen: set<string>, i: nat, printFloat: real -> string)
    requires i < |defaults|
    ensures var signature := Signature(defaults[i], printFloat);
            installed + Added(defaults[i..], seen, printFloat) ==
            if signature in seen then installed + Added(defaults[i + 1..], seen, printFloat)
            else installed + [Map(defaults[i])] + Added(defaults[i + 1..], seen + {signature}, printFloat)
  {
    assert defaults[i..][0] == defaults[i] && defaults[i..][1..] == defaults[i + 1..];
  }

  lemma AddedEnds(installed: seq<Val>, defaults: seq<Object>, seen: set<string>, printFloat: real -> string)
    ensures Added(defaults[0..], seen, printFloat) == Added(defaults, seen, printFloat)
    ensures installed + Added(defaults[|defaults|..], seen, printFloat) == installed
  {
    assert defaults[0..] == defaults;
  }

  // ---- Signatures and JSON ----

  /** A list of strings that the program built itself: JSON decoding only gives generic lists. */
  predicate BuiltList(v: Option<Val>) {
    v.Some? && v.value.Strings? && |v.value.strings| > 0
  }

  predicate NetworkCase(rule: Object) {
    StringAt(rule, "network") != "" || FirstString(At(rule, "network")) != ""
  }

  predicate RuleSetCase(rule: Object) {
    !NetworkCase(rule) && StringAt(rule, "protocol") == "" && At(rule, "ip_is_private") != Some(Bool(true))
  }

  /** The rules whose signature survives being written and read: networks are no built list, a port that
      matters prints as a float the way it prints as an integer, and a built list of rule sets that matters
      does not start with an empty name. */
  predicate Stable(rule: Object, printFloat: real -> string) {
    && !(BuiltList(At(rule, "network")) && rule["network"].strings[0] != "")
    && (NetworkCase(rule) && "port" in rule && rule["port"].Int? ==>
          FormatFloat(rule["port"].i as real, printFloat) == Itoa(rule["port"].i))
    && !(RuleSetCase(rule) && BuiltList(At(rule, "rule_set")) && rule["rule_set"].strings[0] == "")
  }

  lemma RedecodedAt(rule: Object, key: string)
    ensures StringAt(RedecodeFields(rule), key) == StringAt(rule, key)
    ensures StringValue(At(RedecodeFields(rule), key)) == StringValue(At(rule, key))
    ensures At(RedecodeFields(rule), key) == Some(Bool(true)) <==> At(rule, key) == Some(Bool(true))
  {}

  lemma RedecodedFirst(rule: Object, key: string)
    ensures FirstString(At(RedecodeFields(rule), key)) ==
            if At(rule, key).Some? && rule[key].Strings? && |rule[key].strings| > 0 then rule[key].strings[0]
            else FirstString(At(rule, key))
  {
    if key in rule {
      var v, w := rule[key], RedecodeFields(rule)[key];
      assert w == Redecode(v);
      match v
      case List(items) =>
        if items != [] {
          assert w.items[0] == Redecode(items[0]);
        }
      case Strings(strings) =>
        if strings != [] {
          assert w.items[0] == Str(strings[0]);
        }
      case _ =>
    }
  }

  lemma RedecodedPort(rule: Object, printFloat: real -> string)
    ensures PortValue(At(RedecodeFields(rule), "port"), printFloat) ==
            if "port" in rule && rule["port"].Int? then FormatFloat(rule["port"].i as real, printFloat)
            else PortValue(At(rule, "port"), printFloat)
  {}

  lemma RedecodedParts(rule: Object, printFloat: real -> string)
    ensures StringAt(RedecodeFields(rule), "network") == StringAt(rule, "network")
    ensures StringAt(RedecodeFields(rule), "protocol") == StringAt(rule, "protocol")
    ensures StringValue(At(RedecodeFields(rule), "action")) == StringValue(At(rule, "action"))
    ensures StringValue(At(RedecodeFields(rule), "outbound")) == StringValue(At(rule, "outbound"))
    ensures At(RedecodeFields(rule), "ip_is_private") == Some(Bool(true)) <==>
            At(rule, "ip_is_private") == Some(Bool(true))
    ensures "rule_set" in RedecodeFields(rule) ==> !RedecodeFields(rule)["rule_set"].Strings?
  {
    RedecodedAt(rule, "network");
    RedecodedAt(rule, "protocol");
    RedecodedAt(rule, "action");
    RedecodedAt(rule, "outbound");
    RedecodedAt(rule, "ip_is_private");
  }

  /** The two middle parts are equal if the texts are that they stand in. */
  lemma MiddleEqual(before: string, a: string, b: string, after: string)
    requires before + a + after == before + b + after
    ensures a == b
  {
    assert |before + a + after| == |before| + |a| + |after|;
    assert |before + b + after| == |before| + |b| + |after|;
    assert a == (before + a + after)[|before|..|before| + |a|];
    assert b == (before + b + after)[|before|..|before| + |b|];
  }

  /** In the network case just the port can make a difference. */
  lemma NetworkSignatureKept(network: string, rule: Object, printFloat: real -> string)
    ensures NetworkSignature(network, RedecodeFields(rule), printFloat) == NetworkSignature(network, rule, printFloat)
            <==> PortValue(At(RedecodeFields(rule), "port"), printFloat) == PortValue(At(rule, "port"), printFloat)
  {
    RedecodedParts(rule, printFloat);
    var a, b := PortValue(At(rule, "port"), printFloat), PortValue(At(RedecodeFields(rule), "port"), printFloat);
    var action, outbound := StringValue(At(rule, "action")), StringValue(At(rule, "outbound"));
    var before, after := "network:" + network + "->", "->" + action + "->" + outbound;
    assert before + a + after == NetworkSignature(network, rule, printFloat);
    assert before + b + after == NetworkSignature(network, RedecodeFields(rule), printFloat);
    if before + b + after == before + a + after {
      MiddleEqual(before, b, a, after);
    }
  }

  /** A rule without a network case has another signature than it gets in one. */
  lemma NetworkSignatureDiffers(network: string, rule: Object, printFloat: real -> string)
    requires !NetworkCase(rule)
    ensures NetworkSignature(network, RedecodeFields(rule), printFloat) != Signature(rule, printFloat)
  {
    RedecodedParts(rule, printFloat);
    var text, own := NetworkSignature(network, RedecodeFields(rule), printFloat), Signature(rule, printFloat);
    assert text[0] == 'n';
    assert own == StringValue(At(rule, "outbound")) ==> |own| < |text|;
  }

  /** A signature survives being written and read if and only if the rule is stable. */
  lemma {:induction false} SignatureStableIff(rule: Object, printFloat: real -> string)
    ensures Signature(RedecodeFields(rule), printFloat) == Signature(rule, printFloat) <==> Stable(rule, printFloat)
  {
    RedecodedParts(rule, printFloat);
    RedecodedFirst(rule, "network");
    RedecodedFirst(rule, "rule_set");
    RedecodedPort(rule, printFloat);
    var again := RedecodeFields(rule);
    if StringAt(rule, "network") != "" {
      NetworkSignatureKept(StringAt(rule, "network"), rule, printFloat);
    } else if FirstString(At(rule, "network")) != "" {
      NetworkSignatureKept(FirstString(At(rule, "network")), rule, printFloat);
    } else if NetworkCase(again) {
      NetworkSignatureDiffers(FirstString(At(again, "network")), rule, printFloat);
    } else if RuleSetCase(rule) {
      RuleSetKept(rule, printFloat);
    }
  }

  lemma RuleSetKept(rule: Object, printFloat: real -> string)
    requires RuleSetCase(rule) && !NetworkCase(RedecodeFields(rule))
    ensures Signature(RedecodeFields(rule), printFloat) == Signature(rule, printFloat) <==>
            !(BuiltList(At(rule, "rule_set")) && rule["rule_set"].strings[0] == "")
  {
    RedecodedParts(rule, printFloat);
    RedecodedFirst(rule, "rule_set");
    var outbound := StringValue(At(rule, "outbound"));
    if BuiltList(At(rule, "rule_set")) && rule["rule_set"].strings[0] == "" {
      assert Signature(RedecodeFields(rule), printFloat) == outbound;
      assert |Signature(rule, printFloat)| > |outbound|;
    }
  }

  /** Only a rule that the program built can change its signature: one that was decoded from JSON is what
      it is. */
  lemma DecodedIsStable(rule: Object, printFloat: real -> string)
    requires Decoded(Map(rule))
    ensures Stable(rule, printFloat)
  {
    RedecodeDecoded(Map(rule));
    assert RedecodeFields(rule) == rule;
    SignatureStableIff(rule, printFloat);
  }

  lemma RuleSetRuleStable(ruleSet: string, outbound: string, printFloat: real -> string)
    requires ruleSet != ""
    ensures Stable(RuleSetRule(ruleSet, outbound), printFloat)
  {}

  lemma PreferredStable(ruleSets: set<string>, first: string, second: string, outbound: string,
                        printFloat: real -> string)
    requires first != "" && second != ""
    ensures forall rule | rule in Preferred(ruleSets, first, second, outbound) :: Stable(rule, printFloat)
  {
    RuleSetRuleStable(first, outbound, printFloat);
    RuleSetRuleStable(second, outbound, printFloat);
  }

  ghost predicate AllStable(rules: seq<Object>, printFloat: real -> string) {
    forall rule | rule in rules :: Stable(rule, printFloat)
  }

  lemma FixedRulesStable(direct: string, printFloat: real -> string)
    ensures AllStable([SNIFF, map["protocol" := Str("dns"), "action" := Str("hijack-dns")]], printFloat)
    ensures AllStable([map["ip_is_private" := Bool(true), "outbound" := Str(direct)],
                       map["network" := Str("icmp"), "outbound" := Str(direct)]], printFloat)
    ensures AllStable([map["network" := Str("udp"), "port" := Int(443), "action" := Str("reject")]], printFloat)
  {}

  lemma StableConcat(a: seq<Object>, b: seq<Object>, printFloat: real -> string)
    requires AllStable(a, printFloat) && AllStable(b, printFloat)
    ensures AllStable(a + b, printFloat)
  {}

  lemma FiveStable(a: seq<Object>, b: seq<Object>, c: seq<Object>, d: seq<Object>, e: seq<Object>,
                   printFloat: real -> string)
    requires AllStable(a, printFloat) && AllStable(b, printFloat) && AllStable(c, printFloat)
    requires AllStable(d, printFloat) && AllStable(e, printFloat)
    ensures AllStable(a + b + c + d + e, printFloat)
  {
    StableConcat(a, b, printFloat);
    StableConcat(a + b, c, printFloat);
    StableConcat(a + b + c, d, printFloat);
    StableConcat(a + b + c + d, e, printFloat);
  }

  /** Every default rule keeps its signature, whatever is configured: no rule set name is empty, and the one
      port is small. */
  lemma DefaultsStable(outbounds: set<string>, ruleSets: set<string>, printFloat: real -> string)
    ensures AllStable(DefaultRules(outbounds, ruleSets), printFloat)
  {
    var direct := if "bypass" in outbounds then "bypass" else "direct";
    FixedRulesStable(direct, printFloat);
    BlockRulesStable(outbounds, ruleSets, printFloat);
    DomesticRulesStable(outbounds, ruleSets, direct, printFloat);
    PreferredStable(ruleSets, "loyalsoldier-proxy", "geosite-google-play", "proxy", printFloat);
    FiveStable(AlwaysRules(), PrivateRules(outbounds, direct), BlockRules(outbounds, ruleSets),
               DomesticRules(outbounds, ruleSets, direct), ProxyRules(outbounds, ruleSets), printFloat);
  }

  lemma BlockRulesStable(outbounds: set<string>, ruleSets: set<string>, printFloat: real -> string)
    ensures AllStable(BlockRules(outbounds, ruleSets), printFloat)
  {
    FixedRulesStable("direct", printFloat);
    PreferredStable(ruleSets, "loyalsoldier-reject", "geosite-category-ads-all", "block", printFloat);
    StableConcat([map["network" := Str("udp"), "port" := Int(443), "action" := Str("reject")]],
                 Preferred(ruleSets, "loyalsoldier-reject", "geosite-category-ads-all", "block"), printFloat);
  }

  lemma DomesticRulesStable(outbounds: set<string>, ruleSets: set<string>, direct: string, printFloat: real -> string)
    ensures AllStable(DomesticRules(outbounds, ruleSets, direct), printFloat)
  {
    PreferredStable(ruleSets, "loyalsoldier-direct", "geosite-cn", direct, printFloat);
    RuleSetRuleStable("geoip-cn", direct, printFloat);
    StableConcat(Preferred(ruleSets, "loyalsoldier-direct", "geosite-cn", direct),
                 if "geoip-cn" in ruleSets then [RuleSetRule("geoip-cn", direct)] else [], printFloat);
  }

  // ---- A second installation ----

  lemma {:induction false} AddedCoversAll(defaults: seq<Object>, seen: set<string>, printFloat: real -> string)
    ensures forall rule | rule in defaults ::
      Signature(rule, printFloat) in seen + Signatures(Added(defaults, seen, printFloat), printFloat)
    ensures forall v | v in Added(defaults, seen, printFloat) :: v.Map? && v.fields in defaults
  {
    if defaults != [] {
      var signature := Signature(defaults[0], printFloat);
      var added := Added(defaults, seen, printFloat);
      if signature in seen {
        AddedCoversAll(defaults[1..], seen, printFloat);
      } else {
        var rest := Added(defaults[1..], seen + {signature}, printFloat);
        AddedCoversAll(defaults[1..], seen + {signature}, printFloat);
        assert added == [Map(defaults[0])] + rest;
        assert added[0] in added && signature in Signatures(added, printFloat);
        assert forall v | v in rest :: v in added;
      }
    }
  }

  /** What is added is new: no signature that was there before, and none twice. */
  lemma {:induction false} AddedAreNew(defaults: seq<Object>, seen: set<string>, printFloat: real -> string)
    ensures var added := Added(defaults, seen, printFloat);
            (forall v | v in added :: v.Map? && Signature(v.fields, printFloat) !in seen)
            && forall i, j | 0 <= i < j < |added| ::
                 added[i].Map? && added[j].Map?
                 && Signature(added[i].fields, printFloat) != Signature(added[j].fields, printFloat)
  {
    if defaults != [] {
      var signature := Signature(defaults[0], printFloat);
      if signature in seen {
        AddedAreNew(defaults[1..], seen, printFloat);
      } else {
        var rest := Added(defaults[1..], seen + {signature}, printFloat);
        AddedAreNew(defaults[1..], seen + {signature}, printFloat);
        var added := Added(defaults, seen, printFloat);
        assert added == [Map(defaults[0])] + rest;
        forall i, j | 0 <= i < j < |added|
          ensures added[i].Map? && added[j].Map?
                  && Signature(added[i].fields, printFloat) != Signature(added[j].fields, printFloat)
        {
          assert added[j] == rest[j - 1] && rest[j - 1] in rest;
        }
      }
    }
  }

  /** One installation: the existing rules come first and unchanged; behind them every default that no
      existing rule stands for, each signature once. */
  lemma {:induction false} InstallAddsWhatIsMissing(existing: seq<Val>, defaults: seq<Object>,
                                                    printFloat: real -> string)
    ensures var merged := Merged(existing, defaults, printFloat);
            existing <= merged
            && (forall rule | rule in defaults :: Signature(rule, printFloat) in Signatures(merged, printFloat))
            && (forall v | v in merged[|existing|..] ::
                  v.Map? && v.fields in defaults
                  && Signature(v.fields, printFloat) !in Signatures(existing, printFloat))
  {
    var seen := Signatures(existing, printFloat);
    var added, merged := Added(defaults, seen, printFloat), Merged(existing, defaults, printFloat);
    AddedCoversAll(defaults, seen, printFloat);
    AddedAreNew(defaults, seen, printFloat);
    assert merged[|existing|..] == added;
    assert seen <= Signatures(merged, printFloat) && Signatures(added, printFloat) <= Signatures(merged, printFloat);
  }

  lemma {:induction false} NothingAdded(defaults: seq<Object>, seen: set<string>, printFloat: real -> string)
    requires forall rule | rule in defaults :: Signature(rule, printFloat) in seen
    ensures Added(defaults, seen, printFloat) == []
  {
    if defaults != [] {
      NothingAdded(defaults[1..], seen, printFloat);
    }
  }

  lemma RedecodedSignature(rules: seq<Val>, v: Val, printFloat: real -> string)
    requires v in rules && v.Map? && Signature(RedecodeFields(v.fields), printFloat) == Signature(v.fields, printFloat)
    ensures Signature(v.fields, printFloat) in Signatures(RedecodeAll(rules), printFloat)
  {
    var i :| 0 <= i < |rules| && rules[i] == v;
    assert RedecodeAll(rules)[i] == Map(RedecodeFields(v.fields));
    assert RedecodeAll(rules)[i] in RedecodeAll(rules);
  }

  /** After the merged rules were saved and read again, another installation adds nothing: existing rules
      stay what they are, and every default keeps its signature. */
  lemma {:induction false} SecondInstallAddsNothing(existing: seq<Val>, outbounds: set<string>, ruleSets: set<string>,
                                                    printFloat: real -> string)
    requires forall v | v in existing :: Decoded(v)
    ensures var defaults := DefaultRules(outbounds, ruleSets);
            var saved := RedecodeAll(Merged(existing, defaults, printFloat));
            Merged(saved, defaults, printFloat) == saved && existing <= saved
  {
    var defaults := DefaultRules(outbounds, ruleSets);
    var seen := Signatures(existing, printFloat);
    var merged := Merged(existing, defaults, printFloat);
    var saved := RedecodeAll(merged);
    AddedCoversAll(defaults, seen, printFloat);
    DefaultsStable(outbounds, ruleSets, printFloat);
    forall i | 0 <= i < |existing|
      ensures saved[i] == existing[i]
    {
      RedecodeDecoded(existing[i]);
    }
    SavedSignatures(existing, defaults, printFloat);
    NothingAdded(defaults, Signatures(saved, printFloat), printFloat);
  }

  lemma SavedSignatures(existing: seq<Val>, defaults: seq<Object>, printFloat: real -> string)
    requires forall v | v in existing :: Decoded(v)
    requires AllStable(defaults, printFloat)
    ensures forall rule | rule in defaults ::
      Signature(rule, printFloat) in Signatures(RedecodeAll(Merged(existing, defaults, printFloat)), printFloat)
  {
    var seen := Signatures(existing, printFloat);
    var added := Added(defaults, seen, printFloat);
    var merged := Merged(existing, defaults, printFloat);
    AddedCoversAll(defaults, seen, printFloat);
    forall rule | rule in defaults
      ensures Signature(rule, printFloat) in Signatures(RedecodeAll(merged), printFloat)
    {
      if Signature(rule, printFloat) in seen {
        var v :| v in existing && v.Map? && Signature(v.fields, printFloat) == Signature(rule, printFloat);
        RedecodeDecoded(v);
        assert Map(RedecodeFields(v.fields)) == Redecode(v);
        RedecodedSignature(merged, v, printFloat);
      } else {
        var v :| v in added && v.Map? && Signature(v.fields, printFloat) == Signature(rule, printFloat);
        SignatureStableIff(v.fields, printFloat);
        RedecodedSignature(merged, v, printFloat);
      }
    }
  }

  /** Rules after `n` rounds of installing the defaults, saving and reading. */
  function Reinstalled(rules: seq<Val>, defaults: seq<Object>, n: nat, printFloat: real -> string): seq<Val> {
    if n == 0 then rules else RedecodeAll(Merged(Reinstalled(rules, defaults, n - 1, printFloat), defaults, printFloat))
  }

  /** However often the defaults are installed and the configuration is saved and read in between: all
      rounds after the first change nothing. */
  lemma {:induction false} ReinstallingChangesNothing(existing: seq<Val>, outbounds: set<string>,
                                                      ruleSets: set<string>, n: nat, printFloat: real -> string)
    requires (forall v | v in existing :: Decoded(v)) && n > 0
    ensures var defaults := DefaultRules(outbounds, ruleSets);
            Reinstalled(existing, defaults, n, printFloat) == RedecodeAll(Merged(existing, defaults, printFloat))
  {
    if n > 1 {
      var defaults := DefaultRules(outbounds, ruleSets);
      var saved := RedecodeAll(Merged(existing, defaults, printFloat));
      ReinstallingChangesNothing(existing, outbounds, ruleSets, n - 1, printFloat);
      SecondInstallAddsNothing(existing, outbounds, ruleSets, printFloat);
      RedecodedAllDecoded(Merged(existing, defaults, printFloat));
      RedecodeAllDecoded(saved);
    }
  }

  // ---- Which defaults are installed ----

  /** The first default that has the signature. */
  function FirstWith(defaults: seq<Object>, signature: string, printFloat: real -> string): Option<Object> {
    if defaults == [] then None
    else if Signature(defaults[0], printFloat) == signature then Some(defaults[0])
    else FirstWith(defaults[1..], signature, printFloat)
  }

  lemma {:induction false} AddedIff(defaults: seq<Object>, seen: set<string>, rule: Object, printFloat: real -> string)
    ensures Map(rule) in Added(defaults, seen, printFloat) <==>
            Signature(rule, printFloat) !in seen
            && FirstWith(defaults, Signature(rule, printFloat), printFloat) == Some(rule)
  {
    if defaults != [] {
      var signature := Signature(defaults[0], printFloat);
      if signature in seen {
        AddedIff(defaults[1..], seen, rule, printFloat);
      } else {
        AddedIff(defaults[1..], seen + {signature}, rule, printFloat);
        assert Added(defaults, seen, printFloat) ==
               [Map(defaults[0])] + Added(defaults[1..], seen + {signature}, printFloat);
      }
    }
  }

  /** A default is among the merged rules exactly when it was there before, or no existing object and no
      earlier default has its signature. */
  lemma {:induction false} InstalledIff(existing: seq<Val>, defaults: seq<Object>, rule: Object,
                                        printFloat: real -> string)
    ensures Map(rule) in Merged(existing, defaults, printFloat) <==>
            Map(rule) in existing
            || (Signature(rule, printFloat) !in Signatures(existing, printFloat)
                && FirstWith(defaults, Signature(rule, printFloat), printFloat) == Some(rule))
  {
    AddedIff(defaults, Signatures(existing, printFloat), rule, printFloat);
  }

  /** The signature of a rule is empty if and only if there is nothing in it that a signature is made of. */
  lemma SignatureEmptyIff(rule: Object, printFloat: real -> string)
    ensures Signature(rule, printFloat) == "" <==>
            RuleSetCase(rule) && StringValue(At(rule, "outbound")) == ""
            && !BuiltList(At(rule, "rule_set")) && FirstString(At(rule, "rule_set")) == ""
  {}

  /** The signature of the sniff rule is empty, and every rule without network, protocol, private flag,
      rule set and outbound has that signature too: with any such rule the sniff rule is not installed. */
  lemma {:induction false} SniffInstalledIff(existing: seq<Val>, outbounds: set<string>, ruleSets: set<string>,
                                             printFloat: real -> string)
    ensures Map(SNIFF) in Merged(existing, DefaultRules(outbounds, ruleSets), printFloat) <==>
            Map(SNIFF) in existing
            || forall v | v in existing && v.Map? :: Signature(v.fields, printFloat) != ""
  {
    var defaults := DefaultRules(outbounds, ruleSets);
    assert Signature(SNIFF, printFloat) == "" && defaults[0] == SNIFF;
    InstalledIff(existing, defaults, SNIFF, printFloat);
  }

  /** One user rule is enough: a reject rule for a domain keeps the sniff rule out. */
  lemma DomainRuleHidesSniff(outbounds: set<string>, ruleSets: set<string>, printFloat: real -> string)
    ensures var rule := Map(map["domain_suffix" := List([Str("ads.example")]), "action" := Str("reject")]);
            Decoded(rule) && Map(SNIFF) !in Merged([rule], DefaultRules(outbounds, ruleSets), printFloat)
  {
    var rule := Map(map["domain_suffix" := List([Str("ads.example")]), "action" := Str("reject")]);
    assert rule in [rule] && Signature(rule.fields, printFloat) == "";
    assert rule.fields["action"] != SNIFF["action"];
    SniffInstalledIff([rule], outbounds, ruleSets, printFloat);
  }
}

/** The default route rules one by one: when each is offered, what is in it, and what marks it as installed. */
module RouteDefaultRules {
  import opened Wrappers
  import opened GoValue
  import opened Decimal
  import opened RouteDefaults

  function When(condition: bool, rule: Object): seq<Object> {
    if condition then [rule] else []
  }

  function ForSet(tag: string, outbound: string): Object {
    map["rule_set" := Strings([tag]), "outbound" := Str(outbound)]
  }

  // ---- What is offered ----

  /** The outbound for direct traffic: "bypass" if it is configured. */
  function DirectTag(outbounds: set<string>): string {
    if "bypass" in outbounds then "bypass" else "direct"
  }

  /** Offered whatever is configured. */
  predicate IsAlways(rule: Object) {
    rule == map["action" := Str("sniff")] || rule == map["protocol" := Str("dns"), "action" := Str("hijack-dns")]
  }

  /** Private addresses and pings go out directly. */
  predicate IsPrivate(rule: Object, outbounds: set<string>, direct: string) {
    && direct in outbounds
    && (rule == map["ip_is_private" := Bool(true), "outbound" := Str(direct)]
        || rule == map["network" := Str("icmp"), "outbound" := Str(direct)])
  }

  predicate IsQuic(rule: Object, outbounds: set<string>) {
    "block" in outbounds && rule == map["network" := Str("udp"), "port" := Int(443), "action" := Str("reject")]
  }

  /** The rule is for a configured rule set; the second one counts just when the first is not configured. */
  predicate IsForSet(rule: Object, ruleSets: set<string>, first: string, second: string, outbound: string) {
    || (first in ruleSets && rule == map["rule_set" := Strings([first]), "outbound" := Str(outbound)])
    || (first !in ruleSets && second in ruleSets
        && rule == map["rule_set" := Strings([second]), "outbound" := Str(outbound)])
  }

  lemma PreferredIff(rule: Object, ruleSets: set<string>, first: string, second: string, outbound: string)
    ensures rule in Preferred(ruleSets, first, second, outbound) <==>
            IsForSet(rule, ruleSets, first, second, outbound)
  {}

  lemma PrivateIff(rule: Object, outbounds: set<string>, direct: string)
    ensures rule in AlwaysRules() + PrivateRules(outbounds, direct) <==>
            IsAlways(rule) || IsPrivate(rule, outbounds, direct)
  {}

  lemma BlockIff(rule: Object, outbounds: set<string>, ruleSets: set<string>)
    ensures rule in BlockRules(outbounds, ruleSets) <==>
            IsQuic(rule, outbounds)
            || ("block" in outbounds
                && IsForSet(rule, ruleSets, "loyalsoldier-reject", "geosite-category-ads-all", "block"))
  {
    PreferredIff(rule, ruleSets, "loyalsoldier-reject", "geosite-category-ads-all", "block");
  }

  lemma DomesticIff(rule: Object, outbounds: set<string>, ruleSets: set<string>, direct: string)
    ensures rule in DomesticRules(outbounds, ruleSets, direct) <==>
            direct in outbounds
            && (IsForSet(rule, ruleSets, "loyalsoldier-direct", "geosite-cn", direct)
                || ("geoip-cn" in ruleSets
                    && rule == map["rule_set" := Strings(["geoip-cn"]), "outbound" := Str(direct)]))
  {
    PreferredIff(rule, ruleSets, "loyalsoldier-direct", "geosite-cn", direct);
  }

  lemma ProxyIff(rule: Object, outbounds: set<string>, ruleSets: set<string>)
    ensures rule in ProxyRules(outbounds, ruleSets) <==>
            "proxy" in outbounds
            && IsForSet(rule, ruleSets, "loyalsoldier-proxy", "geosite-google-play", "proxy")
  {
    PreferredIff(rule, ruleSets, "loyalsoldier-proxy", "geosite-google-play", "proxy");
  }

  lemma InFive(rule: Object, a: seq<Object>, b: seq<Object>, c: seq<Object>, d: seq<Object>)
    ensures rule in a + b + c + d <==> rule in a || rule in b || rule in c || rule in d
  {}

  /** A rule is a default exactly when it is one of these and what it names is configured. */
  lemma {:induction false} DefaultIff(outbounds: set<string>, ruleSets: set<string>, rule: Object)
    ensures var direct := if "bypass" in outbounds then "bypass" else "direct";
            rule in DefaultRules(outbounds, ruleSets) <==>
            || IsAlways(rule) || IsPrivate(rule, outbounds, direct) || IsQuic(rule, outbounds)
            || ("block" in outbounds
                && IsForSet(rule, ruleSets, "loyalsoldier-reject", "geosite-category-ads-all", "block"))
            || (direct in outbounds
                && (IsForSet(rule, ruleSets, "loyalsoldier-direct", "geosite-cn", direct)
                    || ("geoip-cn" in ruleSets
                        && rule == map["rule_set" := Strings(["geoip-cn"]), "outbound" := Str(direct)])))
            || ("proxy" in outbounds
                && IsForSet(rule, ruleSets, "loyalsoldier-proxy", "geosite-google-play", "proxy"))
  {
    var direct := DirectTag(outbounds);
    PrivateIff(rule, outbounds, direct);
    BlockIff(rule, outbounds, ruleSets);
    DomesticIff(rule, outbounds, ruleSets, direct);
    ProxyIff(rule, outbounds, ruleSets);
    InFive(rule, AlwaysRules() + PrivateRules(outbounds, direct), BlockRules(outbounds, ruleSets),
           DomesticRules(outbounds, ruleSets, direct), ProxyRules(outbounds, ruleSets));
  }

  /** The tag is configured, or nothing is named. */
  predicate NamesConfigured(rule: Object, outbounds: set<string>, ruleSets: set<string>) {
    && ("outbound" in rule ==> rule["outbound"].Str? && rule["outbound"].s in outbounds)
    && ("rule_set" in rule ==>
          rule["rule_set"].Strings? && |rule["rule_set"].strings| == 1 && rule["rule_set"].strings[0] in ruleSets)
  }

  lemma SetIsConfigured(rule: Object, outbounds: set<string>, ruleSets: set<string>, first: string, second: string,
                        outbound: string)
    requires IsForSet(rule, ruleSets, first, second, outbound) && outbound in outbounds
    ensures NamesConfigured(rule, outbounds, ruleSets) && "outbound" in rule
  {}

  /** A default rule names only configured outbounds and rule sets, and every one rejects, sniffs, hijacks or sends
      somewhere. */
  lemma DefaultsNameConfigured(outbounds: set<string>, ruleSets: set<string>, rule: Object)
    requires rule in DefaultRules(outbounds, ruleSets)
    ensures NamesConfigured(rule, outbounds, ruleSets) && ("outbound" in rule || "action" in rule)
  {
    var direct := DirectTag(outbounds);
    DefaultIff(outbounds, ruleSets, rule);
    if IsForSet(rule, ruleSets, "loyalsoldier-reject", "geosite-category-ads-all", "block") && "block" in outbounds {
      SetIsConfigured(rule, outbounds, ruleSets, "loyalsoldier-reject", "geosite-category-ads-all", "block");
    } else if IsForSet(rule, ruleSets, "loyalsoldier-direct", "geosite-cn", direct) && direct in outbounds {
      SetIsConfigured(rule, outbounds, ruleSets, "loyalsoldier-direct", "geosite-cn", direct);
    } else if IsForSet(rule, ruleSets, "loyalsoldier-proxy", "geosite-google-play", "proxy") && "proxy" in outbounds {
      SetIsConfigured(rule, outbounds, ruleSets, "loyalsoldier-proxy", "geosite-google-play", "proxy");
    }
  }

  // ---- Signatures ----

  /** What marks each default rule as installed. */
  lemma SetSignature(tag: string, outbound: string, printFloat: real -> string)
    requires tag != ""
    ensures Signature(ForSet(tag, outbound), printFloat) == "rule_set:" + tag + "->" + outbound
  {}

  lemma ActionSignatures(printFloat: real -> string)
    ensures Signature(map["action" := Str("sniff")], printFloat) == ""
    ensures Signature(map["protocol" := Str("dns"), "action" := Str("hijack-dns")], printFloat)
            == "protocol:dns->->hijack-dns"
  {
    assert "protocol:" + "dns" + "->" + "" + "->" + "hijack-dns" == "protocol:dns->->hijack-dns";
  }

  lemma DirectSignatures(direct: string, printFloat: real -> string)
    ensures Signature(map["ip_is_private" := Bool(true), "outbound" := Str(direct)], printFloat)
            == "ip_is_private->" + direct
    ensures Signature(map["network" := Str("icmp"), "outbound" := Str(direct)], printFloat)
            == "network:icmp->->->" + direct
  {
    assert "network:" + "icmp" + "->" + "" + "->" + "" + "->" == "network:icmp->->->";
  }

  lemma QuicSignature(printFloat: real -> string)
    ensures Signature(map["network" := Str("udp"), "port" := Int(443), "action" := Str("reject")], printFloat)
            == "network:udp->443->reject->"
  {
    assert Digits(443) == Digits(44) + "3" && Digits(44) == Digits(4) + "4";
    assert Digits(443) == "443";
    assert "network:" + "udp" + "->" + "443" + "->" + "reject" + "->" + "" == "network:udp->443->reject->";
  }

  /** A rule out of a configuration file: what it is recognised by, case by case. The port may be a text or a
      number. */
  lemma {:induction false} DecodedSignature(rule: Object, printFloat: real -> string)
    requires Decoded(Map(rule))
    ensures var port := match At(rule, "port") {
                          case Some(Str(s)) => s
                          case Some(Float(f)) => FormatFloat(f, printFloat)
                          case _ => ""
                        };
            var action := if "action" in rule && rule["action"].Str? then rule["action"].s else "";
            var outbound := if "outbound" in rule && rule["outbound"].Str? then rule["outbound"].s else "";
            && (forall network | Named(rule, "network", network) ::
                  Signature(rule, printFloat) == "network:" + network + "->" + port + "->" + action + "->" + outbound)
            && (Unnamed(rule, "network") ==>
                  && (forall protocol | "protocol" in rule && rule["protocol"] == Str(protocol) && protocol != "" ::
                        Signature(rule, printFloat) == "protocol:" + protocol + "->" + outbound + "->" + action)
                  && ("protocol" !in rule && At(rule, "ip_is_private") == Some(Bool(true)) ==>
                        Signature(rule, printFloat) == "ip_is_private->" + outbound)
                  && ("protocol" !in rule && "ip_is_private" !in rule ==>
                        && (forall tag | FirstIs(rule, "rule_set", tag) ::
                              Signature(rule, printFloat) == "rule_set:" + tag + "->" + outbound)
                        && ("rule_set" !in rule ==> Signature(rule, printFloat) == outbound)))
  {}

  /** The key holds a list that starts with this text. */
  predicate FirstIs(rule: Object, key: string, text: string) {
    text != "" && key in rule && rule[key].List? && rule[key].items != [] && rule[key].items[0] == Str(text)
  }

  /** The key holds this text, or a list that starts with it. */
  predicate Named(rule: Object, key: string, text: string) {
    text != "" && key in rule && (rule[key] == Str(text) || FirstIs(rule, key, text))
  }

  predicate Unnamed(rule: Object, key: string) {
    key !in rule || rule[key] == Str("") || rule[key] == List([])
  }

  // ---- Nothing hides another default ----

  /** Different defaults get different numbers, told by few characters of their signatures. */
  function Place(s: string): nat {
    if s == "" then 0
    else if s[0] == 'p' then 1
    else if s[0] == 'i' then 2
    else if s[0] == 'n' then if |s| > 8 && s[8] == 'i' then 3 else 4
    else if s[|s| - 1] == 'k' then 5
    else if s[|s| - 1] == 'y' then 8
    else if |s| > 12 && s[12] == 'i' then 7 else 6
  }

  /** The places of the rules grow, from `low` on and below `high`. */
  ghost predicate Growing(rules: seq<Object>, low: nat, high: nat, printFloat: real -> string) {
    && (forall i | 0 <= i < |rules| :: low <= Place(Signature(rules[i], printFloat)) < high)
    && (forall i, j | 0 <= i < j < |rules| ::
          Place(Signature(rules[i], printFloat)) < Place(Signature(rules[j], printFloat)))
  }

  lemma GrowingConcat(a: seq<Object>, b: seq<Object>, low: nat, middle: nat, high: nat, printFloat: real -> string)
    requires Growing(a, low, middle, printFloat) && Growing(b, middle, high, printFloat) && low <= middle <= high
    ensures Growing(a + b, low, high, printFloat)
  {}

  lemma GrowingOne(condition: bool, rule: Object, place: nat, printFloat: real -> string)
    requires Place(Signature(rule, printFloat)) == place
    ensures Growing(When(condition, rule), place, place + 1, printFloat)
  {}

  lemma SetPlace(tag: string, outbound: string, printFloat: real -> string)
    requires |tag| > 3 && outbound != ""
    ensures var place := Place(Signature(ForSet(tag, outbound), printFloat));
            && (outbound[|outbound| - 1] == 'k' ==> place == 5)
            && (outbound[|outbound| - 1] == 'y' ==> place == 8)
            && (outbound[|outbound| - 1] != 'k' && outbound[|outbound| - 1] != 'y' ==>
                  place == if tag[3] == 'i' then 7 else 6)
  {
    SetSignature(tag, outbound, printFloat);
    var s := "rule_set:" + tag + "->" + outbound;
    assert s[0] == 'r' && s[12] == tag[3] && s[|s| - 1] == outbound[|outbound| - 1];
  }

  lemma ActionPlaces(printFloat: real -> string)
    ensures Place(Signature(map["action" := Str("sniff")], printFloat)) == 0
    ensures Place(Signature(map["protocol" := Str("dns"), "action" := Str("hijack-dns")], printFloat)) == 1
  {
    ActionSignatures(printFloat);
  }

  lemma DirectPlaces(direct: string, printFloat: real -> string)
    ensures Place(Signature(map["ip_is_private" := Bool(true), "outbound" := Str(direct)], printFloat)) == 2
    ensures Place(Signature(map["network" := Str("icmp"), "outbound" := Str(direct)], printFloat)) == 3
  {
    DirectSignatures(direct, printFloat);
    var s, t := "ip_is_private->" + direct, "network:icmp->->->" + direct;
    assert s[0] == 'i' && t[0] == 'n' && t[8] == 'i';
  }

  lemma QuicPlace(printFloat: real -> string)
    ensures Place(Signature(map["network" := Str("udp"), "port" := Int(443), "action" := Str("reject")],
                            printFloat)) == 4
  {
    QuicSignature(printFloat);
    var s := "network:udp->443->reject->";
    assert s[0] == 'n' && s[8] == 'u';
  }

  lemma DefaultsGrow(outbounds: set<string>, ruleSets: set<string>, printFloat: real -> string)
    ensures Growing(DefaultRules(outbounds, ruleSets), 0, 9, printFloat)
  {
    var direct := DirectTag(outbounds);
    AlwaysGrow(printFloat);
    PrivateGrow(outbounds, direct, printFloat);
    BlockGrow(outbounds, ruleSets, printFloat);
    DomesticGrow(outbounds, ruleSets, direct, printFloat);
    ProxyGrow(outbounds, ruleSets, printFloat);
    var a, b := AlwaysRules(), PrivateRules(outbounds, direct);
    var c, d := BlockRules(outbounds, ruleSets), DomesticRules(outbounds, ruleSets, direct);
    GrowingConcat(a, b, 0, 2, 4, printFloat);
    GrowingConcat(a + b, c, 0, 4, 6, printFloat);
    GrowingConcat(a + b + c, d, 0, 6, 8, printFloat);
    GrowingConcat(a + b + c + d, ProxyRules(outbounds, ruleSets), 0, 8, 9, printFloat);
  }

  lemma AlwaysGrow(printFloat: real -> string)
    ensures Growing(AlwaysRules(), 0, 2, printFloat)
  {
    ActionPlaces(printFloat);
  }

  lemma PrivateGrow(outbounds: set<string>, direct: string, printFloat: real -> string)
    ensures Growing(PrivateRules(outbounds, direct), 2, 4, printFloat)
  {
    if direct in outbounds {
      var address: Object := map["ip_is_private" := Bool(true), "outbound" := Str(direct)];
      var ping: Object := map["network" := Str("icmp"), "outbound" := Str(direct)];
      DirectPlaces(direct, printFloat);
      GrowingOne(true, address, 2, printFloat);
      GrowingOne(true, ping, 3, printFloat);
      GrowingConcat([address], [ping], 2, 3, 4, printFloat);
      assert PrivateRules(outbounds, direct) == [address] + [ping];
    }
  }

  lemma PreferredGrow(ruleSets: set<string>, first: string, second: string, outbound: string, place: nat,
                      printFloat: real -> string)
    requires Place(Signature(ForSet(first, outbound), printFloat)) == place
    requires Place(Signature(ForSet(second, outbound), printFloat)) == place
    ensures Growing(Preferred(ruleSets, first, second, outbound), place, place + 1, printFloat)
  {}

  lemma BlockGrow(outbounds: set<string>, ruleSets: set<string>, printFloat: real -> string)
    ensures Growing(BlockRules(outbounds, ruleSets), 4, 6, printFloat)
  {
    var quic: Object := map["network" := Str("udp"), "port" := Int(443), "action" := Str("reject")];
    QuicPlace(printFloat);
    GrowingOne(true, quic, 4, printFloat);
    SetPlace("loyalsoldier-reject", "block", printFloat);
    SetPlace("geosite-category-ads-all", "block", printFloat);
    PreferredGrow(ruleSets, "loyalsoldier-reject", "geosite-category-ads-all", "block", 5, printFloat);
    GrowingConcat([quic], Preferred(ruleSets, "loyalsoldier-reject", "geosite-category-ads-all", "block"),
                  4, 5, 6, printFloat);
  }

  lemma DirectSetPlace(tag: string, direct: string, place: nat, printFloat: real -> string)
    requires (direct == "bypass" || direct == "direct") && |tag| > 3 && place == if tag[3] == 'i' then 7 else 6
    ensures Place(Signature(ForSet(tag, direct), printFloat)) == place
  {
    assert "bypass"[5] == 's' && "direct"[5] == 't';
    SetPlace(tag, direct, printFloat);
  }

  lemma DomesticGrow(outbounds: set<string>, ruleSets: set<string>, direct: string, printFloat: real -> string)
    requires direct == "bypass" || direct == "direct"
    ensures Growing(DomesticRules(outbounds, ruleSets, direct), 6, 8, printFloat)
  {
    DirectSetPlace("loyalsoldier-direct", direct, 6, printFloat);
    DirectSetPlace("geosite-cn", direct, 6, printFloat);
    DirectSetPlace("geoip-cn", direct, 7, printFloat);
    PreferredGrow(ruleSets, "loyalsoldier-direct", "geosite-cn", direct, 6, printFloat);
    GrowingOne("geoip-cn" in ruleSets, ForSet("geoip-cn", direct), 7, printFloat);
    GrowingConcat(Preferred(ruleSets, "loyalsoldier-direct", "geosite-cn", direct),
                  When("geoip-cn" in ruleSets, ForSet("geoip-cn", direct)), 6, 7, 8, printFloat);
  }

  lemma ProxyGrow(outbounds: set<string>, ruleSets: set<string>, printFloat: real -> string)
    ensures Growing(ProxyRules(outbounds, ruleSets), 8, 9, printFloat)
  {
    SetPlace("loyalsoldier-proxy", "proxy", printFloat);
    SetPlace("geosite-google-play", "proxy", printFloat);
    PreferredGrow(ruleSets, "loyalsoldier-proxy", "geosite-google-play", "proxy", 8, printFloat);
  }

  lemma {:induction false} DistinctAreAdded(defaults: seq<Object>, seen: set<string>, printFloat: real -> string)
    requires forall i, j | 0 <= i < j < |defaults| ::
               Signature(defaults[i], printFloat) != Signature(defaults[j], printFloat)
    requires forall i | 0 <= i < |defaults| :: Signature(defaults[i], printFloat) !in seen
    ensures var added := Added(defaults, seen, printFloat);
            |added| == |defaults| && forall i | 0 <= i < |defaults| :: added[i] == Map(defaults[i])
  {
    if defaults != [] {
      DistinctAreAdded(defaults[1..], seen + {Signature(defaults[0], printFloat)}, printFloat);
    }
  }

  /** Into a configuration without rules all defaults are installed, in their order: none hides another. */
  lemma {:induction false} AllInstalledInOrder(outbounds: set<string>, ruleSets: set<string>,
                                               printFloat: real -> string)
    ensures var defaults := DefaultRules(outbounds, ruleSets);
            var merged := Merged([], defaults, printFloat);
            |merged| == |defaults| && forall i | 0 <= i < |defaults| :: merged[i] == Map(defaults[i])
  {
    DefaultsGrow(outbounds, ruleSets, printFloat);
    DistinctAreAdded(DefaultRules(outbounds, ruleSets), {}, printFloat);
    assert Signatures([], printFloat) == {};
  }
}

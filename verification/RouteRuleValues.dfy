/** Names and descriptions of route rules, told by their characters, and who keeps them when rules are edited. */
module RouteRuleValues {
  import opened Wrappers
  import opened GoValue
  import opened Decimal
  import opened RuleMatching
  import opened RouteRuleMetadata

  // ---- What is stored ----

  /** White space by its code points. */
  predicate IsBlank(c: char) {
    var n := c as int;
    || n == 0x20 || n == 0x09 || n == 0x0A || n == 0x0B || n == 0x0C || n == 0x0D || n == 0x85 || n == 0xA0
    || n == 0x1680 || 0x2000 <= n <= 0x200A || n == 0x2028 || n == 0x2029 || n == 0x202F || n == 0x205F
    || n == 0x3000
  }

  predicate AllBlank(s: string) {
    forall i | 0 <= i < |s| :: IsBlank(s[i])
  }

  /** A text without a blank at either end. */
  predicate IsBare(s: string) {
    s != "" ==> !IsBlank(s[0]) && !IsBlank(s[|s| - 1])
  }

  lemma BlankIsSpace()
    ensures forall c :: IsBlank(c) <==> IsSpace(c)
  {}

  lemma {:induction false} LeftDrops(pre: string, s: string)
    requires AllBlank(pre)
    ensures TrimLeft(pre + s) == TrimLeft(s)
  {
    BlankIsSpace();
    if pre == "" {
      assert pre + s == s;
    } else {
      LeftDrops(pre[1..], s);
      assert (pre + s)[1..] == pre[1..] + s;
    }
  }

  lemma {:induction false} RightDrops(s: string, post: string)
    requires AllBlank(post)
    ensures TrimRight(s + post) == TrimRight(s)
  {
    BlankIsSpace();
    if post == "" {
      assert s + post == s;
    } else {
      var init := post[..|post| - 1];
      RightDrops(s, init);
      assert (s + post)[..|s + post| - 1] == s + init;
    }
  }

  /** Trimming drops the blanks around a text and no more. */
  lemma TrimPadded(pre: string, s: string, post: string)
    requires AllBlank(pre) && IsBare(s) && AllBlank(post)
    ensures TrimSpace(pre + s + post) == s
  {
    BlankIsSpace();
    assert pre + s + post == pre + (s + post);
    LeftDrops(pre, s + post);
    if s == "" {
      LeftDrops(post, "");
      assert s + post == post && post + "" == post;
    } else {
      RightDrops(s, post);
      assert (s + post)[0] == s[0];
    }
  }

  /** A text with blanks around it. */
  datatype Padded = Padded(pre: string, bare: string, post: string)

  predicate IsPadded(p: Padded) {
    AllBlank(p.pre) && IsBare(p.bare) && AllBlank(p.post)
  }

  function Text(p: Padded): string {
    p.pre + p.bare + p.post
  }

  /** A name of up to 100 and a description of up to 500 characters are accepted and stored without the blanks around
      them; a longer one is refused. Blanks around it do not count. */
  lemma {:induction false} StoredBare(name: Padded, description: Padded)
    requires IsPadded(name) && IsPadded(description)
    ensures Validated(Metadata(Text(name), Text(description))) ==
            if |name.bare| <= 100 && |description.bare| <= 500 then Ok(Metadata(name.bare, description.bare))
            else Err(Invalid)
  {
    TrimPadded(name.pre, name.bare, name.post);
    TrimPadded(description.pre, description.bare, description.post);
  }

  /** Every text is a bare one with blanks around it, so the last theorem speaks of all inputs. */
  lemma {:induction false} PaddedExists(s: string) returns (p: Padded)
    ensures IsPadded(p) && Text(p) == s
  {
    if AllBlank(s) {
      p := Padded(s, "", "");
      assert Text(p) == s;
    } else if IsBlank(s[0]) {
      assert !AllBlank(s[1..]) by {
        var i :| 0 <= i < |s| && !IsBlank(s[i]);
        assert s[1..][i - 1] == s[i];
      }
      var rest := PaddedExists(s[1..]);
      p := Padded([s[0]] + rest.pre, rest.bare, rest.post);
      assert Text(p) == [s[0]] + Text(rest) == s;
    } else if IsBlank(s[|s| - 1]) {
      var init := s[..|s| - 1];
      var rest := PaddedExists(init);
      p := Padded(rest.pre, rest.bare, rest.post + [s[|s| - 1]]);
      assert Text(p) == Text(rest) + [s[|s| - 1]] == s;
    } else {
      p := Padded("", s, "");
      assert Text(p) == s;
    }
  }

  // ---- Who keeps its metadata ----

  lemma {:induction false} CountElsewhere(s: seq<string>, i: nat, x: string, y: string)
    requires i < |s| && s[i] != y && x != y
    ensures Count(s[i := x], y) == Count(s, y)
  {
    var n := |s| - 1;
    if i < n {
      assert s[i := x][..n] == s[..n][i := x];
      CountElsewhere(s[..n], i, x, y);
    } else {
      assert s[i := x][..n] == s[..n];
    }
  }

  lemma RankElsewhere(s: seq<string>, i: nat, x: string, k: nat)
    requires i < |s| && k < |s| && k != i && s[k] != s[i] && s[k] != x
    ensures Rank(s[i := x], k) == Rank(s, k)
  {
    if i < k {
      assert s[i := x][..k] == s[..k][i := x];
      CountElsewhere(s[..k], i, x, s[k]);
    } else {
      assert s[i := x][..k] == s[..k];
    }
  }

  /** Editing one rule in place keeps all metadata where it is: the edited rule keeps its own by its position. Its old
      and its new text must be those of no other rule. */
  lemma {:induction false} EditInPlaceKeeps(saved: seq<string>, metadata: seq<Metadata>, i: nat, x: string, k: nat)
    requires |saved| == |metadata| && i < |saved| && k < |saved|
    requires x !in saved && forall j | 0 <= j < |saved| && j != i :: saved[j] != saved[i]
    ensures Listed(saved[i := x], Saved(saved, metadata))[k] ==
            Metadata(TrimSpace(metadata[k].name), TrimSpace(metadata[k].description))
  {
    var edited, stored := saved[i := x], Saved(saved, metadata);
    assert Keys(stored) == saved;
    if k != i {
      RankElsewhere(saved, i, x, k);
      assert Matches(edited, saved, k, k);
      ListAfterEdit(edited, saved, metadata, k, k);
    } else {
      InPlaceUnmatched(saved, i, x);
      assert Assigned(edited, saved, i, i);
      forall j: nat | j < |saved| && Assigned(edited, saved, i, j)
        ensures j == i
      {
        AssignmentInjective(edited, saved, i, i, i, j);
      }
      ListedUnique(edited, stored, i, Public(stored[i]));
    }
  }

  lemma InPlaceUnmatched(saved: seq<string>, i: nat, x: string)
    requires i < |saved| && x !in saved && forall j | 0 <= j < |saved| && j != i :: saved[j] != saved[i]
    ensures !RuleMatched(saved[i := x], saved, i) && !EntryMatched(saved[i := x], saved, i)
  {
    var edited := saved[i := x];
    forall j: nat | j < |saved|
      ensures !Matches(edited, saved, i, j)
    {
      assert saved[j] in saved;
    }
    forall j: nat | j < |saved|
      ensures !Matches(edited, saved, j, i)
    {
      assert edited[j] != saved[i];
    }
  }

  /** A new rule behind the saved ones has neither name nor description. */
  lemma {:induction false} NewRuleHasNone(saved: seq<string>, metadata: seq<Metadata>, x: string)
    requires |saved| == |metadata| && x !in saved
    ensures Listed(saved + [x], Saved(saved, metadata))[|saved|] == Metadata("", "")
  {
    var edited, stored := saved + [x], Saved(saved, metadata);
    assert Keys(stored) == saved;
    forall j: nat | j < |saved|
      ensures !Assigned(edited, saved, |saved|, j)
    {
      assert saved[j] in saved;
    }
    ListedUnique(edited, stored, |saved|, NO_METADATA);
  }

  /** Nor has a new rule in front of them; each saved rule keeps its own. */
  lemma {:induction false} InsertInFront(saved: seq<string>, metadata: seq<Metadata>, x: string, k: nat)
    requires |saved| == |metadata| && x !in saved && k < |saved|
    ensures var listed := Listed([x] + saved, Saved(saved, metadata));
            && listed[0] == Metadata("", "")
            && listed[k + 1] == Metadata(TrimSpace(metadata[k].name), TrimSpace(metadata[k].description))
  {
    var edited, stored := [x] + saved, Saved(saved, metadata);
    assert Keys(stored) == saved;
    FrontMatches(saved, x, k);
    ListAfterEdit(edited, saved, metadata, k + 1, k);
    forall j: nat | j < |saved|
      ensures !Assigned(edited, saved, 0, j)
    {
      assert saved[j] in saved;
      FrontMatches(saved, x, j);
      assert EntryMatched(edited, saved, j);
    }
    ListedUnique(edited, stored, 0, NO_METADATA);
  }

  lemma FrontMatches(saved: seq<string>, x: string, j: nat)
    requires j < |saved| && x !in saved
    ensures Matches([x] + saved, saved, j + 1, j)
  {
    assert ([x] + saved)[..j + 1] == [x] + saved[..j];
    assert saved[j] in saved;
    CountFront(x, saved[..j], saved[j]);
  }

  lemma {:induction false} CountFront(x: string, s: seq<string>, y: string)
    requires x != y
    ensures Count([x] + s, y) == Count(s, y)
  {
    if s == [] {
      assert [x] + s == [x] && [x][..0] == [];
    } else {
      assert ([x] + s)[..|s|] == [x] + s[..|s| - 1];
      CountFront(x, s[..|s| - 1], y);
    }
  }

  // ---- Default names ----

  /** The first rule set of a rule, as the program builds it or as JSON decoding gives it. */
  predicate IsForSet(rule: Object, tag: string) {
    "rule_set" in rule && (rule["rule_set"] == Strings([tag]) || rule["rule_set"] == List([Str(tag)]))
  }

  lemma SetNames(rule: Object, tag: string, printFloat: real -> string)
    requires IsForSet(rule, tag)
    requires "action" !in rule && "protocol" !in rule && "ip_is_private" !in rule && "network" !in rule
    ensures var name := DefaultName(rule, printFloat);
            && (tag == "loyalsoldier-reject" || tag == "geosite-category-ads-all" ==> name == "广告流量拦截")
            && (tag == "loyalsoldier-direct" || tag == "geosite-cn" ==> name == "中国域名直连")
            && (tag == "geoip-cn" ==> name == "中国 IP 直连")
            && (tag == "loyalsoldier-proxy" ==> name == "代理列表流量走代理")
            && (tag == "geosite-google-play" ==> name == "Google Play 流量走代理")
  {}

  /** The default rules that are for no rule set have these names, whether the program made them or they were read from
      the configuration. */
  lemma FixedNames(direct: string, printFloat: real -> string)
    ensures DefaultName(map["action" := Str("sniff")], printFloat) == "协议嗅探"
    ensures DefaultName(map["protocol" := Str("dns"), "action" := Str("hijack-dns")], printFloat) == "DNS 请求劫持"
    ensures DefaultName(map["ip_is_private" := Bool(true), "outbound" := Str(direct)], printFloat) == "私有地址直连"
    ensures DefaultName(map["network" := Str("icmp"), "outbound" := Str(direct)], printFloat) == "ICMP 流量直连"
    ensures DefaultName(map["network" := Str("udp"), "port" := Int(443), "action" := Str("reject")], printFloat)
            == "QUIC 流量拦截"
    ensures DefaultName(map["network" := Str("udp"), "port" := Float(443.0), "action" := Str("reject")], printFloat)
            == "QUIC 流量拦截"
  {
    assert Digits(443) == Digits(44) + "3" && Digits(44) == Digits(4) + "4";
    assert Itoa(443) == "443";
    assert (443.0).Floor == 443;
  }

  /** Any other rule has no default name: one that does nothing of the above. */
  lemma OtherwiseUnnamed(rule: Object, printFloat: real -> string)
    requires "action" in rule ==> rule["action"] != Str("sniff") && rule["action"] != Str("hijack-dns")
    requires "ip_is_private" !in rule && "network" !in rule && "rule_set" !in rule
    ensures DefaultName(rule, printFloat) == ""
  {}
}

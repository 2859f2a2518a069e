/** Names and descriptions of route rules, stored beside the rules and matched to them by fingerprint. */
module RuleMatching {
  import opened Wrappers

  function Count(s: seq<string>, x: string): nat {
    if s == [] then 0 else Count(s[..|s| - 1], x) + if s[|s| - 1] == x then 1 else 0
  }

  /** How many earlier positions hold the same fingerprint. */
  function Rank(s: seq<string>, i: nat): nat
    requires i < |s|
  {
    Count(s[..i], s[i])
  }

  /** Rule `i` and entry `j` match: both are the k-th occurrence of one fingerprint. */
  predicate Matches(rules: seq<string>, stored: seq<string>, i: nat, j: nat)
    requires i < |rules| && j < |stored|
  {
    rules[i] == stored[j] && Rank(rules, i) == Rank(stored, j)
  }

  ghost predicate RuleMatched(rules: seq<string>, stored: seq<string>, i: nat)
    requires i < |rules|
  {
    exists j: nat :: j < |stored| && Matches(rules, stored, i, j)
  }

  ghost predicate EntryMatched(rules: seq<string>, stored: seq<string>, j: nat)
    requires j < |stored|
  {
    exists i: nat :: i < |rules| && Matches(rules, stored, i, j)
  }

  /** Entry `j` is assigned to rule `i`: they match, or both stand unmatched at the same position. */
  ghost predicate Assigned(rules: seq<string>, stored: seq<string>, i: nat, j: nat)
    requires i < |rules| && j < |stored|
  {
    Matches(rules, stored, i, j)
    || (i == j && !RuleMatched(rules, stored, i) && !EntryMatched(rules, stored, j))
  }

  lemma CountStep(s: seq<string>, i: nat, x: string)
    requires i < |s|
    ensures Count(s[..i + 1], x) == Count(s[..i], x) + if s[i] == x then 1 else 0
  {
    assert s[..i + 1][..i] == s[..i];
  }

  lemma {:induction false} CountMonotone(s: seq<string>, i: nat, j: nat, x: string)
    requires i <= j <= |s|
    ensures Count(s[..i], x) <= Count(s[..j], x)
    decreases j
  {
    if i < j {
      CountStep(s, j - 1, x);
      CountMonotone(s, i, j - 1, x);
    }
  }

  /** Equal fingerprints at different positions have different ranks. */
  lemma RankInjective(s: seq<string>, i: nat, j: nat)
    requires i < |s| && j < |s| && s[i] == s[j] && Rank(s, i) == Rank(s, j)
    ensures i == j
  {
    if i != j {
      var a, b := if i < j then i else j, if i < j then j else i;
      CountStep(s, a, s[i]);
      CountMonotone(s, a + 1, b, s[i]);
    }
  }

  /** Every rank below the number of occurrences is taken. */
  lemma {:induction false} RankSurjective(s: seq<string>, x: string, k: nat) returns (i: nat)
    requires k < Count(s, x)
    ensures i < |s| && s[i] == x && Rank(s, i) == k
  {
    var last := |s| - 1;
    if s[last] == x && Count(s[..last], x) == k {
      i := last;
    } else {
      i := RankSurjective(s[..last], x, k);
      assert s[..last][..i] == s[..i];
    }
  }

  lemma RankBelowCount(s: seq<string>, i: nat)
    requires i < |s|
    ensures Rank(s, i) < Count(s, s[i])
  {
    CountStep(s, i, s[i]);
    CountMonotone(s, i + 1, |s|, s[i]);
    assert s[..|s|] == s;
  }

  /** A rule is matched exactly when fewer earlier rules share its fingerprint than entries are stored
      for it. */
  lemma {:induction false} MatchedIff(rules: seq<string>, stored: seq<string>, i: nat)
    requires i < |rules|
    ensures RuleMatched(rules, stored, i) <==> Rank(rules, i) < Count(stored, rules[i])
  {
    if Rank(rules, i) < Count(stored, rules[i]) {
      var j := RankSurjective(stored, rules[i], Rank(rules, i));
      assert Matches(rules, stored, i, j);
    } else if RuleMatched(rules, stored, i) {
      var j: nat :| j < |stored| && Matches(rules, stored, i, j);
      RankBelowCount(stored, j);
    }
  }

  /** No entry goes to two rules, and no rule gets two entries. */
  lemma AssignmentInjective(rules: seq<string>, stored: seq<string>, i: nat, j: nat, i': nat, j': nat)
    requires i < |rules| && j < |stored| && i' < |rules| && j' < |stored|
    requires Assigned(rules, stored, i, j) && Assigned(rules, stored, i', j')
    ensures i == i' <==> j == j'
  {
    if Matches(rules, stored, i, j) && Matches(rules, stored, i', j') {
      if i == i' {
        RankInjective(stored, j, j');
      }
      if j == j' {
        RankInjective(rules, i, i');
      }
    }
  }

  /** How many of the first `n` rules carry the fingerprint and are matched. */
  ghost function MatchedCount(rules: seq<string>, stored: seq<string>, x: string, n: nat): nat
    requires n <= |rules|
  {
    if n == 0 then 0
    else MatchedCount(rules, stored, x, n - 1)
         + if rules[n - 1] == x && RuleMatched(rules, stored, n - 1) then 1 else 0
  }

  lemma {:induction false} MatchedCountIs(rules: seq<string>, stored: seq<string>, x: string, n: nat)
    requires n <= |rules|
    ensures var c := Count(rules[..n], x);
            MatchedCount(rules, stored, x, n) == if c <= Count(stored, x) then c else Count(stored, x)
  {
    if n > 0 {
      MatchedCountIs(rules, stored, x, n - 1);
      CountStep(rules, n - 1, x);
      MatchedIff(rules, stored, n - 1);
    }
  }

  /** Matching is maximal: a fingerprint is matched as often as both sides have it. */
  lemma MatchingMaximal(rules: seq<string>, stored: seq<string>, x: string)
    ensures MatchedCount(rules, stored, x, |rules|) ==
            if Count(rules, x) <= Count(stored, x) then Count(rules, x) else Count(stored, x)
  {
    MatchedCountIs(rules, stored, x, |rules|);
    assert rules[..|rules|] == rules;
  }

  lemma {:induction false} FirstRank(s: seq<string>, i: nat)
    requires i < |s|
    ensures Rank(s, i) == 0 <==> forall k | 0 <= k < i :: s[k] != s[i]
  {
    if Rank(s, i) > 0 {
      var k := RankSurjective(s[..i], s[i], 0);
    } else {
      forall k | 0 <= k < i
        ensures s[k] != s[i]
      {
        CountStep(s, k, s[i]);
        CountMonotone(s, k + 1, i, s[i]);
      }
    }
  }

  /** With distinct stored fingerprints an entry goes to the first rule of its fingerprint, and to no other,
      however the list was reordered, thinned out or extended, copies of saved rules included. */
  lemma ReorderCarriesMetadata(rules: seq<string>, stored: seq<string>, i: nat, j: nat)
    requires Distinct(stored)
    requires i < |rules| && j < |stored| && rules[i] == stored[j]
    ensures Matches(rules, stored, i, j) <==> forall k | 0 <= k < i :: rules[k] != rules[i]
  {
    FirstRank(rules, i);
    FirstRank(stored, j);
  }
}

/** `RouteRuleMetadataManager`. A rule's fingerprint (SHA-256 of its JSON text) is a parameter. */
module RouteRuleMetadata {
  import opened Wrappers
  import opened GoValue
  import opened RuleMatching

  datatype Metadata = Metadata(name: string, description: string)

  datatype Entry = Entry(fingerprint: string, name: string, description: string)

  datatype Error = Invalid | Database

  const MAX_NAME := 100
  const MAX_DESCRIPTION := 500

  const NO_METADATA := Metadata("", "")

  function Public(entry: Entry): Metadata {
    Metadata(entry.name, entry.description)
  }

  function Fingerprints(rules: seq<Val>, fp: Val -> string): (s: seq<string>)
    ensures |s| == |rules| && forall i | 0 <= i < |rules| :: s[i] == fp(rules[i])
  {
    seq(|rules|, i requires 0 <= i < |rules| => fp(rules[i]))
  }

  function Keys(stored: seq<Entry>): (s: seq<string>)
    ensures |s| == |stored| && forall j | 0 <= j < |stored| :: s[j] == stored[j].fingerprint
  {
    seq(|stored|, j requires 0 <= j < |stored| => stored[j].fingerprint)
  }

  /** The metadata of a rule: that of the entry assigned to it, or none. */
  ghost predicate ListedAt(rules: seq<string>, stored: seq<Entry>, i: nat, m: Metadata)
    requires i < |rules|
  {
    (forall j: nat | j < |stored| && Assigned(rules, Keys(stored), i, j) :: m == Public(stored[j]))
    && ((forall j: nat | j < |stored| :: !Assigned(rules, Keys(stored), i, j)) ==> m == NO_METADATA)
  }

  ghost function ListedFor(rules: seq<string>, stored: seq<Entry>, i: nat): Metadata
    requires i < |rules|
  {
    if j: nat :| j < |stored| && Assigned(rules, Keys(stored), i, j) then Public(stored[j]) else NO_METADATA
  }

  /** What listing rules with these fingerprints gives, entry by entry. */
  ghost function Listed(rules: seq<string>, stored: seq<Entry>): (r: seq<Metadata>)
    ensures |r| == |rules| && forall i | 0 <= i < |rules| :: r[i] == ListedFor(rules, stored, i)
  {
    seq(|rules|, i requires 0 <= i < |rules| => ListedFor(rules, stored, i))
  }

  lemma ListedUnique(rules: seq<string>, stored: seq<Entry>, i: nat, m: Metadata)
    requires i < |rules|
    ensures ListedAt(rules, stored, i, m) <==> m == ListedFor(rules, stored, i)
  {
    var keys := Keys(stored);
    forall j: nat, k: nat | j < |keys| && k < |keys| && Assigned(rules, keys, i, j) && Assigned(rules, keys, i, k)
      ensures j == k
    {
      AssignmentInjective(rules, keys, i, j, i, k);
    }
  }

  /** Position `j` of `stored` was used up by the first `n` rules. */
  ghost predicate UsedBy(rules: seq<string>, stored: seq<string>, j: nat, n: nat)
    requires j < |stored| && n <= |rules|
  {
    Rank(stored, j) < Count(rules[..n], stored[j])
  }

  lemma UsedStep(rules: seq<string>, stored: seq<string>, j: nat, n: nat)
    requires j < |stored| && n < |rules|
    ensures UsedBy(rules, stored, j, n + 1) <==> UsedBy(rules, stored, j, n) || Matches(rules, stored, n, j)
  {
    CountStep(rules, n, stored[j]);
  }

  lemma UsedIsMatched(rules: seq<string>, stored: seq<string>, j: nat)
    requires j < |stored|
    ensures UsedBy(rules, stored, j, |rules|) <==> EntryMatched(rules, stored, j)
  {
    assert rules[..|rules|] == rules;
    if UsedBy(rules, stored, j, |rules|) {
      var i := RankSurjective(rules, stored[j], Rank(stored, j));
      assert Matches(rules, stored, i, j);
    } else if EntryMatched(rules, stored, j) {
      var i: nat :| i < |rules| && Matches(rules, stored, i, j);
      RankBelowCount(rules, i);
    }
  }

  lemma RankPrefix(s: seq<string>, j: nat, x: string, c: nat)
    requires j <= |s| && c < Count(s[..j], x)
    ensures exists k: nat :: k < j && s[k] == x && Rank(s, k) == c
  {
    var k := RankSurjective(s[..j], x, c);
    assert s[..j][..k] == s[..k];
  }

  /** The first unused entry of the rule's fingerprint is the one of the same rank. */
  lemma FirstUnusedMatches(rules: seq<string>, stored: seq<string>, n: nat, j: nat)
    requires n < |rules| && j < |stored| && stored[j] == rules[n]
    requires !UsedBy(rules, stored, j, n)
    requires forall k: nat | k < j && stored[k] == rules[n] :: UsedBy(rules, stored, k, n)
    ensures Matches(rules, stored, n, j)
  {
    var c := Count(rules[..n], rules[n]);
    if Rank(stored, j) > c {
      RankPrefix(stored, j, rules[n], c);
    }
  }

  /** The scan for the first unused entry with a fingerprint; `|stored|` when there is none. */
  method FindUnused(stored: seq<Entry>, used: seq<bool>, fingerprint: string) returns (k: nat)
    requires |used| == |stored|
    ensures k <= |stored|
    ensures k < |stored| ==> !used[k] && stored[k].fingerprint == fingerprint
    ensures forall j: nat | j < k && stored[j].fingerprint == fingerprint :: used[j]
  {
    k := 0;
    while k < |stored|
      invariant k <= |stored|
      invariant forall j: nat | j < k && stored[j].fingerprint == fingerprint :: used[j]
    {
      if !used[k] && stored[k].fingerprint == fingerprint {
        break;
      }
      k := k + 1;
    }
  }

  /** The state of the first loop after `n` rules. */
  ghost predicate FirstPass(fps: seq<string>, stored: seq<Entry>, n: nat,
                            result: seq<Metadata>, matched: seq<bool>, used: seq<bool>)
  {
    && n <= |fps| && |result| == |matched| == |fps| && |used| == |stored|
    && (forall j: nat | j < |stored| :: used[j] <==> UsedBy(fps, Keys(stored), j, n))
    && (forall i: nat | i < n :: matched[i] <==> RuleMatched(fps, Keys(stored), i))
    && (forall i: nat | n <= i < |fps| :: !matched[i])
    && (forall i: nat, j: nat | i < n && j < |stored| && Matches(fps, Keys(stored), i, j) ::
          result[i] == Public(stored[j]))
    && (forall i: nat | i < |fps| && !matched[i] :: result[i] == NO_METADATA)
  }

  lemma FirstPassMatch(fps: seq<string>, stored: seq<Entry>, n: nat, k: nat,
                       result: seq<Metadata>, matched: seq<bool>, used: seq<bool>)
    requires FirstPass(fps, stored, n, result, matched, used) && n < |fps|
    requires k < |stored| && !used[k] && stored[k].fingerprint == fps[n]
    requires forall j: nat | j < k && stored[j].fingerprint == fps[n] :: used[j]
    ensures FirstPass(fps, stored, n + 1, result[n := Public(stored[k])], matched[n := true], used[k := true])
  {
    var keys := Keys(stored);
    var result', matched', used' := result[n := Public(stored[k])], matched[n := true], used[k := true];
    forall j: nat | j < k && keys[j] == fps[n]
      ensures UsedBy(fps, keys, j, n)
    {
      assert stored[j].fingerprint == fps[n];
    }
    FirstUnusedMatches(fps, keys, n, k);
    assert RuleMatched(fps, keys, n);
    forall j: nat | j < |stored|
      ensures Matches(fps, keys, n, j) ==> j == k
      ensures used'[j] <==> UsedBy(fps, keys, j, n + 1)
    {
      UsedStep(fps, keys, j, n);
      if Matches(fps, keys, n, j) {
        RankInjective(keys, j, k);
      }
    }
    forall i: nat, j: nat | i < n + 1 && j < |stored| && Matches(fps, keys, i, j)
      ensures result'[i] == Public(stored[j])
    {}
  }

  lemma FirstPassMiss(fps: seq<string>, stored: seq<Entry>, n: nat,
                      result: seq<Metadata>, matched: seq<bool>, used: seq<bool>)
    requires FirstPass(fps, stored, n, result, matched, used) && n < |fps|
    requires forall j: nat | j < |stored| && stored[j].fingerprint == fps[n] :: used[j]
    ensures FirstPass(fps, stored, n + 1, result, matched, used)
  {
    var keys := Keys(stored);
    forall j: nat | j < |stored|
      ensures !Matches(fps, keys, n, j)
      ensures used[j] <==> UsedBy(fps, keys, j, n + 1)
    {
      UsedStep(fps, keys, j, n);
    }
  }

  /** `List` on the decoded entries: a loop that matches by fingerprint, and one that gives what is left
      by position. */
  method ListStored(rules: seq<Val>, stored: seq<Entry>, fp: Val -> string) returns (result: seq<Metadata>)
    ensures result == Listed(Fingerprints(rules, fp), stored)
  {
    ghost var fps := Fingerprints(rules, fp);
    result := seq(|rules|, _ => NO_METADATA);
    var matched := seq(|rules|, _ => false);
    var used := seq(|stored|, _ => false);
    for index := 0 to |rules|
      invariant FirstPass(fps, stored, index, result, matched, used)
    {
      var k := FindUnused(stored, used, fp(rules[index]));
      if k < |stored| {
        FirstPassMatch(fps, stored, index, k, result, matched, used);
        result := result[index := Public(stored[k])];
        matched := matched[index := true];
        used := used[k := true];
      } else {
        FirstPassMiss(fps, stored, index, result, matched, used);
      }
    }
    ghost var first, firstUsed := result, used;
    for index := 0 to |rules|
      invariant |result| == |rules| && |used| == |stored|
      invariant forall j: nat | index <= j < |stored| :: used[j] == firstUsed[j]
      invariant forall i: nat | index <= i < |rules| :: result[i] == first[i]
      invariant forall i: nat | i < index :: ListedAt(fps, stored, i, result[i])
    {
      SecondPassStep(fps, stored, index, first, matched, firstUsed);
      if !(matched[index] || index >= |stored| || used[index]) {
        result := result[index := Public(stored[index])];
        used := used[index := true];
      }
    }
    forall i: nat | i < |rules|
      ensures result[i] == ListedFor(fps, stored, i)
    {
      ListedUnique(fps, stored, i, result[i]);
    }
  }

  lemma SecondPassStep(fps: seq<string>, stored: seq<Entry>, i: nat,
                       result: seq<Metadata>, matched: seq<bool>, used: seq<bool>)
    requires FirstPass(fps, stored, |fps|, result, matched, used) && i < |fps|
    ensures ListedAt(fps, stored, i,
                     if matched[i] || i >= |stored| || used[i] then result[i] else Public(stored[i]))
  {
    var keys := Keys(stored);
    if i < |stored| {
      UsedIsMatched(fps, keys, i);
    }
    if matched[i] {
      var j: nat :| j < |keys| && Matches(fps, keys, i, j);
      assert Assigned(fps, keys, i, j);
    } else if i < |stored| && !used[i] {
      assert Assigned(fps, keys, i, i);
    }
  }

  // ---- Saving ----

  /** `unicode.IsSpace` */
  predicate IsSpace(c: char) {
    || c == '\t' || c == '\n' || c == '\U{0B}' || c == '\U{0C}' || c == '\r' || c == ' '
    || c == '\U{85}' || c == '\U{A0}' || c == '\U{1680}' || '\U{2000}' <= c <= '\U{200A}'
    || c == '\U{2028}' || c == '\U{2029}' || c == '\U{202F}' || c == '\U{205F}' || c == '\U{3000}'
  }

  function TrimLeft(s: string): string {
    if s != "" && IsSpace(s[0]) then TrimLeft(s[1..]) else s
  }

  function TrimRight(s: string): string {
    if s != "" && IsSpace(s[|s| - 1]) then TrimRight(s[..|s| - 1]) else s
  }

  /** `strings.TrimSpace` */
  function TrimSpace(s: string): string {
    TrimRight(TrimLeft(s))
  }

  lemma {:induction false} TrimRightKeepsStart(s: string)
    ensures TrimRight(s) <= s
    ensures TrimRight(s) != "" ==> !IsSpace(TrimRight(s)[|TrimRight(s)| - 1])
  {
    if s != "" && IsSpace(s[|s| - 1]) {
      TrimRightKeepsStart(s[..|s| - 1]);
    }
  }

  lemma {:induction false} TrimLeftStart(s: string)
    ensures TrimLeft(s) != "" ==> !IsSpace(TrimLeft(s)[0])
  {
    if s != "" && IsSpace(s[0]) {
      TrimLeftStart(s[1..]);
    }
  }

  lemma TrimIdempotent(s: string)
    ensures TrimSpace(TrimSpace(s)) == TrimSpace(s)
  {
    TrimLeftStart(s);
    TrimRightKeepsStart(TrimLeft(s));
    var t := TrimSpace(s);
    assert t != "" ==> t[0] == TrimLeft(s)[0];
  }

  function Trimmed(m: Metadata): Metadata {
    Metadata(TrimSpace(m.name), TrimSpace(m.description))
  }

  predicate WithinLimits(m: Metadata) {
    |m.name| <= MAX_NAME && |m.description| <= MAX_DESCRIPTION
  }

  /** `validateRouteRuleMetadata` */
  function Validated(m: Metadata): Result<Metadata, Error> {
    if WithinLimits(Trimmed(m)) then Ok(Trimmed(m)) else Err(Invalid)
  }

  function Saved(rules: seq<string>, metadata: seq<Metadata>): (stored: seq<Entry>)
    requires |rules| == |metadata|
    ensures |stored| == |rules|
    ensures forall i | 0 <= i < |rules| ::
      stored[i] == Entry(rules[i], TrimSpace(metadata[i].name), TrimSpace(metadata[i].description))
  {
    seq(|rules|, i requires 0 <= i < |rules| =>
      Entry(rules[i], TrimSpace(metadata[i].name), TrimSpace(metadata[i].description)))
  }

  ghost predicate AllValid(metadata: seq<Metadata>) {
    forall m | m in metadata :: Validated(m).Ok?
  }

  /** What every save leaves behind: trimmed names and descriptions within their limits. */
  ghost predicate Clean(stored: seq<Entry>) {
    forall e | e in stored :: Trimmed(Public(e)) == Public(e) && WithinLimits(Public(e))
  }

  lemma SavedClean(rules: seq<string>, metadata: seq<Metadata>)
    requires |rules| == |metadata| && AllValid(metadata)
    ensures Clean(Saved(rules, metadata))
  {
    forall e | e in Saved(rules, metadata)
      ensures Trimmed(Public(e)) == Public(e) && WithinLimits(Public(e))
    {
      var i :| 0 <= i < |rules| && Saved(rules, metadata)[i] == e;
      assert metadata[i] in metadata;
      TrimIdempotent(metadata[i].name);
      TrimIdempotent(metadata[i].description);
    }
  }

  /** Listing the rules that were saved gives back their trimmed metadata, duplicates included. */
  lemma {:induction false} ListAfterSave(rules: seq<string>, metadata: seq<Metadata>, i: nat)
    requires |rules| == |metadata| && i < |rules|
    ensures Listed(rules, Saved(rules, metadata))[i] == Trimmed(metadata[i])
  {
    var stored := Saved(rules, metadata);
    assert Keys(stored) == rules;
    assert Assigned(rules, Keys(stored), i, i);
    forall j: nat | j < |stored| && Assigned(rules, Keys(stored), i, j)
      ensures j == i
    {
      AssignmentInjective(rules, rules, i, i, i, j);
    }
    ListedUnique(rules, stored, i, Trimmed(metadata[i]));
  }

  /** Listing an edited list after a save: a rule gets the trimmed metadata that was saved for the rule of the
      same rank and fingerprint. */
  lemma {:induction false} ListAfterEdit(edited: seq<string>, saved: seq<string>, metadata: seq<Metadata>,
                                         i: nat, j: nat)
    requires |saved| == |metadata| && i < |edited| && j < |saved| && Matches(edited, saved, i, j)
    ensures Listed(edited, Saved(saved, metadata))[i] == Trimmed(metadata[j])
  {
    var stored := Saved(saved, metadata);
    assert Keys(stored) == saved;
    assert Assigned(edited, Keys(stored), i, j);
    forall k: nat | k < |stored| && Assigned(edited, Keys(stored), i, k)
      ensures k == j
    {
      AssignmentInjective(edited, saved, i, j, i, k);
    }
    ListedUnique(edited, stored, i, Trimmed(metadata[j]));
  }

  /** With distinct saved rules every one of them keeps its own metadata through any edit of the list. */
  lemma {:induction false} EditCarriesMetadata(edited: seq<string>, saved: seq<string>, metadata: seq<Metadata>,
                                               i: nat, j: nat)
    requires |saved| == |metadata| && Distinct(saved) && i < |edited| && j < |saved| && edited[i] == saved[j]
    requires forall k | 0 <= k < i :: edited[k] != edited[i]
    ensures Listed(edited, Saved(saved, metadata))[i] == Trimmed(metadata[j])
  {
    ReorderCarriesMetadata(edited, saved, i, j);
    ListAfterEdit(edited, saved, metadata, i, j);
  }

  // ---- Default names ----

  /** `ruleSetTag` */
  function RuleSetTag(rule: Object): string {
    match At(rule, "rule_set")
    case Some(Strings(values)) => if |values| > 0 then values[0] else ""
    case Some(List(values)) => if |values| > 0 && values[0].Str? then values[0].s else ""
    case _ => ""
  }

  /** `defaultRouteRuleName` */
  function DefaultName(rule: Object, printFloat: real -> string): string {
    var action := StringAt(rule, "action");
    var network := StringAt(rule, "network");
    if action == "sniff" then "协议嗅探"
    else if StringAt(rule, "protocol") == "dns" && action == "hijack-dns" then "DNS 请求劫持"
    else if At(rule, "ip_is_private") == Some(Bool(true)) then "私有地址直连"
    else if network == "icmp" then "ICMP 流量直连"
    else if network == "udp" && PortValue(At(rule, "port"), printFloat) == "443" && action == "reject" then
      "QUIC 流量拦截"
    else
      RuleSetName(RuleSetTag(rule))
  }

  function RuleSetName(tag: string): string {
    if tag in {"loyalsoldier-reject", "geosite-category-ads-all"} then "广告流量拦截"
    else if tag in {"loyalsoldier-direct", "geosite-cn"} then "中国域名直连"
    else if tag == "geoip-cn" then "中国 IP 直连"
    else if tag == "loyalsoldier-proxy" then "代理列表流量走代理"
    else if tag == "geosite-google-play" then "Google Play 流量走代理"
    else ""
  }

  predicate IsPlainName(name: string) {
    |name| <= MAX_NAME && (name == "" || (!IsSpace(name[0]) && !IsSpace(name[|name| - 1])))
  }

  lemma RuleSetNamePlain(tag: string)
    ensures IsPlainName(RuleSetName(tag))
  {}

  lemma DefaultNamePlain(rule: Object, printFloat: real -> string)
    ensures IsPlainName(DefaultName(rule, printFloat))
  {
    RuleSetNamePlain(RuleSetTag(rule));
  }

  lemma PlainNameTrimmed(name: string)
    requires IsPlainName(name)
    ensures TrimSpace(name) == name
  {}

  /** The metadata of a rule with its default name filled in. */
  function WithDefault(rule: Val, m: Metadata, printFloat: real -> string): Metadata {
    if m.name == "" && rule.Map? then m.(name := DefaultName(rule.fields, printFloat)) else m
  }

  function WithDefaults(rules: seq<Val>, metadata: seq<Metadata>, printFloat: real -> string): (r: seq<Metadata>)
    requires |rules| == |metadata|
    ensures |r| == |rules| && forall i | 0 <= i < |rules| :: r[i] == WithDefault(rules[i], metadata[i], printFloat)
  {
    seq(|rules|, i requires 0 <= i < |rules| => WithDefault(rules[i], metadata[i], printFloat))
  }

  /** The metadata that applying default names saves. */
  ghost function NamedList(rules: seq<Val>, stored: seq<Entry>, fp: Val -> string, printFloat: real -> string)
    : (r: seq<Metadata>)
    ensures |r| == |rules|
  {
    WithDefaults(rules, Listed(Fingerprints(rules, fp), stored), printFloat)
  }

  /** The store after default names were applied. */
  ghost function Applied(rules: seq<Val>, stored: seq<Entry>, fp: Val -> string, printFloat: real -> string)
    : seq<Entry>
  {
    Saved(Fingerprints(rules, fp), NamedList(rules, stored, fp, printFloat))
  }

  lemma ListedClean(rules: seq<string>, stored: seq<Entry>, i: nat)
    requires Clean(stored) && i < |rules|
    ensures Trimmed(ListedFor(rules, stored, i)) == ListedFor(rules, stored, i)
    ensures WithinLimits(ListedFor(rules, stored, i))
  {
    if exists j: nat :: j < |stored| && Assigned(rules, Keys(stored), i, j) {
      var j: nat :| j < |stored| && Assigned(rules, Keys(stored), i, j)
                    && ListedFor(rules, stored, i) == Public(stored[j]);
      assert stored[j] in stored;
    }
  }

  lemma NamedListClean(rules: seq<Val>, stored: seq<Entry>, fp: Val -> string, printFloat: real -> string)
    requires Clean(stored)
    ensures AllValid(NamedList(rules, stored, fp, printFloat))
    ensures forall m | m in NamedList(rules, stored, fp, printFloat) :: Trimmed(m) == m
  {
    var named := NamedList(rules, stored, fp, printFloat);
    forall m | m in named
      ensures Trimmed(m) == m && WithinLimits(m)
    {
      var i :| 0 <= i < |named| && named[i] == m;
      ListedClean(Fingerprints(rules, fp), stored, i);
      if rules[i].Map? {
        DefaultNamePlain(rules[i].fields, printFloat);
        PlainNameTrimmed(DefaultName(rules[i].fields, printFloat));
      }
    }
  }

  /** After default names were applied, a rule that had a name still has it and an unnamed rule has its
      default; descriptions do not change. */
  lemma {:induction false} ApplyKeepsNames(rules: seq<Val>, stored: seq<Entry>, fp: Val -> string,
                                           printFloat: real -> string, i: nat)
    requires Clean(stored) && i < |rules|
    ensures var before := Listed(Fingerprints(rules, fp), stored)[i];
            var after := Listed(Fingerprints(rules, fp), Applied(rules, stored, fp, printFloat))[i];
            after.description == before.description
            && (before.name != "" ==> after.name == before.name)
            && (before.name == "" ==>
                  after.name == if rules[i].Map? then DefaultName(rules[i].fields, printFloat) else "")
  {
    NamedListClean(rules, stored, fp, printFloat);
    var named := NamedList(rules, stored, fp, printFloat);
    assert named[i] in named;
    ListAfterSave(Fingerprints(rules, fp), named, i);
  }

  /** Applying default names a second time leaves the store as it is. */
  lemma {:induction false} ApplyIdempotent(rules: seq<Val>, stored: seq<Entry>, fp: Val -> string,
                                           printFloat: real -> string)
    requires Clean(stored)
    ensures Applied(rules, Applied(rules, stored, fp, printFloat), fp, printFloat) ==
            Applied(rules, stored, fp, printFloat)
  {
    var once := Applied(rules, stored, fp, printFloat);
    var named, again := NamedList(rules, stored, fp, printFloat), NamedList(rules, once, fp, printFloat);
    NamedListClean(rules, stored, fp, printFloat);
    forall i | 0 <= i < |rules|
      ensures again[i] == named[i]
    {
      assert named[i] in named;
      ListAfterSave(Fingerprints(rules, fp), named, i);
    }
    assert again == named;
  }

  // ---- The manager ----

  /** The loop that names the unnamed rules. */
  method FillDefaults(rules: seq<Val>, listed: seq<Metadata>, printFloat: real -> string)
    returns (metadata: seq<Metadata>)
    requires |rules| == |listed|
    ensures metadata == WithDefaults(rules, listed, printFloat)
  {
    metadata := listed;
    for index := 0 to |rules|
      invariant |metadata| == |rules|
      invariant forall i | 0 <= i < index :: metadata[i] == WithDefault(rules[i], listed[i], printFloat)
      invariant forall i | index <= i < |rules| :: metadata[i] == listed[i]
    {
      if metadata[index].name == "" && rules[index].Map? {
        metadata := metadata[index := metadata[index].(name := DefaultName(rules[index].fields, printFloat))];
      }
    }
  }

  class Manager {
    /** The decoded entries of the bucket; empty while there is none. */
    var stored: seq<Entry>
    var initialized: bool

    ghost predicate Valid()
      reads this
    {
      Clean(stored)
    }

    constructor ()
      ensures Valid() && stored == [] && !initialized
    {
      stored, initialized := [], false;
    }

    /** `readFails` and `writeFails` stand for what the database may do. */
    method List(rules: seq<Val>, fp: Val -> string, readFails: bool) returns (r: Result<seq<Metadata>, Error>)
      requires Valid()
      ensures r == if readFails then Err(Database) else Ok(Listed(Fingerprints(rules, fp), stored))
    {
      if readFails {
        return Err(Database);
      }
      var result := ListStored(rules, stored, fp);
      return Ok(result);
    }

    method Save(rules: seq<Val>, metadata: seq<Metadata>, fp: Val -> string, writeFails: bool)
      returns (failure: Option<Error>)
      requires Valid()
      modifies this`stored
      ensures Valid()
      ensures failure == None <==> |rules| == |metadata| && AllValid(metadata) && !writeFails
      ensures failure == Some(Database) ==> writeFails
      ensures stored == if failure == None then Saved(Fingerprints(rules, fp), metadata) else old(stored)
    {
      if |rules| != |metadata| {
        return Some(Invalid);
      }
      var entries: seq<Entry> := [];
      for index := 0 to |rules|
        invariant |entries| == index
        invariant forall i | 0 <= i < index :: Validated(metadata[i]).Ok?
        invariant forall i | 0 <= i < index :: entries[i] == Saved(Fingerprints(rules, fp), metadata)[i]
      {
        var validated := Validated(metadata[index]);
        if validated.Err? {
          assert metadata[index] in metadata;
          return Some(validated.error);
        }
        entries := entries + [Entry(fp(rules[index]), validated.value.name, validated.value.description)];
      }
      assert entries == Saved(Fingerprints(rules, fp), metadata);
      SavedClean(Fingerprints(rules, fp), metadata);
      if writeFails {
        return Some(Database);
      }
      stored := entries;
      return None;
    }

    method ApplyDefaultNames(rules: seq<Val>, fp: Val -> string, printFloat: real -> string,
                             readFails: bool, writeFails: bool)
      returns (failure: Option<Error>)
      requires Valid()
      modifies this`stored
      ensures Valid()
      ensures failure == None <==> !readFails && !writeFails
      ensures stored == if failure == None then Applied(rules, old(stored), fp, printFloat) else old(stored)
    {
      var listed := List(rules, fp, readFails);
      if listed.Err? {
        return Some(listed.error);
      }
      var metadata := FillDefaults(rules, listed.value, printFloat);
      NamedListClean(rules, stored, fp, printFloat);
      failure := Save(rules, metadata, fp, writeFails);
    }

    /** Applies the default names once in the life of the store. */
    method InitializeDefaultNames(rules: seq<Val>, fp: Val -> string, printFloat: real -> string,
                                  readFails: bool, writeFails: bool, markFails: bool)
      returns (failure: Option<Error>)
      requires Valid()
      modifies this
      ensures Valid()
      ensures !readFails && old(initialized) ==> failure == None && stored == old(stored)
      ensures failure == None <==> !readFails && (old(initialized) || (!writeFails && !markFails))
      ensures failure == None ==> initialized
      ensures initialized <==> old(initialized) || failure == None
      ensures stored == if readFails || old(initialized) || writeFails then old(stored)
                        else Applied(rules, old(stored), fp, printFloat)
    {
      if readFails {
        return Some(Database);
      }
      if initialized {
        return None;
      }
      failure := ApplyDefaultNames(rules, fp, printFloat, readFails, writeFails);
      if failure.Some? {
        return;
      }
      if markFails {
        return Some(Database);
      }
      initialized := true;
    }
  }
}

/** Installing the default outbounds and groups into a list of outbounds. */
module OutboundDefaults {
  import opened Wrappers
  import opened GoValue

  /** The working state: the outbounds by tag, and the tags in the order in which they came up. */
  datatype Table = Table(byTag: map<string, Object>, order: seq<string>)

  predicate IsCandidateType(kind: string) {
    kind !in {"", "direct", "block", "dns", "selector", "urltest"}
  }

  /** The tagged outbounds of the list: a later one replaces an earlier one of the same tag. */
  function Scan(items: seq<Val>): Table {
    if items == [] then Table(map[], [])
    else
      var before, last := Scan(items[..|items| - 1]), items[|items| - 1];
      if TagOf(last) == "" then before
      else Table(before.byTag[TagOf(last) := last.fields], before.order + [TagOf(last)])
  }

  function Candidates(items: seq<Val>): seq<string> {
    if items == [] then []
    else
      var last := items[|items| - 1];
      Candidates(items[..|items| - 1])
      + if TagOf(last) != "" && IsCandidateType(TypeOf(last)) then [TagOf(last)] else []
  }

  /** The members of new groups; "direct" stands in when there is no proxy. */
  function Members(items: seq<Val>): seq<string> {
    if Candidates(items) == [] then ["direct"] else Candidates(items)
  }

  function EnsureBuiltin(t: Table, tag: string, kind: string): Table {
    if tag in t.byTag then t
    else Table(t.byTag[tag := map["tag" := Str(tag), "type" := Str(kind)]], t.order + [tag])
  }

  function Marked(t: Table, tag: string): Table {
    if tag in t.byTag then t.(byTag := t.byTag[tag := t.byTag[tag]["routing_mark" := Int(128)]]) else t
  }

  /** An existing group only gets its type; a new one gets members too. */
  function UpsertGroup(t: Table, tag: string, kind: string, members: seq<string>): Table {
    if tag in t.byTag then t.(byTag := t.byTag[tag := t.byTag[tag]["type" := Str(kind)]])
    else Table(t.byTag[tag := map["tag" := Str(tag), "type" := Str(kind), "outbounds" := Strings(members)]],
               t.order + [tag])
  }

  function WithBuiltins(t: Table): Table {
    EnsureBuiltin(EnsureBuiltin(EnsureBuiltin(t, "direct", "direct"), "bypass", "direct"), "block", "block")
  }

  function WithoutDns(t: Table): Table {
    t.(byTag := t.byTag - {"dns-out"})
  }

  function WithGroups(t: Table, members: seq<string>): Table {
    var proxied := UpsertGroup(t, "proxy", "selector", members);
    var automatic := if members != ["direct"] then UpsertGroup(proxied, "auto", "urltest", members) else proxied;
    UpsertGroup(UpsertGroup(automatic, "whitelist", "selector", ["bypass", "proxy"]),
                "blacklist", "selector", ["block", "proxy"])
  }

  function Marks(t: Table): Table {
    Marked(Marked(t, "direct"), "bypass")
  }

  function FinalTable(items: seq<Val>): Table {
    WithGroups(Marks(WithoutDns(WithBuiltins(Scan(items)))), Members(items))
  }

  /** The tags that are still in the table, each at its first place. */
  function EmittedTags(order: seq<string>, byTag: map<string, Object>): seq<string> {
    if order == [] then []
    else
      var before, last := EmittedTags(order[..|order| - 1], byTag), order[|order| - 1];
      if last in byTag && last !in before then before + [last] else before
  }

  function Emit(tags: seq<string>, byTag: map<string, Object>): (items: seq<Val>)
    requires forall tag | tag in tags :: tag in byTag
    ensures |items| == |tags| && forall i | 0 <= i < |tags| :: items[i] == Map(byTag[tags[i]])
  {
    seq(|tags|, i requires 0 <= i < |tags| => Map(byTag[tags[i]]))
  }

  lemma {:induction false} EmittedTagsFacts(order: seq<string>, byTag: map<string, Object>)
    ensures var tags := EmittedTags(order, byTag);
            (forall tag :: tag in tags <==> tag in order && tag in byTag)
            && forall i, j | 0 <= i < j < |tags| :: tags[i] != tags[j]
  {
    if order != [] {
      EmittedTagsFacts(order[..|order| - 1], byTag);
    }
  }

  function Emitted(t: Table): seq<Val> {
    EmittedTagsFacts(t.order, t.byTag);
    Emit(EmittedTags(t.order, t.byTag), t.byTag)
  }

  /** `Install`: the outbounds it returns. */
  function Installed(items: seq<Val>): seq<Val> {
    Emitted(FinalTable(items))
  }

  method Install(existing: seq<Val>) returns (result: seq<Val>)
    ensures result == Installed(existing)
  {
    var t := Table(map[], []);
    var proxyCandidates: seq<string> := [];
    for i := 0 to |existing|
      invariant t == Scan(existing[..i]) && proxyCandidates == Candidates(existing[..i])
    {
      assert existing[..i + 1][..i] == existing[..i];
      var tag := TagOf(existing[i]);
      if tag != "" {
        t := Table(t.byTag[tag := existing[i].fields], t.order + [tag]);
        if IsCandidateType(TypeOf(existing[i])) {
          proxyCandidates := proxyCandidates + [tag];
        }
      }
    }
    assert existing[..|existing|] == existing;
    t := EnsureBuiltin(t, "direct", "direct");
    t := EnsureBuiltin(t, "bypass", "direct");
    t := EnsureBuiltin(t, "block", "block");
    t := WithoutDns(t);
    t := Marked(t, "direct");
    t := Marked(t, "bypass");
    if |proxyCandidates| == 0 {
      proxyCandidates := ["direct"];
    }
    t := WithGroups(t, proxyCandidates);
    assert t == FinalTable(existing);
    result := EmitLoop(t);
  }

  /** The final loop over the order, skipping deleted and repeated tags. */
  method EmitLoop(t: Table) returns (result: seq<Val>)
    ensures result == Emitted(t)
  {
    EmittedTagsFacts(t.order, t.byTag);
    result := [];
    var seen: set<string> := {};
    for i := 0 to |t.order|
      invariant forall tag | tag in EmittedTags(t.order[..i], t.byTag) :: tag in t.byTag
      invariant forall tag :: tag in seen <==> tag in EmittedTags(t.order[..i], t.byTag)
      invariant result == Emit(EmittedTags(t.order[..i], t.byTag), t.byTag)
    {
      var tag := t.order[i];
      assert t.order[..i + 1][..i] == t.order[..i];
      if tag !in t.byTag || tag in seen {
        continue;
      }
      seen := seen + {tag};
      result := result + [Map(t.byTag[tag])];
    }
    assert t.order[..|t.order|] == t.order;
  }

  // ---- Consistency of the table ----

  /** Every outbound sits under its own tag, and its tag is in the order. */
  ghost predicate Consistent(t: Table) {
    forall tag | tag in t.byTag :: tag != "" && StringAt(t.byTag[tag], "tag") == tag && tag in t.order
  }

  lemma {:induction false} ScanConsistent(items: seq<Val>)
    ensures Consistent(Scan(items))
  {
    if items != [] {
      ScanConsistent(items[..|items| - 1]);
    }
  }

  lemma StepsConsistent(t: Table, tag: string, kind: string, members: seq<string>)
    requires Consistent(t) && tag != ""
    ensures Consistent(EnsureBuiltin(t, tag, kind)) && Consistent(UpsertGroup(t, tag, kind, members))
    ensures Consistent(Marked(t, tag)) && Consistent(WithoutDns(t))
  {}

  lemma BuiltinsConsistent(t: Table)
    requires Consistent(t)
    ensures Consistent(WithBuiltins(t))
  {
    var a := EnsureBuiltin(t, "direct", "direct");
    var b := EnsureBuiltin(a, "bypass", "direct");
    StepsConsistent(t, "direct", "direct", []);
    StepsConsistent(a, "bypass", "direct", []);
    StepsConsistent(b, "block", "block", []);
  }

  lemma MarksConsistent(t: Table)
    requires Consistent(t)
    ensures Consistent(Marks(t))
  {
    StepsConsistent(t, "direct", "", []);
    StepsConsistent(Marked(t, "direct"), "bypass", "", []);
  }

  lemma GroupsConsistent(t: Table, members: seq<string>)
    requires Consistent(t)
    ensures Consistent(WithGroups(t, members))
  {
    var a := UpsertGroup(t, "proxy", "selector", members);
    var b := if members != ["direct"] then UpsertGroup(a, "auto", "urltest", members) else a;
    var c := UpsertGroup(b, "whitelist", "selector", ["bypass", "proxy"]);
    StepsConsistent(t, "proxy", "selector", members);
    StepsConsistent(a, "auto", "urltest", members);
    StepsConsistent(b, "whitelist", "selector", ["bypass", "proxy"]);
    StepsConsistent(c, "blacklist", "selector", ["block", "proxy"]);
  }

  lemma FinalConsistent(items: seq<Val>)
    ensures Consistent(FinalTable(items))
  {
    ScanConsistent(items);
    BuiltinsConsistent(Scan(items));
    StepsConsistent(WithBuiltins(Scan(items)), "x", "", []);
    MarksConsistent(WithoutDns(WithBuiltins(Scan(items))));
    GroupsConsistent(Marks(WithoutDns(WithBuiltins(Scan(items)))), Members(items));
  }

  // ---- What the final table holds ----

  predicate IsInstalledTag(tag: string) {
    tag in {"direct", "bypass", "block", "proxy", "auto", "whitelist", "blacklist"}
  }

  /** Everything an installation settles. */
  ghost predicate Settled(byTag: map<string, Object>, members: seq<string>) {
    && "dns-out" !in byTag
    && IsMarked(byTag, "direct") && IsMarked(byTag, "bypass") && "block" in byTag
    && TypeIs(byTag, "proxy", "selector") && TypeIs(byTag, "whitelist", "selector")
    && TypeIs(byTag, "blacklist", "selector") && (members != ["direct"] ==> TypeIs(byTag, "auto", "urltest"))
  }

  predicate HasType(m: Object, kind: string) {
    "type" in m && m["type"] == Str(kind)
  }

  // One lemma for each kind of step: what it settles, and that it leaves other tags alone.

  lemma BuiltinAt(t: Table, tag: string, kind: string, other: string)
    ensures var next := EnsureBuiltin(t, tag, kind);
            tag in next.byTag
            && (other in t.byTag ==> other in next.byTag && next.byTag[other] == t.byTag[other])
            && (other != tag ==> (other in next.byTag <==> other in t.byTag))
            && (tag !in t.byTag ==> TypeIs(next.byTag, tag, kind))
            && t.order <= next.order
  {}

  ghost predicate TypeIs(byTag: map<string, Object>, tag: string, kind: string) {
    tag in byTag && HasType(byTag[tag], kind)
  }

  lemma MarkAt(t: Table, tag: string, other: string)
    ensures var next := Marked(t, tag);
            next.order == t.order && (other in next.byTag <==> other in t.byTag)
            && (tag in t.byTag ==> next.byTag[tag] == t.byTag[tag]["routing_mark" := Int(128)])
            && (other in t.byTag && other != tag ==> next.byTag[other] == t.byTag[other])
            && (other in t.byTag ==> StringAt(next.byTag[other], "type") == StringAt(t.byTag[other], "type"))
  {}

  lemma GroupAt(t: Table, tag: string, kind: string, members: seq<string>, other: string)
    ensures var next := UpsertGroup(t, tag, kind, members);
            t.order <= next.order && TypeIs(next.byTag, tag, kind)
            && (other != tag ==>
                  (other in next.byTag <==> other in t.byTag)
                  && (other in t.byTag ==> next.byTag[other] == t.byTag[other]))
  {}

  predicate IsGroupTag(tag: string) {
    tag in {"proxy", "auto", "whitelist", "blacklist"}
  }

  lemma GroupTagTypes(t: Table, members: seq<string>)
    ensures var next := WithGroups(t, members).byTag;
            TypeIs(next, "proxy", "selector") && TypeIs(next, "whitelist", "selector")
            && TypeIs(next, "blacklist", "selector") && (members != ["direct"] ==> TypeIs(next, "auto", "urltest"))
  {
    var a := UpsertGroup(t, "proxy", "selector", members);
    var b := if members != ["direct"] then UpsertGroup(a, "auto", "urltest", members) else a;
    var c := UpsertGroup(b, "whitelist", "selector", ["bypass", "proxy"]);
    GroupAt(t, "proxy", "selector", members, "");
    GroupAt(a, "auto", "urltest", members, "proxy");
    GroupAt(b, "whitelist", "selector", ["bypass", "proxy"], "proxy");
    GroupAt(b, "whitelist", "selector", ["bypass", "proxy"], "auto");
    GroupAt(c, "blacklist", "selector", ["block", "proxy"], "proxy");
    GroupAt(c, "blacklist", "selector", ["block", "proxy"], "auto");
    GroupAt(c, "blacklist", "selector", ["block", "proxy"], "whitelist");
  }

  lemma GroupsAt(t: Table, members: seq<string>, other: string)
    ensures var next := WithGroups(t, members);
            t.order <= next.order
            && (!IsGroupTag(other) || (other == "auto" && members == ["direct"]) ==>
                  (other in next.byTag <==> other in t.byTag)
                  && (other in t.byTag ==> next.byTag[other] == t.byTag[other]))
  {
    var a := UpsertGroup(t, "proxy", "selector", members);
    var b := if members != ["direct"] then UpsertGroup(a, "auto", "urltest", members) else a;
    var c := UpsertGroup(b, "whitelist", "selector", ["bypass", "proxy"]);
    GroupAt(t, "proxy", "selector", members, other);
    GroupAt(a, "auto", "urltest", members, other);
    GroupAt(b, "whitelist", "selector", ["bypass", "proxy"], other);
    GroupAt(c, "blacklist", "selector", ["block", "proxy"], other);
  }

  /** What a new group consists of. */
  function NewMembers(group: string, members: seq<string>): seq<string> {
    if group == "whitelist" then ["bypass", "proxy"]
    else if group == "blacklist" then ["block", "proxy"]
    else members
  }

  ghost predicate MembersAre(byTag: map<string, Object>, group: string, members: seq<string>) {
    group in byTag && At(byTag[group], "outbounds") == Some(Strings(members))
  }

  lemma NewGroupAt(t: Table, group: string, kind: string, members: seq<string>)
    requires group !in t.byTag
    ensures MembersAre(UpsertGroup(t, group, kind, members).byTag, group, members)
  {}

  /** A new group gets its members; groups made later do not touch it. */
  lemma NewGroup(t: Table, members: seq<string>, group: string)
    requires IsGroupTag(group) && group !in t.byTag && (group == "auto" ==> members != ["direct"])
    ensures MembersAre(WithGroups(t, members).byTag, group, NewMembers(group, members))
  {
    var a := UpsertGroup(t, "proxy", "selector", members);
    var b := if members != ["direct"] then UpsertGroup(a, "auto", "urltest", members) else a;
    var c := UpsertGroup(b, "whitelist", "selector", ["bypass", "proxy"]);
    GroupAt(t, "proxy", "selector", members, group);
    GroupAt(a, "auto", "urltest", members, group);
    GroupAt(b, "whitelist", "selector", ["bypass", "proxy"], group);
    GroupAt(c, "blacklist", "selector", ["block", "proxy"], group);
    match group
    case "proxy" => NewGroupAt(t, "proxy", "selector", members);
    case "auto" => NewGroupAt(a, "auto", "urltest", members);
    case "whitelist" => NewGroupAt(b, "whitelist", "selector", ["bypass", "proxy"]);
    case _ => NewGroupAt(c, "blacklist", "selector", ["block", "proxy"]);
  }

  predicate IsBuiltinTag(tag: string) {
    tag in {"direct", "bypass", "block"}
  }

  lemma BuiltinsAt(t: Table, other: string)
    ensures var next := WithBuiltins(t);
            t.order <= next.order
            && "direct" in next.byTag && "bypass" in next.byTag && "block" in next.byTag
            && (other in t.byTag ==> other in next.byTag && next.byTag[other] == t.byTag[other])
            && (!IsBuiltinTag(other) ==> (other in next.byTag <==> other in t.byTag))
            && (other in next.byTag && other !in t.byTag ==>
                  HasType(next.byTag[other], "direct") || HasType(next.byTag[other], "block"))
  {
    var a := EnsureBuiltin(t, "direct", "direct");
    var b := EnsureBuiltin(a, "bypass", "direct");
    BuiltinAt(t, "direct", "direct", other);
    BuiltinAt(a, "bypass", "direct", other);
    BuiltinAt(b, "block", "block", other);
    BuiltinAt(a, "bypass", "direct", "direct");
    BuiltinAt(b, "block", "block", "direct");
    BuiltinAt(b, "block", "block", "bypass");
  }

  ghost predicate IsMarked(byTag: map<string, Object>, tag: string) {
    tag in byTag && At(byTag[tag], "routing_mark") == Some(Int(128))
  }

  lemma MarksAt(t: Table, other: string)
    ensures var next := Marks(t);
            next.order == t.order && (other in next.byTag <==> other in t.byTag)
            && (other in t.byTag && other != "direct" && other != "bypass" ==> next.byTag[other] == t.byTag[other])
            && (other in t.byTag ==> StringAt(next.byTag[other], "type") == StringAt(t.byTag[other], "type"))
            && ("direct" in t.byTag ==> IsMarked(next.byTag, "direct"))
            && ("bypass" in t.byTag ==> IsMarked(next.byTag, "bypass"))
  {
    var a := Marked(t, "direct");
    MarkAt(t, "direct", other);
    MarkAt(t, "direct", "bypass");
    MarkAt(a, "bypass", other);
    MarkAt(a, "bypass", "direct");
  }

  /** The table before the groups are added. */
  function BaseTable(items: seq<Val>): Table {
    Marks(WithoutDns(WithBuiltins(Scan(items))))
  }

  lemma BaseAt(items: seq<Val>, other: string)
    ensures var base := BaseTable(items);
            Scan(items).order <= base.order
            && "dns-out" !in base.byTag && "block" in base.byTag
            && IsMarked(base.byTag, "direct") && IsMarked(base.byTag, "bypass")
            && (other != "dns-out" && other in Scan(items).byTag ==> other in base.byTag)
            && (!IsBuiltinTag(other) && other != "dns-out" ==>
                  (other in base.byTag <==> other in Scan(items).byTag)
                  && (other in base.byTag ==> base.byTag[other] == Scan(items).byTag[other]))
            && (other in base.byTag && IsCandidateType(StringAt(base.byTag[other], "type")) ==>
                  other in Scan(items).byTag && IsCandidateType(StringAt(Scan(items).byTag[other], "type")))
  {
    var scanned := Scan(items);
    var built := WithBuiltins(scanned);
    BuiltinsAt(scanned, other);
    MarksAt(WithoutDns(built), other);
    MarksAt(WithoutDns(built), "dns-out");
    MarksAt(WithoutDns(built), "block");
  }

  lemma FinalIsGrouped(items: seq<Val>)
    ensures FinalTable(items) == WithGroups(BaseTable(items), Members(items))
  {}

  lemma FinalSettled(items: seq<Val>)
    ensures Settled(FinalTable(items).byTag, Members(items))
  {
    FinalIsGrouped(items);
    BaseAt(items, "");
    GroupTagTypes(BaseTable(items), Members(items));
    GroupsAt(BaseTable(items), Members(items), "dns-out");
    GroupsAt(BaseTable(items), Members(items), "direct");
    GroupsAt(BaseTable(items), Members(items), "bypass");
    GroupsAt(BaseTable(items), Members(items), "block");
  }

  /** Where the outbound under a tag of the final table comes from, if no default touches it. */
  lemma FinalKeeps(items: seq<Val>, tag: string)
    requires !IsInstalledTag(tag) && tag != "dns-out"
    ensures tag in FinalTable(items).byTag <==> tag in Scan(items).byTag
    ensures tag in Scan(items).byTag ==> FinalTable(items).byTag[tag] == Scan(items).byTag[tag]
  {
    FinalIsGrouped(items);
    BaseAt(items, tag);
    GroupsAt(BaseTable(items), Members(items), tag);
  }

  lemma GroupTypesAreNoCandidates(t: Table, members: seq<string>, tag: string)
    requires IsGroupTag(tag) && (tag == "auto" ==> members != ["direct"])
    ensures tag in WithGroups(t, members).byTag
            && !IsCandidateType(StringAt(WithGroups(t, members).byTag[tag], "type"))
  {
    GroupTagTypes(t, members);
  }

  /** A tag of candidate type in the final table was one in the scanned list. */
  lemma FinalCandidate(items: seq<Val>, tag: string)
    requires tag in FinalTable(items).byTag && IsCandidateType(StringAt(FinalTable(items).byTag[tag], "type"))
    ensures tag in Scan(items).byTag && IsCandidateType(StringAt(Scan(items).byTag[tag], "type"))
  {
    FinalIsGrouped(items);
    BaseAt(items, tag);
    if IsGroupTag(tag) && (tag == "auto" ==> Members(items) != ["direct"]) {
      GroupTypesAreNoCandidates(BaseTable(items), Members(items), tag);
    } else {
      GroupsAt(BaseTable(items), Members(items), tag);
    }
  }

  lemma {:induction false} ScanCandidate(items: seq<Val>, tag: string)
    requires tag in Scan(items).byTag && IsCandidateType(StringAt(Scan(items).byTag[tag], "type"))
    ensures tag in Candidates(items)
  {
    ScanConsistent(items);
    var last := items[|items| - 1];
    if TagOf(last) != tag {
      ScanCandidate(items[..|items| - 1], tag);
    }
  }

  lemma {:induction false} CandidateScanned(items: seq<Val>, tag: string)
    requires tag in Candidates(items)
    ensures tag in Scan(items).byTag && tag != ""
  {
    var init, last := items[..|items| - 1], items[|items| - 1];
    if tag in Candidates(init) {
      CandidateScanned(init, tag);
    }
  }

  // ---- Scanning an emitted list ----

  lemma ScanAppend(items: seq<Val>, v: Val)
    requires TagOf(v) != ""
    ensures Scan(items + [v]) == Table(Scan(items).byTag[TagOf(v) := v.fields], Scan(items).order + [TagOf(v)])
  {
    assert (items + [v])[..|items|] == items;
  }

  /** The outbounds under the given tags. */
  ghost function Restrict(byTag: map<string, Object>, tags: seq<string>): map<string, Object> {
    map tag | tag in byTag && tag in tags :: byTag[tag]
  }

  lemma RestrictStep(byTag: map<string, Object>, init: seq<string>, last: string)
    requires last in byTag
    ensures Restrict(byTag, init + [last]) == Restrict(byTag, init)[last := byTag[last]]
  {}

  ghost predicate Tagged(byTag: map<string, Object>, tag: string) {
    tag != "" && tag in byTag && StringAt(byTag[tag], "tag") == tag
  }

  lemma EmitStep(init: seq<string>, last: string, byTag: map<string, Object>)
    requires (forall tag | tag in init :: tag in byTag) && Tagged(byTag, last)
    ensures forall tag | tag in init + [last] :: tag in byTag
    ensures Emit(init + [last], byTag) == Emit(init, byTag) + [Map(byTag[last])]
    ensures TagOf(Map(byTag[last])) == last
  {}

  lemma {:induction false} ScanEmitted(tags: seq<string>, byTag: map<string, Object>)
    requires forall tag | tag in tags :: tag in byTag && Tagged(byTag, tag)
    ensures Scan(Emit(tags, byTag)) == Table(Restrict(byTag, tags), tags)
  {
    if tags != [] {
      var init, last := tags[..|tags| - 1], tags[|tags| - 1];
      assert tags == init + [last];
      assert last in tags && forall tag | tag in init :: tag in tags && Tagged(byTag, tag);
      ScanEmitted(init, byTag);
      EmitStep(init, last, byTag);
      ScanAppend(Emit(init, byTag), Map(byTag[last]));
      RestrictStep(byTag, init, last);
    } else {
      assert Restrict(byTag, []) == map[];
    }
  }

  lemma CandidatesAppend(items: seq<Val>, v: Val)
    ensures Candidates(items + [v]) ==
            Candidates(items) + if TagOf(v) != "" && IsCandidateType(TypeOf(v)) then [TagOf(v)] else []
  {
    assert (items + [v])[..|items|] == items;
  }

  /** The tags under which an outbound of candidate type is held. */
  function CandidateTags(tags: seq<string>, byTag: map<string, Object>): seq<string> {
    if tags == [] then []
    else
      var last := tags[|tags| - 1];
      CandidateTags(tags[..|tags| - 1], byTag)
      + if last in byTag && IsCandidateType(StringAt(byTag[last], "type")) then [last] else []
  }

  lemma {:induction false} CandidateTagsFacts(tags: seq<string>, byTag: map<string, Object>)
    requires Distinct(tags)
    ensures Distinct(CandidateTags(tags, byTag))
    ensures forall tag | tag in CandidateTags(tags, byTag) ::
      tag in tags && tag in byTag && IsCandidateType(StringAt(byTag[tag], "type"))
  {
    if tags != [] {
      CandidateTagsFacts(tags[..|tags| - 1], byTag);
    }
  }

  lemma {:induction false} CandidatesEmitted(tags: seq<string>, byTag: map<string, Object>)
    requires forall tag | tag in tags :: tag in byTag && Tagged(byTag, tag)
    ensures Candidates(Emit(tags, byTag)) == CandidateTags(tags, byTag)
  {
    if tags != [] {
      var init, last := tags[..|tags| - 1], tags[|tags| - 1];
      assert tags == init + [last];
      assert last in tags && forall tag | tag in init :: tag in tags && Tagged(byTag, tag);
      CandidatesEmitted(init, byTag);
      EmitStep(init, last, byTag);
      CandidatesAppend(Emit(init, byTag), Map(byTag[last]));
    }
  }

  lemma {:induction false} EmittedTagsFixed(tags: seq<string>, byTag: map<string, Object>)
    requires Distinct(tags) && forall tag | tag in tags :: tag in byTag
    ensures EmittedTags(tags, byTag) == tags
  {
    if tags != [] {
      var init := tags[..|tags| - 1];
      EmittedTagsFixed(init, byTag);
      assert tags == init + [tags[|tags| - 1]];
    }
  }

  // ---- Idempotence ----

  lemma SameType(m: Object, kind: string)
    requires HasType(m, kind)
    ensures m["type" := Str(kind)] == m
  {}

  lemma UpsertSettled(t: Table, tag: string, kind: string, members: seq<string>)
    requires tag in t.byTag && HasType(t.byTag[tag], kind)
    ensures UpsertGroup(t, tag, kind, members) == t
  {
    SameType(t.byTag[tag], kind);
    assert t.byTag[tag := t.byTag[tag]] == t.byTag;
  }

  lemma MarkSettled(t: Table, tag: string)
    requires IsMarked(t.byTag, tag)
    ensures Marked(t, tag) == t
  {
    assert t.byTag[tag]["routing_mark" := Int(128)] == t.byTag[tag];
    assert t.byTag[tag := t.byTag[tag]] == t.byTag;
  }

  /** Every step of an installation leaves a settled table alone. */
  lemma SettledIsFixed(t: Table, settledFor: seq<string>, members: seq<string>)
    requires Settled(t.byTag, settledFor)
    requires members != ["direct"] ==> settledFor != ["direct"]
    ensures WithGroups(Marks(WithoutDns(WithBuiltins(t))), members) == t
  {
    assert t.byTag - {"dns-out"} == t.byTag;
    MarkSettled(t, "direct");
    MarkSettled(t, "bypass");
    UpsertSettled(t, "proxy", "selector", members);
    if members != ["direct"] {
      UpsertSettled(t, "auto", "urltest", members);
    }
    UpsertSettled(t, "whitelist", "selector", ["bypass", "proxy"]);
    UpsertSettled(t, "blacklist", "selector", ["block", "proxy"]);
  }

  lemma RestrictAll(byTag: map<string, Object>, tags: seq<string>)
    requires forall tag | tag in byTag :: tag in tags
    ensures Restrict(byTag, tags) == byTag
  {}

  lemma ConsistentTagged(t: Table, tags: seq<string>)
    requires Consistent(t) && forall tag | tag in tags :: tag in t.byTag
    ensures forall tag | tag in tags :: Tagged(t.byTag, tag)
  {}

  /** Scanning what was emitted gives the table back. */
  lemma ScanOfEmitted(t: Table)
    requires Consistent(t)
    ensures Scan(Emitted(t)) == Table(t.byTag, EmittedTags(t.order, t.byTag))
  {
    var tags := EmittedTags(t.order, t.byTag);
    EmittedTagsFacts(t.order, t.byTag);
    ConsistentTagged(t, tags);
    RestrictAll(t.byTag, tags);
    ScanEmitted(tags, t.byTag);
  }

  lemma EmittedAgain(t: Table)
    ensures Emitted(Table(t.byTag, EmittedTags(t.order, t.byTag))) == Emitted(t)
  {
    EmittedTagsFacts(t.order, t.byTag);
    EmittedTagsFixed(EmittedTags(t.order, t.byTag), t.byTag);
  }

  lemma RepeatedTag(tags: seq<string>, only: string)
    requires |tags| >= 2 && forall tag | tag in tags :: tag == only
    ensures !Distinct(tags)
  {
    assert tags[0] in tags && tags[1] in tags;
  }

  lemma AtMostOne(tags: seq<string>, only: string)
    requires Distinct(tags) && forall tag | tag in tags :: tag == only
    ensures tags == [] || tags == [only]
  {
    if |tags| >= 2 {
      RepeatedTag(tags, only);
    } else if |tags| == 1 {
      assert tags[0] in tags;
    }
  }

  lemma TrivialMembers(t: Table)
    requires Consistent(t)
    requires forall tag | tag in t.byTag && IsCandidateType(StringAt(t.byTag[tag], "type")) :: tag == "direct"
    ensures Members(Emitted(t)) == ["direct"]
  {
    EmittedTagsFacts(t.order, t.byTag);
    CandidatesEmitted(EmittedTags(t.order, t.byTag), t.byTag);
    CandidateTagsFacts(EmittedTags(t.order, t.byTag), t.byTag);
    AtMostOne(Candidates(Emitted(t)), "direct");
  }

  /** A second installation finds no more candidates than the first one did. */
  lemma MembersStayTrivial(items: seq<Val>)
    requires Members(items) == ["direct"]
    ensures Members(Installed(items)) == ["direct"]
  {
    var byTag := FinalTable(items).byTag;
    FinalConsistent(items);
    forall tag | tag in byTag && IsCandidateType(StringAt(byTag[tag], "type"))
      ensures tag == "direct"
    {
      FinalCandidate(items, tag);
      ScanCandidate(items, tag);
      assert tag in Members(items);
    }
    TrivialMembers(FinalTable(items));
  }

  /** Installing the defaults a second time changes nothing, whatever the list was. */
  lemma {:induction false} InstallIdempotent(items: seq<Val>)
    ensures Installed(Installed(items)) == Installed(items)
  {
    var t := FinalTable(items);
    var again := Table(t.byTag, EmittedTags(t.order, t.byTag));
    FinalConsistent(items);
    FinalSettled(items);
    ScanOfEmitted(t);
    if Members(items) == ["direct"] {
      MembersStayTrivial(items);
    }
    SettledIsFixed(again, Members(items), Members(Emitted(t)));
    EmittedAgain(t);
  }

  // ---- What the result contains ----

  ghost predicate HasTag(items: seq<Val>, tag: string) {
    exists v :: v in items && TagOf(v) == tag
  }

  lemma EmittedHasTag(t: Table, tag: string)
    requires Consistent(t) && tag != ""
    ensures HasTag(Emitted(t), tag) <==> tag in t.byTag
  {
    var tags := EmittedTags(t.order, t.byTag);
    EmittedTagsFacts(t.order, t.byTag);
    if tag in t.byTag {
      var i :| 0 <= i < |tags| && tags[i] == tag;
      assert Emitted(t)[i] in Emitted(t) && TagOf(Emitted(t)[i]) == tag;
    }
    if HasTag(Emitted(t), tag) {
      var v :| v in Emitted(t) && TagOf(v) == tag;
      var i :| 0 <= i < |tags| && Emitted(t)[i] == v;
      assert tags[i] in t.byTag;
    }
  }

  lemma InstalledTags(items: seq<Val>, tag: string)
    ensures tag != "" ==> (HasTag(Installed(items), tag) <==> tag in FinalTable(items).byTag)
  {
    FinalConsistent(items);
    if tag != "" {
      EmittedHasTag(FinalTable(items), tag);
    }
  }

  /** Tags are unique, the built-in outbounds and groups are there, and "dns-out" is gone. */
  lemma {:induction false} InstalledShape(items: seq<Val>)
    ensures var r := Installed(items);
            (forall i, j | 0 <= i < j < |r| :: TagOf(r[i]) != TagOf(r[j]))
            && HasTag(r, "direct") && HasTag(r, "bypass") && HasTag(r, "block") && HasTag(r, "proxy")
            && HasTag(r, "whitelist") && HasTag(r, "blacklist") && !HasTag(r, "dns-out")
  {
    var t := FinalTable(items);
    EmittedTagsFacts(t.order, t.byTag);
    FinalConsistent(items);
    FinalSettled(items);
    InstalledTags(items, "direct");
    InstalledTags(items, "bypass");
    InstalledTags(items, "block");
    InstalledTags(items, "proxy");
    InstalledTags(items, "whitelist");
    InstalledTags(items, "blacklist");
    InstalledTags(items, "dns-out");
    var tags := EmittedTags(t.order, t.byTag);
    forall i | 0 <= i < |tags|
      ensures TagOf(Installed(items)[i]) == tags[i]
    {
      assert tags[i] in tags;
    }
  }

  /** Any other tagged outbound keeps its fields: those of its last occurrence. */
  lemma {:induction false} OthersKeepFields(items: seq<Val>, tag: string)
    requires tag in Scan(items).byTag && !IsInstalledTag(tag) && tag != "dns-out"
    ensures Map(Scan(items).byTag[tag]) in Installed(items)
  {
    var t := FinalTable(items);
    var tags := EmittedTags(t.order, t.byTag);
    FinalKeeps(items, tag);
    EmittedTagsFacts(t.order, t.byTag);
    FinalConsistent(items);
    var i :| 0 <= i < |tags| && tags[i] == tag;
    assert Installed(items)[i] == Map(Scan(items).byTag[tag]);
  }

  /** The scanned outbound under a tag is the last one of the list that carries it. */
  lemma {:induction false} ScanIsLast(items: seq<Val>, tag: string) returns (i: nat)
    requires tag in Scan(items).byTag
    ensures i < |items| && items[i] == Map(Scan(items).byTag[tag]) && TagOf(items[i]) == tag
    ensures forall j | i < j < |items| :: TagOf(items[j]) != tag
  {
    ScanConsistent(items);
    i := |items| - 1;
    if TagOf(items[i]) != tag {
      i := ScanIsLast(items[..|items| - 1], tag);
    }
  }

  lemma {:induction false} EmittedConcat(a: seq<string>, b: seq<string>, byTag: map<string, Object>)
    ensures EmittedTags(a, byTag) <= EmittedTags(a + b, byTag)
    decreases |b|
  {
    if b == [] {
      assert a + b == a;
    } else {
      var n := |b| - 1;
      assert (a + b)[..|a + b| - 1] == a + b[..n];
      EmittedConcat(a, b[..n], byTag);
    }
  }

  lemma OrderGrows(items: seq<Val>)
    ensures Scan(items).order <= FinalTable(items).order
  {
    FinalIsGrouped(items);
    BaseAt(items, "");
    GroupsAt(BaseTable(items), Members(items), "");
  }

  lemma EmittedOrder(t: Table, start: seq<string>)
    requires Consistent(t) && start <= t.order
    ensures var first := EmittedTags(start, t.byTag);
            |first| <= |Emitted(t)| && forall i | 0 <= i < |first| :: TagOf(Emitted(t)[i]) == first[i]
  {
    EmittedConcat(start, t.order[|start|..], t.byTag);
    assert start + t.order[|start|..] == t.order;
    EmittedTagsFacts(t.order, t.byTag);
    var tags := EmittedTags(t.order, t.byTag);
    assert forall i | 0 <= i < |tags| :: tags[i] in tags;
  }

  /** The outbounds of the list stay in front, in the order of their first occurrence. */
  lemma {:induction false} OrderKept(items: seq<Val>)
    ensures var t := FinalTable(items);
            var first := EmittedTags(Scan(items).order, t.byTag);
            |first| <= |Installed(items)|
            && forall i | 0 <= i < |first| :: TagOf(Installed(items)[i]) == first[i]
  {
    FinalConsistent(items);
    OrderGrows(items);
    EmittedOrder(FinalTable(items), Scan(items).order);
  }

  /** A group made by the installation has only members that are in the result, with one exception: a proxy
      or auto group still names an outbound of a proxy type that was tagged "dns-out" and dropped. */
  lemma {:induction false} NewGroupMembersPresentIff(items: seq<Val>, group: string)
    requires IsGroupTag(group) && group !in Scan(items).byTag && (group == "auto" ==> Members(items) != ["direct"])
    ensures var members := NewMembers(group, Members(items));
            MembersAre(FinalTable(items).byTag, group, members)
            && ((forall tag | tag in members :: HasTag(Installed(items), tag)) <==>
                  group == "whitelist" || group == "blacklist" || "dns-out" !in Candidates(items))
  {
    NewGroupMembers(items, group);
    if group == "whitelist" || group == "blacklist" {
      BuiltMembersPresent(items);
    } else {
      CandidatesPresent(items);
    }
  }

  lemma NewGroupMembers(items: seq<Val>, group: string)
    requires IsGroupTag(group) && group !in Scan(items).byTag && (group == "auto" ==> Members(items) != ["direct"])
    ensures MembersAre(FinalTable(items).byTag, group, NewMembers(group, Members(items)))
  {
    FinalIsGrouped(items);
    BaseAt(items, group);
    NewGroup(BaseTable(items), Members(items), group);
  }

  lemma BuiltMembersPresent(items: seq<Val>)
    ensures forall tag | tag in NewMembers("whitelist", []) :: HasTag(Installed(items), tag)
    ensures forall tag | tag in NewMembers("blacklist", []) :: HasTag(Installed(items), tag)
  {
    InstalledShape(items);
  }

  lemma CandidatesPresent(items: seq<Val>)
    ensures (forall tag | tag in Members(items) :: HasTag(Installed(items), tag)) <==> "dns-out" !in Candidates(items)
  {
    FinalSettled(items);
    forall tag | tag in Members(items)
      ensures HasTag(Installed(items), tag) <==> tag != "dns-out"
    {
      InstalledTags(items, tag);
      if tag in Candidates(items) {
        CandidateScanned(items, tag);
        if tag != "dns-out" {
          FinalHasScanned(items, tag);
        }
      }
    }
  }

  lemma FinalHasScanned(items: seq<Val>, tag: string)
    requires tag in Scan(items).byTag && tag != "dns-out"
    ensures tag in FinalTable(items).byTag
  {
    FinalIsGrouped(items);
    BaseAt(items, tag);
    GroupTagTypes(BaseTable(items), Members(items));
    GroupsAt(BaseTable(items), Members(items), tag);
  }

  /** One proxy tagged "dns-out" is enough: the new proxy group names just it, and it is dropped. */
  lemma DnsOutProxyIsDropped()
    ensures var items := [Map(map["type" := Str("vless"), "tag" := Str("dns-out")])];
            MembersAre(FinalTable(items).byTag, "proxy", ["dns-out"]) && !HasTag(Installed(items), "dns-out")
  {
    var items := [Map(map["type" := Str("vless"), "tag" := Str("dns-out")])];
    assert items[..0] == [];
    assert Candidates(items) == ["dns-out"];
    assert Scan(items).byTag == map["dns-out" := items[0].fields];
    NewGroupMembersPresentIff(items, "proxy");
    InstalledShape(items);
  }

  // ---- What of an existing outbound is kept ----

  /** The one field of a given outbound that an installation sets. */
  function Touched(tag: string, m: Object, members: seq<string>): Object {
    match tag
    case "direct" => m["routing_mark" := Int(128)]
    case "bypass" => m["routing_mark" := Int(128)]
    case "proxy" => m["type" := Str("selector")]
    case "whitelist" => m["type" := Str("selector")]
    case "blacklist" => m["type" := Str("selector")]
    case "auto" => if members == ["direct"] then m else m["type" := Str("urltest")]
    case _ => m
  }

  lemma ScanToBase(items: seq<Val>, tag: string)
    requires tag in Scan(items).byTag && tag != "dns-out"
    ensures tag in BaseTable(items).byTag
    ensures BaseTable(items).byTag[tag] ==
            if tag == "direct" || tag == "bypass" then Scan(items).byTag[tag]["routing_mark" := Int(128)]
            else Scan(items).byTag[tag]
  {
    var t := WithoutDns(WithBuiltins(Scan(items)));
    BuiltinsAt(Scan(items), tag);
    assert t.byTag[tag] == Scan(items).byTag[tag];
    MarkAt(t, "direct", tag);
    MarkAt(Marked(t, "direct"), "bypass", tag);
  }

  lemma UpsertTouches(t: Table, tag: string, kind: string, members: seq<string>)
    requires tag in t.byTag
    ensures UpsertGroup(t, tag, kind, members).byTag[tag] == t.byTag[tag]["type" := Str(kind)]
  {}

  lemma GroupsTouch(t: Table, members: seq<string>, tag: string)
    requires tag in t.byTag && tag != "direct" && tag != "bypass"
    ensures tag in WithGroups(t, members).byTag
    ensures WithGroups(t, members).byTag[tag] == Touched(tag, t.byTag[tag], members)
  {
    var a := UpsertGroup(t, "proxy", "selector", members);
    var b := if members != ["direct"] then UpsertGroup(a, "auto", "urltest", members) else a;
    var c := UpsertGroup(b, "whitelist", "selector", ["bypass", "proxy"]);
    GroupAt(t, "proxy", "selector", members, tag);
    GroupAt(a, "auto", "urltest", members, tag);
    GroupAt(b, "whitelist", "selector", ["bypass", "proxy"], tag);
    GroupAt(c, "blacklist", "selector", ["block", "proxy"], tag);
    match tag
    case "proxy" => UpsertTouches(t, "proxy", "selector", members);
    case "auto" => UpsertTouches(a, "auto", "urltest", members);
    case "whitelist" => UpsertTouches(b, "whitelist", "selector", ["bypass", "proxy"]);
    case "blacklist" => UpsertTouches(c, "blacklist", "selector", ["block", "proxy"]);
    case _ =>
  }

  /** A given outbound keeps every field but at most one: built-in direct outbounds get their mark and groups
      their type, so members and default of a user's group stay. */
  lemma {:induction false} ExistingKeepFields(items: seq<Val>, tag: string)
    requires tag in Scan(items).byTag && tag != "dns-out"
    ensures Map(Touched(tag, Scan(items).byTag[tag], Members(items))) in Installed(items)
  {
    FinalIsGrouped(items);
    ScanToBase(items, tag);
    if tag == "direct" || tag == "bypass" {
      GroupsAt(BaseTable(items), Members(items), tag);
    } else {
      GroupsTouch(BaseTable(items), Members(items), tag);
    }
    FinalConsistent(items);
    EmittedHolds(FinalTable(items), tag);
  }

  lemma EmittedHolds(t: Table, tag: string)
    requires Consistent(t) && tag in t.byTag
    ensures Map(t.byTag[tag]) in Emitted(t)
  {
    var tags := EmittedTags(t.order, t.byTag);
    EmittedTagsFacts(t.order, t.byTag);
    var i :| 0 <= i < |tags| && tags[i] == tag;
    assert Emitted(t)[i] == Map(t.byTag[tag]);
  }
}

/** What stands in the installed outbounds, told by the values of the entries. */
module OutboundBuiltins {
  import opened Wrappers
  import opened GoValue
  import opened OutboundDefaults

  // ---- Which outbounds the list has ----

  predicate IsTagged(v: Val, tag: string) {
    v.Map? && "tag" in v.fields && v.fields["tag"] == Str(tag)
  }

  ghost predicate AnyTagged(items: seq<Val>, tag: string) {
    exists v :: v in items && IsTagged(v, tag)
  }

  lemma TaggedOneOf(init: seq<Val>, last: Val, tag: string)
    ensures AnyTagged(init + [last], tag) <==> AnyTagged(init, tag) || IsTagged(last, tag)
  {
    var items := init + [last];
    if AnyTagged(init, tag) {
      var v :| v in init && IsTagged(v, tag);
      assert v in items;
    }
    if IsTagged(last, tag) {
      assert last in items;
    }
  }

  lemma {:induction false} ScanHasIff(items: seq<Val>, tag: string)
    ensures tag in Scan(items).byTag <==> tag != "" && AnyTagged(items, tag)
  {
    if items != [] {
      var init, last := items[..|items| - 1], items[|items| - 1];
      ScanHasIff(init, tag);
      assert items == init + [last];
      assert tag != "" ==> (TagOf(last) == tag <==> IsTagged(last, tag));
      assert AnyTagged(items, tag) <==> AnyTagged(init, tag) || IsTagged(last, tag) by {
        TaggedOneOf(init, last, tag);
      }
    }
  }

  /** A tagged outbound of a type of its own: neither built in, nor the DNS, nor a group. */
  ghost predicate IsProxy(v: Val) {
    && v.Map? && "tag" in v.fields && v.fields["tag"].Str? && v.fields["tag"].s != ""
    && "type" in v.fields && v.fields["type"].Str?
    && v.fields["type"].s !in {"", "direct", "block", "dns", "selector", "urltest"}
  }

  ghost function ProxyTag(v: Val): seq<string> {
    if IsProxy(v) then [v.fields["tag"].s] else []
  }

  /** The proxies are found in the order of the list. */
  lemma {:induction false} CandidatesOf(a: seq<Val>, v: Val, b: seq<Val>)
    ensures Candidates([]) == []
    ensures Candidates(a + [v] + b) == Candidates(a) + ProxyTag(v) + Candidates(b)
    decreases |b|
  {
    if b == [] {
      CandidatesAppend(a, v);
      assert a + [v] + b == a + [v];
    } else {
      var init, last := b[..|b| - 1], b[|b| - 1];
      assert a + [v] + b == (a + [v] + init) + [last] && b == init + [last];
      CandidatesOf(a, v, init);
      CandidatesAppend(a + [v] + init, last);
      CandidatesAppend(init, last);
    }
  }

  lemma {:induction false} CandidateIff(items: seq<Val>, tag: string)
    ensures tag in Candidates(items) <==> exists v :: v in items && IsProxy(v) && IsTagged(v, tag)
  {
    if items != [] {
      var init, last := items[..|items| - 1], items[|items| - 1];
      CandidateIff(init, tag);
      assert items == init + [last];
      assert tag in Candidates(items) <==> tag in Candidates(init) || (IsProxy(last) && IsTagged(last, tag));
      if v :| v in init && IsProxy(v) && IsTagged(v, tag) {
        assert v in items;
      }
    }
  }

  // ---- Built-in outbounds ----

  const MARKED_DIRECT: Object := map["tag" := Str("direct"), "type" := Str("direct"), "routing_mark" := Int(128)]
  const MARKED_BYPASS: Object := map["tag" := Str("bypass"), "type" := Str("direct"), "routing_mark" := Int(128)]
  const PLAIN_BLOCK: Object := map["tag" := Str("block"), "type" := Str("block")]

  lemma NewBuiltin(t: Table, tag: string, kind: string)
    requires tag !in t.byTag
    ensures HeldAt(EnsureBuiltin(t, tag, kind).byTag, tag) == Some(map["tag" := Str(tag), "type" := Str(kind)])
  {}

  /** What a table holds under a tag. */
  function HeldAt(byTag: map<string, Object>, tag: string): Option<Object> {
    if tag in byTag then Some(byTag[tag]) else None
  }

  lemma NewBuiltins(t: Table)
    ensures var next := WithBuiltins(t).byTag;
            && ("direct" !in t.byTag ==>
                  HeldAt(next, "direct") == Some(map["tag" := Str("direct"), "type" := Str("direct")]))
            && ("bypass" !in t.byTag ==>
                  HeldAt(next, "bypass") == Some(map["tag" := Str("bypass"), "type" := Str("direct")]))
            && ("block" !in t.byTag ==>
                  HeldAt(next, "block") == Some(map["tag" := Str("block"), "type" := Str("block")]))
  {
    var a := EnsureBuiltin(t, "direct", "direct");
    var b := EnsureBuiltin(a, "bypass", "direct");
    BuiltinAt(t, "direct", "direct", "bypass");
    BuiltinAt(t, "direct", "direct", "block");
    BuiltinAt(a, "bypass", "direct", "direct");
    BuiltinAt(a, "bypass", "direct", "block");
    BuiltinAt(b, "block", "block", "direct");
    BuiltinAt(b, "block", "block", "bypass");
    if "direct" !in t.byTag {
      NewBuiltin(t, "direct", "direct");
    }
    if "bypass" !in t.byTag {
      NewBuiltin(a, "bypass", "direct");
    }
    if "block" !in t.byTag {
      NewBuiltin(b, "block", "block");
    }
  }

  lemma MarksOfNew(t: Table)
    ensures var next := Marks(WithoutDns(t)).byTag;
            && (HeldAt(t.byTag, "direct") == Some(map["tag" := Str("direct"), "type" := Str("direct")]) ==>
                  HeldAt(next, "direct") == Some(MARKED_DIRECT))
            && (HeldAt(t.byTag, "bypass") == Some(map["tag" := Str("bypass"), "type" := Str("direct")]) ==>
                  HeldAt(next, "bypass") == Some(MARKED_BYPASS))
            && HeldAt(next, "block") == HeldAt(t.byTag, "block")
  {
    var u := WithoutDns(t);
    MarkAt(u, "direct", "bypass");
    MarkAt(u, "direct", "block");
    MarkAt(Marked(u, "direct"), "bypass", "direct");
    MarkAt(Marked(u, "direct"), "bypass", "block");
  }

  lemma FinalBuiltins(items: seq<Val>)
    ensures var next := FinalTable(items).byTag;
            && ("direct" !in Scan(items).byTag ==> HeldAt(next, "direct") == Some(MARKED_DIRECT))
            && ("bypass" !in Scan(items).byTag ==> HeldAt(next, "bypass") == Some(MARKED_BYPASS))
            && ("block" !in Scan(items).byTag ==> HeldAt(next, "block") == Some(PLAIN_BLOCK))
  {
    NewBuiltins(Scan(items));
    MarksOfNew(WithBuiltins(Scan(items)));
    GroupsAt(BaseTable(items), Members(items), "direct");
    GroupsAt(BaseTable(items), Members(items), "bypass");
    GroupsAt(BaseTable(items), Members(items), "block");
    FinalIsGrouped(items);
  }

  lemma FinalStands(items: seq<Val>, tag: string, fields: Object)
    requires HeldAt(FinalTable(items).byTag, tag) == Some(fields)
    ensures Map(fields) in Installed(items)
  {
    FinalConsistent(items);
    EmittedHolds(FinalTable(items), tag);
  }

  /** A built-in outbound that the list does not have is added with exactly these fields: "direct" and "bypass"
      connect directly and are marked, "block" drops. */
  lemma {:induction false} MissingBuiltins(items: seq<Val>)
    ensures !AnyTagged(items, "direct") ==>
              Map(map["tag" := Str("direct"), "type" := Str("direct"), "routing_mark" := Int(128)]) in Installed(items)
    ensures !AnyTagged(items, "bypass") ==>
              Map(map["tag" := Str("bypass"), "type" := Str("direct"), "routing_mark" := Int(128)]) in Installed(items)
    ensures !AnyTagged(items, "block") ==>
              Map(map["tag" := Str("block"), "type" := Str("block")]) in Installed(items)
  {
    FinalBuiltins(items);
    ScanHasIff(items, "direct");
    ScanHasIff(items, "bypass");
    ScanHasIff(items, "block");
    if !AnyTagged(items, "direct") {
      FinalStands(items, "direct", MARKED_DIRECT);
    }
    if !AnyTagged(items, "bypass") {
      FinalStands(items, "bypass", MARKED_BYPASS);
    }
    if !AnyTagged(items, "block") {
      FinalStands(items, "block", PLAIN_BLOCK);
    }
  }

  // ---- Groups ----

  lemma NewGroupFields(t: Table, tag: string, kind: string, members: seq<string>)
    requires tag !in t.byTag
    ensures HeldAt(UpsertGroup(t, tag, kind, members).byTag, tag) ==
            Some(map["tag" := Str(tag), "type" := Str(kind), "outbounds" := Strings(members)])
  {}

  lemma NewGroups(t: Table, members: seq<string>)
    ensures var next := WithGroups(t, members).byTag;
            && ("proxy" !in t.byTag ==>
                  HeldAt(next, "proxy") ==
                  Some(map["tag" := Str("proxy"), "type" := Str("selector"), "outbounds" := Strings(members)]))
            && ("auto" !in t.byTag ==>
                  HeldAt(next, "auto") ==
                  if members == ["direct"] then None
                  else Some(map["tag" := Str("auto"), "type" := Str("urltest"), "outbounds" := Strings(members)]))
            && ("whitelist" !in t.byTag ==>
                  HeldAt(next, "whitelist") ==
                  Some(map["tag" := Str("whitelist"), "type" := Str("selector"),
                           "outbounds" := Strings(["bypass", "proxy"])]))
            && ("blacklist" !in t.byTag ==>
                  HeldAt(next, "blacklist") ==
                  Some(map["tag" := Str("blacklist"), "type" := Str("selector"),
                           "outbounds" := Strings(["block", "proxy"])]))
  {
    var a := UpsertGroup(t, "proxy", "selector", members);
    var b := if members != ["direct"] then UpsertGroup(a, "auto", "urltest", members) else a;
    var c := UpsertGroup(b, "whitelist", "selector", ["bypass", "proxy"]);
    NewGroupsAt(t, a, b, c, members, "proxy");
    NewGroupsAt(t, a, b, c, members, "auto");
    NewGroupsAt(t, a, b, c, members, "whitelist");
    NewGroupsAt(t, a, b, c, members, "blacklist");
    if "proxy" !in t.byTag {
      NewGroupFields(t, "proxy", "selector", members);
    }
    if "auto" !in t.byTag {
      NewGroupFields(a, "auto", "urltest", members);
    }
    if "whitelist" !in t.byTag {
      NewGroupFields(b, "whitelist", "selector", ["bypass", "proxy"]);
    }
    if "blacklist" !in t.byTag {
      NewGroupFields(c, "blacklist", "selector", ["block", "proxy"]);
    }
  }

  /** Each step leaves the other tags alone. */
  lemma NewGroupsAt(t: Table, a: Table, b: Table, c: Table, members: seq<string>, tag: string)
    requires a == UpsertGroup(t, "proxy", "selector", members)
    requires b == if members != ["direct"] then UpsertGroup(a, "auto", "urltest", members) else a
    requires c == UpsertGroup(b, "whitelist", "selector", ["bypass", "proxy"])
    ensures tag != "proxy" ==> HeldAt(a.byTag, tag) == HeldAt(t.byTag, tag)
    ensures tag != "auto" || members == ["direct"] ==> HeldAt(b.byTag, tag) == HeldAt(a.byTag, tag)
    ensures tag != "whitelist" ==> HeldAt(c.byTag, tag) == HeldAt(b.byTag, tag)
    ensures tag != "blacklist" ==> HeldAt(WithGroups(t, members).byTag, tag) == HeldAt(c.byTag, tag)
  {
    GroupAt(t, "proxy", "selector", members, tag);
    GroupAt(a, "auto", "urltest", members, tag);
    GroupAt(b, "whitelist", "selector", ["bypass", "proxy"], tag);
    GroupAt(c, "blacklist", "selector", ["block", "proxy"], tag);
  }

  lemma BaseHas(items: seq<Val>, tag: string)
    requires tag in {"proxy", "auto", "whitelist", "blacklist"}
    ensures tag in BaseTable(items).byTag <==> AnyTagged(items, tag)
  {
    BaseAt(items, tag);
    ScanHasIff(items, tag);
  }

  /** A group that the list does not have is added with exactly these fields. The proxies of the list are the members
      of "proxy" and "auto"; without any, "direct" is the only member of "proxy" and no "auto" is added. */
  lemma {:induction false} MissingGroups(items: seq<Val>, members: seq<string>)
    requires members == if Candidates(items) == [] then ["direct"] else Candidates(items)
    ensures !AnyTagged(items, "proxy") ==>
              Map(map["tag" := Str("proxy"), "type" := Str("selector"), "outbounds" := Strings(members)])
              in Installed(items)
    ensures !AnyTagged(items, "auto") ==>
              if members == ["direct"] then !AnyTagged(Installed(items), "auto")
              else Map(map["tag" := Str("auto"), "type" := Str("urltest"), "outbounds" := Strings(members)])
                   in Installed(items)
    ensures !AnyTagged(items, "whitelist") ==>
              Map(map["tag" := Str("whitelist"), "type" := Str("selector"),
                      "outbounds" := Strings(["bypass", "proxy"])]) in Installed(items)
    ensures !AnyTagged(items, "blacklist") ==>
              Map(map["tag" := Str("blacklist"), "type" := Str("selector"),
                      "outbounds" := Strings(["block", "proxy"])]) in Installed(items)
  {
    FinalIsGrouped(items);
    NewGroups(BaseTable(items), members);
    GroupStands(items, "proxy");
    GroupStands(items, "whitelist");
    GroupStands(items, "blacklist");
    GroupStands(items, "auto");
    if members == ["direct"] && !AnyTagged(items, "auto") {
      InstalledTags(items, "auto");
      BaseHas(items, "auto");
    }
  }

  lemma GroupStands(items: seq<Val>, tag: string)
    requires tag in {"proxy", "auto", "whitelist", "blacklist"}
    ensures tag in BaseTable(items).byTag <==> AnyTagged(items, tag)
    ensures tag in FinalTable(items).byTag ==> Map(FinalTable(items).byTag[tag]) in Installed(items)
  {
    BaseHas(items, tag);
    if tag in FinalTable(items).byTag {
      FinalStands(items, tag, FinalTable(items).byTag[tag]);
    }
  }

  // ---- Outbounds of the list ----

  /** The last outbound of the list with a tag stands in the result with all its fields but one: "direct" and
      "bypass" are marked, the four groups get their type. */
  lemma {:induction false} ExistingStands(items: seq<Val>, i: nat, tag: string, members: seq<string>)
    requires members == if Candidates(items) == [] then ["direct"] else Candidates(items)
    requires i < |items| && tag != "" && tag != "dns-out" && IsTagged(items[i], tag)
    requires forall j | i < j < |items| :: !IsTagged(items[j], tag)
    ensures Map(Touched(tag, items[i].fields, members)) in Installed(items)
  {
    ScanIs(items, i, tag);
    ExistingKeepFields(items, tag);
  }

  lemma ScanIs(items: seq<Val>, i: nat, tag: string)
    requires i < |items| && tag != "" && IsTagged(items[i], tag)
    requires forall j | i < j < |items| :: !IsTagged(items[j], tag)
    ensures tag in Scan(items).byTag && Scan(items).byTag[tag] == items[i].fields
  {
    assert items[i] in items;
    ScanHasIff(items, tag);
    var k := ScanIsLast(items, tag);
    assert IsTagged(items[k], tag);
  }

  /** Nothing else is in the result: every entry has one of the seven tags, or a tag of the list other than
      "dns-out". */
  lemma NothingElse(items: seq<Val>, v: Val)
    requires v in Installed(items)
    ensures exists tag :: IsTagged(v, tag) && tag != "dns-out"
                          && (AnyTagged(items, tag)
                              || tag in {"direct", "bypass", "block", "proxy", "auto", "whitelist", "blacklist"})
  {
    var t := FinalTable(items);
    FinalConsistent(items);
    EmittedTagsFacts(t.order, t.byTag);
    var i :| 0 <= i < |Installed(items)| && Installed(items)[i] == v;
    var tag := EmittedTags(t.order, t.byTag)[i];
    assert tag in EmittedTags(t.order, t.byTag);
    FinalSettled(items);
    if !IsInstalledTag(tag) {
      FinalKeeps(items, tag);
      ScanHasIff(items, tag);
    }
    assert IsTagged(v, tag);
  }
}

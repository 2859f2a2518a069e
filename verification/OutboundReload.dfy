/** Installing the default outbounds when the configuration is saved and read between the installations:
    the integer 128 and the lists of members come back as a float and as generic lists. */
module OutboundReload {
  import opened Wrappers
  import opened GoValue
  import opened OutboundDefaults

  function Reloaded(t: Table): Table {
    Table(map tag | tag in t.byTag :: RedecodeFields(t.byTag[tag]), t.order)
  }

  /** The two tables are written as the same JSON. */
  ghost predicate Same(t: Table, u: Table) {
    Reloaded(t) == Reloaded(u)
  }

  lemma FieldsIdempotent(m: Object)
    ensures RedecodeFields(RedecodeFields(m)) == RedecodeFields(m)
  {
    forall key | key in m
      ensures Redecode(Redecode(m[key])) == Redecode(m[key])
    {
      RedecodeIdempotent(m[key]);
    }
  }

  lemma ReloadedIsSame(t: Table)
    ensures Same(Reloaded(t), t)
  {
    forall tag | tag in t.byTag
      ensures RedecodeFields(RedecodeFields(t.byTag[tag])) == RedecodeFields(t.byTag[tag])
    {
      FieldsIdempotent(t.byTag[tag]);
    }
    assert Reloaded(Reloaded(t)).byTag == Reloaded(t).byTag;
  }

  lemma SameAt(t: Table, u: Table, tag: string)
    requires Same(t, u)
    ensures t.order == u.order && (tag in t.byTag <==> tag in u.byTag)
    ensures tag in t.byTag ==> RedecodeFields(t.byTag[tag]) == RedecodeFields(u.byTag[tag])
  {
    assert tag in Reloaded(t).byTag <==> tag in t.byTag;
    assert tag in Reloaded(u).byTag <==> tag in u.byTag;
    assert tag in t.byTag ==> Reloaded(t).byTag[tag] == RedecodeFields(t.byTag[tag]);
    assert tag in u.byTag ==> Reloaded(u).byTag[tag] == RedecodeFields(u.byTag[tag]);
  }

  lemma SameFromEntries(t: Table, u: Table)
    requires t.order == u.order && forall tag :: tag in t.byTag <==> tag in u.byTag
    requires forall tag | tag in t.byTag :: RedecodeFields(t.byTag[tag]) == RedecodeFields(u.byTag[tag])
    ensures Same(t, u)
  {
    assert Reloaded(t).byTag == Reloaded(u).byTag;
  }

  /** Writing entries that are the same JSON under one tag keeps two tables the same. */
  lemma UpdateSame(t: Table, u: Table, tag: string, m: Object, n: Object, order: seq<string>)
    requires Same(t, u) && RedecodeFields(m) == RedecodeFields(n)
    ensures Same(Table(t.byTag[tag := m], order), Table(u.byTag[tag := n], order))
  {
    forall other
      ensures other in t.byTag <==> other in u.byTag
      ensures other in t.byTag ==> RedecodeFields(t.byTag[other]) == RedecodeFields(u.byTag[other])
    {
      SameAt(t, u, other);
    }
    SameFromEntries(Table(t.byTag[tag := m], order), Table(u.byTag[tag := n], order));
  }

  lemma FieldSame(m: Object, n: Object, key: string, v: Val)
    requires RedecodeFields(m) == RedecodeFields(n)
    ensures RedecodeFields(m[key := v]) == RedecodeFields(n[key := v])
  {
    forall other
      ensures other in m <==> other in n
      ensures other in m ==> Redecode(m[other]) == Redecode(n[other])
    {
      assert other in m <==> other in RedecodeFields(m);
      assert other in n <==> other in RedecodeFields(n);
      assert other in m ==> RedecodeFields(m)[other] == Redecode(m[other]);
      assert other in n ==> RedecodeFields(n)[other] == Redecode(n[other]);
    }
  }

  lemma BuiltinSame(t: Table, u: Table, tag: string, kind: string)
    requires Same(t, u)
    ensures Same(EnsureBuiltin(t, tag, kind), EnsureBuiltin(u, tag, kind))
  {
    SameAt(t, u, tag);
    var entry: Object := map["tag" := Str(tag), "type" := Str(kind)];
    UpdateSame(t, u, tag, entry, entry, t.order + [tag]);
  }

  lemma MarkSame(t: Table, u: Table, tag: string)
    requires Same(t, u)
    ensures Same(Marked(t, tag), Marked(u, tag))
  {
    SameAt(t, u, tag);
    if tag in t.byTag {
      FieldSame(t.byTag[tag], u.byTag[tag], "routing_mark", Int(128));
      UpdateSame(t, u, tag, t.byTag[tag]["routing_mark" := Int(128)], u.byTag[tag]["routing_mark" := Int(128)],
                 t.order);
    }
  }

  lemma GroupSame(t: Table, u: Table, tag: string, kind: string, members: seq<string>)
    requires Same(t, u)
    ensures Same(UpsertGroup(t, tag, kind, members), UpsertGroup(u, tag, kind, members))
  {
    SameAt(t, u, tag);
    if tag in t.byTag {
      FieldSame(t.byTag[tag], u.byTag[tag], "type", Str(kind));
      UpdateSame(t, u, tag, t.byTag[tag]["type" := Str(kind)], u.byTag[tag]["type" := Str(kind)], t.order);
    } else {
      var entry: Object := map["tag" := Str(tag), "type" := Str(kind), "outbounds" := Strings(members)];
      UpdateSame(t, u, tag, entry, entry, t.order + [tag]);
    }
  }

  lemma WithoutDnsSame(t: Table, u: Table)
    requires Same(t, u)
    ensures Same(WithoutDns(t), WithoutDns(u))
  {
    forall tag
      ensures tag in t.byTag <==> tag in u.byTag
      ensures tag in t.byTag ==> RedecodeFields(t.byTag[tag]) == RedecodeFields(u.byTag[tag])
    {
      SameAt(t, u, tag);
    }
    SameAt(t, u, "");
    SameFromEntries(WithoutDns(t), WithoutDns(u));
  }

  lemma BuiltinsSame(t: Table, u: Table)
    requires Same(t, u)
    ensures Same(WithBuiltins(t), WithBuiltins(u))
  {
    var a, b := EnsureBuiltin(t, "direct", "direct"), EnsureBuiltin(u, "direct", "direct");
    BuiltinSame(t, u, "direct", "direct");
    BuiltinSame(a, b, "bypass", "direct");
    BuiltinSame(EnsureBuiltin(a, "bypass", "direct"), EnsureBuiltin(b, "bypass", "direct"), "block", "block");
  }

  lemma MarksSame(t: Table, u: Table)
    requires Same(t, u)
    ensures Same(Marks(t), Marks(u))
  {
    MarkSame(t, u, "direct");
    MarkSame(Marked(t, "direct"), Marked(u, "direct"), "bypass");
  }

  lemma GroupsSame(t: Table, u: Table, members: seq<string>)
    requires Same(t, u)
    ensures Same(WithGroups(t, members), WithGroups(u, members))
  {
    var a, a' := UpsertGroup(t, "proxy", "selector", members), UpsertGroup(u, "proxy", "selector", members);
    GroupSame(t, u, "proxy", "selector", members);
    GroupSame(a, a', "auto", "urltest", members);
    var b := if members != ["direct"] then UpsertGroup(a, "auto", "urltest", members) else a;
    var b' := if members != ["direct"] then UpsertGroup(a', "auto", "urltest", members) else a';
    GroupSame(b, b', "whitelist", "selector", ["bypass", "proxy"]);
    GroupSame(UpsertGroup(b, "whitelist", "selector", ["bypass", "proxy"]),
              UpsertGroup(b', "whitelist", "selector", ["bypass", "proxy"]),
              "blacklist", "selector", ["block", "proxy"]);
  }

  // ---- Reading and emitting ----

  lemma RedecodeAllPrefix(items: seq<Val>)
    requires items != []
    ensures RedecodeAll(items)[..|items| - 1] == RedecodeAll(items[..|items| - 1])
  {}

  lemma RedecodedTags(v: Val)
    ensures TagOf(Redecode(v)) == TagOf(v) && TypeOf(Redecode(v)) == TypeOf(v)
    ensures v.Map? ==> Redecode(v) == Map(RedecodeFields(v.fields))
  {}

  lemma {:induction false} ScanReloaded(items: seq<Val>)
    ensures Scan(RedecodeAll(items)) == Reloaded(Scan(items))
    ensures Candidates(RedecodeAll(items)) == Candidates(items)
  {
    if items != [] {
      var last := items[|items| - 1];
      RedecodeAllPrefix(items);
      RedecodedTags(last);
      ScanReloaded(items[..|items| - 1]);
      ScanLast(items);
      ScanLast(RedecodeAll(items));
      if TagOf(last) != "" {
        ReloadedUpdate(Scan(items[..|items| - 1]), TagOf(last), last.fields);
      }
    }
  }

  lemma ScanLast(items: seq<Val>)
    requires items != []
    ensures var before, last := Scan(items[..|items| - 1]), items[|items| - 1];
            Scan(items) == if TagOf(last) == "" then before
                           else Table(before.byTag[TagOf(last) := last.fields], before.order + [TagOf(last)])
  {}

  lemma ReloadedUpdate(t: Table, tag: string, m: Object)
    ensures Reloaded(Table(t.byTag[tag := m], t.order + [tag])) ==
            Table(Reloaded(t).byTag[tag := RedecodeFields(m)], t.order + [tag])
  {}

  lemma {:induction false} EmittedTagsSame(order: seq<string>, a: map<string, Object>, b: map<string, Object>)
    requires forall tag :: tag in a <==> tag in b
    ensures EmittedTags(order, a) == EmittedTags(order, b)
  {
    if order != [] {
      EmittedTagsSame(order[..|order| - 1], a, b);
    }
  }

  lemma EmittedSame(t: Table, u: Table)
    requires Same(t, u)
    ensures RedecodeAll(Emitted(t)) == RedecodeAll(Emitted(u))
  {
    forall tag
      ensures tag in t.byTag <==> tag in u.byTag
      ensures tag in t.byTag ==> Redecode(Map(t.byTag[tag])) == Redecode(Map(u.byTag[tag]))
    {
      SameAt(t, u, tag);
      if tag in t.byTag {
        RedecodedTags(Map(t.byTag[tag]));
        RedecodedTags(Map(u.byTag[tag]));
      }
    }
    SameAt(t, u, "");
    EmittedTagsSame(t.order, t.byTag, u.byTag);
    EmittedTagsFacts(t.order, t.byTag);
    var tags := EmittedTags(t.order, t.byTag);
    assert forall i | 0 <= i < |tags| :: tags[i] in tags;
  }

  // ---- The theorems ----

  lemma FinalSame(items: seq<Val>)
    ensures Same(FinalTable(RedecodeAll(items)), FinalTable(items))
  {
    var t, u := Scan(RedecodeAll(items)), Scan(items);
    ScanReloaded(items);
    ReloadedIsSame(u);
    BuiltinsSame(t, u);
    WithoutDnsSame(WithBuiltins(t), WithBuiltins(u));
    MarksSame(WithoutDns(WithBuiltins(t)), WithoutDns(WithBuiltins(u)));
    GroupsSame(BaseTable(RedecodeAll(items)), BaseTable(items), Members(items));
    FinalIsGrouped(items);
    FinalIsGrouped(RedecodeAll(items));
  }

  /** Installing into a list that was saved and read writes the same JSON as installing into the list. */
  lemma {:induction false} InstallAfterReload(items: seq<Val>)
    ensures RedecodeAll(Installed(RedecodeAll(items))) == RedecodeAll(Installed(items))
  {
    FinalSame(items);
    EmittedSame(FinalTable(RedecodeAll(items)), FinalTable(items));
  }

  /** Outbounds after `n` rounds of installing, saving and reading. */
  function Rounds(items: seq<Val>, n: nat): seq<Val> {
    if n == 0 then items else RedecodeAll(Installed(Rounds(items, n - 1)))
  }

  /** However often the defaults are installed, saved and read: all rounds after the first change nothing. */
  lemma {:induction false} ReinstallingChangesNothing(items: seq<Val>, n: nat)
    requires n > 0
    ensures Rounds(items, n) == RedecodeAll(Installed(items))
  {
    if n > 1 {
      ReinstallingChangesNothing(items, n - 1);
      InstallAfterReload(Installed(items));
      InstallIdempotent(items);
    } else {
      assert Rounds(items, 0) == items;
    }
  }
}

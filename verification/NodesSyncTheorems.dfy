/** What one sync does to the outbounds, and when a second one changes nothing. */
module NodesSyncTheorems {
  import opened Wrappers
  import opened GoValue
  import opened NodesSync

  /** Managed tags are distinct and clash with no subscription name and not with "proxy"; raw
      configurations set neither type nor tag; subscriptions with members have a name other than "proxy". */
  ghost predicate TagsOk(input: Input) {
    && DistinctTags(Managed(input))
    && (forall o | o in Managed(input) :: OutboundOk(o, input.subscriptions))
    && (forall s | s in input.subscriptions && ProxyTags(s.outbounds) != [] :: s.name != "" && s.name != "proxy")
  }

  ghost predicate DistinctTags(managed: seq<Outbound>) {
    forall i, j | 0 <= i < j < |managed| :: managed[i].tag == "" || managed[i].tag != managed[j].tag
  }

  ghost predicate OutboundOk(o: Outbound, subscriptions: seq<Subscription>) {
    && o.tag != "proxy" && "type" !in RawFields(o) && "tag" !in RawFields(o)
    && (o.tag == "" || forall s | s in subscriptions :: s.name != o.tag)
  }

  // ---- Entries ----

  lemma BuiltFacts(existing: Option<Object>, o: Outbound)
    requires "type" !in RawFields(o) && "tag" !in RawFields(o)
    ensures TypeOf(Map(Built(existing, o))) == o.kind && TagOf(Map(Built(existing, o))) == o.tag
  {}

  /** Building an outbound on top of its own earlier result changes nothing. */
  lemma BuiltIdempotent(existing: Option<Object>, o: Outbound)
    ensures Built(Some(Built(existing, o)), o) == Built(existing, o)
  {
    var once := Built(existing, o);
    var twice := Built(Some(once), o);
    forall key
      ensures key in once <==> key in twice
      ensures key in once ==> once[key] == twice[key]
    {}
  }

  /** Two entries agree outside the fields a group sets. */
  ghost predicate SameExtras(a: Option<Object>, b: Option<Object>) {
    var x := if a.Some? then a.value else map[];
    var y := if b.Some? then b.value else map[];
    x - GROUP_KEYS == y - GROUP_KEYS
  }

  const GROUP_KEYS := {"type", "tag", "outbounds", "url", "interval", "tolerance"}

  lemma GroupFacts(existing: Option<Object>, s: Subscription, defaults: URLTest)
    ensures var entry := GroupEntry(existing, s, defaults);
            TagOf(Map(entry)) == s.name && IsGroupType(TypeOf(Map(entry))) && SameExtras(Some(entry), existing)
  {
    var base := if existing.Some? then existing.value else map[];
    var entry := GroupEntry(existing, s, defaults);
    assert entry - GROUP_KEYS == base - GROUP_KEYS;
  }

  lemma GroupDependsOnExtras(a: Option<Object>, b: Option<Object>, s: Subscription, defaults: URLTest)
    requires SameExtras(a, b)
    ensures GroupEntry(a, s, defaults) == GroupEntry(b, s, defaults)
  {
    var x := if a.Some? then a.value else map[];
    var y := if b.Some? then b.value else map[];
    var gx, gy := GroupEntry(a, s, defaults), GroupEntry(b, s, defaults);
    forall key
      ensures key in gx <==> key in gy
      ensures key in gx ==> gx[key] == gy[key]
    {
      assert key in x - GROUP_KEYS <==> key in y - GROUP_KEYS;
      if key in x - GROUP_KEYS {
        assert (x - GROUP_KEYS)[key] == (y - GROUP_KEYS)[key];
      }
    }
  }

  // ---- Lists ----

  lemma {:induction false} KeptConcat(a: seq<Val>, b: seq<Val>, groups: set<string>)
    ensures Kept(a + b, groups) == Kept(a, groups) + Kept(b, groups)
  {
    if a == [] {
      assert a + b == b;
    } else {
      KeptConcat(a[1..], b, groups);
      KeptHead(a, b, groups);
    }
  }

  lemma KeptHead(a: seq<Val>, b: seq<Val>, groups: set<string>)
    requires a != []
    ensures Kept(a + b, groups) == KeptOne(a[0], groups) + Kept(a[1..] + b, groups)
  {
    assert (a + b)[1..] == a[1..] + b;
  }

  lemma {:induction false} KeptMembers(a: seq<Val>, groups: set<string>)
    ensures forall v :: v in Kept(a, groups) <==> v in a && !Replaced(v, groups)
  {
    if a != [] {
      KeptMembers(a[1..], groups);
    }
  }

  lemma {:induction false} KeptAll(a: seq<Val>, groups: set<string>)
    requires forall v | v in a :: !Replaced(v, groups)
    ensures Kept(a, groups) == a
  {
    if a != [] {
      KeptAll(a[1..], groups);
    }
  }

  lemma {:induction false} KeptNone(a: seq<Val>, groups: set<string>)
    requires forall v | v in a :: Replaced(v, groups)
    ensures Kept(a, groups) == []
  {
    if a != [] {
      KeptNone(a[1..], groups);
    }
  }

  /** What was kept once is kept again when fewer groups are managed. */
  lemma KeptAgain(a: seq<Val>, groups: set<string>, fewer: set<string>)
    requires fewer <= groups
    ensures Kept(Kept(a, groups), fewer) == Kept(a, groups)
  {
    KeptMembers(a, groups);
    KeptAll(Kept(a, groups), fewer);
  }

  lemma {:induction false} LastConcat(a: seq<Val>, b: seq<Val>, tag: string)
    ensures LastByTag(a + b, tag) == if LastByTag(b, tag).Some? then LastByTag(b, tag) else LastByTag(a, tag)
    decreases |b|
  {
    if b == [] {
      assert a + b == a;
    } else {
      var n := |b| - 1;
      assert (a + b)[..|a + b| - 1] == a + b[..n];
      LastConcat(a, b[..n], tag);
    }
  }

  lemma {:induction false} LastNone(a: seq<Val>, tag: string)
    requires forall v | v in a :: TagOf(v) != tag
    ensures LastByTag(a, tag) == None
  {
    if a != [] {
      LastNone(a[..|a| - 1], tag);
    }
  }

  lemma {:induction false} LastUnique(a: seq<Val>, tag: string, i: nat)
    requires i < |a| && tag != "" && a[i].Map? && TagOf(a[i]) == tag
    requires forall j | 0 <= j < |a| && j != i :: TagOf(a[j]) != tag
    ensures LastByTag(a, tag) == Some(a[i].fields)
  {
    if i < |a| - 1 {
      LastUnique(a[..|a| - 1], tag, i);
    }
  }

  lemma {:induction false} GroupEntryMembers(existing: seq<Val>, subscriptions: seq<Subscription>, defaults: URLTest)
    ensures forall v | v in GroupEntries(existing, subscriptions, defaults) ::
      exists s :: s in subscriptions && ProxyTags(s.outbounds) != []
                  && v == Map(GroupEntry(LastByTag(existing, s.name), s, defaults))
  {
    if subscriptions != [] {
      GroupEntryMembers(existing, subscriptions[1..], defaults);
      forall v | v in GroupEntries(existing, subscriptions, defaults)
        ensures exists s :: s in subscriptions && ProxyTags(s.outbounds) != []
                            && v == Map(GroupEntry(LastByTag(existing, s.name), s, defaults))
      {
        if v in GroupEntries(existing, subscriptions[1..], defaults) {
          var s :| s in subscriptions[1..] && ProxyTags(s.outbounds) != []
                   && v == Map(GroupEntry(LastByTag(existing, s.name), s, defaults));
          assert s in subscriptions;
        } else {
          assert subscriptions[0] in subscriptions;
        }
      }
    }
  }

  lemma {:induction false} GroupTagMembers(subscriptions: seq<Subscription>)
    ensures forall tag :: tag in GroupTags(subscriptions) <==>
      exists s :: s in subscriptions && ProxyTags(s.outbounds) != [] && s.name == tag
  {
    if subscriptions != [] {
      GroupTagMembers(subscriptions[1..]);
      forall tag
        ensures tag in GroupTags(subscriptions) <==>
          exists s :: s in subscriptions && ProxyTags(s.outbounds) != [] && s.name == tag
      {
        if tag in GroupTags(subscriptions[1..]) {
          var s :| s in subscriptions[1..] && ProxyTags(s.outbounds) != [] && s.name == tag;
          assert s in subscriptions;
        }
        if s :| s in subscriptions && ProxyTags(s.outbounds) != [] && s.name == tag {
          assert s == subscriptions[0] || s in subscriptions[1..];
        }
      }
    }
  }

  // ---- The shape of a synced list ----

  function Selector(members: seq<string>): seq<Val> {
    if members == [] then [] else [SelectorEntry(members)]
  }

  lemma NoSelectorUpsert(outbounds: seq<Val>, members: seq<string>)
    requires forall v | v in outbounds :: !IsProxySelector(v)
    ensures Upserted(outbounds, members) == outbounds + Selector(members)
  {
    assert FirstProxySelector(outbounds) == |outbounds|;
  }

  lemma BuiltMembers(existing: seq<Val>, input: Input)
    requires TagsOk(input)
    ensures forall i | 0 <= i < |Managed(input)| ::
      var v := AllBuilt(existing, Managed(input))[i];
      v.Map? && TypeOf(v) == Managed(input)[i].kind && TagOf(v) == Managed(input)[i].tag
  {
    forall i | 0 <= i < |Managed(input)|
      ensures var v := AllBuilt(existing, Managed(input))[i];
              v.Map? && TypeOf(v) == Managed(input)[i].kind && TagOf(v) == Managed(input)[i].tag
    {
      var o := Managed(input)[i];
      assert o in Managed(input);
      BuiltFacts(LastByTag(existing, o.tag), o);
    }
  }

  lemma GroupsShape(existing: seq<Val>, input: Input)
    requires TagsOk(input)
    ensures forall v | v in GroupEntries(existing, input.subscriptions, input.defaults) ::
      v.Map? && IsGroupType(TypeOf(v)) && TagOf(v) in GroupTags(input.subscriptions)
      && TagOf(v) != "" && TagOf(v) != "proxy"
  {
    GroupEntryMembers(existing, input.subscriptions, input.defaults);
    GroupTagMembers(input.subscriptions);
    forall v | v in GroupEntries(existing, input.subscriptions, input.defaults)
      ensures v.Map? && IsGroupType(TypeOf(v)) && TagOf(v) in GroupTags(input.subscriptions)
              && TagOf(v) != "" && TagOf(v) != "proxy"
    {
      var s :| s in input.subscriptions && ProxyTags(s.outbounds) != []
               && v == Map(GroupEntry(LastByTag(existing, s.name), s, input.defaults));
      GroupFacts(LastByTag(existing, s.name), s, input.defaults);
    }
  }

  /** None of the outbounds in front of it is a proxy selector. */
  lemma NothingSelects(existing: seq<Val>, previous: seq<string>, input: Input)
    requires TagsOk(input)
    ensures forall v | v in Base(existing, previous, input)
                            + GroupEntries(existing, input.subscriptions, input.defaults) :: !IsProxySelector(v)
  {
    var groups := ManagedGroups(previous, input.subscriptions);
    var base, entries := Base(existing, previous, input), GroupEntries(existing, input.subscriptions, input.defaults);
    forall v | v in base + entries
      ensures !IsProxySelector(v)
    {
      KeptMembers(existing, groups);
      BuiltMembers(existing, input);
      GroupsShape(existing, input);
      if v in AllBuilt(existing, Managed(input)) {
        var i :| 0 <= i < |Managed(input)| && AllBuilt(existing, Managed(input))[i] == v;
        assert Managed(input)[i] in Managed(input);
      }
    }
  }

  /** A synced list: the preserved outbounds, the managed ones, the groups, and the proxy selector. */
  lemma SyncedShape(existing: seq<Val>, previous: seq<string>, input: Input)
    requires TagsOk(input)
    ensures SyncedOutbounds(existing, previous, input) ==
            Base(existing, previous, input)
            + GroupEntries(existing, input.subscriptions, input.defaults)
            + Selector(SelectorMembers(existing, previous, input))
  {
    NothingSelects(existing, previous, input);
    NoSelectorUpsert(Base(existing, previous, input)
                     + GroupEntries(existing, input.subscriptions, input.defaults),
                     SelectorMembers(existing, previous, input));
  }

  lemma SelectorFacts(members: seq<string>, groups: set<string>, tag: string)
    ensures Kept(Selector(members), groups) == []
    ensures tag != "proxy" ==> LastByTag(Selector(members), tag) == None
  {
    KeptNone(Selector(members), groups);
    if tag != "proxy" {
      LastNone(Selector(members), tag);
    }
  }

  lemma KeptOfParts(a: seq<Val>, b: seq<Val>, c: seq<Val>, d: seq<Val>, groups: set<string>)
    requires Kept(c, groups) == [] && Kept(d, groups) == []
    ensures Kept(a + b + c + d, groups) == Kept(a, groups) + Kept(b, groups)
  {
    KeptConcat(a, b, groups);
    KeptConcat(a + b, c, groups);
    KeptConcat(a + b + c, d, groups);
  }

  lemma LastInParts(a: seq<Val>, b: seq<Val>, c: seq<Val>, d: seq<Val>, tag: string)
    requires LastByTag(c, tag) == None && LastByTag(d, tag) == None && LastByTag(b, tag).Some?
    ensures LastByTag(a + b + c + d, tag) == LastByTag(b, tag)
  {
    LastConcat(a, b, tag);
    LastConcat(a + b, c, tag);
    LastConcat(a + b + c, d, tag);
  }

  /** What a later sync with fewer managed groups keeps of the preserved part: all but the built-in
      direct outbound. */
  lemma KeptOfPreserved(existing: seq<Val>, groups: set<string>, fewer: set<string>)
    requires fewer <= groups
    ensures Kept(Preserved(existing, groups), fewer) == Kept(existing, groups)
  {
    KeptNone([DIRECT], fewer);
    KeptConcat([DIRECT], Kept(existing, groups), fewer);
    KeptAgain(existing, groups, fewer);
  }

  lemma KeptOfGroups(existing: seq<Val>, input: Input, groups: set<string>)
    requires TagsOk(input) && forall tag | tag in GroupTags(input.subscriptions) && tag != "" :: tag in groups
    ensures Kept(GroupEntries(existing, input.subscriptions, input.defaults), groups) == []
  {
    GroupsShape(existing, input);
    KeptNone(GroupEntries(existing, input.subscriptions, input.defaults), groups);
  }

  /** The groups that the sync after a committed one manages. */
  function NextGroups(input: Input): set<string> {
    ManagedGroups(GroupTags(input.subscriptions), input.subscriptions)
  }

  lemma NextGroupsFewer(previous: seq<string>, input: Input)
    ensures NextGroups(input) <= ManagedGroups(previous, input.subscriptions)
    ensures forall tag :: tag in NextGroups(input) ==> exists s :: s in input.subscriptions && s.name == tag
  {
    GroupTagMembers(input.subscriptions);
  }

  /** What the next sync preserves of a synced list: the same outbounds as before, and those managed ones
      whose type is not a replaced one. */
  lemma KeptOfSynced(existing: seq<Val>, previous: seq<string>, input: Input)
    requires TagsOk(input)
    ensures Kept(SyncedOutbounds(existing, previous, input), NextGroups(input)) ==
            Kept(existing, ManagedGroups(previous, input.subscriptions))
            + Kept(AllBuilt(existing, Managed(input)), NextGroups(input))
  {
    var groups, next := ManagedGroups(previous, input.subscriptions), NextGroups(input);
    var members := SelectorMembers(existing, previous, input);
    NextGroupsFewer(previous, input);
    SyncedShape(existing, previous, input);
    KeptOfGroups(existing, input, next);
    SelectorFacts(members, next, "");
    KeptOfPreserved(existing, groups, next);
    KeptOfParts(Preserved(existing, groups), AllBuilt(existing, Managed(input)),
                GroupEntries(existing, input.subscriptions, input.defaults), Selector(members), next);
  }

  lemma NoGroupHasTag(existing: seq<Val>, input: Input, o: Outbound)
    requires TagsOk(input) && o in Managed(input) && o.tag != ""
    ensures LastByTag(GroupEntries(existing, input.subscriptions, input.defaults), o.tag) == None
  {
    GroupsShape(existing, input);
    GroupTagMembers(input.subscriptions);
    assert OutboundOk(o, input.subscriptions);
    LastNone(GroupEntries(existing, input.subscriptions, input.defaults), o.tag);
  }

  /** A managed outbound finds its own earlier entry in a synced list. */
  lemma FindsItself(existing: seq<Val>, previous: seq<string>, input: Input, i: nat)
    requires TagsOk(input) && i < |Managed(input)| && Managed(input)[i].tag != ""
    ensures LastByTag(SyncedOutbounds(existing, previous, input), Managed(input)[i].tag) ==
            Some(AllBuilt(existing, Managed(input))[i].fields)
  {
    var o := Managed(input)[i];
    var built := AllBuilt(existing, Managed(input));
    var members := SelectorMembers(existing, previous, input);
    assert o in Managed(input) && OutboundOk(o, input.subscriptions);
    SyncedShape(existing, previous, input);
    BuiltMembers(existing, input);
    LastUnique(built, o.tag, i);
    NoGroupHasTag(existing, input, o);
    SelectorFacts(members, {}, o.tag);
    LastInParts(Preserved(existing, ManagedGroups(previous, input.subscriptions)), built,
                GroupEntries(existing, input.subscriptions, input.defaults), Selector(members), o.tag);
  }

  lemma BuiltAgain(existing: seq<Val>, previous: seq<string>, input: Input)
    requires TagsOk(input)
    ensures AllBuilt(SyncedOutbounds(existing, previous, input), Managed(input)) ==
            AllBuilt(existing, Managed(input))
  {
    var synced := SyncedOutbounds(existing, previous, input);
    forall i | 0 <= i < |Managed(input)|
      ensures AllBuilt(synced, Managed(input))[i] == AllBuilt(existing, Managed(input))[i]
    {
      var o := Managed(input)[i];
      if o.tag != "" {
        FindsItself(existing, previous, input, i);
        BuiltIdempotent(LastByTag(existing, o.tag), o);
      } else {
        EmptyTag(synced);
        EmptyTag(existing);
      }
    }
  }

  lemma {:induction false} EmptyTag(a: seq<Val>)
    ensures LastByTag(a, "") == None
  {
    if a != [] {
      EmptyTag(a[..|a| - 1]);
    }
  }

  lemma {:induction false} LastGroup(existing: seq<Val>, subscriptions: seq<Subscription>, defaults: URLTest,
                                     name: string)
    requires name != ""
    ensures var found := LastByTag(GroupEntries(existing, subscriptions, defaults), name);
            (found.Some? ==> SameExtras(found, LastByTag(existing, name)))
            && (name in GroupTags(subscriptions) ==> found.Some?)
  {
    if subscriptions != [] {
      var s := subscriptions[0];
      LastGroup(existing, subscriptions[1..], defaults, name);
      var rest := GroupEntries(existing, subscriptions[1..], defaults);
      if ProxyTags(s.outbounds) != [] {
        var entry := GroupEntry(LastByTag(existing, s.name), s, defaults);
        GroupFacts(LastByTag(existing, s.name), s, defaults);
        LastConcat([Map(entry)], rest, name);
        assert [Map(entry)][..0] == [];
      } else {
        assert GroupEntries(existing, subscriptions, defaults) == rest;
      }
    }
  }

  lemma {:induction false} GroupsAgainFrom(existing: seq<Val>, synced: seq<Val>, subscriptions: seq<Subscription>,
                                           defaults: URLTest)
    requires forall s | s in subscriptions && ProxyTags(s.outbounds) != [] ::
      SameExtras(LastByTag(synced, s.name), LastByTag(existing, s.name))
    ensures GroupEntries(synced, subscriptions, defaults) == GroupEntries(existing, subscriptions, defaults)
  {
    if subscriptions != [] {
      var s := subscriptions[0];
      assert forall t | t in subscriptions[1..] :: t in subscriptions;
      GroupsAgainFrom(existing, synced, subscriptions[1..], defaults);
      if ProxyTags(s.outbounds) != [] {
        assert s in subscriptions;
        GroupDependsOnExtras(LastByTag(synced, s.name), LastByTag(existing, s.name), s, defaults);
      }
    }
  }

  lemma GroupsAgain(existing: seq<Val>, previous: seq<string>, input: Input)
    requires TagsOk(input)
    ensures GroupEntries(SyncedOutbounds(existing, previous, input), input.subscriptions, input.defaults) ==
            GroupEntries(existing, input.subscriptions, input.defaults)
  {
    var synced := SyncedOutbounds(existing, previous, input);
    var entries := GroupEntries(existing, input.subscriptions, input.defaults);
    var selector := Selector(SelectorMembers(existing, previous, input));
    forall s | s in input.subscriptions && ProxyTags(s.outbounds) != []
      ensures SameExtras(LastByTag(synced, s.name), LastByTag(existing, s.name))
    {
      SyncedShape(existing, previous, input);
      GroupTagMembers(input.subscriptions);
      LastGroup(existing, input.subscriptions, input.defaults, s.name);
      LastNone(selector, s.name);
      LastConcat(Base(existing, previous, input), entries, s.name);
      LastConcat(Base(existing, previous, input) + entries, selector, s.name);
    }
    GroupsAgainFrom(existing, synced, input.subscriptions, input.defaults);
  }

  // ---- Idempotence ----

  lemma BuiltReplaced(existing: seq<Val>, input: Input, groups: set<string>)
    requires TagsOk(input) && forall o | o in Managed(input) :: IsReplacedType(o.kind)
    ensures Kept(AllBuilt(existing, Managed(input)), groups) == []
  {
    BuiltMembers(existing, input);
    forall v | v in AllBuilt(existing, Managed(input))
      ensures Replaced(v, groups)
    {
      var i :| 0 <= i < |Managed(input)| && AllBuilt(existing, Managed(input))[i] == v;
      assert Managed(input)[i] in Managed(input);
    }
    KeptNone(AllBuilt(existing, Managed(input)), groups);
  }

  /** The base of a second sync: that of the first one, with what it kept of the managed outbounds put
      between the preserved ones and the managed ones. */
  lemma BaseAgain(existing: seq<Val>, previous: seq<string>, input: Input)
    requires TagsOk(input)
    ensures Base(SyncedOutbounds(existing, previous, input), GroupTags(input.subscriptions), input) ==
            Preserved(existing, ManagedGroups(previous, input.subscriptions))
            + Kept(AllBuilt(existing, Managed(input)), NextGroups(input))
            + AllBuilt(existing, Managed(input))
  {
    KeptOfSynced(existing, previous, input);
    BuiltAgain(existing, previous, input);
    Regroup([DIRECT], Kept(existing, ManagedGroups(previous, input.subscriptions)),
            Kept(AllBuilt(existing, Managed(input)), NextGroups(input)), AllBuilt(existing, Managed(input)));
  }

  lemma Regroup(a: seq<Val>, b: seq<Val>, c: seq<Val>, d: seq<Val>)
    ensures a + (b + c) + d == a + b + c + d
  {}

  lemma WithoutMiddle(a: seq<Val>, b: seq<Val>, c: seq<Val>)
    requires b == []
    ensures a + b + c == a + c
  {}

  lemma BaseUnchanged(existing: seq<Val>, previous: seq<string>, input: Input)
    requires TagsOk(input) && forall o | o in Managed(input) :: IsReplacedType(o.kind)
    ensures Base(SyncedOutbounds(existing, previous, input), GroupTags(input.subscriptions), input) ==
            Base(existing, previous, input)
  {
    BuiltReplaced(existing, input, NextGroups(input));
    BaseAgain(existing, previous, input);
    WithoutMiddle(Preserved(existing, ManagedGroups(previous, input.subscriptions)),
                  Kept(AllBuilt(existing, Managed(input)), NextGroups(input)), AllBuilt(existing, Managed(input)));
  }

  lemma SyncedFromParts(a: seq<Val>, p: seq<string>, b: seq<Val>, q: seq<string>, input: Input)
    requires Base(a, p, input) == Base(b, q, input)
    requires GroupEntries(a, input.subscriptions, input.defaults) ==
             GroupEntries(b, input.subscriptions, input.defaults)
    ensures SyncedOutbounds(b, q, input) == SyncedOutbounds(a, p, input)
  {}

  /** A second sync with the same input changes nothing when every managed type is one that a sync
      replaces. */
  lemma SecondSyncKeeps(existing: seq<Val>, previous: seq<string>, input: Input)
    requires TagsOk(input)
    requires forall o | o in Managed(input) :: IsReplacedType(o.kind)
    ensures var synced := SyncedOutbounds(existing, previous, input);
            SyncedOutbounds(synced, GroupTags(input.subscriptions), input) == synced
  {
    var synced, tags := SyncedOutbounds(existing, previous, input), GroupTags(input.subscriptions);
    BaseUnchanged(existing, previous, input);
    GroupsAgain(existing, previous, input);
    SyncedFromParts(existing, previous, synced, tags, input);
  }

  lemma {:induction false} CollectedNonEmpty(a: seq<Val>, excluded: set<string>)
    ensures Collected(a, excluded) != [] <==> exists v :: v in a && IsProxyTagEntry(v, excluded)
  {
    if a != [] {
      CollectedNonEmpty(a[1..], excluded);
      if v :| v in a && IsProxyTagEntry(v, excluded) {
        assert v == a[0] || v in a[1..];
      }
    }
  }

  lemma KeepsUnreplaced(existing: seq<Val>, input: Input, o: Outbound)
    requires TagsOk(input) && o in Managed(input) && !IsReplacedType(o.kind)
    ensures Kept(AllBuilt(existing, Managed(input)), NextGroups(input)) != []
  {
    var built := AllBuilt(existing, Managed(input));
    var i :| 0 <= i < |Managed(input)| && Managed(input)[i] == o;
    BuiltMembers(existing, input);
    NextGroupsFewer([], input);
    assert OutboundOk(o, input.subscriptions);
    assert o.tag !in NextGroups(input);
    KeptMembers(built, NextGroups(input));
    assert built[i] in Kept(built, NextGroups(input));
  }

  lemma SelectorStays(before: seq<Val>, after: seq<Val>, tags: seq<string>, excluded: set<string>)
    requires forall v | v in before :: v in after
    ensures tags + Collected(before, excluded) != [] ==> tags + Collected(after, excluded) != []
  {
    CollectedNonEmpty(before, excluded);
    CollectedNonEmpty(after, excluded);
  }

  /** A managed outbound of any other type is preserved and appended again: the list grows. */
  lemma SecondSyncGrows(existing: seq<Val>, previous: seq<string>, input: Input, o: Outbound)
    requires TagsOk(input) && o in Managed(input) && !IsReplacedType(o.kind)
    ensures var synced := SyncedOutbounds(existing, previous, input);
            |SyncedOutbounds(synced, GroupTags(input.subscriptions), input)| > |synced|
  {
    var synced, tags := SyncedOutbounds(existing, previous, input), GroupTags(input.subscriptions);
    SyncedShape(existing, previous, input);
    SyncedShape(synced, tags, input);
    BaseAgain(existing, previous, input);
    GroupsAgain(existing, previous, input);
    KeepsUnreplaced(existing, input, o);
    SelectorStays(Base(existing, previous, input), Base(synced, tags, input), tags, MemberTags(input.subscriptions));
  }

  /** Under the tag conditions a second sync with the same input leaves the outbounds as they are exactly
      when every managed type is one that a sync replaces. Types "ssh" and "tor" are not. */
  lemma SyncIdempotentIff(existing: seq<Val>, previous: seq<string>, input: Input)
    requires TagsOk(input)
    ensures var synced := SyncedOutbounds(existing, previous, input);
            SyncedOutbounds(synced, GroupTags(input.subscriptions), input) == synced
            <==> forall o | o in Managed(input) :: IsReplacedType(o.kind)
  {
    if forall o | o in Managed(input) :: IsReplacedType(o.kind) {
      SecondSyncKeeps(existing, previous, input);
    } else {
      var o :| o in Managed(input) && !IsReplacedType(o.kind);
      SecondSyncGrows(existing, previous, input, o);
    }
  }

  /** One imported "ssh" node is enough: every sync adds it once more. */
  lemma SshNodeIsAddedAgain(existing: seq<Val>, previous: seq<string>, defaults: URLTest)
    ensures var input := Input([Outbound("node", "ssh", "host", 22, None)], [], defaults);
            var synced := SyncedOutbounds(existing, previous, input);
            IsProxyLike("ssh") && |SyncedOutbounds(synced, [], input)| > |synced|
  {
    var o := Outbound("node", "ssh", "host", 22, None);
    var input := Input([o], [], defaults);
    assert Managed(input) == [o];
    assert o in Managed(input);
    SecondSyncGrows(existing, previous, input, o);
  }

  lemma RouteFinalKeepsOutbounds(config: Object, items: seq<Val>)
    ensures var once := WithRouteFinal(config["outbounds" := List(items)]);
            ExistingOutbounds(once) == items && once["outbounds" := List(items)] == once
  {
    var once := WithRouteFinal(config["outbounds" := List(items)]);
    assert once["outbounds"] == List(items);
  }

  lemma RouteFinalIdempotent(config: Object)
    ensures WithRouteFinal(WithRouteFinal(config)) == WithRouteFinal(config)
  {
    var once := WithRouteFinal(config);
    assert once["route"].Map? && "final" in once["route"].fields;
    assert once["route" := once["route"]] == once;
  }

  /** The same for the whole configuration: outbounds, route and everything else. */
  lemma SyncConfigIdempotent(config: Object, previous: seq<string>, input: Input)
    requires TagsOk(input) && forall o | o in Managed(input) :: IsReplacedType(o.kind)
    ensures var once := SyncedConfig(config, previous, input);
            SyncedConfig(once, GroupTags(input.subscriptions), input) == once
  {
    var synced := SyncedOutbounds(ExistingOutbounds(config), previous, input);
    SecondSyncKeeps(ExistingOutbounds(config), previous, input);
    RouteFinalKeepsOutbounds(config, synced);
    RouteFinalIdempotent(config["outbounds" := List(synced)]);
  }

  lemma SyncConfigOutbounds(config: Object, previous: seq<string>, input: Input)
    ensures ExistingOutbounds(SyncedConfig(config, previous, input)) ==
            SyncedOutbounds(ExistingOutbounds(config), previous, input)
  {
    RouteFinalKeepsOutbounds(config, SyncedOutbounds(ExistingOutbounds(config), previous, input));
  }

  /** For the whole configuration, too, a second sync changes nothing exactly when every managed type is one
      that a sync replaces. */
  lemma SyncConfigIdempotentIff(config: Object, previous: seq<string>, input: Input)
    requires TagsOk(input)
    ensures var once := SyncedConfig(config, previous, input);
            SyncedConfig(once, GroupTags(input.subscriptions), input) == once
            <==> forall o | o in Managed(input) :: IsReplacedType(o.kind)
  {
    if forall o | o in Managed(input) :: IsReplacedType(o.kind) {
      SyncConfigIdempotent(config, previous, input);
    } else {
      SyncConfigOutbounds(config, previous, input);
      SyncConfigOutbounds(SyncedConfig(config, previous, input), GroupTags(input.subscriptions), input);
      SyncIdempotentIff(ExistingOutbounds(config), previous, input);
    }
  }
}

/** What stands in a synced list, told by the values of its entries: which outbounds are kept, what each managed
    outbound and each group looks like, and who is in the proxy selector. */
module NodesSyncEntries {
  import opened Wrappers
  import opened GoValue
  import opened NodesSync
  import opened NodesSyncTheorems

  // ---- What is kept ----

  /** The text an entry has under a key; other values count as none. */
  predicate Says(m: Object, key: string, text: string) {
    key in m && m[key] == Str(text)
  }

  /** An existing outbound is kept unless it is no object, of a type that imported nodes have or of type
      "direct" or "dns", a selector or urltest under a managed tag, or the proxy selector. */
  lemma {:induction false} KeptIff(existing: seq<Val>, groups: set<string>, v: Val)
    requires "" !in groups
    ensures v in Kept(existing, groups) <==>
            v in existing && v.Map?
            && (forall kind | kind in {"vless", "vmess", "trojan", "shadowsocks", "hysteria", "hysteria2", "tuic",
                                       "shadowtls", "anytls", "direct", "dns"} :: !Says(v.fields, "type", kind))
            && (Says(v.fields, "type", "urltest") || Says(v.fields, "type", "selector") ==>
                  forall tag | tag in groups :: !Says(v.fields, "tag", tag))
            && !(Says(v.fields, "type", "selector") && Says(v.fields, "tag", "proxy"))
  {
    KeptMembers(existing, groups);
    if v.Map? {
      ReplacedTypes(v);
      assert TagOf(v) in groups <==> exists tag :: tag in groups && Says(v.fields, "tag", tag) by {
        if TagOf(v) in groups {
          assert Says(v.fields, "tag", TagOf(v));
        }
      }
    }
  }

  lemma ReplacedTypes(v: Val)
    requires v.Map?
    ensures IsReplacedType(TypeOf(v)) <==>
            exists kind :: kind in {"vless", "vmess", "trojan", "shadowsocks", "hysteria", "hysteria2", "tuic",
                                    "shadowtls", "anytls", "direct", "dns"} && Says(v.fields, "type", kind)
  {
    if IsReplacedType(TypeOf(v)) {
      assert Says(v.fields, "type", TypeOf(v));
    }
  }

  /** The managed tags are the persisted groups and the names of the subscriptions. */
  lemma ManagedGroupsIff(previous: seq<string>, subscriptions: seq<Subscription>, tag: string)
    ensures tag in ManagedGroups(previous, subscriptions) <==>
            tag != "" && (tag in previous || exists s :: s in subscriptions && s.name == tag)
  {}

  /** Keeping keeps the order: it is done entry by entry. */
  lemma KeptInOrder(a: seq<Val>, v: Val, b: seq<Val>, groups: set<string>)
    ensures Kept(a + [v] + b, groups) ==
            Kept(a, groups) + (if v in Kept([v], groups) then [v] else []) + Kept(b, groups)
  {
    KeptConcat(a + [v], b, groups);
    KeptConcat(a, [v], groups);
    assert [v][1..] == [];
    assert Kept([v], groups) == KeptOne(v, groups) + [];
  }

  // ---- The last entry under a tag ----

  /** The entry at this place has the tag, and no later one does. */
  ghost predicate IsLastAt(existing: seq<Val>, tag: string, found: Object, j: nat) {
    && j < |existing| && existing[j] == Map(found) && Says(found, "tag", tag)
    && forall k | j < k < |existing| :: !IsTagged(existing[k], tag)
  }

  predicate IsTagged(v: Val, tag: string) {
    v.Map? && Says(v.fields, "tag", tag)
  }

  /** The last entry of the list with the tag, or none; no entry counts for the empty tag. */
  ghost predicate IsLast(existing: seq<Val>, tag: string, found: Option<Object>) {
    if found.None? then tag == "" || forall k | 0 <= k < |existing| :: !IsTagged(existing[k], tag)
    else tag != "" && exists j: nat :: IsLastAt(existing, tag, found.value, j)
  }

  lemma LastStays(init: seq<Val>, last: Val, tag: string, found: Option<Object>)
    requires IsLast(init, tag, found) && (tag == "" || !IsTagged(last, tag))
    ensures IsLast(init + [last], tag, found)
  {
    if found.Some? {
      var j: nat :| IsLastAt(init, tag, found.value, j);
      assert IsLastAt(init + [last], tag, found.value, j);
    }
  }

  lemma {:induction false} LastIsLast(existing: seq<Val>, tag: string)
    ensures IsLast(existing, tag, LastByTag(existing, tag))
  {
    if existing != [] {
      var init, last := existing[..|existing| - 1], existing[|existing| - 1];
      assert existing == init + [last];
      if tag != "" && IsTagged(last, tag) {
        assert IsLastAt(existing, tag, last.fields, |existing| - 1);
      } else {
        LastIsLast(init, tag);
        LastStays(init, last, tag, LastByTag(init, tag));
      }
    }
  }

  lemma LastIsUnique(existing: seq<Val>, tag: string, a: Option<Object>, b: Option<Object>)
    requires IsLast(existing, tag, a) && IsLast(existing, tag, b)
    ensures a == b
  {
    if a.Some? && b.Some? {
      var j: nat :| IsLastAt(existing, tag, a.value, j);
      var i: nat :| IsLastAt(existing, tag, b.value, i);
      assert IsTagged(existing[i], tag) && IsTagged(existing[j], tag);
    }
  }

  // ---- Managed outbounds ----

  /** Imported nodes come first, then the outbounds of each subscription in turn. */
  lemma {:induction false} ManagedInOrder(nodes: seq<Outbound>, a: seq<Subscription>, s: Subscription,
                                          b: seq<Subscription>, defaults: URLTest)
    ensures Managed(Input(nodes, [], defaults)) == nodes
    ensures Managed(Input(nodes, a + [s] + b, defaults)) ==
            Managed(Input(nodes, a, defaults)) + s.outbounds + Managed(Input([], b, defaults))
  {
    SubscribedInOrder(a, s, b);
  }

  lemma {:induction false} SubscribedInOrder(a: seq<Subscription>, s: Subscription, b: seq<Subscription>)
    ensures SubscriptionOutbounds(a + [s] + b) ==
            SubscriptionOutbounds(a) + s.outbounds + SubscriptionOutbounds(b)
    decreases |a|
  {
    var all := a + [s] + b;
    if a == [] {
      assert all[1..] == b;
    } else {
      SubscribedInOrder(a[1..], s, b);
      assert all[1..] == a[1..] + [s] + b;
    }
  }

  /** Where the first managed outbound stands: behind the built-in direct one and the kept ones. */
  function FirstManaged(existing: seq<Val>, previous: seq<string>, input: Input): nat {
    1 + |Kept(existing, ManagedGroups(previous, input.subscriptions))|
  }

  /** The one entry whose members and default a sync may rewrite. */
  predicate IsOwnSelector(kind: Option<Val>, tag: Option<Val>) {
    kind == Some(Str("selector")) && tag == Some(Str("proxy"))
  }

  predicate Rewrites(kind: Option<Val>, tag: Option<Val>, key: string) {
    IsOwnSelector(kind, tag) && (key == "outbounds" || key == "default")
  }

  /** At this place of the list stands an object that has this under the key. */
  predicate Has(list: seq<Val>, place: nat, key: string, value: Option<Val>) {
    place < |list| && list[place].Map? && At(list[place].fields, key) == value
  }

  lemma UpsertKeeps(outbounds: seq<Val>, members: seq<string>, k: nat, key: string)
    requires k < |outbounds| && outbounds[k].Map?
    requires !IsProxySelector(outbounds[k]) || (key != "outbounds" && key != "default")
    ensures Has(Upserted(outbounds, members), k, key, At(outbounds[k].fields, key))
  {}

  /** The list before the selector is written. */
  function Unselected(existing: seq<Val>, previous: seq<string>, input: Input): seq<Val> {
    Base(existing, previous, input) + GroupEntries(existing, input.subscriptions, input.defaults)
  }

  lemma SyncedIs(existing: seq<Val>, previous: seq<string>, input: Input)
    ensures SyncedOutbounds(existing, previous, input) ==
            Upserted(Unselected(existing, previous, input), SelectorMembers(existing, previous, input))
  {}

  predicate StandsAt(list: seq<Val>, place: nat, v: Val) {
    place < |list| && list[place] == v
  }

  lemma BuiltStands(existing: seq<Val>, previous: seq<string>, input: Input, i: nat, o: Outbound,
                    before: Option<Object>)
    requires i < |Managed(input)| && Managed(input)[i] == o && IsLast(existing, o.tag, before)
    ensures StandsAt(Unselected(existing, previous, input), FirstManaged(existing, previous, input) + i,
                     Map(Built(before, o)))
  {
    LastIsLast(existing, o.tag);
    LastIsUnique(existing, o.tag, before, LastByTag(existing, o.tag));
    InTheMiddle(Preserved(existing, ManagedGroups(previous, input.subscriptions)),
                AllBuilt(existing, Managed(input)),
                GroupEntries(existing, input.subscriptions, input.defaults), i);
  }

  lemma InTheMiddle<T>(a: seq<T>, b: seq<T>, c: seq<T>, i: nat)
    requires i < |b|
    ensures |a| + i < |a + b + c| && (a + b + c)[|a| + i] == b[i]
  {}

  /** The types of outbounds that reach a proxy. */
  predicate IsProxyKind(kind: string) {
    || kind == "vless" || kind == "vmess" || kind == "trojan" || kind == "shadowsocks" || kind == "hysteria"
    || kind == "hysteria2" || kind == "tuic" || kind == "shadowtls" || kind == "anytls" || kind == "ssh"
    || kind == "tor"
  }

  lemma ProxyKinds(kind: string)
    ensures IsProxyLike(kind) <==> IsProxyKind(kind)
  {}

  /** What a managed outbound has under a key. The extra configuration comes first, then what the outbound itself
      says, then the mark, then what stood there before. */
  function FieldOf(o: Outbound, before: Option<Object>, key: string): Option<Val> {
    if o.raw.Some? && o.raw.value.Map? && key in o.raw.value.fields then Some(o.raw.value.fields[key])
    else if key == "type" then Some(Str(o.kind))
    else if key == "tag" then Some(Str(o.tag))
    else if key == "server" then Some(Str(o.server))
    else if key == "server_port" then Some(Float(o.port as real))
    else if before.Some? && key in before.value then Some(before.value[key])
    else if key == "routing_mark"
            && IsProxyKind(o.kind) then Some(Float(128.0))
    else None
  }

  lemma BuiltFields(before: Option<Object>, o: Outbound, key: string)
    ensures At(Built(before, o), key) == FieldOf(o, before, key)
  {
    ProxyKinds(o.kind);
  }

  /** Every managed outbound stands in the synced list, at its place, with exactly these fields; just the members
      and the default of one that calls itself the proxy selector are rewritten. */
  lemma {:induction false} ManagedEntry(existing: seq<Val>, previous: seq<string>, input: Input, i: nat, o: Outbound,
                                        before: Option<Object>, key: string)
    requires i < |Managed(input)| && Managed(input)[i] == o && IsLast(existing, o.tag, before)
    requires !Rewrites(FieldOf(o, before, "type"), FieldOf(o, before, "tag"), key)
    ensures Has(SyncedOutbounds(existing, previous, input), FirstManaged(existing, previous, input) + i, key,
                FieldOf(o, before, key))
  {
    BuiltStands(existing, previous, input, i, o, before);
    SyncedIs(existing, previous, input);
    BuiltKeeps(o, before, key, Unselected(existing, previous, input), SelectorMembers(existing, previous, input),
               FirstManaged(existing, previous, input) + i);
  }

  lemma BuiltKeeps(o: Outbound, before: Option<Object>, key: string, list: seq<Val>, members: seq<string>, k: nat)
    requires StandsAt(list, k, Map(Built(before, o)))
    requires !Rewrites(FieldOf(o, before, "type"), FieldOf(o, before, "tag"), key)
    ensures Has(Upserted(list, members), k, key, FieldOf(o, before, key))
  {
    BuiltFields(before, o, "type");
    BuiltFields(before, o, "tag");
    BuiltFields(before, o, key);
    UpsertKeeps(list, members, k, key);
  }

  /** In front of everything stands the built-in direct outbound. */
  lemma DirectFirst(existing: seq<Val>, previous: seq<string>, input: Input)
    ensures var synced := SyncedOutbounds(existing, previous, input);
            synced != [] && synced[0] == Map(map["type" := Str("direct"), "tag" := Str("direct")])
  {}

  // ---- Groups ----

  /** An outbound that subscription groups list. */
  predicate IsMember(o: Outbound) {
    o.tag != "" && IsProxyKind(o.kind)
  }

  /** The members of a group are the tags of those outbounds, in their order. */
  lemma {:induction false} MembersOf(a: seq<Outbound>, o: Outbound, b: seq<Outbound>)
    ensures ProxyTags([]) == []
    ensures ProxyTags(a + [o] + b) == ProxyTags(a) + (if IsMember(o) then [o.tag] else []) + ProxyTags(b)
    decreases |a|
  {
    var all := a + [o] + b;
    if a == [] {
      assert all[1..] == b && all[0] == o;
      MembersStep(all);
    } else {
      MembersOf(a[1..], o, b);
      assert all[1..] == a[1..] + [o] + b && all[0] == a[0];
      MembersStep(a);
      MembersStep(all);
    }
  }

  lemma MembersStep(outbounds: seq<Outbound>)
    requires outbounds != []
    ensures ProxyTags(outbounds) ==
            (if IsMember(outbounds[0]) then [outbounds[0].tag] else []) + ProxyTags(outbounds[1..])
  {
    ProxyKinds(outbounds[0].kind);
  }

  lemma {:induction false} MemberIff(outbounds: seq<Outbound>, tag: string)
    ensures tag in ProxyTags(outbounds) <==> exists o :: o in outbounds && IsMember(o) && o.tag == tag
  {
    if outbounds != [] {
      var o := outbounds[0];
      ProxyKinds(o.kind);
      MemberIff(outbounds[1..], tag);
      if p :| p in outbounds && IsMember(p) && p.tag == tag {
        assert p == o || p in outbounds[1..];
      }
    }
  }

  lemma {:induction false} HasMemberIff(outbounds: seq<Outbound>)
    ensures ProxyTags(outbounds) != [] <==> exists o :: o in outbounds && IsMember(o)
  {
    if o :| o in outbounds && IsMember(o) {
      MemberIff(outbounds, o.tag);
    }
    if ProxyTags(outbounds) != [] {
      MemberIff(outbounds, ProxyTags(outbounds)[0]);
    }
  }

  lemma TagListItems(tags: seq<string>)
    ensures TagList(tags).List? && |TagList(tags).items| == |tags|
    ensures forall i | 0 <= i < |tags| :: TagList(tags).items[i] == Str(tags[i])
  {}

  function Setting<T>(own: Option<T>, general: T): T {
    if own.Some? then own.value else general
  }

  /** What the group of a subscription has under a key. What the subscription sets for its test wins over the general
      settings; a group that is not tested has none of the three settings. */
  function GroupField(s: Subscription, defaults: URLTest, before: Option<Object>, key: string): Option<Val> {
    var own := if s.urlTest.Some? then s.urlTest.value else Overrides(None, None, None, None);
    var tested := Setting(own.enabled, defaults.enabled);
    match key
    case "type" => Some(Str(if tested then "urltest" else "selector"))
    case "tag" => Some(Str(s.name))
    case "outbounds" => Some(TagList(ProxyTags(s.outbounds)))
    case "url" => if tested then Some(Str(Setting(own.url, defaults.url))) else None
    case "interval" => if tested then Some(Str(Setting(own.interval, defaults.interval))) else None
    case "tolerance" =>
      if tested then Some(Float(Setting(own.tolerance, defaults.tolerance) as real)) else None
    case _ => if before.Some? && key in before.value then Some(before.value[key]) else None
  }

  lemma GroupFields(s: Subscription, defaults: URLTest, before: Option<Object>, key: string)
    ensures At(GroupEntry(before, s, defaults), key) == GroupField(s, defaults, before, key)
  {}

  lemma TagsAhead(subscriptions: seq<Subscription>, j: nat)
    requires 0 < j < |subscriptions|
    ensures GroupTags(subscriptions[..j]) == GroupTagOf(subscriptions[0]) + GroupTags(subscriptions[1..][..j - 1])
  {
    assert subscriptions[..j][1..] == subscriptions[1..][..j - 1];
  }

  lemma Behind<T>(first: seq<T>, rest: seq<T>, k: nat)
    requires k < |rest|
    ensures (first + rest)[|first| + k] == rest[k]
  {}

  /** Groups come in the order of their subscriptions, one for each subscription with a member. */
  lemma {:induction false} GroupPlace(existing: seq<Val>, subscriptions: seq<Subscription>, defaults: URLTest, j: nat)
    requires j < |subscriptions| && ProxyTags(subscriptions[j].outbounds) != []
    ensures |GroupEntries(existing, subscriptions, defaults)| == |GroupTags(subscriptions)|
    ensures var k := |GroupTags(subscriptions[..j])|;
            var s := subscriptions[j];
            k < |GroupTags(subscriptions)| && GroupTags(subscriptions)[k] == s.name
            && GroupEntries(existing, subscriptions, defaults)[k]
               == Map(GroupEntry(LastByTag(existing, s.name), s, defaults))
  {
    GroupCounts(existing, subscriptions, defaults);
    if j > 0 {
      var first, rest := subscriptions[0], subscriptions[1..];
      GroupPlace(existing, rest, defaults, j - 1);
      TagsAhead(subscriptions, j);
      var k := |GroupTags(rest[..j - 1])|;
      Behind(GroupTagOf(first), GroupTags(rest), k);
      Behind(GroupOf(existing, first, defaults), GroupEntries(existing, rest, defaults), k);
    }
  }

  lemma {:induction false} GroupCounts(existing: seq<Val>, subscriptions: seq<Subscription>, defaults: URLTest)
    ensures |GroupEntries(existing, subscriptions, defaults)| == |GroupTags(subscriptions)|
  {
    if subscriptions != [] {
      GroupCounts(existing, subscriptions[1..], defaults);
    }
  }

  /** Where the group of a subscription stands: behind the managed outbounds and the groups of earlier ones. */
  function GroupIndex(existing: seq<Val>, previous: seq<string>, input: Input, j: nat): nat
    requires j < |input.subscriptions|
  {
    FirstManaged(existing, previous, input) + |Managed(input)| + |GroupTags(input.subscriptions[..j])|
  }

  lemma GroupStands(existing: seq<Val>, previous: seq<string>, input: Input, j: nat, before: Option<Object>)
    requires j < |input.subscriptions| && IsLast(existing, input.subscriptions[j].name, before)
    requires exists o :: o in input.subscriptions[j].outbounds && IsMember(o)
    ensures StandsAt(Unselected(existing, previous, input), GroupIndex(existing, previous, input, j),
                     Map(GroupEntry(before, input.subscriptions[j], input.defaults)))
  {
    var s := input.subscriptions[j];
    HasMemberIff(s.outbounds);
    LastIsLast(existing, s.name);
    LastIsUnique(existing, s.name, before, LastByTag(existing, s.name));
    GroupPlace(existing, input.subscriptions, input.defaults, j);
    assert |Base(existing, previous, input)| == FirstManaged(existing, previous, input) + |Managed(input)|;
  }

  /** Every subscription with a member has a group in the synced list, behind the managed outbounds and the groups of
      earlier subscriptions, with exactly these fields. */
  lemma {:induction false} GroupEntryStands(existing: seq<Val>, previous: seq<string>, input: Input, j: nat,
                                            s: Subscription, before: Option<Object>, key: string)
    requires j < |input.subscriptions| && input.subscriptions[j] == s && IsLast(existing, s.name, before)
    requires exists o :: o in s.outbounds && IsMember(o)
    requires !Rewrites(GroupField(s, input.defaults, before, "type"), GroupField(s, input.defaults, before, "tag"), key)
    ensures Has(SyncedOutbounds(existing, previous, input), GroupIndex(existing, previous, input, j), key,
                GroupField(s, input.defaults, before, key))
  {
    GroupStands(existing, previous, input, j, before);
    SyncedIs(existing, previous, input);
    GroupKeeps(s, input.defaults, before, key, Unselected(existing, previous, input),
               SelectorMembers(existing, previous, input), GroupIndex(existing, previous, input, j));
  }

  lemma GroupKeeps(s: Subscription, defaults: URLTest, before: Option<Object>, key: string, list: seq<Val>,
                   members: seq<string>, k: nat)
    requires StandsAt(list, k, Map(GroupEntry(before, s, defaults)))
    requires !Rewrites(GroupField(s, defaults, before, "type"), GroupField(s, defaults, before, "tag"), key)
    ensures Has(Upserted(list, members), k, key, GroupField(s, defaults, before, key))
  {
    GroupFields(s, defaults, before, "type");
    GroupFields(s, defaults, before, "tag");
    GroupFields(s, defaults, before, key);
    UpsertKeeps(list, members, k, key);
  }

  // ---- The proxy selector ----

  /** An outbound of the configuration that the proxy selector offers by itself. */
  ghost predicate IsOffered(v: Val, tag: string) {
    && v.Map? && tag != "" && Says(v.fields, "tag", tag)
    && forall kind | kind in {"direct", "block", "dns", "selector", "urltest"} :: !Says(v.fields, "type", kind)
  }

  lemma {:induction false} CollectedIff(outbounds: seq<Val>, excluded: set<string>, tag: string)
    ensures tag in Collected(outbounds, excluded) <==>
            tag !in excluded && exists v :: v in outbounds && IsOffered(v, tag)
  {
    if outbounds != [] {
      CollectedIff(outbounds[1..], excluded, tag);
      OfferedIff(outbounds[0], tag);
      if v :| v in outbounds && IsOffered(v, tag) {
        assert v == outbounds[0] || v in outbounds[1..];
      }
    }
  }

  lemma OfferedIff(v: Val, tag: string)
    ensures IsOffered(v, tag) <==> IsProxyTagEntry(v, {}) && TagOf(v) == tag
  {
    if v.Map? && !IsProxySelectorCandidate(TypeOf(v)) {
      assert Says(v.fields, "type", TypeOf(v));
    }
  }

  lemma NamesOfGroups(subscriptions: seq<Subscription>, tag: string)
    ensures tag in GroupTags(subscriptions) <==>
            exists s :: s in subscriptions && s.name == tag && exists o :: o in s.outbounds && IsMember(o)
  {
    GroupTagMembers(subscriptions);
    forall s | s in subscriptions
      ensures ProxyTags(s.outbounds) != [] <==> exists o :: o in s.outbounds && IsMember(o)
    {
      HasMemberIff(s.outbounds);
    }
  }

  lemma MemberTagIff(subscriptions: seq<Subscription>, tag: string)
    ensures tag in MemberTags(subscriptions) <==>
            exists s :: s in subscriptions && exists o :: o in s.outbounds && IsMember(o) && o.tag == tag
  {
    forall s | s in subscriptions
      ensures tag in ProxyTags(s.outbounds) <==> exists o :: o in s.outbounds && IsMember(o) && o.tag == tag
    {
      MemberIff(s.outbounds, tag);
    }
  }

  /** Writing the selector neither adds nor removes an outbound that it offers. */
  lemma UpsertOffers(outbounds: seq<Val>, members: seq<string>, v: Val, tag: string)
    requires IsOffered(v, tag)
    ensures v in Upserted(outbounds, members) <==> v in outbounds
  {
    if members != [] {
      var k := FirstProxySelector(outbounds);
      var after := Upserted(outbounds, members);
      assert TypeOf(v) == "selector" ==> Says(v.fields, "type", "selector");
      if v in outbounds {
        var i :| 0 <= i < |outbounds| && outbounds[i] == v;
        assert after[i] == v;
      }
      if v in after {
        var i :| 0 <= i < |after| && after[i] == v;
        assert i < |outbounds| && i != k;
      }
    }
  }

  lemma GroupsOfferNothing(existing: seq<Val>, subscriptions: seq<Subscription>, defaults: URLTest, v: Val, tag: string)
    requires IsOffered(v, tag)
    ensures v !in GroupEntries(existing, subscriptions, defaults)
  {
    GroupEntryMembers(existing, subscriptions, defaults);
    if v in GroupEntries(existing, subscriptions, defaults) {
      var s :| s in subscriptions && ProxyTags(s.outbounds) != []
               && v == Map(GroupEntry(LastByTag(existing, s.name), s, defaults));
      GroupFacts(LastByTag(existing, s.name), s, defaults);
      assert Says(v.fields, "type", TypeOf(v));
    }
  }

  /** The proxy selector lists the groups of the subscriptions and every outbound of the synced list that is neither
      built in nor a group nor a member of a subscription. */
  lemma {:induction false} SelectorListsIff(existing: seq<Val>, previous: seq<string>, input: Input, tag: string)
    ensures tag in SelectorMembers(existing, previous, input) <==>
            || (exists s :: s in input.subscriptions && s.name == tag && exists o :: o in s.outbounds && IsMember(o))
            || ((exists v :: v in SyncedOutbounds(existing, previous, input) && IsOffered(v, tag))
                && !(exists s :: s in input.subscriptions
                                 && exists o :: o in s.outbounds && IsMember(o) && o.tag == tag))
  {
    var base := Base(existing, previous, input);
    NamesOfGroups(input.subscriptions, tag);
    MemberTagIff(input.subscriptions, tag);
    CollectedIff(base, MemberTags(input.subscriptions), tag);
    forall v | IsOffered(v, tag)
      ensures v in SyncedOutbounds(existing, previous, input) <==> v in base
    {
      GroupsOfferNothing(existing, input.subscriptions, input.defaults, v, tag);
      UpsertOffers(base + GroupEntries(existing, input.subscriptions, input.defaults),
                   SelectorMembers(existing, previous, input), v, tag);
    }
  }

  /** With these members the selector ends the list, the first of them its default; without any there is none. */
  lemma {:induction false} SelectorStands(existing: seq<Val>, previous: seq<string>, input: Input)
    requires TagsOk(input)
    ensures var synced := SyncedOutbounds(existing, previous, input);
            var members := SelectorMembers(existing, previous, input);
            if members == [] then forall v | v in synced && v.Map? ::
                                    !Says(v.fields, "type", "selector") || !Says(v.fields, "tag", "proxy")
            else synced != []
                 && synced[|synced| - 1] == Map(map["type" := Str("selector"), "tag" := Str("proxy"),
                                                    "outbounds" := TagList(members), "default" := Str(members[0])])
  {
    SyncedShape(existing, previous, input);
    if SelectorMembers(existing, previous, input) == [] {
      NothingSelects(existing, previous, input);
      NotSelecting(SyncedOutbounds(existing, previous, input));
    }
  }

  lemma NotSelecting(outbounds: seq<Val>)
    requires forall v | v in outbounds :: !IsProxySelector(v)
    ensures forall v | v in outbounds && v.Map? ::
              !Says(v.fields, "type", "selector") || !Says(v.fields, "tag", "proxy")
  {}

  // ---- The configuration ----

  /** A sync sets the outbounds; traffic that no rule sends anywhere goes to the proxy unless the configuration says
      where; everything else stays. */
  lemma ConfigFields(config: Object, previous: seq<string>, input: Input, key: string)
    ensures var synced := SyncedConfig(config, previous, input);
            var items := match At(config, "outbounds") { case Some(List(items)) => items case _ => [] };
            var route := match At(config, "route") { case Some(Map(fields)) => fields case _ => map[] };
            && At(synced, "outbounds") == Some(List(SyncedOutbounds(items, previous, input)))
            && (key != "outbounds" && key != "route" ==> At(synced, key) == At(config, key))
            && At(synced, "route").Some? && synced["route"].Map?
            && At(synced["route"].fields, "final") == Some(if "final" in route then route["final"] else Str("proxy"))
            && (key != "final" ==> At(synced["route"].fields, key) == At(route, key))
  {}
}

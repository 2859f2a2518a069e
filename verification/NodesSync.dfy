/** Reconciliation of the outbounds of the configuration with imported nodes and subscriptions. The
    configuration is taken as decoded JSON: nothing here depends on how numbers and lists are held in
    memory before they are written. */
module NodesSync {
  import opened Wrappers
  import opened GoValue

  /** `model.Outbound`; `raw` is the extra configuration, already decoded from its JSON text. */
  datatype Outbound = Outbound(tag: string, kind: string, server: string, port: int, raw: Option<Val>)

  datatype URLTest = URLTest(enabled: bool, url: string, interval: string, tolerance: nat)

  datatype Overrides =
    Overrides(enabled: Option<bool>, url: Option<string>, interval: Option<string>, tolerance: Option<nat>)

  datatype Subscription = Subscription(name: string, outbounds: seq<Outbound>, urlTest: Option<Overrides>)

  datatype Error = BadRaw | Storage | Panic

  const MANAGED_NODE_TYPES :=
    {"vless", "vmess", "trojan", "shadowsocks", "hysteria", "hysteria2", "tuic", "shadowtls", "anytls"}

  predicate IsManagedNodeType(kind: string) {
    kind in MANAGED_NODE_TYPES
  }

  /** `isProxyLikeOutboundType`: all managed node types, and two more. */
  predicate IsProxyLike(kind: string) {
    IsManagedNodeType(kind) || kind in {"ssh", "tor"}
  }

  predicate IsProxySelectorCandidate(kind: string) {
    kind !in {"direct", "block", "dns", "selector", "urltest"}
  }

  predicate IsGroupType(kind: string) {
    kind in {"urltest", "selector"}
  }

  function TagList(tags: seq<string>): Val {
    List(seq(|tags|, i requires 0 <= i < |tags| => Str(tags[i])))
  }

  // ---- What is kept of the existing outbounds ----

  /** The type alone makes a sync drop the outbound. */
  predicate IsReplacedType(kind: string) {
    IsManagedNodeType(kind) || kind in {"direct", "dns"}
  }

  /** `shouldReplaceExistingOutbound` */
  predicate Replaced(v: Val, groups: set<string>) {
    || !v.Map?
    || IsReplacedType(TypeOf(v))
    || (IsGroupType(TypeOf(v)) && TagOf(v) in groups)
    || (TypeOf(v) == "selector" && TagOf(v) == "proxy")
  }

  function Kept(existing: seq<Val>, groups: set<string>): seq<Val> {
    if existing == [] then [] else KeptOne(existing[0], groups) + Kept(existing[1..], groups)
  }

  function KeptOne(v: Val, groups: set<string>): seq<Val> {
    if Replaced(v, groups) then [] else [v]
  }

  const DIRECT := Map(map["type" := Str("direct"), "tag" := Str("direct")])

  function Preserved(existing: seq<Val>, groups: set<string>): seq<Val> {
    [DIRECT] + Kept(existing, groups)
  }

  lemma KeptStep(outbounds: seq<Val>, existing: seq<Val>, groups: set<string>, i: nat)
    requires i < |existing|
    ensures outbounds + Kept(existing[i..], groups) ==
            outbounds + KeptOne(existing[i], groups) + Kept(existing[i + 1..], groups)
  {
    assert existing[i..][1..] == existing[i + 1..];
  }

  lemma KeptEnds(outbounds: seq<Val>, existing: seq<Val>, groups: set<string>)
    ensures Kept(existing[0..], groups) == Kept(existing, groups)
    ensures outbounds + Kept(existing[|existing|..], groups) == outbounds
  {
    assert existing[0..] == existing;
  }

  method PreserveExistingOutbounds(existing: seq<Val>, groups: set<string>) returns (outbounds: seq<Val>)
    ensures outbounds == Preserved(existing, groups)
  {
    outbounds := [DIRECT];
    KeptEnds(outbounds, existing, groups);
    for i := 0 to |existing|
      invariant outbounds + Kept(existing[i..], groups) == Preserved(existing, groups)
    {
      KeptStep(outbounds, existing, groups, i);
      if !Replaced(existing[i], groups) {
        outbounds := outbounds + [existing[i]];
      } else {
        assert outbounds + [] == outbounds;
      }
    }
    KeptEnds(outbounds, existing, groups);
  }

  /** `managedURLTestTags` */
  function ManagedGroups(previous: seq<string>, subscriptions: seq<Subscription>): set<string> {
    (set tag | tag in previous && tag != "")
    + (set s | s in subscriptions && s.name != "" :: s.name)
  }

  /** The entry an index by tag holds: the last one with the tag. */
  function LastByTag(existing: seq<Val>, tag: string): Option<Object> {
    if existing == [] then None
    else
      var last := existing[|existing| - 1];
      if last.Map? && tag != "" && TagOf(last) == tag then Some(last.fields)
      else LastByTag(existing[..|existing| - 1], tag)
  }

  method IndexExistingOutbounds(existing: seq<Val>) returns (byTag: map<string, Object>)
    ensures forall tag :: Found(byTag, tag) == LastByTag(existing, tag)
  {
    byTag := map[];
    for i := 0 to |existing|
      invariant forall tag :: Found(byTag, tag) == LastByTag(existing[..i], tag)
    {
      assert existing[..i + 1][..i] == existing[..i];
      var tag := TagOf(existing[i]);
      if tag != "" {
        byTag := byTag[tag := existing[i].fields];
      }
    }
    assert existing[..|existing|] == existing;
  }

  function Found(byTag: map<string, Object>, tag: string): Option<Object> {
    if tag in byTag then Some(byTag[tag]) else None
  }

  // ---- Managed outbounds ----

  predicate RawOk(o: Outbound) {
    o.raw.None? || o.raw.value.Map?
  }

  function RawFields(o: Outbound): Object {
    if o.raw.Some? && o.raw.value.Map? then o.raw.value.fields else map[]
  }

  /** `buildManagedOutbound` on a decodable raw configuration. */
  function Built(existing: Option<Object>, o: Outbound): Object {
    var base := if existing.Some? then existing.value else map[];
    var entry := base["type" := Str(o.kind)]["tag" := Str(o.tag)]["server" := Str(o.server)]
                     ["server_port" := Float(o.port as real)] + RawFields(o);
    if IsProxyLike(o.kind) && "routing_mark" !in entry then entry["routing_mark" := Float(128.0)] else entry
  }

  function AllBuilt(existing: seq<Val>, managed: seq<Outbound>): (r: seq<Val>)
    ensures |r| == |managed|
    ensures forall i | 0 <= i < |managed| :: r[i] == Map(Built(LastByTag(existing, managed[i].tag), managed[i]))
  {
    seq(|managed|, i requires 0 <= i < |managed| => Map(Built(LastByTag(existing, managed[i].tag), managed[i])))
  }

  lemma BuiltStep(outbounds: seq<Val>, existing: seq<Val>, managed: seq<Outbound>, i: nat)
    requires i < |managed|
    ensures outbounds + AllBuilt(existing, managed)[..i + 1] ==
            outbounds + AllBuilt(existing, managed)[..i]
            + [Map(Built(LastByTag(existing, managed[i].tag), managed[i]))]
  {
    var built := AllBuilt(existing, managed);
    assert built[..i + 1] == built[..i] + [built[i]];
  }

  lemma BuiltEnds(outbounds: seq<Val>, existing: seq<Val>, managed: seq<Outbound>)
    ensures outbounds + AllBuilt(existing, managed)[..0] == outbounds
    ensures AllBuilt(existing, managed)[..|managed|] == AllBuilt(existing, managed)
    ensures managed[..|managed|] == managed
  {}

  method AppendManagedOutbounds(outbounds: seq<Val>, managed: seq<Outbound>, byTag: map<string, Object>,
                                ghost existing: seq<Val>)
    returns (r: Result<seq<Val>, Error>)
    requires forall tag :: Found(byTag, tag) == LastByTag(existing, tag)
    ensures r == if forall o | o in managed :: RawOk(o) then Ok(outbounds + AllBuilt(existing, managed))
                 else Err(BadRaw)
  {
    var result := outbounds;
    BuiltEnds(outbounds, existing, managed);
    for i := 0 to |managed|
      invariant forall o | o in managed[..i] :: RawOk(o)
      invariant result == outbounds + AllBuilt(existing, managed)[..i]
    {
      if !RawOk(managed[i]) {
        assert managed[i] in managed;
        return Err(BadRaw);
      }
      BuiltStep(outbounds, existing, managed, i);
      result := result + [Map(Built(Found(byTag, managed[i].tag), managed[i]))];
    }
    return Ok(result);
  }

  // ---- Subscription groups ----

  /** `subscriptionProxyTags` */
  function ProxyTags(outbounds: seq<Outbound>): seq<string> {
    if outbounds == [] then []
    else
      (if IsProxyLike(outbounds[0].kind) && outbounds[0].tag != "" then [outbounds[0].tag] else [])
      + ProxyTags(outbounds[1..])
  }

  /** `ResolveURLTest` */
  function Resolve(defaults: URLTest, overrides: Option<Overrides>): URLTest {
    match overrides
    case None => defaults
    case Some(o) =>
      URLTest(if o.enabled.Some? then o.enabled.value else defaults.enabled,
              if o.url.Some? then o.url.value else defaults.url,
              if o.interval.Some? then o.interval.value else defaults.interval,
              if o.tolerance.Some? then o.tolerance.value else defaults.tolerance)
  }

  function GroupEntry(existing: Option<Object>, s: Subscription, defaults: URLTest): Object {
    var base := if existing.Some? then existing.value else map[];
    var resolved := Resolve(defaults, s.urlTest);
    var entry := base["tag" := Str(s.name)]["outbounds" := TagList(ProxyTags(s.outbounds))];
    if resolved.enabled then
      entry["type" := Str("urltest")]["url" := Str(resolved.url)]["interval" := Str(resolved.interval)]
           ["tolerance" := Float(resolved.tolerance as real)]
    else
      entry["type" := Str("selector")] - {"url", "interval", "tolerance"}
  }

  function GroupTags(subscriptions: seq<Subscription>): seq<string> {
    if subscriptions == [] then []
    else GroupTagOf(subscriptions[0]) + GroupTags(subscriptions[1..])
  }

  function GroupEntries(existing: seq<Val>, subscriptions: seq<Subscription>, defaults: URLTest): seq<Val> {
    if subscriptions == [] then []
    else GroupOf(existing, subscriptions[0], defaults) + GroupEntries(existing, subscriptions[1..], defaults)
  }

  /** What one subscription adds to the outbounds and to the names of groups. */
  function GroupOf(existing: seq<Val>, s: Subscription, defaults: URLTest): seq<Val> {
    if ProxyTags(s.outbounds) == [] then [] else [Map(GroupEntry(LastByTag(existing, s.name), s, defaults))]
  }

  function GroupTagOf(s: Subscription): seq<string> {
    if ProxyTags(s.outbounds) == [] then [] else [s.name]
  }

  lemma EntriesStep(result: seq<Val>, existing: seq<Val>, subscriptions: seq<Subscription>, defaults: URLTest, i: nat)
    requires i < |subscriptions|
    ensures result + GroupEntries(existing, subscriptions[i..], defaults) ==
            result + GroupOf(existing, subscriptions[i], defaults)
            + GroupEntries(existing, subscriptions[i + 1..], defaults)
  {
    assert subscriptions[i..][1..] == subscriptions[i + 1..];
  }

  lemma TagsStep(tags: seq<string>, subscriptions: seq<Subscription>, i: nat)
    requires i < |subscriptions|
    ensures tags + GroupTags(subscriptions[i..]) ==
            tags + GroupTagOf(subscriptions[i]) + GroupTags(subscriptions[i + 1..])
  {
    assert subscriptions[i..][1..] == subscriptions[i + 1..];
  }

  lemma GroupsEnd(result: seq<Val>, tags: seq<string>, existing: seq<Val>, subscriptions: seq<Subscription>,
                  defaults: URLTest)
    ensures subscriptions[0..] == subscriptions
    ensures result + GroupEntries(existing, subscriptions[|subscriptions|..], defaults) == result
    ensures tags + GroupTags(subscriptions[|subscriptions|..]) == tags
  {}

  method AppendGroups(outbounds: seq<Val>, subscriptions: seq<Subscription>, defaults: URLTest,
                      byTag: map<string, Object>, ghost existing: seq<Val>)
    returns (result: seq<Val>, groupTags: seq<string>)
    requires forall tag :: Found(byTag, tag) == LastByTag(existing, tag)
    ensures result == outbounds + GroupEntries(existing, subscriptions, defaults)
    ensures groupTags == GroupTags(subscriptions)
  {
    result, groupTags := outbounds, [];
    GroupsEnd(result, [], existing, subscriptions, defaults);
    for i := 0 to |subscriptions|
      invariant result + GroupEntries(existing, subscriptions[i..], defaults)
             == outbounds + GroupEntries(existing, subscriptions, defaults)
      invariant groupTags + GroupTags(subscriptions[i..]) == GroupTags(subscriptions)
    {
      var s := subscriptions[i];
      EntriesStep(result, existing, subscriptions, defaults, i);
      TagsStep(groupTags, subscriptions, i);
      if ProxyTags(s.outbounds) == [] {
        assert result + [] == result && groupTags + [] == groupTags;
        continue;
      }
      result := result + [Map(GroupEntry(Found(byTag, s.name), s, defaults))];
      groupTags := groupTags + [s.name];
    }
    GroupsEnd(result, groupTags, existing, subscriptions, defaults);
  }

  // ---- The proxy selector ----

  function MemberTags(subscriptions: seq<Subscription>): set<string> {
    set s, tag | s in subscriptions && tag in ProxyTags(s.outbounds) :: tag
  }

  predicate IsProxyTagEntry(v: Val, excluded: set<string>) {
    TagOf(v) != "" && TagOf(v) !in excluded && IsProxySelectorCandidate(TypeOf(v))
  }

  function Collected(outbounds: seq<Val>, excluded: set<string>): seq<string> {
    if outbounds == [] then []
    else CollectedOne(outbounds[0], excluded) + Collected(outbounds[1..], excluded)
  }

  function CollectedOne(v: Val, excluded: set<string>): seq<string> {
    if IsProxyTagEntry(v, excluded) then [TagOf(v)] else []
  }

  lemma CollectedStep(tags: seq<string>, outbounds: seq<Val>, excluded: set<string>, i: nat)
    requires i < |outbounds|
    ensures tags + Collected(outbounds[i..], excluded) ==
            tags + CollectedOne(outbounds[i], excluded) + Collected(outbounds[i + 1..], excluded)
  {
    assert outbounds[i..][1..] == outbounds[i + 1..];
  }

  lemma CollectedEnds(tags: seq<string>, outbounds: seq<Val>, excluded: set<string>)
    ensures Collected(outbounds[0..], excluded) == Collected(outbounds, excluded)
    ensures tags + Collected(outbounds[|outbounds|..], excluded) == tags
  {
    assert outbounds[0..] == outbounds;
  }

  method CollectProxyTags(outbounds: seq<Val>, excluded: set<string>) returns (tags: seq<string>)
    ensures tags == Collected(outbounds, excluded)
  {
    tags := [];
    CollectedEnds([], outbounds, excluded);
    for i := 0 to |outbounds|
      invariant tags + Collected(outbounds[i..], excluded) == Collected(outbounds, excluded)
    {
      CollectedStep(tags, outbounds, excluded, i);
      if IsProxyTagEntry(outbounds[i], excluded) {
        tags := tags + [TagOf(outbounds[i])];
      } else {
        assert tags + [] == tags;
      }
    }
    CollectedEnds(tags, outbounds, excluded);
  }

  predicate IsProxySelector(v: Val) {
    TypeOf(v) == "selector" && TagOf(v) == "proxy"
  }

  function SelectorEntry(members: seq<string>): Val
    requires members != []
  {
    Map(map["type" := Str("selector"), "tag" := Str("proxy"),
            "outbounds" := TagList(members), "default" := Str(members[0])])
  }

  function WithMembers(v: Val, members: seq<string>): Val
    requires v.Map? && members != []
  {
    Map(v.fields["outbounds" := TagList(members)]["default" := Str(members[0])])
  }

  function FirstProxySelector(outbounds: seq<Val>): (k: nat)
    ensures k <= |outbounds| && (k < |outbounds| ==> IsProxySelector(outbounds[k]))
    ensures forall i | 0 <= i < k :: !IsProxySelector(outbounds[i])
  {
    if outbounds == [] || IsProxySelector(outbounds[0]) then 0 else 1 + FirstProxySelector(outbounds[1..])
  }

  /** `upsertProxySelector`: rewrites the first proxy selector in place, or appends one. */
  function Upserted(outbounds: seq<Val>, members: seq<string>): seq<Val> {
    if members == [] then outbounds
    else
      var k := FirstProxySelector(outbounds);
      if k < |outbounds| then outbounds[k := WithMembers(outbounds[k], members)]
      else outbounds + [SelectorEntry(members)]
  }

  method UpsertProxySelector(outbounds: seq<Val>, members: seq<string>) returns (result: seq<Val>)
    ensures result == Upserted(outbounds, members)
  {
    if members == [] {
      return outbounds;
    }
    for index := 0 to |outbounds|
      invariant index <= FirstProxySelector(outbounds)
    {
      if IsProxySelector(outbounds[index]) {
        return outbounds[index := WithMembers(outbounds[index], members)];
      }
    }
    return outbounds + [SelectorEntry(members)];
  }

  // ---- The whole sync ----

  datatype Input = Input(nodes: seq<Outbound>, subscriptions: seq<Subscription>, defaults: URLTest)

  function SubscriptionOutbounds(subscriptions: seq<Subscription>): seq<Outbound> {
    if subscriptions == [] then [] else subscriptions[0].outbounds + SubscriptionOutbounds(subscriptions[1..])
  }

  /** Every managed outbound, in the order in which a sync appends them. */
  function Managed(input: Input): seq<Outbound> {
    input.nodes + SubscriptionOutbounds(input.subscriptions)
  }

  /** Existing and managed outbounds, before groups and selector. */
  function Base(existing: seq<Val>, previous: seq<string>, input: Input): seq<Val> {
    Preserved(existing, ManagedGroups(previous, input.subscriptions)) + AllBuilt(existing, Managed(input))
  }

  function SelectorMembers(existing: seq<Val>, previous: seq<string>, input: Input): seq<string> {
    GroupTags(input.subscriptions)
    + Collected(Base(existing, previous, input), MemberTags(input.subscriptions))
  }

  function SyncedOutbounds(existing: seq<Val>, previous: seq<string>, input: Input): seq<Val> {
    Upserted(Base(existing, previous, input) + GroupEntries(existing, input.subscriptions, input.defaults),
             SelectorMembers(existing, previous, input))
  }

  function ExistingOutbounds(config: Object): seq<Val> {
    match At(config, "outbounds")
    case Some(List(items)) => items
    case _ => []
  }

  /** `ensureRouteFinal` */
  function WithRouteFinal(config: Object): Object {
    var route := if "route" in config && config["route"].Map? then config["route"].fields else map[];
    config["route" := Map(if "final" in route then route else route["final" := Str("proxy")])]
  }

  function SyncedConfig(config: Object, previous: seq<string>, input: Input): Object {
    WithRouteFinal(config["outbounds" := List(SyncedOutbounds(ExistingOutbounds(config), previous, input))])
  }

  predicate InputOk(input: Input) {
    forall o | o in Managed(input) :: RawOk(o)
  }
}

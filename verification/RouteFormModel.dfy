/** The field tables of the route form. */
module RouteFields {
  import opened Wrappers
  import opened FieldTransition
  import opened DottedPath

  datatype Kind =
    | KBoolean | KNumber | KList | KNumberList | KSelect | KObject | KArray
    | KRef | KRefMulti | KNetworkMulti | KNetworkInterface

  type RouteField = Field<Kind>

  function Of(key: string, kind: Kind): RouteField {
    Field([key], Some(kind))
  }

  function Plain(key: string): RouteField {
    Field([key], None)
  }

  function Below(key: string, kind: Option<Kind>): RouteField {
    Field([RESOLVER_KEY, key], kind)
  }

  const BASIC_MATCH_FIELDS: seq<RouteField> := [
    Of("type", KSelect), Of("inbound", KRefMulti), Of("ip_version", KSelect), Of("network", KNetworkMulti),
    Of("auth_user", KList), Of("protocol", KList), Of("client", KList), Of("domain", KList),
    Of("domain_suffix", KList), Of("domain_keyword", KList), Of("domain_regex", KList),
    Of("source_ip_cidr", KList)
  ]

  const PORT_MATCH_FIELDS: seq<RouteField> := [
    Of("source_ip_is_private", KBoolean), Of("ip_cidr", KList), Of("ip_is_private", KBoolean),
    Of("source_port", KNumberList), Of("source_port_range", KList), Of("port", KNumberList),
    Of("port_range", KList), Of("process_name", KList), Of("process_path", KList),
    Of("process_path_regex", KList), Of("package_name", KList), Of("user", KList)
  ]

  const OTHER_MATCH_FIELDS: seq<RouteField> := [
    Of("user_id", KNumberList), Of("rule_set", KRefMulti), Of("rule_set_ip_cidr_match_source", KBoolean),
    Plain("clash_mode"), Of("network_type", KList), Of("network_is_expensive", KBoolean),
    Of("network_is_constrained", KBoolean), Of("wifi_ssid", KList), Of("wifi_bssid", KList),
    Of("invert", KBoolean)
  ]

  const MATCH_FIELDS: seq<RouteField> := BASIC_MATCH_FIELDS + PORT_MATCH_FIELDS + OTHER_MATCH_FIELDS

  const OVERRIDE_FIELDS: seq<RouteField> := [
    Plain("override_address"), Of("override_port", KNumber), Of("network_strategy", KSelect),
    Of("fallback_delay", KNumber), Of("udp_disable_domain_unmapping", KBoolean)
  ]

  const CONNECT_FIELDS: seq<RouteField> := [
    Of("udp_connect", KBoolean), Plain("udp_timeout"), Of("tls_fragment", KBoolean),
    Plain("tls_fragment_fallback_delay"), Of("tls_record_fragment", KBoolean)
  ]

  const OPTION_FIELDS: seq<RouteField> := OVERRIDE_FIELDS + CONNECT_FIELDS

  const BIND_FIELDS: seq<RouteField> := [
    Of("bind_interface", KNetworkInterface), Plain("inet4_bind_address"), Plain("inet6_bind_address"),
    Of("bind_address_no_port", KBoolean), Plain("protect_path"), Plain("routing_mark"),
    Of("reuse_addr", KBoolean), Plain("netns"), Plain("connect_timeout"), Of("tcp_fast_open", KBoolean),
    Of("tcp_multi_path", KBoolean), Of("disable_tcp_keep_alive", KBoolean)
  ]

  const RESOLVER_FIELDS: seq<RouteField> := [
    Plain("tcp_keep_alive"), Plain("tcp_keep_alive_interval"), Of("udp_fragment", KBoolean),
    Below("server", Some(KRef)), Below("strategy", Some(KSelect)), Below("disable_cache", Some(KBoolean)),
    Below("rewrite_ttl", Some(KNumber)), Below("client_subnet", None), Of("network_strategy", KSelect),
    Of("network_type", KList), Of("fallback_network_type", KList), Plain("fallback_delay")
  ]

  const DIRECT_FIELDS: seq<RouteField> := BIND_FIELDS + RESOLVER_FIELDS

  const ROUTE_FIELDS: seq<RouteField> := [Of("outbound", KRef)] + OPTION_FIELDS

  const REJECT_FIELDS: seq<RouteField> := [Of("method", KSelect), Of("no_drop", KBoolean)]

  const SNIFF_FIELDS: seq<RouteField> := [Of("sniffer", KList), Plain("timeout")]

  const RESOLVE_FIELDS: seq<RouteField> := [
    Of("server", KRef), Of("strategy", KSelect), Of("disable_cache", KBoolean),
    Of("rewrite_ttl", KNumber), Plain("client_subnet")
  ]

  const LOGICAL_FIELDS: seq<RouteField> := [Of("mode", KSelect), Of("rules", KArray), Of("invert", KBoolean)]

  const INLINE_SET_FIELDS: seq<RouteField> := [Of("rules", KArray)]

  const LOCAL_SET_FIELDS: seq<RouteField> := [Plain("format"), Plain("path")]

  const REMOTE_SET_FIELDS: seq<RouteField> := [
    Plain("format"), Plain("url"), Of("download_detour", KRef), Plain("update_interval")
  ]

  const RULE_SET_GROUPS: seq<seq<RouteField>> := [INLINE_SET_FIELDS, LOCAL_SET_FIELDS, REMOTE_SET_FIELDS]

  /** `ruleSetFields[type]` */
  function RuleSetFields(name: string): Option<seq<RouteField>> {
    match name
    case "inline" => Some(INLINE_SET_FIELDS)
    case "local" => Some(LOCAL_SET_FIELDS)
    case "remote" => Some(REMOTE_SET_FIELDS)
    case _ => None
  }

  const ACTION_GROUPS: seq<seq<RouteField>> := [
    ROUTE_FIELDS, OPTION_FIELDS, DIRECT_FIELDS, ROUTE_FIELDS, REJECT_FIELDS, [], SNIFF_FIELDS, RESOLVE_FIELDS
  ]

  /** `routeActionFields[action]` */
  function ActionFields(action: string): Option<seq<RouteField>> {
    match action
    case "route" => Some(ROUTE_FIELDS)
    case "route-options" => Some(OPTION_FIELDS)
    case "direct" => Some(DIRECT_FIELDS)
    case "bypass" => Some(ROUTE_FIELDS)
    case "reject" => Some(REJECT_FIELDS)
    case "hijack-dns" => Some([])
    case "sniff" => Some(SNIFF_FIELDS)
    case "resolve" => Some(RESOLVE_FIELDS)
    case _ => None
  }

  /** The shape of every action path: a key below the resolver root, or a plain key that is neither that
      root nor "action". */
  predicate ActionShape(path: Path) {
    if path[0] == RESOLVER_KEY then |path| == 2 else |path| == 1 && path[0] != "action"
  }

  lemma ShapeUnrelated(p: Path, q: Path)
    requires ActionShape(p) && ActionShape(q) && Related(p, q)
    ensures p == q
  {
    assert p[0] == q[0];
  }

  ghost predicate Shaped(fields: seq<RouteField>) {
    forall f | f in fields :: ActionShape(f.path)
  }

  lemma ShapedConcat(a: seq<RouteField>, b: seq<RouteField>)
    requires Shaped(a) && Shaped(b)
    ensures Shaped(a + b)
  {}

  lemma {:induction false} ShapedFlatten(groups: seq<seq<RouteField>>)
    requires forall i | 0 <= i < |groups| :: Shaped(groups[i])
    ensures Shaped(Flatten(groups))
  {
    if groups != [] {
      ShapedFlatten(groups[1..]);
      ShapedConcat(groups[0], Flatten(groups[1..]));
    }
  }

  lemma BindShapes()
    ensures Shaped(BIND_FIELDS)
  {}

  lemma ResolverShapes()
    ensures Shaped(RESOLVER_FIELDS)
  {}

  lemma OverrideShapes()
    ensures Shaped(OVERRIDE_FIELDS)
  {}

  lemma ConnectShapes()
    ensures Shaped(CONNECT_FIELDS) && Shaped([Of("outbound", KRef)])
  {}

  lemma OptionShapes()
    ensures Shaped(OPTION_FIELDS) && Shaped([Of("outbound", KRef)])
  {
    OverrideShapes();
    ConnectShapes();
    ShapedConcat(OVERRIDE_FIELDS, CONNECT_FIELDS);
  }

  lemma OtherShapes()
    ensures Shaped(REJECT_FIELDS) && Shaped(SNIFF_FIELDS) && Shaped(RESOLVE_FIELDS)
  {}

  lemma DirectShapes()
    ensures Shaped(DIRECT_FIELDS) && Shaped(ROUTE_FIELDS)
  {
    BindShapes();
    ResolverShapes();
    OptionShapes();
    ShapedConcat(BIND_FIELDS, RESOLVER_FIELDS);
    ShapedConcat([Of("outbound", KRef)], OPTION_FIELDS);
  }

  /** Every action field of the form has the action shape. */
  lemma ActionShapes()
    ensures Shaped(Flatten(ACTION_GROUPS))
  {
    OptionShapes();
    OtherShapes();
    DirectShapes();
    assert Shaped([]);
    ShapedFlatten(ACTION_GROUPS);
  }

  /** Match paths are plain keys, none of them the resolver root or the action itself. */
  ghost predicate MatchShaped(fields: seq<RouteField>) {
    forall f | f in fields :: |f.path| == 1 && f.path[0] != RESOLVER_KEY && f.path[0] != "action"
  }

  lemma BasicMatchShapes()
    ensures MatchShaped(BASIC_MATCH_FIELDS)
  {}

  lemma PortMatchShapes()
    ensures MatchShaped(PORT_MATCH_FIELDS)
  {}

  lemma OtherMatchShapes()
    ensures MatchShaped(OTHER_MATCH_FIELDS)
  {}

  lemma MatchShapedConcat(a: seq<RouteField>, b: seq<RouteField>)
    requires MatchShaped(a) && MatchShaped(b)
    ensures MatchShaped(a + b)
  {}

  lemma MatchShapes()
    ensures MatchShaped(MATCH_FIELDS)
  {
    BasicMatchShapes();
    PortMatchShapes();
    OtherMatchShapes();
    MatchShapedConcat(BASIC_MATCH_FIELDS, PORT_MATCH_FIELDS);
    MatchShapedConcat(BASIC_MATCH_FIELDS + PORT_MATCH_FIELDS, OTHER_MATCH_FIELDS);
  }
}

/** The type and action changes of the route form. */
module RouteFormModel {
  import opened Wrappers
  import opened Json
  import opened DottedPath
  import opened PolicyPath
  import opened FieldTransition
  import opened RouteFields

  /** `matchesField`; an undefined value always matches. */
  predicate Fits(value: Option<Json>, kind: Option<Kind>) {
    if value.None? then true
    else
      var v := value.value;
      match kind
      case Some(KBoolean) => v.Bool?
      case Some(KNumber) => v.Num?
      case Some(KList) => IsStringList(v)
      case Some(KNetworkMulti) => IsStringList(v)
      case Some(KRefMulti) => IsStringList(v)
      case Some(KNumberList) => v.Num? || (v.Arr? && forall item | item in v.items :: item.Num?)
      case Some(KObject) => v.Obj?
      case Some(KArray) => v.Arr?
      case _ => v.Str? || v.Num? || v.Bool?
  }

  predicate IsStringList(v: Json) {
    v.Str? || (v.Arr? && forall item | item in v.items :: item.Str?)
  }

  /** The reducer's decision on one managed path. */
  predicate Keeps(compatible: seq<RouteField>, path: Path, value: Option<Json>) {
    var target := LastAt(compatible, path);
    target.Some? && Fits(value, target.value.kind)
  }

  /** `transitionFields`; an unknown source type is `None`, an unknown target type has no fields. */
  function TransitionFields(obj: JsonObject, known: seq<RouteField>,
                            source: Option<seq<RouteField>>, target: Option<seq<RouteField>>): JsonObject
  {
    var compatible := Compatible(source, if target.Some? then target.value else []);
    Retain(obj, Paths(known), (path: Path, value: Option<Json>) => Keeps(compatible, path, value))
  }

  /** The target type has the field, with the kind it has in the source type if that type is known, and
      the value fits the kind. */
  ghost predicate Survives(source: Option<seq<RouteField>>, target: Option<seq<RouteField>>,
                           path: Path, value: Json)
  {
    target.Some?
    && exists f :: Decides(source, target.value, path, f) && Fits(Some(value), f.kind)
  }

  lemma {:induction false} TransitionFieldsExact(obj: JsonObject, known: seq<RouteField>,
                                                 source: Option<seq<RouteField>>, target: Option<seq<RouteField>>,
                                                 path: Path)
    requires PairwiseUnrelated(Paths(known))
    ensures var result := TransitionFields(obj, known, source, target);
            (HasPath(known, path) ==>
               Get(result, path) ==
               if Get(obj, path).Some? && Survives(source, target, path, Get(obj, path).value)
               then Get(obj, path) else None)
            && ((forall f | f in known :: !Related(f.path, path)) ==> Get(result, path) == Get(obj, path))
  {
    var fields := if target.Some? then target.value else [];
    var compatible := Compatible(source, fields);
    var keep := (p: Path, value: Option<Json>) => Keeps(compatible, p, value);
    if HasPath(known, path) {
      var i :| 0 <= i < |known| && known[i].path == path;
      RetainExact(obj, Paths(known), keep, i);
      LookupDecides(source, fields, path);
      var found := LastAt(compatible, path);
      if found.Some? {
        assert Decides(source, fields, path, found.value);
      }
      assert keep(path, Get(obj, path)) == Keeps(compatible, path, Get(obj, path));
    }
    if forall f | f in known :: !Related(f.path, path) {
      RetainFrame(obj, Paths(known), keep, path);
    }
  }

  function Without(fields: seq<RouteField>, excluded: seq<RouteField>): (rest: seq<RouteField>)
    ensures forall f :: f in rest <==> f in fields && !HasPath(excluded, f.path)
  {
    if fields == [] then []
    else (if HasPath(excluded, fields[0].path) then [] else [fields[0]]) + Without(fields[1..], excluded)
  }

  lemma {:induction false} WithoutDistinct(fields: seq<RouteField>, excluded: seq<RouteField>)
    requires DistinctPaths(fields)
    ensures DistinctPaths(Without(fields, excluded))
  {
    if fields != [] {
      WithoutDistinct(fields[1..], excluded);
      var rest := Without(fields[1..], excluded);
      forall i | 0 <= i < |rest|
        ensures rest[i].path != fields[0].path
      {
        assert rest[i] in rest;
        var j :| 0 <= j < |fields[1..]| && fields[1..][j] == rest[i];
        assert fields[j + 1] == rest[i];
      }
    }
  }

  /** `knownActionFields`: all action paths except those that are also match paths. */
  function KnownActionFields(): seq<RouteField> {
    Without(Unique([], Flatten(ACTION_GROUPS)), MATCH_FIELDS)
  }

  /** The transition, then the new name; the present type or action changes nothing. */
  function Chosen(obj: JsonObject, present: bool, known: seq<RouteField>, source: Option<seq<RouteField>>,
                  target: Option<seq<RouteField>>, key: string, value: Option<Json>): JsonObject
  {
    if present then obj else Set(TransitionFields(obj, known, source, target), [key], value)
  }

  function ChangeRouteAction(rule: JsonObject, action: string, show: Json -> string): JsonObject {
    Chosen(rule, IsExplicit(rule, action, show), KnownActionFields(), ActionFields(CurrentAction(rule, show)),
           ActionFields(action), "action", ActionValue(action))
  }

  lemma WithoutUniqueShape(all: seq<RouteField>, excluded: seq<RouteField>)
    requires Shaped(all)
    ensures Shaped(Without(Unique([], all), excluded))
    ensures PairwiseUnrelated(Paths(Without(Unique([], all), excluded)))
  {
    UniqueFacts(all);
    WithoutDistinct(Unique([], all), excluded);
    var known := Without(Unique([], all), excluded);
    forall i, j | 0 <= i < j < |known|
      ensures !Related(known[i].path, known[j].path)
    {
      assert known[i] in known && known[j] in known;
      if Related(known[i].path, known[j].path) {
        ShapeUnrelated(known[i].path, known[j].path);
      }
    }
  }

  lemma KnownActionShape()
    ensures Shaped(KnownActionFields())
    ensures PairwiseUnrelated(Paths(KnownActionFields()))
  {
    ActionShapes();
    WithoutUniqueShape(Flatten(ACTION_GROUPS), MATCH_FIELDS);
  }

  lemma MatchUnrelated(fields: seq<RouteField>, matches: seq<RouteField>, field: RouteField)
    requires Shaped(Without(fields, matches)) && MatchShaped(matches) && field in matches
    ensures forall f | f in Without(fields, matches) :: !Related(f.path, field.path)
  {
    forall f | f in Without(fields, matches)
      ensures !Related(f.path, field.path)
    {
      assert ActionShape(f.path);
    }
  }

  /** The outcome of a change of action or type at one path. */
  ghost predicate ChangedAt(rule: JsonObject, result: JsonObject, known: seq<RouteField>,
                            source: Option<seq<RouteField>>, target: Option<seq<RouteField>>,
                            key: string, value: Option<Json>, path: Path)
  {
    // The new name is written.
    && Get(result, [key]) == value
    // A managed path survives exactly as the field tables say.
    && (HasPath(known, path) ==>
          Get(result, path) ==
          if Get(rule, path).Some? && Survives(source, target, path, Get(rule, path).value)
          then Get(rule, path) else None)
    // Unrelated paths are unchanged.
    && ((forall f | f in known :: !Related(f.path, path)) && path[0] != key ==>
          Get(result, path) == Get(rule, path))
  }

  /** No known path is above another one, and none is at or below the key. */
  ghost predicate Sound(known: seq<RouteField>, key: string) {
    PairwiseUnrelated(Paths(known)) && forall f | f in known :: f.path[0] != key
  }

  lemma {:induction false} ChangeExact(rule: JsonObject, known: seq<RouteField>, source: Option<seq<RouteField>>,
                                       target: Option<seq<RouteField>>, key: string, value: Option<Json>, path: Path)
    requires Sound(known, key)
    ensures ChangedAt(rule, Set(TransitionFields(rule, known, source, target), [key], value),
                      known, source, target, key, value, path)
  {
    var next := TransitionFields(rule, known, source, target);
    TransitionFieldsExact(rule, known, source, target, path);
    GetSet(next, [key], value);
    if HasPath(known, path) {
      var i :| 0 <= i < |known| && known[i].path == path;
      assert known[i] in known;
    }
    if path[0] != key {
      SetFrame(next, [key], value, path);
    }
  }

  /** The outcome of choosing a type or an action: no change if it is the present one. */
  ghost predicate Outcome(obj: JsonObject, result: JsonObject, present: bool, known: seq<RouteField>,
                          source: Option<seq<RouteField>>, target: Option<seq<RouteField>>,
                          key: string, value: Option<Json>, path: Path)
  {
    if present then result == obj else ChangedAt(obj, result, known, source, target, key, value, path)
  }

  lemma OutcomeExact(obj: JsonObject, present: bool, known: seq<RouteField>, source: Option<seq<RouteField>>,
                     target: Option<seq<RouteField>>, key: string, value: Option<Json>, path: Path)
    requires Sound(known, key)
    ensures Outcome(obj, Chosen(obj, present, known, source, target, key, value), present, known, source, target,
                    key, value, path)
  {
    ChangeExact(obj, known, source, target, key, value, path);
  }

  lemma ShapedSound(known: seq<RouteField>)
    requires Shaped(known) && PairwiseUnrelated(Paths(known))
    ensures Sound(known, "action")
  {
    forall f | f in known
      ensures f.path[0] != "action"
    {
      assert ActionShape(f.path);
    }
  }

  /** Changing the action of a route rule, on the field tables of the form: what happens to every managed
      path, to the action, and to everything else. A change to the explicit present action changes nothing. */
  lemma ChangeRouteActionExact(rule: JsonObject, action: string, show: Json -> string, path: Path)
    ensures Outcome(rule, ChangeRouteAction(rule, action, show), IsExplicit(rule, action, show), KnownActionFields(),
                    ActionFields(CurrentAction(rule, show)), ActionFields(action), "action", ActionValue(action), path)
  {
    KnownActionShape();
    ShapedSound(KnownActionFields());
    OutcomeExact(rule, IsExplicit(rule, action, show), KnownActionFields(), ActionFields(CurrentAction(rule, show)),
                 ActionFields(action), "action", ActionValue(action), path);
  }

  lemma MatchFieldHead(matches: seq<RouteField>, field: RouteField)
    requires MatchShaped(matches) && field in matches
    ensures field.path[0] != "action"
  {}

  lemma MatchFieldFacts(field: RouteField)
    requires field in MATCH_FIELDS
    ensures field.path[0] != "action"
    ensures forall f | f in KnownActionFields() :: !Related(f.path, field.path)
  {
    MatchShapes();
    KnownActionShape();
    MatchUnrelated(Unique([], Flatten(ACTION_GROUPS)), MATCH_FIELDS, field);
    MatchFieldHead(MATCH_FIELDS, field);
  }

  lemma KeepsUnrelated(rule: JsonObject, action: string, show: Json -> string, path: Path)
    requires path[0] != "action"
    requires forall f | f in KnownActionFields() :: !Related(f.path, path)
    ensures Get(ChangeRouteAction(rule, action, show), path) == Get(rule, path)
  {
    ChangeRouteActionExact(rule, action, show, path);
  }

  /** Changing the action never alters a match field. */
  lemma ChangeRouteActionKeepsMatch(rule: JsonObject, action: string, show: Json -> string, field: RouteField)
    requires field in MATCH_FIELDS
    ensures Get(ChangeRouteAction(rule, action, show), field.path) == Get(rule, field.path)
  {
    MatchFieldFacts(field);
    KeepsUnrelated(rule, action, show, field.path);
  }

  // ---- Changing the type of a rule or of a rule set ----

  const TYPE_FIELDS: seq<RouteField> := [Of("type", KSelect)]

  /** The match fields but for the type itself. */
  function DefaultRuleFields(): seq<RouteField> {
    Without(MATCH_FIELDS, TYPE_FIELDS)
  }

  /** `ruleTypeFields[type]` */
  function RuleTypeFields(name: string): Option<seq<RouteField>> {
    match name
    case "default" => Some(DefaultRuleFields())
    case "logical" => Some(LOGICAL_FIELDS)
    case _ => None
  }

  function KnownRuleFields(): seq<RouteField> {
    Unique([], Flatten([DefaultRuleFields(), LOGICAL_FIELDS]))
  }

  function KnownRuleSetFields(): seq<RouteField> {
    Unique([], Flatten(RULE_SET_GROUPS))
  }

  function ChangeRouteRuleType(rule: JsonObject, name: string, show: Json -> string): JsonObject {
    var current := CurrentRuleType(rule, show);
    Chosen(rule, current == name, KnownRuleFields(), RuleTypeFields(current), RuleTypeFields(name), "type",
           RuleTypeValue(name))
  }

  function CurrentSetType(ruleSet: JsonObject, show: Json -> string): string {
    Text(Get(ruleSet, ["type"]), "inline", show)
  }

  function ChangeRuleSetType(ruleSet: JsonObject, name: string, show: Json -> string): JsonObject {
    var current := CurrentSetType(ruleSet, show);
    Chosen(ruleSet, current == name, KnownRuleSetFields(), RuleSetFields(current), RuleSetFields(name), "type",
           Some(Str(name)))
  }

  /** Plain keys, none of them the type. */
  ghost predicate TypeFree(fields: seq<RouteField>) {
    forall f | f in fields :: |f.path| == 1 && f.path[0] != "type"
  }

  lemma {:induction false} TypeFreeFlatten(groups: seq<seq<RouteField>>)
    requires forall i | 0 <= i < |groups| :: TypeFree(groups[i])
    ensures TypeFree(Flatten(groups))
  {
    if groups != [] {
      TypeFreeFlatten(groups[1..]);
    }
  }

  lemma TypeFreeUnrelated(all: seq<RouteField>)
    requires TypeFree(all)
    ensures TypeFree(Unique([], all)) && PairwiseUnrelated(Paths(Unique([], all)))
  {
    UniqueFacts(all);
    UniqueUnrelated(all);
  }

  lemma TypeFreeWithout(matches: seq<RouteField>, types: seq<RouteField>)
    requires MatchShaped(matches) && |types| == 1 && types[0].path == ["type"]
    ensures TypeFree(Without(matches, types))
  {
    forall f | f in Without(matches, types)
      ensures |f.path| == 1 && f.path[0] != "type"
    {
      assert f in matches && types[0].path != f.path;
      assert f.path == [f.path[0]];
    }
  }

  lemma LogicalTypeFree()
    ensures TypeFree(LOGICAL_FIELDS)
  {}

  lemma RuleSetsTypeFree()
    ensures TypeFree(INLINE_SET_FIELDS) && TypeFree(LOCAL_SET_FIELDS) && TypeFree(REMOTE_SET_FIELDS)
  {}

  lemma TwoGroupsTypeFree(a: seq<RouteField>, b: seq<RouteField>)
    requires TypeFree(a) && TypeFree(b)
    ensures var known := Unique([], Flatten([a, b]));
            TypeFree(known) && PairwiseUnrelated(Paths(known))
  {
    TypeFreeFlatten([a, b]);
    TypeFreeUnrelated(Flatten([a, b]));
  }

  lemma KnownRulesTypeFree()
    ensures TypeFree(KnownRuleFields()) && PairwiseUnrelated(Paths(KnownRuleFields()))
  {
    MatchShapes();
    TypeFreeWithout(MATCH_FIELDS, TYPE_FIELDS);
    LogicalTypeFree();
    TwoGroupsTypeFree(DefaultRuleFields(), LOGICAL_FIELDS);
  }

  lemma KnownRuleSetsTypeFree()
    ensures TypeFree(KnownRuleSetFields()) && PairwiseUnrelated(Paths(KnownRuleSetFields()))
  {
    RuleSetsTypeFree();
    TypeFreeFlatten(RULE_SET_GROUPS);
    TypeFreeUnrelated(Flatten(RULE_SET_GROUPS));
  }

  lemma TypeFreeSound(known: seq<RouteField>)
    requires TypeFree(known) && PairwiseUnrelated(Paths(known))
    ensures Sound(known, "type")
  {}

  /** Changing the type of a route rule, on the field tables of the form; a change to the present type
      changes nothing. */
  lemma ChangeRouteRuleTypeExact(rule: JsonObject, name: string, show: Json -> string, path: Path)
    ensures Outcome(rule, ChangeRouteRuleType(rule, name, show), CurrentRuleType(rule, show) == name,
                    KnownRuleFields(), RuleTypeFields(CurrentRuleType(rule, show)), RuleTypeFields(name),
                    "type", RuleTypeValue(name), path)
  {
    KnownRulesTypeFree();
    TypeFreeSound(KnownRuleFields());
    OutcomeExact(rule, CurrentRuleType(rule, show) == name, KnownRuleFields(),
                 RuleTypeFields(CurrentRuleType(rule, show)), RuleTypeFields(name), "type", RuleTypeValue(name), path);
  }

  /** Changing the type of a rule set, on the field tables of the form; a change to the present type changes
      nothing. */
  lemma ChangeRuleSetTypeExact(ruleSet: JsonObject, name: string, show: Json -> string, path: Path)
    ensures Outcome(ruleSet, ChangeRuleSetType(ruleSet, name, show), CurrentSetType(ruleSet, show) == name,
                    KnownRuleSetFields(), RuleSetFields(CurrentSetType(ruleSet, show)), RuleSetFields(name),
                    "type", Some(Str(name)), path)
  {
    KnownRuleSetsTypeFree();
    TypeFreeSound(KnownRuleSetFields());
    OutcomeExact(ruleSet, CurrentSetType(ruleSet, show) == name, KnownRuleSetFields(),
                 RuleSetFields(CurrentSetType(ruleSet, show)), RuleSetFields(name), "type", Some(Str(name)), path);
  }
}

/** The visibility conditions of the route rule form. */
module RouteFieldConditions {
  import opened Wrappers
  import opened Json
  import opened DottedPath
  import opened RouteFields
  import opened FieldTransition
  import Prune = PolicyPrune

  /** The `when` of an action field. */
  function ConditionOf(path: Path): seq<Prune.When> {
    if path == ["tls_fragment_fallback_delay"] then [Prune.When(["tls_fragment"], Some([Bool(true)]), false)]
    else if path == ["tcp_keep_alive"] || path == ["tcp_keep_alive_interval"] then
      [Prune.When(["disable_tcp_keep_alive"], None, true)]
    else if path[0] == RESOLVER_KEY && path != [RESOLVER_KEY, "server"] then
      [Prune.When([RESOLVER_KEY, "server"], None, false)]
    else []
  }

  function RuleFields(fields: seq<RouteField>): (r: seq<Prune.Field>)
    ensures |r| == |fields|
    ensures forall i | 0 <= i < |r| :: r[i].path == fields[i].path && r[i].when == ConditionOf(fields[i].path)
  {
    if fields == [] then []
    else [Prune.Field(fields[0].path, ConditionOf(fields[0].path))] + RuleFields(fields[1..])
  }

  /** The only falsy condition reads a path that no conditional field is related to. */
  lemma ConditionsUnrelated(p: Path, q: Path, rule: Prune.When)
    requires ConditionOf(p) != [] && rule in ConditionOf(q) && rule.falsy
    ensures !Related(p, rule.path)
  {
    assert rule.path == ["disable_tcp_keep_alive"];
    assert p[0] != "disable_tcp_keep_alive";
  }

  /** Pruning a route rule gives the same object in whatever order its match and action fields are listed. */
  lemma {:induction false} RouteRulePruningOrderFree(obj: JsonObject, fields: seq<RouteField>, others: seq<RouteField>)
    requires forall f :: f in fields <==> f in others
    ensures Prune.Pruned(obj, RuleFields(fields)) == Prune.Pruned(obj, RuleFields(others))
  {
    var a, b := RuleFields(fields), RuleFields(others);
    forall field, other, rule |
      field in a && other in a && rule in other.when && rule.falsy && field.when != []
      ensures !Related(field.path, rule.path)
    {
      ConditionsUnrelated(field.path, other.path, rule);
    }
    SameFields(fields, others);
    SameFields(others, fields);
    Prune.PruneOrderIndependent(obj, a, b);
  }

  lemma SameFields(fields: seq<RouteField>, others: seq<RouteField>)
    requires forall f | f in fields :: f in others
    ensures forall g | g in RuleFields(fields) :: g in RuleFields(others)
  {
    forall g | g in RuleFields(fields)
      ensures g in RuleFields(others)
    {
      var i :| 0 <= i < |fields| && RuleFields(fields)[i] == g;
      assert fields[i] in others;
      var j :| 0 <= j < |others| && others[j] == fields[i];
      assert RuleFields(others)[j] == g;
    }
  }
}

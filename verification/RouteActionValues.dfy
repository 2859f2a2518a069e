/** Changing the action of a route rule, told by values: what an action text is read as and written as, what the
    kinds of fields ask for, and actions with the same fields. */
module RouteActionValues {
  import opened Wrappers
  import opened Json
  import opened DottedPath
  import opened PolicyPath
  import opened FieldTransition
  import opened RouteFields
  import opened RouteFormModel

  // ---- Reading and writing the action ----

  /** A rule without an action is a route rule; any text but the empty one is the action itself. */
  lemma ActionRead(rule: JsonObject, show: Json -> string)
    ensures Get(rule, ["action"]) in {None, Some(Null), Some(Str(""))} ==> CurrentAction(rule, show) == "route"
    ensures forall s :: Get(rule, ["action"]) == Some(Str(s)) && s != "" ==> CurrentAction(rule, show) == s
  {}

  /** Whatever the rule was, its action is the chosen one afterwards; choosing the empty one removes it. */
  lemma {:induction false} ActionWritten(rule: JsonObject, action: string, show: Json -> string)
    requires Get(rule, ["action"]).None? || Get(rule, ["action"]).value.Str?
    ensures Get(ChangeRouteAction(rule, action, show), ["action"]) == if action == "" then None else Some(Str(action))
  {
    ChangeRouteActionExact(rule, action, show, ["action"]);
  }

  lemma NameWritten(obj: JsonObject, present: bool, known: seq<RouteField>, source: Option<seq<RouteField>>,
                    target: Option<seq<RouteField>>, key: string, value: Option<Json>)
    ensures var result := Chosen(obj, present, known, source, target, key, value);
            if present then result == obj else Get(result, [key]) == value
  {
    GetSet(TransitionFields(obj, known, source, target), [key], value);
  }

  /** The type of a rule set is always written, unless it is chosen again. */
  lemma {:induction false} SetTypeWritten(ruleSet: JsonObject, name: string, show: Json -> string)
    requires Get(ruleSet, ["type"]).None? || Get(ruleSet, ["type"]).value.Str?
    requires Get(ruleSet, ["type"]).Some? || name != "inline"
    ensures Get(ChangeRuleSetType(ruleSet, name, show), ["type"]) == Some(Str(name))
  {
    NameWritten(ruleSet, CurrentSetType(ruleSet, show) == name, KnownRuleSetFields(),
                RuleSetFields(CurrentSetType(ruleSet, show)), RuleSetFields(name), "type", Some(Str(name)));
  }

  // ---- What a kind asks for ----

  /** The values that a kind stands for, written down as values. */
  ghost predicate HasKind(value: Json, kind: Option<Kind>) {
    match kind
    case Some(KBoolean) => value in {Bool(true), Bool(false)}
    case Some(KNumber) => exists n :: value == Num(n)
    case Some(KList) => Texts(value)
    case Some(KNetworkMulti) => Texts(value)
    case Some(KRefMulti) => Texts(value)
    case Some(KNumberList) =>
      (exists n :: value == Num(n))
      || exists items: seq<Json> :: value == Arr(items) && forall item | item in items :: item.Num?
    case Some(KObject) => exists fields :: value == Obj(fields)
    case Some(KArray) => exists items :: value == Arr(items)
    case _ => (exists s :: value == Str(s)) || (exists n :: value == Num(n)) || value in {Bool(true), Bool(false)}
  }

  ghost predicate Texts(value: Json) {
    (exists s :: value == Str(s))
    || exists items: seq<Json> :: value == Arr(items) && forall item | item in items :: item.Str?
  }

  /** A value fits a kind if and only if it is one of the values the kind stands for. */
  lemma {:induction false} FitsIff(value: Json, kind: Option<Kind>)
    ensures Fits(Some(value), kind) <==> HasKind(value, kind)
  {
    match value
    case Str(s) => assert value == Str(s);
    case Num(n) => assert value == Num(n);
    case Arr(items) => assert value == Arr(items);
    case Obj(fields) => assert value == Obj(fields);
    case _ =>
  }

  /** An unknown source type says nothing about kinds; a known one must list the field alike. */
  lemma {:induction false} SurvivesIff(source: Option<seq<RouteField>>, target: Option<seq<RouteField>>, path: Path,
                                       value: Json)
    ensures Survives(source, target, path, value) <==>
            target.Some? && exists f :: Decides(source, target.value, path, f) && HasKind(value, f.kind)
  {
    forall f: RouteField
      ensures Fits(Some(value), f.kind) <==> HasKind(value, f.kind)
    {
      FitsIff(value, f.kind);
    }
  }

  // ---- Actions with the same fields ----

  lemma OnlyListing(source: Option<seq<RouteField>>, target: seq<RouteField>, path: Path, f: RouteField)
    requires f in target && f.path == path && Shared(source, f)
    requires forall g | g in target && g.path == path :: g == f
    ensures Decides(source, target, path, f)
  {
    CompatibleLookup(source, target, path);
  }

  /** A value that fits a field of both actions is kept, if both list it once. */
  lemma {:induction false} ListedInBothKeeps(rule: JsonObject, action: string, show: Json -> string, f: RouteField)
    requires ActionFields(action).Some? && f in ActionFields(action).value
    requires forall g | g in ActionFields(action).value && g.path == f.path :: g == f
    requires ActionFields(CurrentAction(rule, show)).None? || f in ActionFields(CurrentAction(rule, show)).value
    requires f.path[0] != "action" && Get(rule, f.path).Some? && HasKind(Get(rule, f.path).value, f.kind)
    ensures HasPath(KnownActionFields(), f.path) ==>
              Get(ChangeRouteAction(rule, action, show), f.path) == Get(rule, f.path)
  {
    OnlyListing(ActionFields(CurrentAction(rule, show)), ActionFields(action).value, f.path, f);
    FitsIff(Get(rule, f.path).value, f.kind);
    ChangeRouteActionExact(rule, action, show, f.path);
  }

  /** Nothing that the target action does not list is kept: a reject rule has no outbound. */
  lemma {:induction false} UnlistedIsCleared(rule: JsonObject, action: string, show: Json -> string, path: Path)
    requires HasPath(KnownActionFields(), path) && !IsExplicit(rule, action, show)
    requires ActionFields(action).None? || !HasPath(ActionFields(action).value, path)
    ensures Get(ChangeRouteAction(rule, action, show), path) == None
  {
    ChangeRouteActionExact(rule, action, show, path);
    if ActionFields(action).Some? {
      NoneDecides(ActionFields(CurrentAction(rule, show)), ActionFields(action).value, path);
    }
  }

  lemma NoneDecides(source: Option<seq<RouteField>>, target: seq<RouteField>, path: Path)
    requires !HasPath(target, path)
    ensures forall f :: !Decides(source, target, path, f)
  {}

  // ---- What is not taken over ----

  /** What a change may take over: a field that both have, or any field of the target if the present one is unknown. */
  ghost predicate TakesOver(source: Option<seq<RouteField>>, target: Option<seq<RouteField>>, f: RouteField) {
    target.Some? && f in target.value && (source == None || f in source.value)
  }

  /** No field that may be taken over has the path and fits what stands there. */
  ghost predicate NothingFits(obj: JsonObject, source: Option<seq<RouteField>>, target: Option<seq<RouteField>>,
                              path: Path)
  {
    forall f | TakesOver(source, target, f) && f.path == path ::
      Get(obj, path).Some? ==> !HasKind(Get(obj, path).value, f.kind)
  }

  lemma ClearsOthers(obj: JsonObject, result: JsonObject, known: seq<RouteField>, source: Option<seq<RouteField>>,
                     target: Option<seq<RouteField>>, key: string, value: Option<Json>, path: Path)
    requires Outcome(obj, result, false, known, source, target, key, value, path)
    requires HasPath(known, path) && NothingFits(obj, source, target, path)
    ensures Get(result, path) == None && Get(result, [key]) == value
  {
    if Get(obj, path).Some? {
      SurvivesIff(source, target, path, Get(obj, path).value);
    }
  }

  lemma KeepsShared(obj: JsonObject, result: JsonObject, known: seq<RouteField>, source: Option<seq<RouteField>>,
                    target: Option<seq<RouteField>>, key: string, value: Option<Json>, f: RouteField)
    requires Outcome(obj, result, false, known, source, target, key, value, f.path)
    requires HasPath(known, f.path) && TakesOver(source, target, f)
    requires forall g | g in target.value && g.path == f.path :: g == f
    requires Get(obj, f.path).Some? && HasKind(Get(obj, f.path).value, f.kind)
    ensures Get(result, f.path) == Get(obj, f.path)
  {
    OnlyListing(source, target.value, f.path, f);
    SurvivesIff(source, target, f.path, Get(obj, f.path).value);
  }

  /** A field of an action that the new action does not have alike, or whose value does not fit, is cleared. */
  lemma {:induction false} ActionClearsOthers(rule: JsonObject, current: string, action: string, show: Json -> string,
                                              path: Path)
    requires if current == "route" then Get(rule, ["action"]) in {None, Some(Null), Some(Str("")), Some(Str("route"))}
             else current != "" && Get(rule, ["action"]) == Some(Str(current))
    requires Get(rule, ["action"]) != Some(Str(action)) && HasPath(KnownActionFields(), path)
    requires NothingFits(rule, ActionFields(current), ActionFields(action), path)
    ensures Get(ChangeRouteAction(rule, action, show), path) == None
  {
    ChangeRouteActionExact(rule, action, show, path);
    ClearsOthers(rule, ChangeRouteAction(rule, action, show), KnownActionFields(), ActionFields(current),
                 ActionFields(action), "action", ActionValue(action), path);
  }

  /** A rule without a type is a default rule. */
  ghost predicate HasRuleType(rule: JsonObject, current: string) {
    || (current == "default" && (Get(rule, ["type"]) == None || Get(rule, ["type"]) == Some(Null)))
    || Get(rule, ["type"]) == Some(Str(current))
  }

  lemma RuleTypeIs(rule: JsonObject, current: string, show: Json -> string)
    requires HasRuleType(rule, current)
    ensures CurrentRuleType(rule, show) == current
  {}

  /** The result of a change of type is as chosen. */
  lemma RuleTypeOutcome(rule: JsonObject, current: string, name: string, show: Json -> string, path: Path)
    requires HasRuleType(rule, current) && current != name
    ensures Outcome(rule, ChangeRouteRuleType(rule, name, show), false, KnownRuleFields(), RuleTypeFields(current),
                    RuleTypeFields(name), "type", if name == "default" then None else Some(Str(name)), path)
  {
    RuleTypeIs(rule, current, show);
    ChangeRouteRuleTypeExact(rule, name, show, path);
  }

  /** The same for the type of a rule, which is written unless it is the default one. */
  lemma {:induction false} RuleTypeClearsOthers(rule: JsonObject, current: string, name: string, show: Json -> string,
                                                path: Path)
    requires HasRuleType(rule, current) && current != name && HasPath(KnownRuleFields(), path)
    requires NothingFits(rule, RuleTypeFields(current), RuleTypeFields(name), path)
    ensures Get(ChangeRouteRuleType(rule, name, show), path) == None
    ensures Get(ChangeRouteRuleType(rule, name, show), ["type"]) == if name == "default" then None else Some(Str(name))
  {
    RuleTypeOutcome(rule, current, name, show, path);
    ClearsOthers(rule, ChangeRouteRuleType(rule, name, show), KnownRuleFields(), RuleTypeFields(current),
                 RuleTypeFields(name), "type", if name == "default" then None else Some(Str(name)), path);
  }

  /** A rule set without a type is an inline one. */
  ghost predicate HasSetType(ruleSet: JsonObject, current: string) {
    || (current == "inline" && (Get(ruleSet, ["type"]) == None || Get(ruleSet, ["type"]) == Some(Null)))
    || Get(ruleSet, ["type"]) == Some(Str(current))
  }

  /** The same for the type of a rule set. */
  lemma {:induction false} SetTypeClearsOthers(ruleSet: JsonObject, current: string, name: string,
                                               show: Json -> string, path: Path)
    requires HasSetType(ruleSet, current) && current != name && HasPath(KnownRuleSetFields(), path)
    requires NothingFits(ruleSet, RuleSetFields(current), RuleSetFields(name), path)
    ensures Get(ChangeRuleSetType(ruleSet, name, show), path) == None
  {
    ChangeRuleSetTypeExact(ruleSet, name, show, path);
    ClearsOthers(ruleSet, ChangeRuleSetType(ruleSet, name, show), KnownRuleSetFields(), RuleSetFields(current),
                 RuleSetFields(name), "type", Some(Str(name)), path);
  }

  /** A local rule set that becomes a remote one keeps its format and loses its path. */
  lemma {:induction false} LocalToRemote(ruleSet: JsonObject, show: Json -> string)
    requires HasSetType(ruleSet, "local")
    ensures var result := ChangeRuleSetType(ruleSet, "remote", show);
            && Get(result, ["type"]) == Some(Str("remote"))
            && Get(result, ["path"]) == None
            && (Get(ruleSet, ["format"]).Some? && Get(ruleSet, ["format"]).value.Str? ==>
                  Get(result, ["format"]) == Get(ruleSet, ["format"]))
  {
    SetPaths();
    var result := ChangeRuleSetType(ruleSet, "remote", show);
    ChangeRuleSetTypeExact(ruleSet, "remote", show, ["path"]);
    LosesPath(ruleSet, result, KnownRuleSetFields());
    if Get(ruleSet, ["format"]).Some? && Get(ruleSet, ["format"]).value.Str? {
      ChangeRuleSetTypeExact(ruleSet, "remote", show, ["format"]);
      KeepsFormat(ruleSet, result, KnownRuleSetFields());
    }
  }

  /** What a change from local to remote does, on any result with that outcome. */
  lemma LosesPath(ruleSet: JsonObject, result: JsonObject, known: seq<RouteField>)
    requires HasPath(known, ["path"])
    requires Outcome(ruleSet, result, false, known, Some(LOCAL_SET_FIELDS), Some(REMOTE_SET_FIELDS), "type",
                     Some(Str("remote")), ["path"])
    ensures Get(result, ["path"]) == None && Get(result, ["type"]) == Some(Str("remote"))
  {
    RemoteFields();
    ClearsOthers(ruleSet, result, known, Some(LOCAL_SET_FIELDS), Some(REMOTE_SET_FIELDS), "type",
                 Some(Str("remote")), ["path"]);
  }

  lemma KeepsFormat(ruleSet: JsonObject, result: JsonObject, known: seq<RouteField>)
    requires HasPath(known, ["format"])
    requires Outcome(ruleSet, result, false, known, Some(LOCAL_SET_FIELDS), Some(REMOTE_SET_FIELDS), "type",
                     Some(Str("remote")), ["format"])
    requires Get(ruleSet, ["format"]).Some? && Get(ruleSet, ["format"]).value.Str?
    ensures Get(result, ["format"]) == Get(ruleSet, ["format"])
  {
    RemoteFields();
    assert Get(ruleSet, ["format"]).value == Str(Get(ruleSet, ["format"]).value.s);
    KeepsShared(ruleSet, result, known, Some(LOCAL_SET_FIELDS), Some(REMOTE_SET_FIELDS), "type",
                Some(Str("remote")), Plain("format"));
  }

  lemma {:induction false} InFlatten(groups: seq<seq<RouteField>>, i: nat, f: RouteField)
    requires i < |groups| && f in groups[i]
    ensures f in Flatten(groups)
  {
    if i > 0 {
      InFlatten(groups[1..], i - 1, f);
    }
  }

  /** A field of some group has a managed path. */
  lemma PathKnown(groups: seq<seq<RouteField>>, i: nat, f: RouteField)
    requires i < |groups| && f in groups[i]
    ensures HasPath(Unique([], Flatten(groups)), f.path)
  {
    InFlatten(groups, i, f);
    UniqueFacts(Flatten(groups));
    var known := Unique([], Flatten(groups));
    assert Managed(known, f.path);
    var g :| g in known && g.path == f.path;
    var k :| 0 <= k < |known| && known[k] == g;
  }

  lemma SetPaths()
    ensures HasPath(KnownRuleSetFields(), ["path"]) && HasPath(KnownRuleSetFields(), ["format"])
  {
    assert LOCAL_SET_FIELDS[0] == Plain("format") && LOCAL_SET_FIELDS[1] == Plain("path");
    PathKnown(RULE_SET_GROUPS, 1, LOCAL_SET_FIELDS[0]);
    PathKnown(RULE_SET_GROUPS, 1, LOCAL_SET_FIELDS[1]);
  }

  lemma RemoteFields()
    ensures forall f | f in REMOTE_SET_FIELDS :: f.path != ["path"]
    ensures Plain("format") in LOCAL_SET_FIELDS && Plain("format") in REMOTE_SET_FIELDS
    ensures forall f | f in REMOTE_SET_FIELDS && f.path == ["format"] :: f == Plain("format")
  {
    assert LOCAL_SET_FIELDS[0] == Plain("format") && REMOTE_SET_FIELDS[0] == Plain("format");
  }
}

/** Which fields of a route rule stay visible, told by values. */
module RouteRuleVisibility {
  import opened Wrappers
  import opened Json
  import opened DottedPath
  import opened PolicyPath
  import opened RouteFields
  import opened RouteFieldConditions
  import Prune = PolicyPrune

  lemma ConditionListed(fields: seq<RouteField>, f: RouteField)
    requires f in fields
    ensures Prune.Field(f.path, ConditionOf(f.path)) in RuleFields(fields)
  {
    var i :| 0 <= i < |fields| && fields[i] == f;
    assert RuleFields(fields)[i] == Prune.Field(f.path, ConditionOf(f.path));
  }

  /** After pruning: a fallback delay stands beside an enabled TLS fragment, a keep-alive setting only where keep-alive
      is not disabled, and options of the resolver only beside the name of a server. */
  lemma {:induction false} VisibleInRouteRule(obj: JsonObject, fields: seq<RouteField>, f: RouteField)
    requires f in fields && Get(Prune.Pruned(obj, RuleFields(fields)), f.path).Some?
    ensures var result := Prune.Pruned(obj, RuleFields(fields));
            && (f.path == ["tls_fragment_fallback_delay"] ==> Get(result, ["tls_fragment"]) == Some(Bool(true)))
            && (f.path == ["tcp_keep_alive"] || f.path == ["tcp_keep_alive_interval"] ==>
                  Get(result, ["disable_tcp_keep_alive"])
                  in {None, Some(Null), Some(Bool(false)), Some(Str("")), Some(Arr([]))})
            && (f.path[0] == "domain_resolver" && f.path != ["domain_resolver", "server"] ==>
                  Get(result, ["domain_resolver", "server"])
                  !in {None, Some(Null), Some(Bool(false)), Some(Str("")), Some(Arr([]))})
  {
    var listed := RuleFields(fields);
    var field := Prune.Field(f.path, ConditionOf(f.path));
    ConditionListed(fields, f);
    if f.path == ["tls_fragment_fallback_delay"] {
      Prune.IsConditionMet(obj, listed, field, Prune.When(["tls_fragment"], Some([Bool(true)]), false));
    } else if f.path == ["tcp_keep_alive"] || f.path == ["tcp_keep_alive_interval"] {
      Prune.FalsyConditionMet(obj, listed, field, Prune.When(["disable_tcp_keep_alive"], None, true));
    } else if f.path[0] == "domain_resolver" && f.path != ["domain_resolver", "server"] {
      Prune.PlainConditionMet(obj, listed, field, Prune.When(["domain_resolver", "server"], None, false));
    }
  }
}

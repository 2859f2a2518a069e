/** Changing the action or the type of a DNS rule, told by values: what is kept, what is cleared and what is written. */
module DnsRuleValues {
  import opened Wrappers
  import opened Json
  import opened DottedPath
  import opened PolicyPath
  import opened FieldTransition
  import opened DnsFormCleanup
  import opened DnsRegistries
  import opened DnsFormModel
  import opened DnsServerTypes

  // ---- For any registry ----

  /** What a change may take over from the present type: a field that both types list, or any field of the target if the
      present type is unknown. */
  ghost predicate TakesOver(registry: Registry, current: string, target: string, f: CleanupField) {
    f in GroupOf(registry, target) && (Lookup(registry, current) == None || f in GroupOf(registry, current))
  }

  /** No other field of the target has the path. */
  ghost predicate IsOnly(registry: Registry, target: string, f: CleanupField) {
    forall g | g in GroupOf(registry, target) && g.path == f.path :: g == f
  }

  /** The object has a value at the path of the field, and the value fits it. */
  ghost predicate HasFitting(obj: JsonObject, f: CleanupField) {
    Get(obj, f.path).Some? && HasKind(Get(obj, f.path).value, f.kind)
  }

  lemma KeepsShared(obj: JsonObject, result: JsonObject, registry: Registry, change: Change, key: string,
                    value: Option<Json>, f: CleanupField)
    requires Outcome(obj, result, false, registry, change, key, value, f.path) && change.share
    requires TakesOver(registry, change.current, change.target, f)
    requires IsOnly(registry, change.target, f)
    requires HasFitting(obj, f)
    ensures Get(result, f.path) == Get(obj, f.path)
  {
    OnlyListing(Lookup(registry, change.current), GroupOf(registry, change.target), f.path, f);
    LookupMember(registry, change.target);
    SharedOutcome(obj, result, registry, change, key, value, f.path);
  }

  /** No field that may be taken over has the path and fits what stands there. */
  ghost predicate NothingFits(obj: JsonObject, registry: Registry, current: string, target: string, path: Path) {
    forall f | TakesOver(registry, current, target, f) && f.path == path ::
      Get(obj, path).Some? ==> !HasKind(Get(obj, path).value, f.kind)
  }

  lemma ClearsOthers(obj: JsonObject, result: JsonObject, registry: Registry, change: Change, key: string,
                     value: Option<Json>, path: Path)
    requires Outcome(obj, result, false, registry, change, key, value, path)
    requires Managed(AllFields(registry), path)
    requires NothingFits(obj, registry, change.current, change.target, path)
    ensures Get(result, path) == None
  {
    if Get(obj, path).Some? {
      SurvivesIff(registry, change, path, Get(obj, path).value);
    }
  }

  // ---- Servers ----

  /** A path of the form that both types do not list alike, or whose value does not fit, is gone after the change. */
  lemma {:induction false} ServerClearsOthers(server: JsonObject, current: string, name: string, path: Path)
    requires Get(server, ["type"]) == Some(Str(current)) && current != "" && current != name
    requires Managed(AllFields(DNS_SERVERS), path)
    requires NothingFits(server, DNS_SERVERS, current, name, path)
    ensures Get(ChangeDNSServerType(server, name), path) == None
  {
    ServerTypeIsChosen(server, name);
    ChosenClears(server, ServerChange(current, name), TypeValue(name), path);
  }

  lemma ChosenClears(server: JsonObject, change: Change, value: Option<Json>, path: Path)
    requires Managed(AllFields(DNS_SERVERS), path)
    requires NothingFits(server, DNS_SERVERS, change.current, change.target, path)
    ensures Get(Chosen(server, false, DNS_SERVERS, change, "type", value), path) == None
  {
    ServerOutcome(server, false, change, value, path);
    ClearsOthers(server, Chosen(server, false, DNS_SERVERS, change, "type", value), DNS_SERVERS, change, "type", value,
                 path);
  }

  // ---- Actions ----

  /** The action of a rule: a rule without one is a route rule. */
  ghost predicate HasAction(rule: JsonObject, current: string) {
    if current == "route" then Get(rule, ["action"]) in {None, Some(Null), Some(Str("")), Some(Str("route"))}
    else current != "" && Get(rule, ["action"]) == Some(Str(current))
  }

  lemma ActionIs(rule: JsonObject, current: string, show: Json -> string)
    requires HasAction(rule, current)
    ensures CurrentAction(rule, show) == current
    ensures forall action ::
              IsExplicit(rule, action, show) <==> Get(rule, ["action"]) == Some(Str(action)) && action != ""
  {}

  /** The result of a change of action is as chosen, unless the rule says that action already. */
  lemma ActionOutcome(rule: JsonObject, current: string, action: string, show: Json -> string, path: Path)
    requires HasAction(rule, current) && Get(rule, ["action"]) != Some(Str(action))
    ensures Outcome(rule, ChangeDNSAction(rule, action, show), false, DNS_ACTIONS, Change(current, action, true),
                    "action", if action == "" then None else Some(Str(action)), path)
  {
    ActionIs(rule, current, show);
    ChangeDNSActionExact(rule, action, show, path);
  }

  lemma ActionWritten(rule: JsonObject, current: string, action: string, show: Json -> string)
    requires HasAction(rule, current)
    ensures action != "" ==> Get(ChangeDNSAction(rule, action, show), ["action"]) == Some(Str(action))
    ensures action == "" ==> Get(ChangeDNSAction(rule, action, show), ["action"]) == None
  {
    if Get(rule, ["action"]) != Some(Str(action)) || action == "" {
      ActionIs(rule, current, show);
      ChangeDNSActionExact(rule, action, show, ["action"]);
    } else {
      ActionIs(rule, current, show);
    }
  }

  /** A field that both actions have keeps a value that fits it. */
  lemma {:induction false} ActionKeepsShared(rule: JsonObject, current: string, action: string, show: Json -> string,
                                             f: CleanupField)
    requires HasAction(rule, current) && action != "" && TakesOver(DNS_ACTIONS, current, action, f)
    requires IsOnly(DNS_ACTIONS, action, f)
    requires HasFitting(rule, f)
    ensures Get(ChangeDNSAction(rule, action, show), f.path) == Get(rule, f.path)
  {
    if Get(rule, ["action"]) != Some(Str(action)) {
      ActionOutcome(rule, current, action, show, f.path);
      KeepsShared(rule, ChangeDNSAction(rule, action, show), DNS_ACTIONS, Change(current, action, true), "action",
                  if action == "" then None else Some(Str(action)), f);
    } else {
      ActionIs(rule, current, show);
    }
  }

  /** Any other field of an action is cleared. */
  lemma {:induction false} ActionClearsOthers(rule: JsonObject, current: string, action: string, show: Json -> string,
                                              path: Path)
    requires HasAction(rule, current) && Get(rule, ["action"]) != Some(Str(action))
    requires Managed(AllFields(DNS_ACTIONS), path)
    requires NothingFits(rule, DNS_ACTIONS, current, action, path)
    ensures Get(ChangeDNSAction(rule, action, show), path) == None
  {
    ActionOutcome(rule, current, action, show, path);
    ClearsOthers(rule, ChangeDNSAction(rule, action, show), DNS_ACTIONS, Change(current, action, true), "action",
                 if action == "" then None else Some(Str(action)), path);
  }

  // ---- Rule types ----

  /** The type of a rule: a rule without one is a default rule. */
  ghost predicate HasRuleType(rule: JsonObject, current: string) {
    || (current == "default" && Get(rule, ["type"]) in {None, Some(Null)})
    || Get(rule, ["type"]) == Some(Str(current))
  }

  lemma RuleTypeOutcome(rule: JsonObject, current: string, name: string, show: Json -> string, path: Path)
    requires HasRuleType(rule, current) && current != name
    ensures Outcome(rule, ChangeDNSRuleType(rule, name, show), false, DNS_RULES, Change(current, name, true), "type",
                    if name == "default" then None else Some(Str(name)), path)
  {
    ChangeDNSRuleTypeExact(rule, name, show, path);
  }

  /** The one field at its path that both types of rules list (the target alone if the present type is unknown). */
  ghost predicate IsCommonRuleField(current: string, name: string, f: CleanupField) {
    TakesOver(DNS_RULES, current, name, f) && IsOnly(DNS_RULES, name, f)
  }

  /** A field that both types of rules have keeps a value that fits it, and the type is written. */
  lemma {:induction false} RuleTypeKeepsShared(rule: JsonObject, current: string, name: string, show: Json -> string,
                                               f: CleanupField)
    requires HasRuleType(rule, current) && current != name && HasFitting(rule, f)
    requires IsCommonRuleField(current, name, f)
    ensures Get(ChangeDNSRuleType(rule, name, show), f.path) == Get(rule, f.path)
    ensures Get(ChangeDNSRuleType(rule, name, show), ["type"]) == if name == "default" then None else Some(Str(name))
  {
    RuleTypeOutcome(rule, current, name, show, f.path);
    KeepsShared(rule, ChangeDNSRuleType(rule, name, show), DNS_RULES, Change(current, name, true), "type",
                if name == "default" then None else Some(Str(name)), f);
  }

  /** Any other field of the form is cleared. */
  lemma {:induction false} RuleTypeClearsOthers(rule: JsonObject, current: string, name: string, show: Json -> string,
                                                path: Path)
    requires HasRuleType(rule, current) && current != name
    requires Managed(AllFields(DNS_RULES), path)
    requires NothingFits(rule, DNS_RULES, current, name, path)
    ensures Get(ChangeDNSRuleType(rule, name, show), path) == None
  {
    RuleTypeOutcome(rule, current, name, show, path);
    ClearsOthers(rule, ChangeDNSRuleType(rule, name, show), DNS_RULES, Change(current, name, true), "type",
                 if name == "default" then None else Some(Str(name)), path);
  }

  // ---- A change through the tables ----

  /** A rule that rejects is asked of no server and keeps none of the options of a query. */
  lemma {:induction false} RejectHasNoServer(rule: JsonObject, show: Json -> string, key: string)
    requires HasAction(rule, "route")
    requires key == "server" || key == "strategy" || key == "client_subnet"
    ensures Get(ChangeDNSAction(rule, "reject", show), [key]) == None
  {
    ActionTable();
    assert Managed(AllFields(DNS_ACTIONS), [key]) by {
      InTable(key);
    }
    ActionClearsOthers(rule, "route", "reject", show, [key]);
  }

  lemma ActionTable()
    ensures GroupOf(DNS_ACTIONS, "reject") == [Plain("method"), Of("no_drop", KBoolean)]
    ensures GroupOf(DNS_ACTIONS, "route") == [Plain("server")] + OPTION_FIELDS
  {
    FoundAt(DNS_ACTIONS, "route", 0);
    FoundAt(DNS_ACTIONS, "reject", 2);
  }

  lemma InTable(key: string)
    requires key == "server" || key == "strategy" || key == "client_subnet"
    ensures Managed(AllFields(DNS_ACTIONS), [key])
  {
    ActionTable();
    LookupMember(DNS_ACTIONS, "route");
  }
}

# A verified model of boxd's configuration logic

boxd is a control plane for sing-box: it edits the kernel's JSON configuration in forms, merges imported nodes
and defaults into it, restarts the kernel on every change, and backs the whole up. This project models the parts of
it where the logic is hardest and proves what they promise, for every input, every run or every interleaving.

`dafny verify dfyconfig.toml` checks everything (Dafny 4.11).

## What is modelled

**Forms (TypeScript).** `PolicyPath.dfy` has nested JSON objects and the get/set pair on dotted paths, a lens in which
clearing a path deletes the ancestors it empties. `PolicyPrune.dfy` has the loop that removes the values of invisible
fields, `FormConditions.dfy` the conditions of two forms and `FormVisibility.dfy` what they leave visible.
`FieldTransition.dfy`, `DnsFormModel.dfy` and `RouteFormModel.dfy` have the rewriting of a server, a rule or a rule set
whose type or action changes, on the field tables of the forms, and `RouteResolverRoot.dfy` what becomes of a plain
server name there. `NumberTransform.dfy` has the parsing of numeric fields, fwmarks and DNS query types, against the
text that the form shows. What the changes keep, clear and write, and what an input stores, is said without the
functions of the model in `DnsServerTypes.dfy`, `DnsRuleValues.dfy`, `RouteActionValues.dfy` and `NumberInput.dfy`.

**Reconciliation (Go).** `NodesSync.dfy` has the merge of imported nodes, subscriptions and generated groups into the
outbounds; `NodesSyncTheorems.dfy` what one sync and a second one do; `NodesSyncRuns.dfy` the commit to two stores and
all runs. `OutboundDefaults.dfy`, `OutboundReload.dfy` and `RouteDefaults.dfy` have the installers of defaults.
`RouteRuleMetadata.dfy` has the names of route rules, which are stored beside the rules and matched to them by
fingerprint. `NodesSyncEntries.dfy`, `OutboundBuiltins.dfy`, `RouteDefaultRules.dfy` and `RouteRuleValues.dfy` say field
by field what stands in the results.

**Codec (Go).** `RuleSetCodec.dfy` has the binary form of a cached rule set, with varints as in the "Base 128 Varints"
section of the Protocol Buffers encoding specification; `RuleSetBytes.dfy` says which bytes these are.

**State machines (Go).** `Kernel.dfy` has start, stop, restart and the configuration change with rollback, with every
step that can fail as a parameter, and the same steps interleaved between goroutines; `KernelOrigins.dfy` says where
what is in the file and what runs comes from. `Backup.dfy` has backup and restore, `LoginRateLimiter.dfy` the login
limiter, `LoginOverlap.dfy` the same with overlapping requests, `Traffic.dfy` the traffic counters under interleaving,
`TrafficHistory.dfy` the ring buffer. `BackupValues.dfy`, `LoginLimits.dfy` and `TrafficValues.dfy` state their limits,
names and sums in numbers and texts.

Code that updates objects in place is a class whose methods are proved against a function of the old state; loops are
loops with invariants; pure code is functions. The theorems are lemmas about those functions. For each main operation
there are also lemmas that speak of the values of inputs and results alone, without the functions of the model.

## What the code does otherwise than one would expect

The property that fails is replaced by its exact condition, and a lemma gives a failing input.

- Clearing a path that holds nothing is not always the identity: it deletes a scalar, an array or an empty object found
  at a strict ancestor (`PolicyPath.ClearAbsentIdentity`, an equivalence; `ClearBelowScalar`).
- The endpoint form lists `udp_timeout` for WireGuard and again for Tailscale, and a path survives only where all its
  listings are visible: the value is dropped from every endpoint (`FormConditions.EndpointTimeoutAlwaysDropped`).
- An input of separators only in a list field stores the empty list, whose text then clears the field
  (`NumberTransform.ShownTextReadsBackIff`, an equivalence; `CommaDoesNotReadBack`).
- A sync is idempotent exactly when every managed type is one that a sync replaces. Types `ssh` and `tor` are appended
  and not replaced: each sync adds such nodes once more (`NodesSyncTheorems.SyncIdempotentIff`, `SshNodeIsAddedAgain`).
- If a sync can write neither the groups nor the old file back, the file has groups that the store does not know, and
  they outlive their subscription. When they do is an equivalence for every run (`NodesSyncRuns.NoStaleGroupIff`) and for
  the caller of the next sync (`DoubleFaultStaleIff`); without such a double fault none does (`RunLeavesNoStaleGroup`).
- A sync on a configuration file that holds `null` panics: its contract says exactly when
  (`NodesSyncRuns.SyncStores.Sync`).
- A rolled back configuration change restores the previous content of the file, which a sync may have written and which
  the kernel then never ran before (`Kernel.ConfigHandler.ApplyConfigBytes`, `RolledBackToUnseen`).
- A cached rule set with a length too large for a slice panics when it is read, and nothing else does
  (`RuleSetCodec.SavedRuleSet.UnmarshalBinary`, `HugeLengthPanics`).
- Default rules are recognised by a signature, and that of the sniff rule is empty. Any user rule without network,
  protocol, private flag, rule set and outbound has it too: a reject rule for a domain keeps the sniff rule from being
  installed (`RouteDefaults.SniffInstalledIff` and `SignatureEmptyIff`, equivalences; `DomainRuleHidesSniff`).
- A backup with an entry larger than 512 MiB can be created and not restored (`Backup.RoundTripIff`, an equivalence;
  `OversizedBackupIsLost`).
- A new proxy or auto group names a dropped outbound exactly when one of a proxy type was tagged `dns-out`
  (`OutboundDefaults.NewGroupMembersPresentIff`, an equivalence; `DnsOutProxyIsDropped`).

The bound of five failed logins within a minute is about requests one after the other. Requests may overlap: six that are
allowed before any of them fails are six failures (`LoginOverlap.SixAtOnce`). For them the bound is five beside the late
failures, which all belong to requests that were in flight when the key was locked (`FiveAndTheLate`,
`LateWereInFlight`).

Two theorems have a limit that the program does not reach. Pruning does not depend on the order of the fields if no
`falsy` condition reads a path related to a conditional field; the route, DNS server and endpoint forms all meet this
(`RouteFieldConditions`, `FormConditions`), and `PolicyPrune.FalsyOrderMatters` shows lists that do not. A signature of a
route rule can change when the rule is saved and read only if the program built one of its lists itself and that
list is of a certain kind (`RouteDefaults.SignatureStableIff`); no rule from a file and no default rule is such a rule
(`DecodedIsStable`, `DefaultsStable`).

## Conventions

- JSON objects are finite maps and JSON numbers are reals: no key order, no negative zero, no NaN, no prototype keys.
- A dotted path is its sequence of keys; `DottedPath.SplitInjective` and `SplitStartsWith` justify comparing those
  instead of the strings. Conditions with `is` match scalars only, since `Object.is` never identifies two objects.
- How JavaScript prints other values (`show`), how Go prints a float that is not an integer of at most 53 bits
  (`printFloat`), SHA-256 (`sha`, `fp`), upper case (`upper`) and the JSON text of the backup manifest
  (`encode`, `decode`) are parameters, so the theorems hold whatever they are; only `decode` is required to invert
  `encode`. No injectivity of a hash is assumed.
- Times are integers; a clock reading, a failing read, write, close or start is a parameter.

## Model

| member | source | states |
|---|---|---|
| PolicyPath.GetSet | ui/src/features/policy/policy-form-model.ts:58-79 | reading a path just written gives the written value, also when "undefined" was written |
| PolicyPath.SetSet | ui/src/features/policy/policy-form-model.ts:62-79 | a second write to a path makes the first one unobservable anywhere in the object |
| PolicyPath.SetGet | ui/src/features/policy/policy-form-model.ts:58-79 | writing back the value that is there changes nothing |
| PolicyPath.ClearAbsentIdentity | ui/src/features/policy/policy-form-model.ts:62-79 | writing back an absent value changes nothing if and only if no strict ancestor holds a scalar, an array or an empty object |
| PolicyPath.ClearBelowScalar | ui/src/features/policy/policy-form-model.ts:62-79 | the failing input: clearing a.b in an object whose a is a text removes a |
| PolicyPath.SetFrame | ui/src/features/policy/policy-form-model.ts:62-79 | a write leaves every path that is neither above nor below it alone, although it creates and deletes ancestors |
| PolicyPath.SetCommutes | ui/src/features/policy/policy-form-model.ts:62-79 | writes and clears at paths neither of which is above the other can be swapped |
| PolicyPath.ClearShrinks | ui/src/features/policy/policy-form-model.ts:62-79 | clearing defines no path and changes no value, except that an object may lose members |
| PolicyPath.ClearAbsorbs | ui/src/features/policy/policy-form-model.ts:62-79 | clearing a descendant first is invisible once the path itself is cleared |
| PolicyPath.ClearBelowEmpties | ui/src/features/policy/policy-form-model.ts:72-77 | if clearing a descendant removes the path too, the result is that of clearing the path |
| PolicyPath.ClearLeavesNoEmptyAncestor | ui/src/features/policy/policy-form-model.ts:62-79 | no clear leaves an empty object at an ancestor of the cleared path |
| DottedPath.SplitInjective | ui/src/features/policy/policy-form-model.ts:58-63 | different dotted strings are different key sequences |
| DottedPath.SplitStartsWith | ui/src/features/policy/dns-form-cleanup.ts:137-139 | the string test for a path below a root is the test on the first key |
| PolicyPrune.PruneInvisiblePolicyFields | ui/src/features/policy/policy-form-model.ts:127-140 | the loop terminates for every object and field list, and leaves every listed field visible or absent; the next five rows say in values when a field is visible |
| PolicyPrune.PlainConditionMet | ui/src/features/policy/policy-form-model.ts:93-105 | a field that survives pruning under a plain condition has a value at the condition's path that is neither null nor false nor an empty text or list |
| PolicyPrune.FalsyConditionMet | ui/src/features/policy/policy-form-model.ts:93-105 | under a falsy condition that path is empty, or holds one of these four |
| PolicyPrune.IsConditionMet | ui/src/features/policy/policy-form-model.ts:97-105 | under a condition with a list of values that path holds a scalar of the list |
| PolicyPrune.AllMetIsUnchanged | ui/src/features/policy/policy-form-model.ts:93-140 | conversely, an object in which every field with a value has its conditions met in these terms is left as it is |
| PolicyPrune.UnmetIsCleared | ui/src/features/policy/policy-form-model.ts:97-140 | a field whose one plain condition is not met goes, and nothing else does |
| PolicyPrune.PrunedStable | ui/src/features/policy/policy-form-model.ts:127-140 | no pruned object holds a value of an invisible field |
| PolicyPrune.PruneFixpoint | ui/src/features/policy/policy-form-model.ts:127-140 | pruning changes nothing if and only if every listed field is visible or absent |
| PolicyPrune.PruneIdempotent | ui/src/features/policy/policy-form-model.ts:127-140 | pruning a pruned object changes nothing |
| PolicyPrune.PrunedTrace | ui/src/features/policy/policy-form-model.ts:127-140 | the result is reached by clearing listed fields one at a time, each while invisible and defined: nothing else is ever removed |
| PolicyPrune.PruneFrame | ui/src/features/policy/policy-form-model.ts:127-140 | a path related to no conditional field keeps its value |
| FormConditions.EndpointTimeoutAlwaysDropped | ui/src/features/advanced/endpoints-form-model.ts:19-149 | pruned by the fields of the form, no endpoint keeps "udp_timeout", whatever its type and its other fields |
| PolicyPrune.LocalConfluence | ui/src/features/policy/policy-form-model.ts:97-140 | two possible clears of one object meet again after at most one further clear each |
| PolicyPrune.AnyOrderPrunesAlike | ui/src/features/policy/policy-form-model.ts:97-140 | clearing invisible fields in any order whatever, until none is left, ends in the object the loop computes, if no falsy condition reads a path related to a conditional field |
| PolicyPrune.PruneOrderIndependent | ui/src/features/policy/policy-form-model.ts:97-140 | under the same condition, order and repetition of the field list do not matter |
| PolicyPrune.FalsyOrderMatters | ui/src/features/policy/policy-form-model.ts:97-140 | a limit of the theorem, for lists that no form has: any two set fields that hide each other leave the one listed last |
| FormConditions.KeepAliveOrderFree | ui/src/features/policy/dns-form-server-fields.ts:5-7 | a list whose falsy conditions all read the one unconditional key meets the confluence condition |
| FormConditions.ServerPruningOrderFree | ui/src/features/policy/dns-form-server-fields.ts:5-95 | pruning a DNS server of any type does not depend on the order of the form's fields |
| FormConditions.StrategyNeedsServer | ui/src/features/policy/dns-form-server-fields.ts:6-14 | without a resolver server the resolver strategy goes, and the emptied root with it |
| FormConditions.EndpointPruningOrderFree | ui/src/features/advanced/endpoints-form-model.ts:12-149 | pruning an endpoint does not depend on the order of the form's fields, although a path is listed twice |
| FormVisibility.ServerDialingVisible | ui/src/features/policy/dns-form-server-fields.ts:5-90 | in a pruned server of the eight types that dial out, keep-alive settings stand only where keep-alive is not disabled, and resolver options only beside a resolver server |
| FormVisibility.ServerTlsVisible | ui/src/features/policy/dns-form-server-fields.ts:7-85 | in a pruned server of the four types with TLS, its settings stand only where it is enabled |
| FormVisibility.WireGuardVisible | ui/src/features/advanced/endpoints-form-model.ts:12-34 | in a pruned endpoint the settings of WireGuard stand only under the type "wireguard" |
| FormVisibility.TailscaleVisible | ui/src/features/advanced/endpoints-form-model.ts:13-66 | and those of Tailscale only under the type "tailscale" |
| FormVisibility.NestedVisible | ui/src/features/advanced/endpoints-form-model.ts:16-64 | access to the local network stands only beside an exit node, name and size of the system interface only where it is switched on |
| FieldTransition.UniqueFields | ui/src/features/policy/dns-form-cleanup.ts:118-122 | the nested loops give each path once, every path of the registry, and no field that is not in it |
| FieldTransition.LookupDecides | ui/src/features/policy/dns-form-cleanup.ts:130-135 | the map lookup finds a field exactly when it is the last one of the target type at its path that the source type shares |
| FieldTransition.DecidesDistinct | ui/src/features/policy/dns-form-cleanup.ts:130-135 | where no path is listed twice, that is every shared field of the target type |
| FieldTransition.RetainExact | ui/src/features/policy/dns-form-cleanup.ts:160-165 | on unrelated paths the reducer judges each path by its original value, although it works on a changing object |
| FieldTransition.RetainFrame | ui/src/features/policy/dns-form-cleanup.ts:160-165 | the reducer leaves every path unrelated to the managed ones alone |
| FieldTransition.RetainManaged | ui/src/features/policy/dns-form-cleanup.ts:118-166 | both together for the deduplicated paths of any prefix-free registry |
| FieldTransition.RetainRoot | ui/src/features/policy/route-form-model.ts:200-208 | a value that is no object, above managed paths, stays if and only if every path below it is kept though absent |
| DnsFormCleanup.PreparedRoot | ui/src/features/policy/dns-form-cleanup.ts:141-151 | preparing the resolver root changes no managed path and no path unrelated to the registry |
| DnsFormCleanup.ResolverRootAfter | ui/src/features/policy/dns-form-cleanup.ts:137-166 | after a transition the resolver root is absent, an object, or a plain server name the target type accepts |
| DnsFormCleanup.TransitionExact | ui/src/features/policy/dns-form-cleanup.ts:101-166 | for a prefix-free registry a managed path survives, with its value, if and only if source and target list it with the same kind (the target alone if the source is unknown), sharing is on and the value fits; unrelated paths are unchanged |
| DnsRegistries.ServersPrefixFree | ui/src/features/policy/dns-form-cleanup.ts:14-66 | no path of the server registry is above another one, and none touches the type |
| DnsRegistries.ActionsShaped | ui/src/features/policy/dns-form-cleanup.ts:90-95 | the action registry is prefix-free and has just the known action keys |
| DnsRegistries.RulesShaped | ui/src/features/policy/dns-form-cleanup.ts:68-88 | the rule registry is prefix-free and shares no key with the actions |
| DnsRegistries.MatchKeysAreNotActionKeys | ui/src/features/policy/dns-form-model.ts:47-83 | no match field of the DNS form is a field of an action |
| DnsFormModel.ChangeDNSServerTypeExact | ui/src/features/policy/dns-form-model.ts:190-197 | for every server and type: nothing changes if it is the present type; else the type is written (removed for legacy), each managed path survives exactly as the registry says, all else is unchanged; the next rows say in literal types and values when a path survives, never between legacy and modern types |
| DnsServerTypes.KnownTypes | ui/src/features/policy/dns-form-cleanup.ts:14-66 | the registry knows "legacy" and ten modern types, and no other |
| DnsServerTypes.FromLegacyClearsAll | ui/src/features/policy/dns-form-model.ts:186-197 | a server whose type is absent, no text, "" or "legacy" loses every path of the registry when it gets one of the ten modern types, which is written |
| DnsServerTypes.ToLegacyClearsAll | ui/src/features/policy/dns-form-model.ts:186-197 | so does a server of a modern type that becomes a legacy one, and its type is removed |
| DnsServerTypes.SharedTypesJudgeByFields | ui/src/features/policy/dns-form-model.ts:186-197 | between any two other types a path of the registry keeps its value if and only if both types list it with one kind (the target alone if the present type is unknown) and the value is one the kind stands for |
| DnsServerTypes.ListedInBothKeeps | ui/src/features/policy/dns-form-cleanup.ts:130-166 | in particular a path that both types list alike keeps a value of its kind |
| DnsRuleValues.ServerClearsOthers | ui/src/features/policy/dns-form-cleanup.ts:130-166 | and a path that they do not list alike, or whose value is of another kind, is cleared |
| DnsServerTypes.FitsIff | ui/src/features/policy/dns-form-cleanup.ts:97-116 | which values each kind stands for, limits included: an equivalence with the test of the code |
| DnsServerTypes.SurvivesIff | ui/src/features/policy/dns-form-cleanup.ts:130-166 | the survival rule with kinds read as those sets of values |
| DnsServerTypes.ServerTypeRoot | ui/src/features/policy/dns-form-cleanup.ts:137-151 | a plain server name at the resolver root survives a change of type if and only if the new type is one of the eight that dial out |
| DnsFormModel.ChangeDNSRuleTypeExact | ui/src/features/policy/dns-form-model.ts:199-204 | the same for the type of a rule |
| DnsFormModel.ChangeDNSRuleTypeKeepsAction | ui/src/features/policy/dns-form-model.ts:199-204 | changing the type of a rule never alters its action or anything at or below an action field |
| DnsRuleValues.RuleTypeKeepsShared | ui/src/features/policy/dns-form-model.ts:199-204 | a field that both types of rules list keeps a value of its kind; the type is written, or removed for a default rule |
| DnsRuleValues.RuleTypeClearsOthers | ui/src/features/policy/dns-form-model.ts:199-204 | any other field of the rule form is cleared |
| DnsFormModel.ChangeDNSActionExact | ui/src/features/policy/dns-form-model.ts:206-212 | the same exactness for the action of a rule |
| DnsFormModel.ChangeDNSActionKeepsMatch | ui/src/features/policy/dns-form-model.ts:206-212 | changing the action of a rule never alters a match field |
| DnsRuleValues.ActionWritten | ui/src/features/policy/dns-form-model.ts:206-212 | whatever the action was, the chosen one is written, and the empty one removes it |
| DnsRuleValues.ActionKeepsShared | ui/src/features/policy/dns-form-model.ts:206-212 | a field that both actions list keeps a value of its kind; a rule without an action counts as a route rule |
| DnsRuleValues.ActionClearsOthers | ui/src/features/policy/dns-form-model.ts:206-212 | any other field of an action is cleared |
| DnsRuleValues.RejectHasNoServer | ui/src/features/policy/dns-form-cleanup.ts:90-95 | a route rule that becomes a reject rule loses server, strategy and client subnet |
| RouteFields.ActionShapes | ui/src/features/policy/route-form-model.ts:76-142 | every action field is a plain key or one key below the resolver root: no path is above another |
| RouteFormModel.TransitionFieldsExact | ui/src/features/policy/route-form-model.ts:168-208 | a known path survives, with its value, if and only if the target type lists it with the kind it has in the source type (any kind if that is unknown) and the value fits; unrelated paths are unchanged |
| RouteFormModel.KnownActionShape | ui/src/features/policy/route-form-model.ts:211-213 | the known action fields, without those that are match fields, are pairwise unrelated |
| RouteFormModel.ChangeRouteActionExact | ui/src/features/policy/route-form-model.ts:239-245 | for every rule and action: nothing changes if it is the explicit present one; else the action written, the fate of each managed path, and everything else unchanged |
| RouteActionValues.ActionRead | ui/src/features/policy/route-form-model.ts:239-242 | a rule without an action, or with null or the empty text, is a route rule; any other text is the action |
| RouteActionValues.ActionWritten | ui/src/features/policy/route-form-model.ts:239-245 | the chosen action is written whatever it was before, and the empty one removes it |
| RouteActionValues.FitsIff | ui/src/features/policy/route-form-model.ts:168-180 | which values each kind of field stands for: an equivalence with the test of the code |
| RouteActionValues.SurvivesIff | ui/src/features/policy/route-form-model.ts:193-208 | the survival rule with kinds read as those sets of values |
| RouteActionValues.ListedInBothKeeps | ui/src/features/policy/route-form-model.ts:193-245 | a path that both actions list alike keeps a value of its kind |
| RouteActionValues.ActionClearsOthers | ui/src/features/policy/route-form-model.ts:193-245 | a field of an action that the new action does not list alike, or whose value is of another kind, is cleared |
| RouteActionValues.UnlistedIsCleared | ui/src/features/policy/route-form-model.ts:200-245 | so nothing stays that the new action does not list |
| RouteResolverRoot.ChangeRouteActionRoot | ui/src/features/policy/route-form-model.ts:200-245 | a plain server name at the resolver root survives a change of the action if and only if nothing changes, or an unknown action becomes a direct one |
| RouteFormModel.ChangeRouteActionKeepsMatch | ui/src/features/policy/route-form-model.ts:211-245 | changing the action never alters a match field, not even "network_type", which is also a field of an action |
| RouteFormModel.ChangeRouteRuleTypeExact | ui/src/features/policy/route-form-model.ts:232-237 | the same exactness for the type of a rule |
| RouteFormModel.ChangeRuleSetTypeExact | ui/src/features/policy/route-form-model.ts:247-252 | the same exactness for the type of a rule set |
| RouteActionValues.RuleTypeClearsOthers | ui/src/features/policy/route-form-model.ts:232-237 | a field that both types of rules do not list alike, or whose value is of another kind, is cleared; the type is written, or removed for a default rule |
| RouteActionValues.SetTypeWritten | ui/src/features/policy/route-form-model.ts:247-252 | the chosen type of a rule set is written |
| RouteActionValues.SetTypeClearsOthers | ui/src/features/policy/route-form-model.ts:247-252 | a field that both types of rule sets do not list alike, or whose value is of another kind, is cleared |
| RouteActionValues.LocalToRemote | ui/src/features/policy/route-form-model.ts:153-160 | a local rule set that becomes a remote one keeps its format and loses its path |
| RouteFieldConditions.RouteRulePruningOrderFree | ui/src/features/policy/route-form-model.ts:300-309 | pruning a route rule gives the same object in whatever order its fields are listed: the form's conditions meet the confluence condition |
| RouteRuleVisibility.VisibleInRouteRule | ui/src/features/policy/route-form-model.ts:85-109 | after pruning, a fallback delay stands beside an enabled fragment, keep-alive settings where keep-alive is not disabled, and resolver options beside a server name |
| Decimal.ReadDigits | ui/src/features/policy/policy-number-transform.ts:16-21 | the decimal text of a number reads as that number, and has a leading zero only for zero |
| FormText.TokensOfLines | ui/src/features/policy/policy-number-transform.ts:23-28 | lines of plain texts are split into exactly those texts |
| NumberTransform.StoresOnlyValid | ui/src/features/policy/policy-number-transform.ts:16-57 | whatever the input, an accepted one stores only values the constraint allows, or clears the field |
| NumberTransform.ListTextReadsBack | ui/src/features/policy/policy-number-transform.ts:23-28 | the text shown for a list in range is read as that list |
| NumberTransform.DecimalIsNoMark | ui/src/features/policy/policy-number-transform.ts:30-39 | the text of a decimal is never taken for an octal, hexadecimal or binary mark |
| NumberTransform.ShownValueIsAccepted | ui/src/features/policy/policy-number-transform.ts:41-57 | every value the constraint allows, but the empty list, can be entered: its text is accepted and stores it |
| NumberTransform.ShownTextReadsBackIff | ui/src/features/policy/policy-number-transform.ts:41-57 | after every accepted input the shown text gives the same object again if and only if the input was not separators alone in a list field; the next rows say what each input stores |
| NumberInput.NotHandledIff | ui/src/features/policy/policy-number-transform.ts:41-44 | the field is left to others if and only if it has no constraint or one for another kind of field |
| NumberInput.BlanksAround | ui/src/features/policy/policy-number-transform.ts:45-56 | blanks and line ends before and after an input make no difference, whatever the input and the field |
| NumberInput.BlanksClear | ui/src/features/policy/policy-number-transform.ts:45-46 | blanks alone clear the field |
| NumberInput.NumberStored | ui/src/features/policy/policy-number-transform.ts:16-21 | a decimal number in an integer or mark field is stored if it is at most 9007199254740991, at most the maximum and allowed, and rejected otherwise |
| NumberInput.ZerosStored | ui/src/features/policy/policy-number-transform.ts:16-21 | in an integer field zeros in front make no difference |
| NumberInput.JunkRejected | ui/src/features/policy/policy-number-transform.ts:16-21 | an integer field rejects any other text: signs, points, letters, blanks inside |
| NumberInput.TokensOfWritten | ui/src/features/policy/policy-number-transform.ts:23-28 | texts with any blanks, line ends and commas around and at least a comma or line end between them are read in their order |
| NumberInput.ListStored | ui/src/features/policy/policy-number-transform.ts:23-28 | numbers entered that way in a list field are stored in their order if all are allowed; otherwise the input is rejected |
| NumberInput.ListJunkRejected | ui/src/features/policy/policy-number-transform.ts:23-28 | one text that is no number makes a list field reject the whole input |
| NumberInput.PortsStored | ui/src/features/policy/policy-number-transform.ts:23-28 | "80, 443" is stored as the list of 80 and 443 |
| NumberInput.MarkStored | ui/src/features/policy/policy-number-transform.ts:30-49 | a mark field stores an octal, hexadecimal or binary text of a number, with its prefix and letters as they stand, if the number is within the maximum, and rejects it otherwise |
| NumberInput.MarkJunkRejected | ui/src/features/policy/policy-number-transform.ts:30-56 | a character that is neither letter nor digit makes a mark field reject the input |
| ShownText.LineByLine | ui/src/features/policy/policy-transformed-field.tsx:25-29 | lists are shown one item a line |
| ShownText.ShownSingle | ui/src/features/policy/policy-transformed-field.tsx:25-29 | a text and a number are shown as they are; nothing, null and an object show no text |
| ShownText.ShownList | ui/src/features/policy/policy-transformed-field.tsx:25-29 | every text and number of a list stands on its line |
| ShownText.PortsShown | ui/src/features/policy/policy-transformed-field.tsx:25-29 | the list of 80 and 443 is shown as these two lines |
| NumberTransform.CommaDoesNotReadBack | ui/src/features/policy/policy-number-transform.ts:23-28 | the failing input: a comma alone in a list of ports stores the empty list, whose text clears the field |
| QueryTypeTransform.TableIsStable | ui/src/features/policy/dns-form-model.ts:109-130 | a table of plain names recognises each name it yields as that name itself |
| QueryTypeNames.TableOfNames | ui/src/features/policy/dns-form-model.ts:109-115 | all names of the source's table are plain texts that no numeric input equals |
| QueryTypeTransform.TokenValuesValid | ui/src/features/policy/dns-form-model.ts:126-137 | accepted query types are numbers up to 65535 or names of the table |
| QueryTypeTransform.QueryTypeReadsBack | ui/src/features/policy/dns-form-model.ts:132-140 | after every accepted input the shown text gives the same object again, single value or list |
| QueryTypeNames.QueryTypeFieldReadsBack | ui/src/features/policy/dns-form-model.ts:109-140 | the same for the source's own table of names, with nothing left to suppose |
| QueryTypeInput.RecognisedIff | ui/src/features/policy/dns-form-model.ts:109-130 | a name is recognised if and only if it equals one of the table in upper case; of several the last counts |
| QueryTypeInput.QueryTypesStored | ui/src/features/policy/dns-form-model.ts:132-140 | numbers up to 65535 and recognised names are stored in their order, with any blanks around them: as a list, unless there is just one and the object has a single value already |
| QueryTypeInput.QueryTypesRejected | ui/src/features/policy/dns-form-model.ts:126-136 | one text that is neither rejects the whole input |
| QueryTypeInput.GapClears | ui/src/features/policy/dns-form-model.ts:132-134 | blanks, line ends and commas alone clear the field |
| Varint.WriteUvarint | internal/core/ruleset_update.go:464-469 | the loop appends the varint of every 64-bit value |
| Varint.TakePut | internal/core/ruleset_update.go:464-473 | reading a varint behind which anything follows gives its value and stops at its end |
| Varint.TakeFits64 | internal/core/ruleset_update.go:471-473 | no input reads as a value of more than 64 bits |
| Varint.FromPutInt64 | internal/core/ruleset_update.go:421-448 | eight big-endian bytes give back every signed 64-bit second |
| RuleSetCodec.DecodeEncode | internal/core/ruleset_update.go:410-462 | decoding an encoding, with any trailing bytes, gives content, second and etag back and stops at its end |
| RuleSetCodec.DecodeExtends | internal/core/ruleset_update.go:433-462 | an input that decodes decodes the same when bytes are added |
| RuleSetCodec.ProperPrefixFails | internal/core/ruleset_update.go:433-462 | no proper prefix of an encoding decodes |
| RuleSetCodec.EncodingsArePrefixFree | internal/core/ruleset_update.go:410-462 | no encoding is a prefix of that of another record; in particular encoding is injective |
| RuleSetCodec.DecodedIsEncodable | internal/core/ruleset_update.go:433-462 | whatever was decoded can be encoded |
| RuleSetCodec.Reader.ReadUvarint | internal/core/ruleset_update.go:471-473 | the reading loop gives value, rest and error of the recursive definition, overflow included |
| RuleSetCodec.Reader.ReadFull | internal/core/ruleset_update.go:439-459 | reads exactly so many bytes, or tells an empty input from a short one and leaves what there was, padded with zeros |
| RuleSetCodec.SavedRuleSet.MarshalBinary | internal/core/ruleset_update.go:410-431 | writes the encoding of the record, which has whole seconds only |
| RuleSetBytes.LayoutIff | internal/core/ruleset_update.go:410-431 | the encoding, and no other bytes, is: the byte 1, the content length as a varint, the content, the seconds in eight bytes, the etag length as a varint, the etag |
| RuleSetBytes.VarintShape | internal/core/ruleset_update.go:464-469 | a varint has the top bit set on all bytes but the last, seven-bit digits with the lowest first, and no zero digit at the end of a longer one |
| RuleSetBytes.VarintUnique | internal/core/ruleset_update.go:464-469 | no other bytes have that form for the same number |
| RuleSetBytes.VarintExamples | internal/core/ruleset_update.go:464-469 | 150 is 96 01 and 300 is AC 02; 127 is the last number in one byte |
| RuleSetBytes.WrittenSeconds | internal/core/ruleset_update.go:421 | seconds are written as eight bytes, the highest first, in two's complement |
| RuleSetBytes.ReadSeconds | internal/core/ruleset_update.go:447-451 | and any eight bytes are read so |
| RuleSetBytes.Int64Unique | internal/core/ruleset_update.go:421-451 | no other eight bytes denote the same number |
| RuleSetBytes.SmallRecord | internal/core/ruleset_update.go:410-431 | a record of two content bytes, 258 seconds and one etag byte, byte by byte |
| RuleSetCodec.SavedRuleSet.UnmarshalBinary | internal/core/ruleset_update.go:433-462 | panics exactly on a readable length beyond the largest slice; else succeeds exactly on inputs that decode and then holds the decoded record; after a failure, which fields were overwritten and with what |
| RuleSetCodec.DecodableDoesNotPanic | internal/core/ruleset_update.go:443-456 | an input that decodes never panics |
| RuleSetCodec.HugeLengthPanics | internal/core/ruleset_update.go:443 | the failing input: a version byte and the largest length |
| RuleSetCodec.RuleSetCache.Save | internal/core/ruleset_update.go:508-526 | a saved record is what the cache loads for the tag, every other tag loads as before; a database that fails to open or commit leaves the cache as it was |
| RuleSetCodec.RuleSetCache.Touch | internal/core/ruleset_update.go:528-554 | changes just the timestamp of a loadable entry and nothing of a missing one; which failures occur when, none of which changes the cache |
| RuleMatching.AssignmentInjective | internal/core/route_rule_metadata.go:70-101 | no stored entry goes to two rules and no rule gets two entries, positional leftovers included |
| RuleMatching.MatchedIff | internal/core/route_rule_metadata.go:78-92 | a rule is matched if and only if fewer earlier rules share its fingerprint than entries are stored for it |
| RuleMatching.MatchingMaximal | internal/core/route_rule_metadata.go:78-92 | each fingerprint is matched as often as rules and entries both have it |
| RuleMatching.ReorderCarriesMetadata | internal/core/route_rule_metadata.go:78-92 | with distinct stored fingerprints an entry goes to a rule if and only if that is the first rule of the fingerprint, however the list was reordered, thinned out or extended, copies included |
| RouteRuleMetadata.ListStored | internal/core/route_rule_metadata.go:70-101 | the greedy loops compute the assignment that pairs the k-th rule of a fingerprint with its k-th entry and leftovers by position |
| RouteRuleMetadata.ListAfterSave | internal/core/route_rule_metadata.go:70-149 | listing the saved rules gives exactly the trimmed metadata, duplicate rules included |
| RouteRuleMetadata.ListAfterEdit | internal/core/route_rule_metadata.go:70-149 | after any edit of the saved list the k-th rule of a fingerprint lists the trimmed metadata saved for the k-th rule of it |
| RouteRuleMetadata.EditCarriesMetadata | internal/core/route_rule_metadata.go:70-149 | with distinct saved rules every one of them keeps its own metadata through any edit |
| RouteRuleValues.EditInPlaceKeeps | internal/core/route_rule_metadata.go:78-99 | editing one rule in place keeps all metadata where it is: the edited rule keeps its own by its position |
| RouteRuleValues.NewRuleHasNone | internal/core/route_rule_metadata.go:93-99 | a new rule behind the saved ones has neither name nor description |
| RouteRuleValues.InsertInFront | internal/core/route_rule_metadata.go:78-99 | nor has a new rule in front of them, and each saved rule keeps its own |
| RouteRuleMetadata.SavedClean | internal/core/route_rule_metadata.go:107-149 | what a save accepts is stored trimmed and within the limits |
| RouteRuleValues.StoredBare | internal/core/route_rule_metadata.go:107-117 | a name of up to 100 and a description of up to 500 characters, not counting blanks around them, are stored without those blanks; longer ones are refused |
| RouteRuleValues.PaddedExists | internal/core/route_rule_metadata.go:108-109 | every text is a bare one with blanks around it, so this speaks of all inputs |
| RouteRuleMetadata.DefaultNamePlain | internal/core/route_rule_metadata.go:191-223 | every default name passes validation unchanged |
| RouteRuleValues.FixedNames | internal/core/route_rule_metadata.go:191-208 | the default names of the rules for sniffing, DNS, private addresses, pings and QUIC, built or read from JSON |
| RouteRuleValues.SetNames | internal/core/route_rule_metadata.go:209-238 | the default names of the rules for the seven rule sets, built or read from JSON |
| RouteRuleValues.OtherwiseUnnamed | internal/core/route_rule_metadata.go:191-223 | a rule of none of these sorts has no default name |
| RouteRuleMetadata.ApplyKeepsNames | internal/core/route_rule_metadata.go:151-165 | applying defaults never overwrites a name or a description, and names every unnamed object rule |
| RouteRuleMetadata.ApplyIdempotent | internal/core/route_rule_metadata.go:151-165 | applying defaults again leaves the store as it is |
| RouteRuleMetadata.FillDefaults | internal/core/route_rule_metadata.go:156-163 | the loop names just the unnamed object rules, each by its own rule |
| RouteRuleMetadata.Manager.List | internal/core/route_rule_metadata.go:70-101 | lists the assignment, or reports a failed read |
| RouteRuleMetadata.Manager.Save | internal/core/route_rule_metadata.go:119-149 | all or nothing: succeeds exactly on matching counts and valid metadata with a working database |
| RouteRuleMetadata.Manager.ApplyDefaultNames | internal/core/route_rule_metadata.go:151-165 | fails only if the database does, and then changes nothing |
| RouteRuleMetadata.Manager.InitializeDefaultNames | internal/core/route_rule_metadata.go:167-189 | defaults are applied once: an initialised store is never touched, a store counts as initialised only after success, and if just the mark fails the names are stored all the same |
| NodesSync.PreserveExistingOutbounds | internal/api/nodes_sync.go:98-123 | the loop keeps, in order, what is not replaced, behind one built-in direct outbound |
| NodesSync.IndexExistingOutbounds | internal/api/nodes_sync.go:71-81 | the index finds for every tag the last outbound that carries it |
| NodesSync.AppendManagedOutbounds | internal/api/nodes_sync.go:125-168 | appends each managed outbound on top of its existing entry, or fails if and only if some raw configuration is no object; NodesSyncEntries.ManagedEntry says key by key what each entry is |
| NodesSync.AppendGroups | internal/api/nodes_sync.go:207-249 | appends one group per subscription that has members, and returns just those names |
| NodesSync.CollectProxyTags | internal/api/nodes_sync.go:180-205 | collects, in order, the tags of selectable outbounds that are members of no subscription |
| NodesSync.UpsertProxySelector | internal/api/nodes_sync.go:251-270 | rewrites the first proxy selector in place or appends one; without members nothing changes |
| NodesSyncTheorems.BuiltIdempotent | internal/api/nodes_sync.go:140-168 | building an outbound on top of its own earlier result changes nothing, whatever the raw configuration sets |
| NodesSyncTheorems.SyncedShape | internal/api/nodes_sync.go:39-56 | under the tag conditions the result is: preserved, managed, groups, selector, in this order |
| NodesSyncEntries.DirectFirst | internal/api/nodes_sync.go:98-99 | in front of a synced list stands the direct outbound with just type and tag |
| NodesSyncEntries.KeptIff | internal/api/nodes_sync.go:98-123 | which existing outbounds are kept, by their type and tag: no imported type, "direct" or "dns", no group of a managed tag, not the proxy selector |
| NodesSyncEntries.KeptInOrder | internal/api/nodes_sync.go:98-108 | keeping goes entry by entry and keeps the order |
| NodesSyncEntries.ManagedGroupsIff | internal/api/nodes_sync.go:83-96 | the managed tags are the persisted groups and the names of the subscriptions |
| NodesSyncEntries.ManagedInOrder | internal/api/nodes_sync.go:40-51 | managed outbounds are the nodes, then those of each subscription in turn |
| NodesSyncEntries.LastIsLast | internal/api/nodes_sync.go:71-81 | the existing entry of a tag is the last object in the list with it, and there is none for the empty tag |
| NodesSyncEntries.ManagedEntry | internal/api/nodes_sync.go:125-168 | every managed outbound stands at its place with, under each key: the raw value if the raw configuration sets the key; else its own type, tag, server and port; else what the last entry of its tag had; else the mark 128 for the eleven proxy types; else nothing |
| NodesSyncEntries.GroupEntryStands | internal/api/nodes_sync.go:207-239 | every subscription with a member has a group at its place with, under each key: name, members, "urltest" with the resolved url, interval and tolerance or "selector" without them, and else what the last entry of its name had |
| NodesSyncEntries.MembersOf | internal/api/nodes_sync.go:241-249 | the members are the tags of the outbounds of the eleven proxy types, in their order |
| NodesSyncEntries.SelectorListsIff | internal/api/nodes_sync.go:170-200 | the proxy selector lists the groups of subscriptions and every outbound of the synced list that is neither built in nor a group nor a member of a subscription |
| NodesSyncEntries.SelectorStands | internal/api/nodes_sync.go:251-270 | with members it ends the list, the first of them its default; without members there is none |
| NodesSyncEntries.ConfigFields | internal/api/nodes_sync.go:57-281 | a sync sets the outbounds, sets the final outbound of the route to "proxy" unless it has one, and leaves every other key alone |
| NodesSyncTheorems.KeptOfSynced | internal/api/nodes_sync.go:98-123 | the next sync preserves what this one preserved, and those managed outbounds whose type it does not replace |
| NodesSyncTheorems.FindsItself | internal/api/nodes_sync.go:71-81 | in a synced list every managed outbound finds its own entry by tag |
| NodesSyncTheorems.SecondSyncKeeps | internal/api/nodes_sync.go:39-56 | a second sync with the same input changes nothing if all managed types are replaced types |
| NodesSyncTheorems.SecondSyncGrows | internal/api/nodes_sync.go:98-168 | with a managed outbound of any other type the list grows |
| NodesSyncTheorems.SyncIdempotentIff | internal/api/nodes_sync.go:11-61 | under the tag conditions a sync is idempotent if and only if every managed type is a replaced one |
| NodesSyncTheorems.SshNodeIsAddedAgain | internal/api/nodes_sync_helpers.go:3-10 | an "ssh" node counts as proxy-like and is added once more by every sync |
| NodesSyncTheorems.SyncConfigIdempotentIff | internal/api/nodes_sync.go:16-61 | the same equivalence for the whole configuration, route.final and unrelated keys included |
| NodesSyncRuns.Reconcile | internal/api/nodes_sync.go:29-56 | the steps in sequence compute the synced list and the group names, or fail if and only if some raw configuration is no object |
| NodesSyncRuns.SyncStores.Commit | internal/api/nodes_sync_commit.go:31-43 | both stores get the new values, or both keep the old ones, or, if the rollback fails too, a new file stands beside old groups: which of these, for each combination of faults |
| NodesSyncRuns.SyncStores.Sync | internal/api/nodes_sync.go:16-61 | succeeds exactly without faults on a decoded configuration and decodable input; panics exactly on a file holding null; what both stores hold after it, for every combination of faults |
| NodesSyncRuns.StepOutcome | internal/api/nodes_sync.go:16-61 | success replaces both stores, a double fault the file alone, any other failure neither |
| NodesSyncRuns.SyncAll | internal/api/nodes_sync.go:16-61 | running one sync after the other on the two stores ends in the state the run theorems are about |
| NodesSyncRuns.RunGroups | internal/api/nodes_sync.go:16-61 | for every sequence of faults the persisted groups are those of the last sync that succeeded |
| NodesSyncRuns.StoresAgree | internal/api/nodes_sync_commit.go:31-43 | for every sequence of faults without a double one, file and groups were written by the same sync, the last that succeeded |
| NodesSyncRuns.SyncedGroupIff | internal/api/nodes_sync.go:98-123 | a synced list has a group under a tag if and only if it was generated by this sync, or was there before and is not managed |
| NodesSyncRuns.NoStaleGroupIff | internal/api/nodes_sync.go:83-123 | after every run of edits and syncs, whatever fails, with nodes of any type that is no group: no generated group is stale if and only if double faults have made the store lose track of none |
| NodesSyncRuns.RunLeavesNoStaleGroup | internal/api/nodes_sync.go:83-123 | in particular none is after any run without a double fault: groups of renamed, removed or emptied subscriptions are gone |
| NodesSyncRuns.DoubleFaultStaleIff | internal/api/nodes_sync_commit.go:39-41 | after a double fault a successful sync leaves no stale group if and only if every group written then is in the store or named after a present subscription |
| NodesSyncRuns.DoubleFaultLeavesStaleGroup | internal/api/nodes_sync_commit.go:39-41 | entry by entry, for managed outbounds of any type: a group written in a double fault survives a later successful sync that does not manage it, and the store does not know it |
| NodesSyncRuns.RunConserves | internal/api/nodes_sync.go:83-123 | with managed types that are replaced, all outbounds that no sync manages keep content and order over every run, whatever fails |
| NodesSyncRuns.RunConservesOwn | internal/api/nodes_sync.go:83-123 | with managed outbounds of any type that is no group, the user's groups and the user's outbounds under tags of their own keep content and order over every run, whatever fails |
| NodesSyncRuns.RunConservesGroups | internal/api/nodes_sync.go:83-123 | in particular user groups never named after a subscription or "proxy" do, with "ssh" and "tor" nodes too |
| NodesSyncRuns.GroupMembersPresent | internal/api/nodes_sync.go:207-249 | every member of a generated group is the tag of an outbound in the result |
| NodesSyncRuns.SelectorMembersPresent | internal/api/nodes_sync.go:180-270 | so is every member of the generated proxy selector |
| LoginRateLimiter.Limiter.Allow | internal/api/auth_rate_limit.go:36-51 | refuses exactly while the lock lasts, and forgets a key whose lock is over |
| LoginRateLimiter.Limiter.RecordFailure | internal/api/auth_rate_limit.go:53-70 | counts the failure behind a cleanup of a crowded table and locks on the fifth |
| LoginRateLimiter.Limiter.RecordSuccess | internal/api/auth_rate_limit.go:72-76 | forgets the key and no other |
| LoginRateLimiter.Limiter.Cleanup | internal/api/auth_rate_limit.go:79-86 | deleting while walking removes just the stale entries |
| LoginRateLimiter.Login | internal/api/auth.go:22-45 | which status an attempt gets, and what the limiter holds after it |
| LoginRateLimiter.CleanupKeeps | internal/api/auth_rate_limit.go:79-86 | dropping a stale entry loses nothing: its failures are outside every window still open |
| LoginRateLimiter.RunKeeps | internal/api/auth_rate_limit.go:36-86 | after every sequential run each entry bounds the failures of its key in the last minute, and a missing one means none |
| LoginRateLimiter.AtMostFiveFailures | internal/api/auth_rate_limit.go:36-86 | in every sequential run at most five failures of a key are recorded in any half-open minute with no success of it, whatever other keys do and cleanup drops |
| LoginRateLimiter.RefusedOnlyAfterFive | internal/api/auth_rate_limit.go:36-70 | a refused key has failed at least five times since its last success, once within the last minute |
| LoginLimits.NoSixInAMinute | internal/api/auth_rate_limit.go:9-70 | no six positions of the log of a sequential run are failures of a key within sixty seconds without a success of it |
| LoginLimits.RefusedHasFive | internal/api/auth_rate_limit.go:36-70 | a refused key has five failures in the log without a success since the first of them, and one of its failures is less than sixty seconds old |
| LoginLimits.LockedAfterFive | internal/api/auth_rate_limit.go:36-70 | after one to four rejected attempts in a row a key is allowed; after five it is refused until exactly sixty seconds later |
| LoginLimits.FifthFailureLocks | internal/api/auth_rate_limit.go:53-70 | in any table the fifth failure of a key locks it for exactly sixty seconds, and no earlier one does |
| LoginLimits.OthersAfterFailure | internal/api/auth_rate_limit.go:57-86 | a failure touches no entry of another key, unless there are more than 500 entries: then those last seen over ten minutes ago and not locked are dropped |
| LoginOverlap.RunKeeps | internal/api/auth.go:22-45 | with any overlap of requests each entry bounds the failures that count, and pending requests were allowed before any lock of their key |
| LoginOverlap.FiveAndTheLate | internal/api/auth_rate_limit.go:36-86 | with any overlap of requests at most five failures of a key are recorded in any half-open minute with no success of it, beside those that come late |
| LoginOverlap.LateWereInFlight | internal/api/auth_rate_limit.go:36-70 | a late failure belongs to a request that was in flight when its key was locked |
| LoginOverlap.SixAtOnce | internal/api/auth.go:24-41 | the failing input for the bound of five: six requests allowed before any of them fails |
| Kernel.SBInstance.Start | internal/core/sbinstance.go:110-157 | succeeds exactly if running already or no step fails; a kernel started here runs what the file says, a running one is left alone; no box stays alive after a failure |
| Kernel.SBInstance.Stop | internal/core/sbinstance.go:159-176 | the kernel is down afterwards even if closing reported an error |
| Kernel.SBInstance.Restart | internal/core/sbinstance.go:178-183 | running afterwards if and only if it succeeded, then with the content of the file |
| Kernel.ConfigHandler.ApplyConfigBytes | internal/api/config_handler.go:95-142 | from any state, also one in which file and kernel differ: exactly when each of the seven outcomes occurs, a failed restart being rolled back whenever that is possible; "ok": file and kernel hold the new body; "rolled back": both hold the previous content of the file; each error: what they are left with |
| Kernel.RolledBackToUnseen | internal/api/config_handler.go:119-141 | a run in which the kernel ends, rolled back, on a configuration it never ran |
| KernelInterleaving.StepKeeps | internal/api/config_handler.go:95-142 | every step of every goroutine keeps: at most one box alive, and a goroutine still to stop whatever differs from the file, unless the file was written from outside |
| KernelInterleaving.RunKeeps | internal/core/sbinstance.go:110-183 | hence every state of every interleaved run has it |
| KernelInterleaving.RunningMatchesFile | internal/api/config_handler.go:95-142 | however changes, starts, stops, restarts and outside writes interleave and fail: a kernel that runs something else than the file holds is about to be stopped by the one who wrote the file, or the file was written from outside since it was last read for a start |
| KernelOrigins.OnlyFileContentRuns | internal/core/sbinstance.go:110-157 | in every interleaving the kernel only ever runs a configuration that the file had at some point |
| KernelOrigins.FileChangesOnlyBy | internal/api/config_handler.go:95-142 | the file only changes by an outside write, to the new body of a configuration change, or back to what it was before one |
| Traffic.StepNet | internal/core/traffic.go:106-124 | every atomic step changes total plus in flight minus connections by a multiple of 2^64 |
| Traffic.TrafficConserved | internal/core/traffic.go:106-124 | at every point of every interleaving total plus bytes in flight is the sum over all connections ever tracked, modulo 2^64; at rest the total is that sum |
| TrafficValues.CounterIsOwn | internal/core/traffic.go:106-124 | at every point of every interleaving the counter of a connection is what its own callbacks moved in that direction, modulo 2^64 |
| TrafficValues.TotalIsMoved | internal/core/traffic.go:106-124 | and the total with the bytes in flight is what all callbacks moved |
| Traffic.DrawnIds | internal/core/traffic.go:75-76 | over every run the ids drawn are 1, 2, 3 and so on: none is reused, closed or deleted or not |
| Traffic.IdsAreUnique | internal/core/traffic.go:49-89 | the next id was never drawn, the table has drawn ids only, and closing by id succeeds at most once per id |
| TrafficHistory.TrafficHistoryBuffer.constructor | internal/api/traffic_history.go:27-36 | a new buffer is empty; a limit that is not positive becomes the default |
| TrafficHistory.TrafficHistoryBuffer.Add | internal/api/traffic_history.go:38-47 | the buffer represents its history with the point appended |
| TrafficHistory.TrafficHistoryBuffer.Snapshot | internal/api/traffic_history.go:49-67 | the last points of the history, as many as the limit, oldest first |
| TrafficHistory.RotateStep | internal/api/traffic_history.go:38-47 | overwriting the oldest slot moves the window of a full ring on by one |
| TrafficHistory.AddAll | internal/api/traffic_history.go:27-67 | after any sequence of points and for any limit the snapshot is the tail of that sequence |
| TrafficHistoryValues.LastPoints | internal/api/traffic_history.go:49-67 | the tail has as many points as there are and as fit, each at its distance from the end |
| TrafficHistoryValues.KeepsSixHundred | internal/api/traffic_history.go:8-36 | a buffer without a limit keeps the last 600 points |
| OutboundDefaults.Install | internal/core/outbound_defaults.go:21-111 | the imperative installation computes the list the theorems below are about; the next rows say entry by entry what is in it |
| OutboundBuiltins.MissingBuiltins | internal/core/outbound_defaults.go:44-60 | where the list has no "direct", "bypass" or "block", the result has it with exactly these fields: type direct and mark 128 for the first two, type block for the third |
| OutboundBuiltins.MissingGroups | internal/core/outbound_defaults.go:62-85 | where it has no "proxy", "auto", "whitelist" or "blacklist", the result has the group with exactly its type and members; "auto" only if there is a proxy |
| OutboundBuiltins.CandidatesOf | internal/core/outbound_defaults.go:28-121 | the proxies are the tagged outbounds of a type other than the five of built-ins and groups, in their order |
| OutboundBuiltins.ExistingStands | internal/core/outbound_defaults.go:28-104 | the last outbound of the list with a tag is in the result with all its fields but the one that an installation sets |
| OutboundBuiltins.NothingElse | internal/core/outbound_defaults.go:87-104 | every entry of the result has one of the seven tags, or a tag of the list other than "dns-out" |
| OutboundDefaults.EmitLoop | internal/core/outbound_defaults.go:87-104 | the final loop emits each tag that is left once, at its first place |
| OutboundDefaults.InstallIdempotent | internal/core/outbound_defaults.go:21-111 | installing twice is installing once, for every list of outbounds |
| OutboundReload.InstallAfterReload | internal/core/outbound_defaults.go:21-111 | installing into a list that was saved and read writes the same JSON as installing into the list itself |
| OutboundReload.ReinstallingChangesNothing | internal/core/outbound_defaults.go:21-111 | with any number of installations, each saved and read before the next, all after the first change nothing |
| OutboundDefaults.InstalledShape | internal/core/outbound_defaults.go:44-104 | tags are unique; the built-ins and groups are present, "dns-out" is not |
| OutboundDefaults.OthersKeepFields | internal/core/outbound_defaults.go:28-104 | every other tagged outbound keeps all its fields |
| OutboundDefaults.ExistingKeepFields | internal/core/outbound_defaults.go:55-85 | a given outbound keeps all fields but at most one: the mark of direct and bypass, the type of a group; members and default of a user's group stay |
| OutboundDefaults.ScanIsLast | internal/core/outbound_defaults.go:28-42 | of outbounds with one tag the last one counts |
| OutboundDefaults.OrderKept | internal/core/outbound_defaults.go:28-104 | the given outbounds stay in front, in the order of their first occurrence |
| OutboundDefaults.MembersStayTrivial | internal/core/outbound_defaults.go:62-84 | a second installation finds no proxy where the first one found none |
| OutboundDefaults.NewGroupMembersPresentIff | internal/core/outbound_defaults.go:54-85 | which members each new group gets, and that they are all in the result if and only if (for proxy and auto) no proxy outbound is tagged "dns-out" |
| OutboundDefaults.DnsOutProxyIsDropped | internal/core/outbound_defaults.go:54-80 | the failing input: with one "vless" outbound tagged "dns-out" the new proxy group names just that tag, which is gone |
| RouteDefaults.Merge | internal/core/route_defaults.go:83-104 | the existing rules come first and unchanged, then the added ones |
| RouteDefaults.Install | internal/core/route_defaults.go:23-105 | the same for the default rules of the configured outbounds and rule sets |
| RouteDefaults.AddedAreNew | internal/core/route_defaults.go:94-102 | what is added repeats no signature, of an existing rule or of another added one |
| RouteDefaults.InstallAddsWhatIsMissing | internal/core/route_defaults.go:83-102 | afterwards some rule has the signature of every default; only defaults are added, and only those whose signature no existing rule has |
| RouteDefaultRules.DefaultIff | internal/core/route_defaults.go:29-81 | which rules are defaults, field by field, for any configured outbounds and rule sets; of two rule sets for one purpose the first configured one counts |
| RouteDefaultRules.DefaultsNameConfigured | internal/core/route_defaults.go:29-81 | a default rule names only configured outbounds and rule sets |
| RouteDefaultRules.AllInstalledInOrder | internal/core/route_defaults.go:36-102 | into a configuration without rules all defaults are installed in their order: none hides another |
| RouteDefaultRules.DefaultsGrow | internal/core/route_defaults.go:36-81 | that order, told by the signatures: sniff, DNS, private, pings, QUIC, ads, domestic, domestic addresses, proxy |
| RouteDefaultRules.SetSignature | internal/core/route_defaults.go:152-154 | the signature of a rule for a rule set |
| RouteDefaultRules.ActionSignatures | internal/core/route_defaults.go:137-161 | those of the sniff and DNS rules |
| RouteDefaultRules.DirectSignatures | internal/core/route_defaults.go:137-151 | those of the private address and ping rules |
| RouteDefaultRules.QuicSignature | internal/core/route_defaults.go:137-140 | that of the QUIC rule |
| RouteDefaultRules.DecodedSignature | internal/core/route_defaults.go:137-181 | what a rule read from a configuration is recognised by, case by case, with a port that is a text or a number |
| RouteDefaults.InstalledIff | internal/core/route_defaults.go:83-102 | a default itself is there afterwards if and only if it was before, or no existing object and no earlier default has its signature |
| RouteDefaults.SniffInstalledIff | internal/core/route_defaults.go:36-102 | the sniff rule is there afterwards if and only if it was before or no existing object has the empty signature |
| RouteDefaults.SignatureEmptyIff | internal/core/route_defaults.go:137-161 | which rules have the empty signature: no network, protocol, private flag, rule set name and outbound |
| RouteDefaults.DomainRuleHidesSniff | internal/core/route_defaults.go:137-161 | the failing input: one reject rule for a domain keeps the sniff rule out |
| RouteDefaults.SignatureStableIff | internal/core/route_defaults.go:137-181 | writing a rule as JSON and reading it keeps its signature if and only if: networks are no built list with a name, a port that matters prints as a float the way it does as an integer, and a built rule set list that matters does not start with an empty name |
| RouteDefaults.DecodedIsStable | internal/core/route_defaults.go:137-181 | a rule that came out of JSON keeps its signature: only a rule built by the program could change it |
| RouteDefaults.DefaultsStable | internal/core/route_defaults.go:36-81 | and no default rule does, for every configuration |
| RouteDefaults.SecondInstallAddsNothing | internal/core/route_defaults.go:83-181 | after saving and reading the merged rules another installation adds nothing, for every configuration |
| RouteDefaults.ReinstallingChangesNothing | internal/core/route_defaults.go:83-181 | with any number of installations, each saved and read before the next, all after the first change nothing |
| Backup.BackupChecksums | internal/core/backup.go:65-72 | one checksum for each entry, of its own bytes |
| Backup.VerifyBackupChecksums | internal/core/backup.go:74-86 | accepts if and only if every listed entry is there with its checksum |
| Backup.CreateBackup | internal/core/backup.go:33-63 | fails if and only if a step fails; the archive has database, configuration if any, and their manifest |
| BackupValues.ArchiveIs | internal/core/backup.go:19-63 | the archive is boxd.db, sing-box.json if there is one, and manifest.json |
| BackupValues.ManifestIs | internal/core/backup.go:19-72 | the manifest has format version 1 and the checksum of each of the other entries |
| Backup.ReadValidatedTar | internal/core/restore.go:90-117 | accepts if and only if every entry is a regular file of a known name within the limit and the manifest is not empty |
| Backup.RoundTripIff | internal/core/restore.go:16-117 | a created backup restores exactly the bytes it was made from if and only if every entry is within the size limit |
| Backup.OversizedBackupIsLost | internal/core/restore.go:16-109 | the failing input: a database one byte over the limit is backed up and cannot be restored |
| BackupValues.RefusesOthers | internal/core/restore.go:90-110 | an entry of another name, one that is no regular file or one over 512 MiB makes a restore refuse the archive |
| BackupValues.NeedsBoth | internal/core/restore.go:18-29 | so does a missing database or manifest |
| BackupValues.TamperedIsRefused | internal/core/backup.go:74-86 | a backup whose database or configuration was changed or removed afterwards is refused, unless the hash does not see it |
| BackupValues.OtherVersionIsRefused | internal/core/restore.go:84-86 | and so is a manifest of another format version |
| Restore.DataFiles.RestoreBackup | internal/core/restore.go:18-63 | success exactly on a valid archive whose necessary steps work, then both files are the archived ones; any failure with a working rollback: both files as before; the one case in which the database stays changed, and to what |
| Restore.BackupAndRestore | internal/core/restore.go:18-63 | backing up one data directory and restoring into another makes the files equal, exactly when the sizes allow it |

## Left out

- User interface, HTTP handlers and routing, JWT and password hashing, link importers, the log writer: no invariant here that the modelled parts do not already have, or calls into libraries.
- The inbound and outbound forms: copies of the path and pruning algorithms on other tables. Of the endpoint form just the field list and its pruning are modelled.
- The rcode transform of the DNS form: the query-type transform with another limit and another table.
- JSON text: decoding what was encoded is taken as the identity, up to the representation of numbers and lists in RouteDefaults and OutboundReload; failures to encode rules or metadata are not modelled.
- PolicyPrune.PruneOrderIndependent: the condition is sufficient; for arbitrary lists an exact one would have to decide which conditions some object can meet together. The route, DNS server and endpoint forms meet the condition (FormConditions, RouteFieldConditions).
- LoginRateLimiter.AtMostFiveFailures: about attempts one after the other, as handled by Login; overlapping ones are in LoginOverlap.
- LoginRateLimiter.Login: what follows a granted login, and how the key is found from the address, is not part of this model.
- Kernel.SBInstance.Start: start time, traffic tracker and status report are not modelled, and the box is an identity with the configuration it was created from.
- KernelInterleaving.RunningMatchesFile: an outside write is one atomic step; the two-store commit it belongs to is in NodesSyncRuns.
- NodesSyncRuns.NoStaleGroupIff: under the tag conditions, and for managed outbounds that are no selector or urltest themselves: such a one would be an unmanaged group under a tag of its own.
- NodesSyncRuns.RunConserves: for replaced types only, since outbounds of other managed types pile up (NodesSyncTheorems.SecondSyncGrows); RunConservesOwn has the rest.
- NodesSync.AppendManagedOutbounds: works on decoded JSON values; the numbers 128 and the port are floats, as after a reload.
- Traffic.TrafficConserved: a state machine over the atomic steps, no class; the listing of connections and the wrap-around of the id counter are not modelled.
- RuleSetCodec.SavedRuleSet.UnmarshalBinary: what the record holds after a panic is not said; the largest slice is a parameter.
- RuleSetCodec.RuleSetCache.Save: the rest of the updater (download, status, scheduling) is left out.
- RouteRuleMetadata.Manager.List: the fingerprint is a total function, so its error does not occur; characters stand for Go's runes.
- OutboundDefaults.Install: the copies of installed outbounds and the name of the final outbound in its result are not modelled.
- RouteDefaults.Install: the tags of outbounds and rule sets in the configuration are parameters.
- Restore.DataFiles.RestoreBackup: the copies made before the restore are modelled by their possible failure only, and the check of the database snapshot is a parameter.
- Backup.CreateBackup: tar and gzip are the sequence of entries; what an unfinished archive file looks like is not modelled.
- Atomic replacement of a file (temporary file, sync, rename): one step that succeeds or changes nothing, in Kernel, NodesSyncRuns and Backup.

/** What the DNS and route forms share when an object changes its type: a registry of managed fields,
    and a fold that clears every managed path the new type cannot keep. */
module FieldTransition {
  import opened Wrappers
  import opened Json
  import opened DottedPath
  import opened PolicyPath

  datatype Field<K> = Field(path: Path, kind: Option<K>)

  /** The root of the resolver fields; it may also hold the plain name of a server. */
  const RESOLVER_KEY := "domain_resolver"

  ghost predicate PrefixFree<K>(fields: seq<Field<K>>) {
    forall f, g | f in fields && g in fields && Related(f.path, g.path) :: f.path == g.path
  }

  ghost predicate DistinctPaths<K>(fields: seq<Field<K>>) {
    forall i, j | 0 <= i < j < |fields| :: fields[i].path != fields[j].path
  }

  ghost predicate Managed<K>(fields: seq<Field<K>>, path: Path) {
    exists f :: f in fields && f.path == path
  }

  function Flatten<K>(groups: seq<seq<Field<K>>>): seq<Field<K>> {
    if groups == [] then [] else groups[0] + Flatten(groups[1..])
  }

  predicate HasPath<K>(fields: seq<Field<K>>, path: Path) {
    exists i | 0 <= i < |fields| :: fields[i].path == path
  }

  /** The first field of each path, in order. */
  function Unique<K>(seen: seq<Field<K>>, fields: seq<Field<K>>): seq<Field<K>>
    decreases |fields|
  {
    if fields == [] then seen
    else Unique(if HasPath(seen, fields[0].path) then seen else seen + [fields[0]], fields[1..])
  }

  /** The same paths, and no field that was not there. */
  ghost predicate Covers<K>(fields: seq<Field<K>>, all: seq<Field<K>>) {
    (forall f | f in fields :: f in all) && forall f | f in all :: Managed(fields, f.path)
  }

  lemma UniqueFacts<K>(all: seq<Field<K>>)
    ensures DistinctPaths(Unique([], all)) && Covers(Unique([], all), all)
  {
    UniqueMeaning([], all);
  }

  lemma UniqueStep<K>(seen: seq<Field<K>>, group: seq<Field<K>>, j: nat, rest: seq<Field<K>>)
    requires j < |group|
    ensures Unique(seen, group[j..] + rest) ==
            Unique(if HasPath(seen, group[j].path) then seen else seen + [group[j]], group[j + 1..] + rest)
  {
    assert (group[j..] + rest)[1..] == group[j + 1..] + rest;
  }

  /** `uniqueFields`: fills an insertion-ordered map in nested loops. */
  method UniqueFields<K>(groups: seq<seq<Field<K>>>) returns (fields: seq<Field<K>>)
    ensures fields == Unique([], Flatten(groups))
    ensures DistinctPaths(fields)
    ensures Covers(fields, Flatten(groups))
  {
    fields := [];
    for i := 0 to |groups|
      invariant Unique(fields, Flatten(groups[i..])) == Unique([], Flatten(groups))
    {
      ghost var rest := Flatten(groups[i + 1..]);
      assert groups[i..][1..] == groups[i + 1..];
      assert groups[i][0..] == groups[i];
      for j := 0 to |groups[i]|
        invariant Unique(fields, groups[i][j..] + rest) == Unique([], Flatten(groups))
      {
        UniqueStep(fields, groups[i], j, rest);
        if !HasPath(fields, groups[i][j].path) {
          fields := fields + [groups[i][j]];
        }
      }
      assert groups[i][|groups[i]|..] + rest == rest;
    }
    UniqueFacts(Flatten(groups));
  }

  lemma {:induction false} UniqueMeaning<K>(seen: seq<Field<K>>, fields: seq<Field<K>>)
    requires DistinctPaths(seen)
    ensures DistinctPaths(Unique(seen, fields))
    ensures forall f | f in Unique(seen, fields) :: f in seen || f in fields
    ensures seen <= Unique(seen, fields)
    ensures forall f | f in seen || f in fields :: Managed(Unique(seen, fields), f.path)
    decreases |fields|
  {
    if fields != [] {
      var next := if HasPath(seen, fields[0].path) then seen else seen + [fields[0]];
      UniqueMeaning(next, fields[1..]);
      var all := Unique(seen, fields);
      forall f | f in seen || f in fields
        ensures Managed(all, f.path)
      {
        if f in seen {
          assert f in all;
        } else if f == fields[0] {
          var g :| g in next && g.path == f.path;
          assert g in all;
        }
      }
    } else {
      forall f | f in seen ensures Managed(Unique(seen, fields), f.path) {}
    }
  }

  /** The fields of the target type that the source type has with the same path and kind; all of them
      when the source type is unknown. */
  function Compatible<K(==)>(source: Option<seq<Field<K>>>, target: seq<Field<K>>): seq<Field<K>> {
    if target == [] then []
    else (if source.None? || target[0] in source.value then [target[0]] else []) + Compatible(source, target[1..])
  }

  /** `Map.get` on a map built from a field list: a later field of the same path wins. */
  function LastAt<K>(fields: seq<Field<K>>, path: Path): Option<Field<K>> {
    if fields == [] then None
    else
      var later := LastAt(fields[1..], path);
      if later.Some? then later
      else if fields[0].path == path then Some(fields[0]) else None
  }

  ghost predicate Shared<K>(source: Option<seq<Field<K>>>, f: Field<K>) {
    source.None? || f in source.value
  }

  /** Position `i` is the last one of the target type that lists the path with a shared field. */
  ghost predicate LastShared<K>(source: Option<seq<Field<K>>>, target: seq<Field<K>>, path: Path, i: nat) {
    i < |target| && target[i].path == path && Shared(source, target[i])
    && forall j | i < j < |target| && target[j].path == path :: !Shared(source, target[j])
  }

  /** The field that decides about a path: shared, and not overridden by a later shared one. */
  ghost predicate Decides<K>(source: Option<seq<Field<K>>>, target: seq<Field<K>>, path: Path, f: Field<K>) {
    exists i: nat :: LastShared(source, target, path, i) && target[i] == f
  }

  /** Where no path is listed twice, every shared field decides about its path. */
  lemma DecidesDistinct<K>(source: Option<seq<Field<K>>>, target: seq<Field<K>>, path: Path, f: Field<K>)
    requires DistinctPaths(target)
    ensures Decides(source, target, path, f) <==> f in target && f.path == path && Shared(source, f)
  {
    if f in target && f.path == path && Shared(source, f) {
      var i :| 0 <= i < |target| && target[i] == f;
      assert LastShared(source, target, path, i);
    }
  }

  lemma {:induction false} CompatibleLookup<K>(source: Option<seq<Field<K>>>, target: seq<Field<K>>, path: Path)
    ensures var found := LastAt(Compatible(source, target), path);
            match found
            case Some(f) => Decides(source, target, path, f)
            case None => forall f | f in target && f.path == path :: !Shared(source, f)
  {
    if target != [] {
      var rest := target[1..];
      CompatibleLookup(source, rest, path);
      var later := LastAt(Compatible(source, rest), path);
      var all := Compatible(source, target);
      if Shared(source, target[0]) {
        assert all[1..] == Compatible(source, rest) && all[0] == target[0];
      } else {
        assert all == Compatible(source, rest);
      }
      if later.Some? {
        var i: nat :| LastShared(source, rest, path, i) && rest[i] == later.value;
        forall j | i + 1 < j < |target| && target[j].path == path
          ensures !Shared(source, target[j])
        {
          assert rest[j - 1] == target[j];
        }
        assert LastShared(source, target, path, i + 1);
      } else if LastAt(all, path).Some? {
        forall j | 0 < j < |target| && target[j].path == path
          ensures !Shared(source, target[j])
        {
          assert target[j] in rest;
        }
        assert LastShared(source, target, path, 0);
      }
    }
  }

  /** Two fields cannot both decide about a path. */
  lemma DecidesUnique<K>(source: Option<seq<Field<K>>>, target: seq<Field<K>>, path: Path, f: Field<K>, g: Field<K>)
    requires Decides(source, target, path, f) && Decides(source, target, path, g)
    ensures f == g
  {
    var i: nat :| LastShared(source, target, path, i) && target[i] == f;
    var j: nat :| LastShared(source, target, path, j) && target[j] == g;
  }

  /** The map lookup finds exactly the deciding field. */
  lemma LookupDecides<K>(source: Option<seq<Field<K>>>, target: seq<Field<K>>, path: Path)
    ensures forall f :: LastAt(Compatible(source, target), path) == Some(f) <==> Decides(source, target, path, f)
  {
    CompatibleLookup(source, target, path);
    var found := LastAt(Compatible(source, target), path);
    forall f
      ensures found == Some(f) <==> Decides(source, target, path, f)
    {
      if Decides(source, target, path, f) {
        var i: nat :| LastShared(source, target, path, i) && target[i] == f;
        assert target[i] in target;
        DecidesUnique(source, target, path, f, found.value);
      }
    }
  }

  // ---- The action and the type of a rule ----

  /** `String(value ?? missing)`. How JavaScript prints a value that is not a string is left open. */
  function Text(value: Option<Json>, missing: string, show: Json -> string): string {
    if value.None? || value.value.Null? then missing
    else if value.value.Str? then value.value.s
    else show(value.value)
  }

  /** The action a rule has, as the form reads it. */
  function CurrentAction(rule: JsonObject, show: Json -> string): string {
    var explicit := Text(Get(rule, ["action"]), "", show);
    if explicit == "" then "route" else explicit
  }

  /** What is written as the action: nothing for the empty one. */
  function ActionValue(action: string): Option<Json> {
    if action == "" then None else Some(Str(action))
  }

  /** The action is explicit and the one chosen. */
  predicate IsExplicit(rule: JsonObject, action: string, show: Json -> string) {
    Text(Get(rule, ["action"]), "", show) == action && action != ""
  }

  const DEFAULT := "default"

  /** `String(rule.type ?? "default")` */
  function CurrentRuleType(rule: JsonObject, show: Json -> string): string {
    Text(Get(rule, ["type"]), DEFAULT, show)
  }

  /** What is written as the type of a rule: nothing for a default rule. */
  function RuleTypeValue(name: string): Option<Json> {
    if name == DEFAULT then None else Some(Str(name))
  }

  // ---- The fold ----

  /** Folds over managed paths, clearing each one whose value `keep` rejects. */
  function Retain(obj: JsonObject, paths: seq<Path>, keep: (Path, Option<Json>) -> bool): JsonObject
    decreases |paths|
  {
    if paths == [] then obj
    else Retain(if keep(paths[0], Get(obj, paths[0])) then obj else Clear(obj, paths[0]), paths[1..], keep)
  }

  ghost predicate PairwiseUnrelated(paths: seq<Path>) {
    forall i, j | 0 <= i < j < |paths| :: !Related(paths[i], paths[j])
  }

  lemma {:induction false} RetainFrame(obj: JsonObject, paths: seq<Path>, keep: (Path, Option<Json>) -> bool,
                                       path: Path)
    requires forall p | p in paths :: !Related(p, path)
    ensures Get(Retain(obj, paths, keep), path) == Get(obj, path)
    decreases |paths|
  {
    if paths != [] {
      assert paths[0] in paths;
      SetFrame(obj, paths[0], None, path);
      RetainFrame(if keep(paths[0], Get(obj, paths[0])) then obj else Clear(obj, paths[0]), paths[1..], keep, path);
    }
  }

  /** On pairwise unrelated paths the fold decides each path on its original value. */
  lemma {:induction false} RetainExact(obj: JsonObject, paths: seq<Path>, keep: (Path, Option<Json>) -> bool, i: nat)
    requires PairwiseUnrelated(paths) && i < |paths|
    ensures Get(Retain(obj, paths, keep), paths[i]) ==
            if keep(paths[i], Get(obj, paths[i])) then Get(obj, paths[i]) else None
    decreases |paths|
  {
    var next := if keep(paths[0], Get(obj, paths[0])) then obj else Clear(obj, paths[0]);
    if i == 0 {
      GetSet(obj, paths[0], None);
      RetainFrame(next, paths[1..], keep, paths[0]);
    } else {
      SetFrame(obj, paths[0], None, paths[i]);
      RetainExact(next, paths[1..], keep, i - 1);
    }
  }

  lemma {:induction false} RetainShrinks(obj: JsonObject, paths: seq<Path>, keep: (Path, Option<Json>) -> bool,
                                         path: Path)
    ensures var after := Get(Retain(obj, paths, keep), path);
            after.Some? ==>
              Get(obj, path).Some?
              && (after == Get(obj, path) || (after.value.Obj? && Get(obj, path).value.Obj?))
    decreases |paths|
  {
    if paths != [] {
      ClearShrinks(obj, paths[0], path);
      RetainShrinks(if keep(paths[0], Get(obj, paths[0])) then obj else Clear(obj, paths[0]), paths[1..], keep, path);
    }
  }

  /** What becomes of a text, number or list found where managed paths have an object: it stays if every
      path below it is kept though absent, and else the first clear below it deletes it. */
  lemma {:induction false} RetainRoot(obj: JsonObject, paths: seq<Path>, keep: (Path, Option<Json>) -> bool,
                                      root: string)
    requires Get(obj, [root]).Some? && !Get(obj, [root]).value.Obj?
    requires forall p | p in paths && p[0] == root :: |p| > 1
    ensures Get(Retain(obj, paths, keep), [root]) ==
            if forall p | p in paths && p[0] == root :: keep(p, None) then Get(obj, [root]) else None
    decreases |paths|
  {
    if paths != [] {
      var first, rest := paths[0], paths[1..];
      assert first in paths && forall p | p in rest :: p in paths;
      assert forall p | p in paths :: p == first || p in rest;
      if first[0] != root {
        SetFrame(obj, first, None, [root]);
        RetainRoot(if keep(first, Get(obj, first)) then obj else Clear(obj, first), rest, keep, root);
      } else if keep(first, None) {
        assert Get(obj, first) == None;
        RetainRoot(obj, rest, keep, root);
      } else {
        assert Get(obj, first) == None;
        ClearEmpty(first[1..]);
        assert Get(Clear(obj, first), [root]) == None;
        RetainShrinks(Clear(obj, first), rest, keep, [root]);
      }
    }
  }

  function Paths<K>(fields: seq<Field<K>>): (paths: seq<Path>)
    ensures |paths| == |fields|
    ensures forall i | 0 <= i < |fields| :: paths[i] == fields[i].path
  {
    if fields == [] then [] else [fields[0].path] + Paths(fields[1..])
  }

  lemma UniqueUnrelated<K>(all: seq<Field<K>>)
    requires PrefixFree(all)
    ensures PairwiseUnrelated(Paths(Unique([], all)))
  {
    UniqueMeaning([], all);
    var fields := Unique([], all);
    forall i, j | 0 <= i < j < |fields|
      ensures !Related(fields[i].path, fields[j].path)
    {
      assert fields[i] in fields && fields[j] in fields;
    }
  }

  lemma UniqueIndex<K>(all: seq<Field<K>>, path: Path) returns (i: nat)
    requires Managed(all, path)
    ensures i < |Paths(Unique([], all))| && Paths(Unique([], all))[i] == path
  {
    UniqueMeaning([], all);
    var g :| g in all && g.path == path;
    var f :| f in Unique([], all) && f.path == path;
    i :| 0 <= i < |Unique([], all)| && Unique([], all)[i] == f;
  }

  /** The fold over the unique fields of a prefix-free registry, stated for paths. */
  lemma {:induction false} RetainManaged<K>(obj: JsonObject, all: seq<Field<K>>,
                                            keep: (Path, Option<Json>) -> bool, path: Path)
    requires PrefixFree(all)
    ensures var result := Retain(obj, Paths(Unique([], all)), keep);
            (Managed(all, path) ==>
               Get(result, path) == if keep(path, Get(obj, path)) then Get(obj, path) else None)
            && ((forall f | f in all :: !Related(f.path, path)) ==> Get(result, path) == Get(obj, path))
  {
    UniqueMeaning([], all);
    var fields := Unique([], all);
    var paths := Paths(fields);
    if Managed(all, path) {
      UniqueUnrelated(all);
      var i := UniqueIndex(all, path);
      RetainExact(obj, paths, keep, i);
    }
    if forall f | f in all :: !Related(f.path, path) {
      RetainFrame(obj, paths, keep, path);
    }
  }
}

/** `transitionCleanupFields`: the guarded type transition of DNS servers, rules and actions. */
module DnsFormCleanup {
  import opened Wrappers
  import opened Json
  import opened DottedPath
  import opened PolicyPath
  import opened FieldTransition

  datatype Kind =
    | KString | KBoolean | KNumber | KList | KNumberList | KObject | KArray | KQueryType | KRCode | KRoutingMark

  type CleanupField = Field<Kind>

  /** A registry in key order. Keys are distinct: it is an object literal. */
  type Registry = seq<(string, seq<CleanupField>)>

  /** `share` is false only when the caller disabled sharing; `undefined` counts as true. */
  datatype Change = Change(current: string, target: string, share: bool)

  const MAX_SAFE_INTEGER := 9007199254740991.0

  predicate ValidInteger(value: Json, maximum: real) {
    value.Num? && value.n == value.n.Floor as real && 0.0 <= value.n <= maximum
  }

  predicate StringOr(value: Json, maximum: real) {
    value.Str? || ValidInteger(value, maximum)
  }

  /** `matchesField`; a missing kind means "string". */
  predicate Fits(value: Json, kind: Option<Kind>) {
    match (if kind.Some? then kind.value else KString)
    case KQueryType =>
      StringOr(value, 65535.0) || (value.Arr? && forall item | item in value.items :: StringOr(item, 65535.0))
    case KRCode => StringOr(value, 4095.0)
    case KRoutingMark => StringOr(value, 4294967295.0)
    case KBoolean => value.Bool?
    case KNumber => ValidInteger(value, MAX_SAFE_INTEGER)
    case KList => value.Str? || (value.Arr? && forall item | item in value.items :: item.Str?)
    case KNumberList =>
      ValidInteger(value, MAX_SAFE_INTEGER)
      || (value.Arr? && forall item | item in value.items :: ValidInteger(item, MAX_SAFE_INTEGER))
    case KObject => value.Obj?
    case KArray => value.Arr?
    case KString => value.Str?
  }

  /** `registry[type]` */
  function Lookup(registry: Registry, name: string): Option<seq<CleanupField>> {
    if registry == [] then None
    else if registry[0].0 == name then Some(registry[0].1)
    else Lookup(registry[1..], name)
  }

  /** `Object.hasOwn` */
  predicate HasOwn(registry: Registry, name: string) {
    exists i | 0 <= i < |registry| :: registry[i].0 == name
  }

  function GroupOf(registry: Registry, name: string): seq<CleanupField> {
    var found := Lookup(registry, name);
    if found.Some? then found.value else []
  }

  function Groups(registry: Registry): seq<seq<CleanupField>> {
    if registry == [] then [] else [registry[0].1] + Groups(registry[1..])
  }

  /** Every field of the registry, group after group. */
  function AllFields(registry: Registry): seq<CleanupField> {
    Flatten(Groups(registry))
  }

  function CompatibleFields(registry: Registry, change: Change): seq<CleanupField> {
    if !change.share then []
    else Compatible(Lookup(registry, change.current), GroupOf(registry, change.target))
  }

  /** `field[0].startsWith("domain_resolver.")` */
  predicate BelowResolver(path: Path) {
    |path| >= 2 && path[0] == RESOLVER_KEY
  }

  predicate SupportsDomainResolver(registry: Registry, name: string) {
    exists i | 0 <= i < |GroupOf(registry, name)| :: BelowResolver(GroupOf(registry, name)[i].path)
  }

  predicate AnySupportsDomainResolver(registry: Registry) {
    exists i | 0 <= i < |registry| :: SupportsDomainResolver(registry, registry[i].0)
  }

  function PrepareDomainResolverRoot(obj: JsonObject, registry: Registry, change: Change): JsonObject {
    if !AnySupportsDomainResolver(registry) then obj
    else if RESOLVER_KEY !in obj || obj[RESOLVER_KEY].Obj? then obj
    else if obj[RESOLVER_KEY].Str? && SupportsDomainResolver(registry, change.target) then obj
    else Clear(obj, [RESOLVER_KEY])
  }

  /** The reducer's decision on one managed path. */
  predicate Keeps(compatible: seq<CleanupField>, path: Path, value: Option<Json>) {
    value == None
    || (var target := LastAt(compatible, path); target.Some? && Fits(value.value, target.value.kind))
  }

  function Transition(obj: JsonObject, registry: Registry, change: Change): JsonObject {
    var compatible := CompatibleFields(registry, change);
    var prepared := PrepareDomainResolverRoot(obj, registry, change);
    Retain(prepared, Paths(Unique([], AllFields(registry))),
           (path: Path, value: Option<Json>) => Keeps(compatible, path, value))
  }

  /** The rule the transition is meant to follow, read off the registry. */
  ghost predicate Survives(registry: Registry, change: Change, path: Path, value: Json) {
    change.share
    && exists f ::
         Decides(Lookup(registry, change.current), GroupOf(registry, change.target), path, f) && Fits(value, f.kind)
  }

  lemma {:induction false} LookupMember(registry: Registry, name: string)
    ensures forall f | f in GroupOf(registry, name) :: f in AllFields(registry)
  {
    if registry != [] {
      LookupMember(registry[1..], name);
      assert Groups(registry)[1..] == Groups(registry[1..]);
      assert AllFields(registry) == registry[0].1 + AllFields(registry[1..]);
    }
  }

  /** Preparing the resolver root touches nothing but a scalar or array found there. */
  lemma PreparedRoot(obj: JsonObject, registry: Registry, change: Change, path: Path)
    requires PrefixFree(AllFields(registry))
    requires Managed(AllFields(registry), path) || forall f | f in AllFields(registry) :: !Related(f.path, path)
    ensures Get(PrepareDomainResolverRoot(obj, registry, change), path) == Get(obj, path)
  {
    if PrepareDomainResolverRoot(obj, registry, change) != obj {
      var i :| 0 <= i < |registry| && SupportsDomainResolver(registry, registry[i].0);
      LookupMember(registry, registry[i].0);
      var group := GroupOf(registry, registry[i].0);
      var j :| 0 <= j < |group| && BelowResolver(group[j].path);
      assert group[j] in AllFields(registry);
      if path[0] == RESOLVER_KEY {
        if |path| == 1 {
          assert Related(group[j].path, path);
        }
      } else {
        SetFrame(obj, [RESOLVER_KEY], None, path);
      }
    }
  }

  /** A type transition is exact: a managed path survives if and only if the target type has it with the
      kind it had in the source type (any kind when the source type is unknown), sharing is not
      disabled, and its value fits the kind. Surviving values and all unrelated paths are unchanged. */
  lemma {:induction false} TransitionExact(obj: JsonObject, registry: Registry, change: Change, path: Path)
    requires PrefixFree(AllFields(registry))
    ensures var result := Transition(obj, registry, change);
            (Managed(AllFields(registry), path) ==>
               Get(result, path) ==
               if Get(obj, path).Some? && Survives(registry, change, path, Get(obj, path).value)
               then Get(obj, path) else None)
            && ((forall f | f in AllFields(registry) :: !Related(f.path, path)) ==>
                  Get(result, path) == Get(obj, path))
  {
    var all := AllFields(registry);
    var compatible := CompatibleFields(registry, change);
    var prepared := PrepareDomainResolverRoot(obj, registry, change);
    RetainManaged(prepared, all, (p: Path, value: Option<Json>) => Keeps(compatible, p, value), path);
    if Managed(all, path) || forall f | f in all :: !Related(f.path, path) {
      PreparedRoot(obj, registry, change, path);
      var target := GroupOf(registry, change.target);
      LookupMember(registry, change.target);
      if change.share {
        LookupDecides(Lookup(registry, change.current), target, path);
        assert LastAt(compatible, path) == None || LastAt(compatible, path) == Some(LastAt(compatible, path).value);
      }
    }
  }

  /** After a transition a resolver root that some type understands is absent, an object, or a plain
      server name that the target type accepts. */
  lemma {:induction false} ResolverRootAfter(obj: JsonObject, registry: Registry, change: Change)
    requires AnySupportsDomainResolver(registry)
    ensures var root := Get(Transition(obj, registry, change), [RESOLVER_KEY]);
            root == None || root.value.Obj?
            || (root.value.Str? && SupportsDomainResolver(registry, change.target))
  {
    var prepared := PrepareDomainResolverRoot(obj, registry, change);
    GetSet(obj, [RESOLVER_KEY], None);
    var compatible := CompatibleFields(registry, change);
    RetainShrinks(prepared, Paths(Unique([], AllFields(registry))),
                  (path: Path, value: Option<Json>) => Keeps(compatible, path, value), [RESOLVER_KEY]);
  }
}

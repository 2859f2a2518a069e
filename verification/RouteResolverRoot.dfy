/** What a change of the action of a route rule does to the resolver root itself: the rule may hold the plain
    name of a server there, where the form has an object. */
module RouteResolverRoot {
  import opened Wrappers
  import opened Json
  import opened DottedPath
  import opened PolicyPath
  import opened FieldTransition
  import opened RouteFields
  import opened RouteFormModel

  ghost predicate NoResolver(fields: seq<RouteField>) {
    forall f | f in fields :: f.path[0] != RESOLVER_KEY
  }

  /** The resolver fields among these are all fields of the direct action. */
  ghost predicate ResolvesWithin(fields: seq<RouteField>, direct: seq<RouteField>) {
    forall f | f in fields && f.path[0] == RESOLVER_KEY :: f in direct
  }

  lemma OptionsDoNotResolve()
    ensures NoResolver(OPTION_FIELDS) && NoResolver([Of("outbound", KRef)])
  {}

  lemma OthersDoNotResolve()
    ensures NoResolver(REJECT_FIELDS) && NoResolver(SNIFF_FIELDS) && NoResolver(RESOLVE_FIELDS)
  {}

  lemma NoResolverConcat(a: seq<RouteField>, b: seq<RouteField>)
    requires NoResolver(a) && NoResolver(b)
    ensures NoResolver(a + b)
  {}

  lemma RoutesDoNotResolve()
    ensures NoResolver(ROUTE_FIELDS)
  {
    OptionsDoNotResolve();
    NoResolverConcat([Of("outbound", KRef)], OPTION_FIELDS);
  }

  /** Only a direct action has resolver fields. */
  lemma OnlyDirectResolves(action: string)
    requires action != "direct"
    ensures ActionFields(action).None? || NoResolver(ActionFields(action).value)
  {
    OptionsDoNotResolve();
    OthersDoNotResolve();
    RoutesDoNotResolve();
  }

  lemma WithinConcat(a: seq<RouteField>, b: seq<RouteField>, direct: seq<RouteField>)
    requires ResolvesWithin(a, direct) && ResolvesWithin(b, direct)
    ensures ResolvesWithin(a + b, direct)
  {}

  lemma FlattenOne(group: seq<RouteField>, rest: seq<seq<RouteField>>)
    ensures Flatten([group] + rest) == group + Flatten(rest)
  {
    assert ([group] + rest)[1..] == rest;
  }

  /** A group without resolver fields, or the direct one, in front of others. */
  lemma WithinStep(group: seq<RouteField>, rest: seq<seq<RouteField>>, direct: seq<RouteField>)
    requires ResolvesWithin(Flatten(rest), direct) && (NoResolver(group) || group == direct)
    ensures ResolvesWithin(Flatten([group] + rest), direct)
    ensures forall f | f in Flatten(rest) || f in group :: f in Flatten([group] + rest)
  {
    FlattenOne(group, rest);
    WithinConcat(group, Flatten(rest), direct);
  }

  lemma GroupsWithin(route: seq<RouteField>, option: seq<RouteField>, direct: seq<RouteField>,
                     reject: seq<RouteField>, sniff: seq<RouteField>, resolve: seq<RouteField>)
    requires NoResolver(route) && NoResolver(option) && NoResolver(reject) && NoResolver(sniff) && NoResolver(resolve)
    ensures var all := Flatten([route, option, direct, route, reject, [], sniff, resolve]);
            ResolvesWithin(all, direct) && forall f | f in direct :: f in all
  {
    var none: seq<RouteField> := [];
    var a := [resolve] + [];
    var b := [sniff] + a;
    var c := [none] + b;
    var d := [reject] + c;
    var e := [route] + d;
    var f := [direct] + e;
    var g := [option] + f;
    WithinStep(resolve, [], direct);
    WithinStep(sniff, a, direct);
    WithinStep(none, b, direct);
    WithinStep(reject, c, direct);
    WithinStep(route, d, direct);
    WithinStep(direct, e, direct);
    WithinStep(option, f, direct);
    WithinStep(route, g, direct);
    assert [route] + g == [route, option, direct, route, reject, none, sniff, resolve];
  }

  const SERVER_FIELD: RouteField := Below("server", Some(KRef))

  lemma ServerIsDirect()
    ensures SERVER_FIELD in DIRECT_FIELDS
  {
    assert RESOLVER_FIELDS[3] == SERVER_FIELD;
    InSum(BIND_FIELDS, RESOLVER_FIELDS, 3);
  }

  lemma InSum(a: seq<RouteField>, b: seq<RouteField>, i: nat)
    requires i < |b|
    ensures b[i] in a + b
  {}

  lemma ActionsResolve()
    ensures ResolvesWithin(Flatten(ACTION_GROUPS), DIRECT_FIELDS) && SERVER_FIELD in Flatten(ACTION_GROUPS)
  {
    OptionsDoNotResolve();
    OthersDoNotResolve();
    RoutesDoNotResolve();
    ServerIsDirect();
    GroupsWithin(ROUTE_FIELDS, OPTION_FIELDS, DIRECT_FIELDS, REJECT_FIELDS, SNIFF_FIELDS, RESOLVE_FIELDS);
  }

  /** The known fields below the resolver root: fields of the direct action, one of them at the path. */
  ghost predicate KnownResolver(known: seq<RouteField>, direct: seq<RouteField>, path: Path) {
    ResolvesWithin(known, direct) && HasPath(known, path) && path[0] == RESOLVER_KEY
  }

  lemma KnownOfAll(all: seq<RouteField>, matches: seq<RouteField>, direct: seq<RouteField>, f: RouteField)
    requires ResolvesWithin(all, direct) && MatchShaped(matches) && f in all && f.path[0] == RESOLVER_KEY
    ensures KnownResolver(Without(Unique([], all), matches), direct, f.path)
  {
    UniqueFacts(all);
    var g :| g in Unique([], all) && g.path == f.path;
    assert !HasPath(matches, f.path);
    assert g in Without(Unique([], all), matches);
  }

  lemma KnownActionsResolve()
    ensures KnownResolver(KnownActionFields(), DIRECT_FIELDS, SERVER_FIELD.path)
  {
    ActionsResolve();
    MatchShapes();
    KnownOfAll(Flatten(ACTION_GROUPS), MATCH_FIELDS, DIRECT_FIELDS, SERVER_FIELD);
  }

  /** A path that the target lists is kept though absent if the source type is unknown; none is kept that
      the target or the known source does not list. */
  lemma KeptAbsent(source: Option<seq<RouteField>>, target: seq<RouteField>, path: Path)
    ensures source.None? && HasPath(target, path) ==> Keeps(Compatible(source, target), path, None)
    ensures Keeps(Compatible(source, target), path, None) ==>
              HasPath(target, path) && (source.Some? ==> HasPath(source.value, path))
  {
    LookupDecides(source, target, path);
    CompatibleLookup(source, target, path);
    var found := LastAt(Compatible(source, target), path);
    if found.Some? {
      assert Decides(source, target, path, found.value);
      if source.Some? {
        var i :| 0 <= i < |source.value| && source.value[i] == found.value;
      }
    }
    if source.None? && HasPath(target, path) {
      var i :| 0 <= i < |target| && target[i].path == path;
      assert target[i] in target && Shared(source, target[i]);
    }
  }

  lemma NoResolverPath(fields: seq<RouteField>, path: Path)
    requires NoResolver(fields) && path[0] == RESOLVER_KEY
    ensures !HasPath(fields, path)
  {}

  /** The transition keeps a plain root if and only if the target is direct and the source type unknown. */
  lemma TransitionRoot(rule: JsonObject, known: seq<RouteField>, direct: seq<RouteField>, path: Path,
                       source: Option<seq<RouteField>>, target: Option<seq<RouteField>>)
    requires Get(rule, [RESOLVER_KEY]).Some? && !Get(rule, [RESOLVER_KEY]).value.Obj?
    requires Shaped(known) && KnownResolver(known, direct, path)
    requires target == Some(direct) || target.None? || NoResolver(target.value)
    requires source.None? || NoResolver(source.value) || target.None? || NoResolver(target.value)
    requires target == Some(direct) ==> !NoResolver(direct)
    ensures Get(TransitionFields(rule, known, source, target), [RESOLVER_KEY]) ==
            if target == Some(direct) && source.None? then Get(rule, [RESOLVER_KEY]) else None
  {
    var fields := if target.Some? then target.value else [];
    var compatible := Compatible(source, fields);
    var keep := (p: Path, value: Option<Json>) => Keeps(compatible, p, value);
    var paths := Paths(known);
    forall p | p in paths && p[0] == RESOLVER_KEY
      ensures |p| > 1
      ensures target == Some(direct) && source.None? ==> keep(p, None)
    {
      var i :| 0 <= i < |paths| && paths[i] == p;
      assert known[i] in known && known[i].path == p && ActionShape(p);
      var j :| 0 <= j < |direct| && direct[j] == known[i];
      KeptAbsent(source, fields, p);
    }
    RetainRoot(rule, paths, keep, RESOLVER_KEY);
    if !(target == Some(direct) && source.None?) {
      var i :| 0 <= i < |known| && known[i].path == path;
      assert paths[i] == path;
      KeptAbsent(source, fields, path);
      if target.None? || NoResolver(target.value) {
        NoResolverPath(fields, path);
      } else {
        NoResolverPath(source.value, path);
      }
      assert !keep(paths[i], None);
    }
  }

  lemma RootOutcome(rule: JsonObject, present: bool, known: seq<RouteField>, direct: seq<RouteField>, path: Path,
                    source: Option<seq<RouteField>>, target: Option<seq<RouteField>>, value: Option<Json>)
    requires Get(rule, [RESOLVER_KEY]).Some? && !Get(rule, [RESOLVER_KEY]).value.Obj?
    requires Shaped(known) && KnownResolver(known, direct, path)
    requires target == Some(direct) || target.None? || NoResolver(target.value)
    requires present || source.None? || NoResolver(source.value) || target.None? || NoResolver(target.value)
    requires target == Some(direct) ==> !NoResolver(direct)
    ensures Get(Chosen(rule, present, known, source, target, "action", value), [RESOLVER_KEY]) ==
            if present || (target == Some(direct) && source.None?) then Get(rule, [RESOLVER_KEY]) else None
  {
    if !present {
      TransitionRoot(rule, known, direct, path, source, target);
      SetFrame(TransitionFields(rule, known, source, target), ["action"], value, [RESOLVER_KEY]);
    }
  }

  lemma DirectResolves()
    ensures !NoResolver(DIRECT_FIELDS)
  {
    ServerIsDirect();
    HasResolver(DIRECT_FIELDS, SERVER_FIELD);
  }

  lemma HasResolver(fields: seq<RouteField>, f: RouteField)
    requires f in fields && f.path[0] == RESOLVER_KEY
    ensures !NoResolver(fields)
  {}

  lemma OnlyDirectIsDirect(action: string)
    ensures ActionFields(action) == Some(DIRECT_FIELDS) <==> action == "direct"
  {
    if action != "direct" {
      OnlyDirectResolves(action);
      DirectResolves();
    }
  }

  lemma SourceOrTargetDoesNotResolve(rule: JsonObject, action: string, show: Json -> string)
    ensures var source, target := ActionFields(CurrentAction(rule, show)), ActionFields(action);
            (target == Some(DIRECT_FIELDS) || target.None? || NoResolver(target.value))
            && (IsExplicit(rule, action, show) || source.None? || NoResolver(source.value)
                || target.None? || NoResolver(target.value))
  {
    if action != "direct" {
      OnlyDirectResolves(action);
    } else if !IsExplicit(rule, action, show) {
      OnlyDirectResolves(CurrentAction(rule, show));
    }
  }

  /** A plain server name (or anything else that is no object) at the resolver root survives a change of the
      action only if nothing changes, or if an unknown action is replaced by a direct one. */
  lemma {:induction false} ChangeRouteActionRoot(rule: JsonObject, action: string, show: Json -> string)
    requires Get(rule, [RESOLVER_KEY]).Some? && !Get(rule, [RESOLVER_KEY]).value.Obj?
    ensures Get(ChangeRouteAction(rule, action, show), [RESOLVER_KEY]) ==
            if IsExplicit(rule, action, show) || (action == "direct" && ActionFields(CurrentAction(rule, show)).None?)
            then Get(rule, [RESOLVER_KEY]) else None
  {
    KnownActionShape();
    KnownActionsResolve();
    OnlyDirectIsDirect(action);
    DirectResolves();
    SourceOrTargetDoesNotResolve(rule, action, show);
    RootOutcome(rule, IsExplicit(rule, action, show), KnownActionFields(), DIRECT_FIELDS, SERVER_FIELD.path,
                ActionFields(CurrentAction(rule, show)), ActionFields(action), ActionValue(action));
  }
}

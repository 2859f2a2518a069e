/** Changing the type of a DNS server, told by the types themselves: the type is read off the object and given
    by name, and what a kind asks for is said in values. */
module DnsServerTypes {
  import opened Wrappers
  import opened Json
  import opened DottedPath
  import opened PolicyPath
  import opened FieldTransition
  import opened DnsFormCleanup
  import opened DnsRegistries
  import opened DnsFormModel

  /** The types other than the legacy one. */
  predicate IsModern(name: string) {
    || name == "local" || name == "hosts" || name == "udp" || name == "tcp" || name == "tls" || name == "quic"
    || name == "https" || name == "h3" || name == "dhcp" || name == "fakeip"
  }

  lemma KnownTypes(name: string)
    ensures HasOwn(DNS_SERVERS, name) <==> IsModern(name) || name == "legacy"
  {
    assert DNS_SERVERS[0].0 == "legacy" && DNS_SERVERS[1].0 == "local" && DNS_SERVERS[2].0 == "hosts";
    assert DNS_SERVERS[3].0 == "udp" && DNS_SERVERS[4].0 == "tcp" && DNS_SERVERS[5].0 == "tls";
    assert DNS_SERVERS[6].0 == "quic" && DNS_SERVERS[7].0 == "https" && DNS_SERVERS[8].0 == "h3";
    assert DNS_SERVERS[9].0 == "dhcp" && DNS_SERVERS[10].0 == "fakeip" && |DNS_SERVERS| == 11;
  }

  lemma NotShared(obj: JsonObject, result: JsonObject, registry: Registry, change: Change, key: string,
                  value: Option<Json>, path: Path)
    requires Outcome(obj, result, false, registry, change, key, value, path) && !change.share
    ensures Managed(AllFields(registry), path) ==> Get(result, path) == None
    ensures Get(result, [key]) == value
  {}

  /** Nothing is shared with a legacy server: every path of the registry is gone after a change from it. */
  lemma {:induction false} FromLegacyClearsAll(server: JsonObject, name: string, path: Path)
    requires Get(server, ["type"]).None? || !Get(server, ["type"]).value.Str?
             || Get(server, ["type"]).value.s in {"", "legacy"}
    requires IsModern(name)
    ensures Managed(AllFields(DNS_SERVERS), path) ==> Get(ChangeDNSServerType(server, name), path) == None
    ensures Get(ChangeDNSServerType(server, name), ["type"]) == Some(Str(name))
  {
    KnownTypes("legacy");
    KnownTypes(name);
    ChangeDNSServerTypeExact(server, name, path);
    NotShared(server, ChangeDNSServerType(server, name), DNS_SERVERS,
              ServerChange(InferDNSServerType(server), name), "type", TypeValue(name), path);
  }

  /** And after a change to it, which also removes the type. */
  lemma {:induction false} ToLegacyClearsAll(server: JsonObject, current: string, path: Path)
    requires Get(server, ["type"]) == Some(Str(current))
    requires IsModern(current)
    ensures Managed(AllFields(DNS_SERVERS), path) ==> Get(ChangeDNSServerType(server, "legacy"), path) == None
    ensures Get(ChangeDNSServerType(server, "legacy"), ["type"]) == None
  {
    KnownTypes("legacy");
    KnownTypes(current);
    ChangeDNSServerTypeExact(server, "legacy", path);
    NotShared(server, ChangeDNSServerType(server, "legacy"), DNS_SERVERS,
              ServerChange(InferDNSServerType(server), "legacy"), "type", TypeValue("legacy"), path);
  }

  // ---- What a kind asks for ----

  function NumOf(n: nat): Json {
    Num(n as real)
  }

  ghost predicate StringOrUpTo(value: Json, maximum: nat) {
    (exists s :: value == Str(s)) || exists n: nat :: n <= maximum && value == NumOf(n)
  }

  ghost predicate UpTo(value: Json, maximum: nat) {
    exists n: nat :: n <= maximum && value == NumOf(n)
  }

  /** The values that a kind stands for, written down as values. */
  ghost predicate HasKind(value: Json, kind: Option<Kind>) {
    match kind
    case None => exists s :: value == Str(s)
    case Some(KString) => exists s :: value == Str(s)
    case Some(KBoolean) => value in {Bool(true), Bool(false)}
    case Some(KNumber) => UpTo(value, 9007199254740991)
    case Some(KList) =>
      (exists s :: value == Str(s))
      || exists items: seq<Json> :: value == Arr(items) && forall item | item in items :: item.Str?
    case Some(KNumberList) =>
      UpTo(value, 9007199254740991)
      || exists items: seq<Json> :: value == Arr(items) && forall item | item in items :: UpTo(item, 9007199254740991)
    case Some(KObject) => exists fields :: value == Obj(fields)
    case Some(KArray) => exists items :: value == Arr(items)
    case Some(KQueryType) =>
      StringOrUpTo(value, 65535)
      || exists items: seq<Json> :: value == Arr(items) && forall item | item in items :: StringOrUpTo(item, 65535)
    case Some(KRCode) => StringOrUpTo(value, 4095)
    case Some(KRoutingMark) => StringOrUpTo(value, 4294967295)
  }

  lemma ValidIntegerIff(value: Json, maximum: nat)
    ensures ValidInteger(value, maximum as real) <==> UpTo(value, maximum)
  {
    if ValidInteger(value, maximum as real) {
      var n: nat := value.n.Floor;
      assert value == NumOf(n);
    }
  }

  lemma StringOrIff(value: Json, maximum: nat)
    ensures StringOr(value, maximum as real) <==> StringOrUpTo(value, maximum)
  {
    ValidIntegerIff(value, maximum);
    if value.Str? {
      assert value == Str(value.s);
    }
  }

  /** A value fits a kind if and only if it is one of the values the kind stands for. */
  lemma {:induction false} FitsIff(value: Json, kind: Option<Kind>)
    ensures Fits(value, kind) <==> HasKind(value, kind)
  {
    ValidIntegerIff(value, 9007199254740991);
    StringOrIff(value, 65535);
    StringOrIff(value, 4095);
    StringOrIff(value, 4294967295);
    forall item: Json
      ensures ValidInteger(item, MAX_SAFE_INTEGER) <==> UpTo(item, 9007199254740991)
      ensures StringOr(item, 65535.0) <==> StringOrUpTo(item, 65535)
    {
      ValidIntegerIff(item, 9007199254740991);
      StringOrIff(item, 65535);
    }
    if value.Arr? {
      assert value == Arr(value.items);
    } else if value.Str? {
      assert value == Str(value.s);
    } else if value.Obj? {
      assert value == Obj(value.fields);
    }
  }

  /** The survival rule of a transition with kinds as sets of values. */
  ghost predicate Allows(registry: Registry, current: string, target: string, path: Path, value: Json) {
    exists f :: Decides(Lookup(registry, current), GroupOf(registry, target), path, f) && HasKind(value, f.kind)
  }

  lemma SurvivesIff(registry: Registry, change: Change, path: Path, value: Json)
    ensures Survives(registry, change, path, value) <==>
            change.share && Allows(registry, change.current, change.target, path, value)
  {
    forall f: CleanupField
      ensures Fits(value, f.kind) <==> HasKind(value, f.kind)
    {
      FitsIff(value, f.kind);
    }
  }

  lemma SharedOutcome(obj: JsonObject, result: JsonObject, registry: Registry, change: Change, key: string,
                      value: Option<Json>, path: Path)
    requires Outcome(obj, result, false, registry, change, key, value, path) && change.share
    ensures Managed(AllFields(registry), path) ==>
              Get(result, path) ==
              if Get(obj, path).Some? && Allows(registry, change.current, change.target, path, Get(obj, path).value)
              then Get(obj, path) else None
    ensures (forall f | f in AllFields(registry) :: !Related(f.path, path)) && path[0] != key ==>
              Get(result, path) == Get(obj, path)
  {
    if Get(obj, path).Some? {
      SurvivesIff(registry, change, path, Get(obj, path).value);
    }
  }

  lemma ChangeShares(current: string, name: string)
    requires current == "legacy" ==> !IsModern(name)
    requires name == "legacy" ==> !IsModern(current)
    requires current != name
    ensures ServerChange(current, name) == Change(current, name, true)
  {
    KnownTypes(current);
    KnownTypes(name);
  }

  /** Between any two other types a path is judged by the fields of the two types alone. */
  lemma {:induction false} SharedTypesJudgeByFields(server: JsonObject, current: string, name: string, path: Path)
    requires current ==
             if Get(server, ["type"]).Some? && Get(server, ["type"]).value.Str? && Get(server, ["type"]).value.s != ""
             then Get(server, ["type"]).value.s else "legacy"
    requires current != name
    requires current == "legacy" ==> !IsModern(name)
    requires name == "legacy" ==> !IsModern(current)
    requires Managed(AllFields(DNS_SERVERS), path)
    ensures Get(ChangeDNSServerType(server, name), path) ==
            if Get(server, path).Some? && Allows(DNS_SERVERS, current, name, path, Get(server, path).value)
            then Get(server, path) else None
  {
    ChangeShares(current, name);
    ServerTypeIsChosen(server, name);
    SharedChosen(server, Change(current, name, true), TypeValue(name), path);
  }

  lemma SharedChosen(server: JsonObject, change: Change, value: Option<Json>, path: Path)
    requires change.share && Managed(AllFields(DNS_SERVERS), path)
    ensures Get(Chosen(server, false, DNS_SERVERS, change, "type", value), path) ==
            if Get(server, path).Some?
               && Allows(DNS_SERVERS, change.current, change.target, path, Get(server, path).value)
            then Get(server, path) else None
  {
    ServerOutcome(server, false, change, value, path);
    SharedOutcome(server, Chosen(server, false, DNS_SERVERS, change, "type", value), DNS_SERVERS, change, "type",
                  value, path);
  }

  lemma OnlyListing(source: Option<seq<CleanupField>>, target: seq<CleanupField>, path: Path, f: CleanupField)
    requires f in target && f.path == path && Shared(source, f)
    requires forall g | g in target && g.path == path :: g == f
    ensures Decides(source, target, path, f)
  {
    CompatibleLookup(source, target, path);
  }

  /** In particular a path that both types list with one kind keeps a value of that kind. */
  lemma {:induction false} ListedInBothKeeps(server: JsonObject, current: string, name: string, f: CleanupField)
    requires Get(server, ["type"]) == Some(Str(current)) && current != "" && current != name
    requires current == "legacy" ==> !IsModern(name)
    requires name == "legacy" ==> !IsModern(current)
    requires f in GroupOf(DNS_SERVERS, name) && forall g | g in GroupOf(DNS_SERVERS, name) && g.path == f.path :: g == f
    requires Lookup(DNS_SERVERS, current).None? || f in GroupOf(DNS_SERVERS, current)
    requires Get(server, f.path).Some? && HasKind(Get(server, f.path).value, f.kind)
    ensures Get(ChangeDNSServerType(server, name), f.path) == Get(server, f.path)
  {
    OnlyListing(Lookup(DNS_SERVERS, current), GroupOf(DNS_SERVERS, name), f.path, f);
    LookupMember(DNS_SERVERS, name);
    SharedTypesJudgeByFields(server, current, name, f.path);
  }

  // ---- The resolver root ----

  ghost predicate Resolves(fields: seq<CleanupField>) {
    exists j :: 0 <= j < |fields| && BelowResolver(fields[j].path)
  }

  lemma ResolvesConcat(a: seq<CleanupField>, b: seq<CleanupField>)
    requires Resolves(a) || Resolves(b)
    ensures Resolves(a + b)
  {
    if Resolves(a) {
      var j :| 0 <= j < |a| && BelowResolver(a[j].path);
      assert (a + b)[j] == a[j];
    } else {
      var j :| 0 <= j < |b| && BelowResolver(b[j].path);
      assert (a + b)[|a| + j] == b[j];
    }
  }

  lemma DialersResolve()
    ensures Resolves(DIALER_FIELDS) && Resolves(LOCAL_FIELDS) && Resolves(REMOTE_FIELDS)
  {
    assert BelowResolver(RESOLVER_FIELDS[0].path);
    ResolvesConcat(BIND_FIELDS + KEEP_ALIVE_FIELDS, RESOLVER_FIELDS);
    ResolvesConcat(BIND_FIELDS + KEEP_ALIVE_FIELDS + RESOLVER_FIELDS, NETWORK_FIELDS);
    ResolvesConcat(DIALER_FIELDS, [Of("prefer_go", KBoolean)]);
    ResolvesConcat(SERVER_FIELDS, DIALER_FIELDS);
  }

  lemma OthersResolve()
    ensures Resolves(SECURE_FIELDS) && Resolves(HTTPS_FIELDS) && Resolves(DHCP_FIELDS)
  {
    DialersResolve();
    ResolvesConcat(REMOTE_FIELDS, TLS_FIELDS);
    ResolvesConcat(SECURE_FIELDS, HTTP_FIELDS);
    ResolvesConcat(LOCAL_FIELDS, [Plain("interface")]);
  }

  lemma RestDoesNotResolve()
    ensures !Resolves(LEGACY_FIELDS) && !Resolves(HOSTS_FIELDS) && !Resolves(FAKEIP_FIELDS)
  {}

  /** The types of servers that are reached by dialing. */
  predicate IsDialing(name: string) {
    || name == "local" || name == "udp" || name == "tcp" || name == "tls" || name == "quic" || name == "https"
    || name == "h3" || name == "dhcp"
  }

  lemma {:induction false} FoundAt(registry: Registry, name: string, i: nat)
    requires i < |registry| && registry[i].0 == name && forall j | 0 <= j < i :: registry[j].0 != name
    ensures GroupOf(registry, name) == registry[i].1
  {
    if i > 0 {
      FoundAt(registry[1..], name, i - 1);
    }
  }

  lemma {:induction false} NotFound(registry: Registry, name: string)
    requires forall j | 0 <= j < |registry| :: registry[j].0 != name
    ensures GroupOf(registry, name) == []
  {
    if registry != [] {
      NotFound(registry[1..], name);
    }
  }

  lemma ElevenTypes(name: string, legacy: seq<CleanupField>, local: seq<CleanupField>, hosts: seq<CleanupField>,
                    remote: seq<CleanupField>, secure: seq<CleanupField>, https: seq<CleanupField>,
                    dhcp: seq<CleanupField>, fakeip: seq<CleanupField>)
    requires !Resolves(legacy) && !Resolves(hosts) && !Resolves(fakeip)
    requires Resolves(local) && Resolves(remote) && Resolves(secure) && Resolves(https) && Resolves(dhcp)
    ensures Resolves(GroupOf([
      ("legacy", legacy), ("local", local), ("hosts", hosts), ("udp", remote), ("tcp", remote),
      ("tls", secure), ("quic", secure), ("https", https), ("h3", https), ("dhcp", dhcp), ("fakeip", fakeip)], name))
      <==> IsDialing(name)
  {
    var registry := [
      ("legacy", legacy), ("local", local), ("hosts", hosts), ("udp", remote), ("tcp", remote),
      ("tls", secure), ("quic", secure), ("https", https), ("h3", https), ("dhcp", dhcp), ("fakeip", fakeip)];
    if name == "legacy" {
      FoundAt(registry, name, 0);
    } else if name == "local" {
      FoundAt(registry, name, 1);
    } else if name == "hosts" {
      FoundAt(registry, name, 2);
    } else if name == "udp" {
      FoundAt(registry, name, 3);
    } else if name == "tcp" {
      FoundAt(registry, name, 4);
    } else if name == "tls" {
      FoundAt(registry, name, 5);
    } else if name == "quic" {
      FoundAt(registry, name, 6);
    } else if name == "https" {
      FoundAt(registry, name, 7);
    } else if name == "h3" {
      FoundAt(registry, name, 8);
    } else if name == "dhcp" {
      FoundAt(registry, name, 9);
    } else if name == "fakeip" {
      FoundAt(registry, name, 10);
    } else {
      NotFound(registry, name);
    }
  }

  lemma DialingTypes(name: string)
    ensures Resolves(GroupOf(DNS_SERVERS, name)) <==> IsDialing(name)
  {
    DialersResolve();
    OthersResolve();
    RestDoesNotResolve();
    ElevenTypes(name, LEGACY_FIELDS, LOCAL_FIELDS, HOSTS_FIELDS, REMOTE_FIELDS, SECURE_FIELDS, HTTPS_FIELDS,
                DHCP_FIELDS, FAKEIP_FIELDS);
  }

  /** What a transition does to a plain value at the resolver root. */
  lemma TransitionRoot(obj: JsonObject, registry: Registry, change: Change)
    requires Get(obj, [RESOLVER_KEY]).Some? && !Get(obj, [RESOLVER_KEY]).value.Obj?
    requires AnySupportsDomainResolver(registry)
    requires forall f | f in AllFields(registry) && f.path[0] == RESOLVER_KEY :: |f.path| > 1
    ensures Get(Transition(obj, registry, change), [RESOLVER_KEY]) ==
            if obj[RESOLVER_KEY].Str? && SupportsDomainResolver(registry, change.target)
            then Get(obj, [RESOLVER_KEY]) else None
  {
    var prepared := PrepareDomainResolverRoot(obj, registry, change);
    var compatible := CompatibleFields(registry, change);
    var keep := (path: Path, value: Option<Json>) => Keeps(compatible, path, value);
    var paths := Paths(Unique([], AllFields(registry)));
    UniqueFacts(AllFields(registry));
    if obj[RESOLVER_KEY].Str? && SupportsDomainResolver(registry, change.target) {
      forall p | p in paths && p[0] == RESOLVER_KEY
        ensures |p| > 1
      {
        var i :| 0 <= i < |paths| && paths[i] == p;
        assert Unique([], AllFields(registry))[i] in AllFields(registry);
      }
      RetainRoot(obj, paths, keep, RESOLVER_KEY);
    } else {
      GetSet(obj, [RESOLVER_KEY], None);
      RetainShrinks(prepared, paths, keep, [RESOLVER_KEY]);
    }
  }

  lemma RootShape(fields: seq<CleanupField>)
    requires Shaped(fields)
    ensures forall f | f in fields && f.path[0] == RESOLVER_KEY :: |f.path| > 1
  {}

  lemma SupportsIff(registry: Registry, name: string)
    ensures SupportsDomainResolver(registry, name) <==> Resolves(GroupOf(registry, name))
  {}

  lemma SomeTypeSupports()
    ensures AnySupportsDomainResolver(DNS_SERVERS)
  {
    DialingTypes("local");
    SupportsIff(DNS_SERVERS, "local");
    assert DNS_SERVERS[1].0 == "local";
  }

  ghost predicate RootSound(registry: Registry) {
    AnySupportsDomainResolver(registry) && Shaped(AllFields(registry))
  }

  lemma ServersRootSound()
    ensures RootSound(DNS_SERVERS)
  {
    SomeTypeSupports();
    ServersPrefixFree();
  }

  lemma ChosenRoot(server: JsonObject, registry: Registry, change: Change, value: Option<Json>)
    requires Get(server, [RESOLVER_KEY]).Some? && !Get(server, [RESOLVER_KEY]).value.Obj?
    requires RootSound(registry)
    ensures Get(Chosen(server, false, registry, change, "type", value), [RESOLVER_KEY]) ==
            if server[RESOLVER_KEY].Str? && Resolves(GroupOf(registry, change.target))
            then Get(server, [RESOLVER_KEY]) else None
  {
    RootShape(AllFields(registry));
    TransitionRoot(server, registry, change);
    SupportsIff(registry, change.target);
    SetFrame(Transition(server, registry, change), ["type"], value, [RESOLVER_KEY]);
  }

  lemma ServerRoot(server: JsonObject, change: Change, value: Option<Json>)
    requires Get(server, [RESOLVER_KEY]).Some? && !Get(server, [RESOLVER_KEY]).value.Obj?
    ensures Get(Chosen(server, false, DNS_SERVERS, change, "type", value), [RESOLVER_KEY]) ==
            if server[RESOLVER_KEY].Str? && IsDialing(change.target) then Get(server, [RESOLVER_KEY]) else None
  {
    ServersRootSound();
    DialingTypes(change.target);
    ChosenRoot(server, DNS_SERVERS, change, value);
  }

  /** A plain server name at the resolver root survives a change of type exactly if the new type dials out;
      any other value there that is no object never does. */
  lemma {:induction false} ServerTypeRoot(server: JsonObject, name: string)
    requires Get(server, [RESOLVER_KEY]).Some? && !Get(server, [RESOLVER_KEY]).value.Obj?
    requires InferDNSServerType(server) != name
    ensures Get(ChangeDNSServerType(server, name), [RESOLVER_KEY]) ==
            if Get(server, [RESOLVER_KEY]).value.Str?
               && IsDialing(name)
            then Get(server, [RESOLVER_KEY]) else None
  {
    ServerTypeIsChosen(server, name);
    ServerRoot(server, ServerChange(InferDNSServerType(server), name), TypeValue(name));
  }
}

/** The visibility conditions of the DNS server form and of the endpoint form, and what the theorems about
    pruning give for them. */
module FormConditions {
  import opened Wrappers
  import opened Json
  import opened DottedPath
  import opened PolicyPath
  import opened PolicyPrune

  const KEEP_ALIVE := "disable_tcp_keep_alive"

  const KEEP_ALIVE_ON := When([KEEP_ALIVE], None, true)
  const RESOLVER_ON := When(["domain_resolver", "server"], None, false)
  const TLS_ON := When(["tls", "enabled"], Some([Bool(true)]), false)

  function Always(key: string): Field {
    Field([key], [])
  }

  function Resolved(key: string): Field {
    Field(["domain_resolver", key], [RESOLVER_ON])
  }

  function Secured(key: string): Field {
    Field(["tls", key], [TLS_ON])
  }

  function Alive(key: string): Field {
    Field([key], [KEEP_ALIVE_ON])
  }

  /** The one falsy condition there is reads "disable_tcp_keep_alive", and no conditional field lies there. */
  ghost predicate KeepAliveOnly(fields: seq<Field>) {
    forall f | f in fields :: FieldOk(f)
  }

  ghost predicate FieldOk(f: Field) {
    (forall rule | rule in f.when && rule.falsy :: rule.path == [KEEP_ALIVE])
    && (f.when != [] ==> f.path[0] != KEEP_ALIVE)
  }

  lemma KeepAliveConcat(a: seq<Field>, b: seq<Field>)
    requires KeepAliveOnly(a) && KeepAliveOnly(b)
    ensures KeepAliveOnly(a + b)
  {}

  /** Such a list meets the condition of the confluence theorem. */
  lemma KeepAliveOrderFree(fields: seq<Field>)
    requires KeepAliveOnly(fields)
    ensures OrderFree(fields)
  {
    forall field, other, rule |
      field in fields && other in fields && rule in other.when && rule.falsy && field.when != []
      ensures !Related(field.path, rule.path)
    {
      assert FieldOk(field) && FieldOk(other);
      assert rule.path == [KEEP_ALIVE] && field.path[0] != KEEP_ALIVE;
    }
  }

  ghost predicate SameFields(a: seq<Field>, b: seq<Field>) {
    forall field :: field in a <==> field in b
  }

  lemma {:induction false} KeepAlivePrunesAlike(obj: JsonObject, fields: seq<Field>, others: seq<Field>)
    requires KeepAliveOnly(fields) && SameFields(fields, others)
    ensures Pruned(obj, fields) == Pruned(obj, others)
  {
    KeepAliveOrderFree(fields);
    PruneOrderIndependent(obj, fields, others);
  }

  // ---- DNS servers ----

  const BIND_FIELDS: seq<Field> := [
    Always("detour"), Always("bind_interface"), Always("inet4_bind_address"), Always("inet6_bind_address"),
    Always("bind_address_no_port"), Always("protect_path"), Always("routing_mark"), Always("reuse_addr"),
    Always("netns"), Always("connect_timeout"), Always("tcp_fast_open"), Always("tcp_multi_path")
  ]

  const KEEP_ALIVE_FIELDS: seq<Field> := [
    Always(KEEP_ALIVE), Alive("tcp_keep_alive"), Alive("tcp_keep_alive_interval"), Always("udp_fragment")
  ]

  const RESOLVER_FIELDS: seq<Field> := [
    Field(["domain_resolver", "server"], []), Resolved("strategy"), Resolved("disable_cache"),
    Resolved("rewrite_ttl"), Resolved("client_subnet")
  ]

  const STRATEGY_FIELDS: seq<Field> := [
    Always("network_strategy"), Always("network_type"), Always("fallback_network_type"), Always("fallback_delay")
  ]

  const DIALER_FIELDS: seq<Field> := BIND_FIELDS + KEEP_ALIVE_FIELDS + RESOLVER_FIELDS + STRATEGY_FIELDS

  const REMOTE_FIELDS: seq<Field> := [Always("server"), Always("server_port")] + DIALER_FIELDS

  const TLS_FIELDS: seq<Field> := [
    Field(["tls", "enabled"], []), Secured("disable_sni"), Secured("server_name"), Secured("insecure"),
    Secured("alpn"), Secured("certificate"), Secured("certificate_path")
  ]

  const LEGACY_FIELDS: seq<Field> := [
    Always("address"), Always("address_resolver"), Always("address_strategy"), Always("address_fallback_delay"),
    Always("strategy"), Always("detour"), Always("client_subnet")
  ]

  const HTTP_FIELDS: seq<Field> := [Always("path"), Always("method"), Always("headers")]

  /** `dnsServerFields[type] ?? []` */
  function ServerFields(name: string): seq<Field> {
    match name
    case "legacy" => LEGACY_FIELDS
    case "local" => DIALER_FIELDS + [Always("prefer_go")]
    case "hosts" => [Always("path"), Always("predefined")]
    case "udp" => REMOTE_FIELDS
    case "tcp" => REMOTE_FIELDS
    case "tls" => REMOTE_FIELDS + TLS_FIELDS
    case "quic" => REMOTE_FIELDS + TLS_FIELDS
    case "https" => REMOTE_FIELDS + TLS_FIELDS + HTTP_FIELDS
    case "h3" => REMOTE_FIELDS + TLS_FIELDS + HTTP_FIELDS
    case "dhcp" => DIALER_FIELDS + [Always("prefer_go"), Always("interface")]
    case "fakeip" => [Always("inet4_range"), Always("inet6_range")]
    case _ => []
  }

  lemma BindConditions()
    ensures KeepAliveOnly(BIND_FIELDS)
  {}

  lemma KeepAliveConditions()
    ensures KeepAliveOnly(KEEP_ALIVE_FIELDS)
  {}

  lemma ResolverConditions()
    ensures KeepAliveOnly(RESOLVER_FIELDS)
  {}

  lemma StrategyConditions()
    ensures KeepAliveOnly(STRATEGY_FIELDS)
  {}

  lemma TlsConditions()
    ensures KeepAliveOnly(TLS_FIELDS)
  {}

  lemma SmallConditions()
    ensures KeepAliveOnly(LEGACY_FIELDS) && KeepAliveOnly(HTTP_FIELDS)
    ensures KeepAliveOnly([Always("server"), Always("server_port")]) && KeepAliveOnly([Always("prefer_go")])
    ensures KeepAliveOnly([Always("path"), Always("predefined")])
    ensures KeepAliveOnly([Always("prefer_go"), Always("interface")])
    ensures KeepAliveOnly([Always("inet4_range"), Always("inet6_range")])
  {}

  lemma DialerConditions()
    ensures KeepAliveOnly(DIALER_FIELDS)
  {
    BindConditions();
    KeepAliveConditions();
    ResolverConditions();
    StrategyConditions();
    KeepAliveConcat(BIND_FIELDS, KEEP_ALIVE_FIELDS);
    KeepAliveConcat(BIND_FIELDS + KEEP_ALIVE_FIELDS, RESOLVER_FIELDS);
    KeepAliveConcat(BIND_FIELDS + KEEP_ALIVE_FIELDS + RESOLVER_FIELDS, STRATEGY_FIELDS);
  }

  lemma ServerConditions(name: string)
    ensures KeepAliveOnly(ServerFields(name))
  {
    DialerConditions();
    TlsConditions();
    SmallConditions();
    KeepAliveConcat([Always("server"), Always("server_port")], DIALER_FIELDS);
    KeepAliveConcat(DIALER_FIELDS, [Always("prefer_go")]);
    KeepAliveConcat(DIALER_FIELDS, [Always("prefer_go"), Always("interface")]);
    KeepAliveConcat(REMOTE_FIELDS, TLS_FIELDS);
    KeepAliveConcat(REMOTE_FIELDS + TLS_FIELDS, HTTP_FIELDS);
  }

  /** Pruning a DNS server of whatever type does not depend on the order of the form's fields. */
  lemma {:induction false} ServerPruningOrderFree(obj: JsonObject, name: string, others: seq<Field>)
    requires SameFields(ServerFields(name), others)
    ensures Pruned(obj, ServerFields(name)) == Pruned(obj, others)
  {
    ServerConditions(name);
    KeepAlivePrunesAlike(obj, ServerFields(name), others);
  }

  /** Without a resolver server the resolver strategy goes, and the emptied root with it. */
  lemma StrategyNeedsServer()
    ensures var obj: JsonObject := map["domain_resolver" := Obj(map["strategy" := Str("prefer_ipv4")])];
            Pruned(obj, [Resolved("strategy")]) == map[]
  {
    var obj: JsonObject := map["domain_resolver" := Obj(map["strategy" := Str("prefer_ipv4")])];
    assert ["domain_resolver", "server"][1..] == ["server"];
    assert ["domain_resolver", "strategy"][1..] == ["strategy"];
    assert Get(obj, ["domain_resolver", "server"]) == None;
    UnmetIsCleared(obj, Resolved("strategy"), RESOLVER_ON);
    assert Child(obj, "domain_resolver") - {"strategy"} == map[];
    assert obj - {"domain_resolver"} == map[];
  }

  // ---- Endpoints ----

  const IS_WIREGUARD := When(["type"], Some([Str("wireguard")]), false)
  const IS_TAILSCALE := When(["type"], Some([Str("tailscale")]), false)
  const EXIT_NODE_ON := When(["exit_node"], None, false)
  const SYSTEM_INTERFACE_ON := When(["system_interface"], Some([Bool(true)]), false)

  function WireGuard(key: string): Field {
    Field([key], [IS_WIREGUARD])
  }

  function Tailscale(key: string): Field {
    Field([key], [IS_TAILSCALE])
  }

  const IDENTITY_FIELDS: seq<Field> := [Always("type"), Always("tag")]

  const WIREGUARD_FIELDS: seq<Field> := [
    WireGuard("system"), WireGuard("name"), WireGuard("mtu"), WireGuard("address"), WireGuard("private_key"),
    WireGuard("listen_port"), WireGuard("peers"), WireGuard("udp_timeout"), WireGuard("workers")
  ]

  const TAILSCALE_BASIC_FIELDS: seq<Field> := [
    Tailscale("state_directory"), Tailscale("auth_key"), Tailscale("control_url"), Tailscale("ephemeral"),
    Tailscale("hostname"), Tailscale("accept_routes"), Tailscale("exit_node"),
    Field(["exit_node_allow_lan_access"], [IS_TAILSCALE, EXIT_NODE_ON])
  ]

  const TAILSCALE_OTHER_FIELDS: seq<Field> := [
    Tailscale("advertise_routes"), Tailscale("advertise_exit_node"), Tailscale("advertise_tags"),
    Tailscale("relay_server_port"), Tailscale("relay_server_static_endpoints"), Tailscale("system_interface"),
    Field(["system_interface_name"], [IS_TAILSCALE, SYSTEM_INTERFACE_ON]),
    Field(["system_interface_mtu"], [IS_TAILSCALE, SYSTEM_INTERFACE_ON]), Tailscale("udp_timeout")
  ]

  const TYPE_FIELDS: seq<Field> := IDENTITY_FIELDS + WIREGUARD_FIELDS + TAILSCALE_BASIC_FIELDS + TAILSCALE_OTHER_FIELDS

  /** `endpointFields`; the dialer fields are those of the DNS servers. */
  const ENDPOINT_FIELDS: seq<Field> := TYPE_FIELDS + DIALER_FIELDS

  lemma WireGuardConditions()
    ensures KeepAliveOnly(IDENTITY_FIELDS) && KeepAliveOnly(WIREGUARD_FIELDS)
  {}

  lemma TailscaleConditions()
    ensures KeepAliveOnly(TAILSCALE_BASIC_FIELDS)
  {}

  lemma TailscaleOtherConditions()
    ensures KeepAliveOnly(TAILSCALE_OTHER_FIELDS)
  {}

  lemma EndpointConditions()
    ensures KeepAliveOnly(ENDPOINT_FIELDS)
  {
    WireGuardConditions();
    TailscaleConditions();
    TailscaleOtherConditions();
    DialerConditions();
    KeepAliveConcat(IDENTITY_FIELDS, WIREGUARD_FIELDS);
    KeepAliveConcat(IDENTITY_FIELDS + WIREGUARD_FIELDS, TAILSCALE_BASIC_FIELDS);
    KeepAliveConcat(IDENTITY_FIELDS + WIREGUARD_FIELDS + TAILSCALE_BASIC_FIELDS, TAILSCALE_OTHER_FIELDS);
    KeepAliveConcat(TYPE_FIELDS, DIALER_FIELDS);
  }

  /** Pruning an endpoint does not depend on the order of the form's fields. */
  lemma {:induction false} EndpointPruningOrderFree(obj: JsonObject, others: seq<Field>)
    requires SameFields(ENDPOINT_FIELDS, others)
    ensures Pruned(obj, ENDPOINT_FIELDS) == Pruned(obj, others)
  {
    EndpointConditions();
    KeepAlivePrunesAlike(obj, ENDPOINT_FIELDS, others);
  }

  lemma NeverBothVisible(obj: JsonObject, f: Field, g: Field)
    requires f.when == [IS_WIREGUARD] && g.when == [IS_TAILSCALE]
    ensures !Visible(obj, f) || !Visible(obj, g)
  {
    if Get(obj, ["type"]) == Some(Str("wireguard")) {
      assert !Matches(obj, g.when[0]);
    } else {
      assert !Matches(obj, f.when[0]);
    }
  }

  lemma InSum(a: seq<Field>, b: seq<Field>, c: seq<Field>, d: seq<Field>, e: seq<Field>, i: nat, j: nat)
    requires i < |b| && j < |d|
    ensures b[i] in a + b + c + d + e && d[j] in a + b + c + d + e
  {}

  /** No endpoint, of whatever type, keeps its "udp_timeout" when it is prepared for saving: the path is
      listed twice, and one of the two listings is always invisible. */
  lemma {:induction false} EndpointTimeoutAlwaysDropped(obj: JsonObject)
    ensures Get(Pruned(obj, ENDPOINT_FIELDS), ["udp_timeout"]) == None
  {
    InSum(IDENTITY_FIELDS, WIREGUARD_FIELDS, TAILSCALE_BASIC_FIELDS, TAILSCALE_OTHER_FIELDS, DIALER_FIELDS, 7, 8);
    TimeoutDropped(obj, ENDPOINT_FIELDS, WIREGUARD_FIELDS[7], TAILSCALE_OTHER_FIELDS[8]);
  }

  lemma TimeoutDropped(obj: JsonObject, fields: seq<Field>, f: Field, g: Field)
    requires f in fields && g in fields && f.path == g.path
    requires f.when == [IS_WIREGUARD] && g.when == [IS_TAILSCALE]
    ensures Get(Pruned(obj, fields), f.path) == None
  {
    PrunedStable(obj, fields);
    NeverBothVisible(Pruned(obj, fields), f, g);
  }
}

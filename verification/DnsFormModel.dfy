/** The cleanup registries of the DNS form. */
module DnsRegistries {
  import opened Wrappers
  import opened DottedPath
  import opened FieldTransition
  import opened DnsFormCleanup

  function Of(key: string, kind: Kind): CleanupField {
    Field([key], Some(kind))
  }

  function Plain(key: string): CleanupField {
    Field([key], None)
  }

  function Below(root: string, key: string, kind: Option<Kind>): CleanupField {
    Field([root, key], kind)
  }

  /** A path of three keys below "tls". */
  function Under(section: string, key: string, kind: Option<Kind>): CleanupField {
    Field(["tls", section, key], kind)
  }

  const BIND_FIELDS: seq<CleanupField> := [
    Plain("detour"), Plain("bind_interface"), Plain("inet4_bind_address"), Plain("inet6_bind_address"),
    Of("bind_address_no_port", KBoolean), Plain("protect_path"), Of("routing_mark", KRoutingMark),
    Of("reuse_addr", KBoolean), Plain("netns"), Plain("connect_timeout"), Of("tcp_fast_open", KBoolean),
    Of("tcp_multi_path", KBoolean)
  ]

  const KEEP_ALIVE_FIELDS: seq<CleanupField> := [
    Of("disable_tcp_keep_alive", KBoolean), Plain("tcp_keep_alive"), Plain("tcp_keep_alive_interval"),
    Of("udp_fragment", KBoolean)
  ]

  const RESOLVER_FIELDS: seq<CleanupField> := [
    Below("domain_resolver", "server", None), Below("domain_resolver", "strategy", None),
    Below("domain_resolver", "disable_cache", Some(KBoolean)),
    Below("domain_resolver", "rewrite_ttl", Some(KNumber)), Below("domain_resolver", "client_subnet", None)
  ]

  const NETWORK_FIELDS: seq<CleanupField> := [
    Plain("network_strategy"), Of("network_type", KList), Of("fallback_network_type", KList),
    Plain("fallback_delay"), Plain("domain_strategy")
  ]

  const DIALER_FIELDS: seq<CleanupField> := BIND_FIELDS + KEEP_ALIVE_FIELDS + RESOLVER_FIELDS + NETWORK_FIELDS

  const SERVER_FIELDS: seq<CleanupField> := [Plain("server"), Of("server_port", KNumber)]

  const REMOTE_FIELDS: seq<CleanupField> := SERVER_FIELDS + DIALER_FIELDS

  const TLS_BASIC_FIELDS: seq<CleanupField> := [
    Below("tls", "enabled", Some(KBoolean)), Below("tls", "disable_sni", Some(KBoolean)),
    Below("tls", "server_name", None), Below("tls", "insecure", Some(KBoolean))
  ]

  const TLS_VERSION_FIELDS: seq<CleanupField> := [
    Below("tls", "alpn", Some(KList)), Below("tls", "min_version", None), Below("tls", "max_version", None)
  ]

  const TLS_CERTIFICATE_FIELDS: seq<CleanupField> := [
    Below("tls", "cipher_suites", Some(KList)), Below("tls", "curve_preferences", Some(KList)),
    Below("tls", "certificate", Some(KList)), Below("tls", "certificate_path", None),
    Below("tls", "certificate_public_key_sha256", Some(KList))
  ]

  const TLS_CLIENT_FIELDS: seq<CleanupField> := [
    Below("tls", "client_certificate", Some(KList)), Below("tls", "client_certificate_path", None),
    Below("tls", "client_key", Some(KList)), Below("tls", "client_key_path", None)
  ]

  const TLS_FRAGMENT_FIELDS: seq<CleanupField> := [
    Below("tls", "fragment", Some(KBoolean)), Below("tls", "fragment_fallback_delay", None),
    Below("tls", "record_fragment", Some(KBoolean)), Below("tls", "kernel_tx", Some(KBoolean)),
    Below("tls", "kernel_rx", Some(KBoolean))
  ]

  const TLS_NESTED_FIELDS: seq<CleanupField> := [
    Under("ech", "enabled", Some(KBoolean)), Under("ech", "config", Some(KList)),
    Under("ech", "config_path", None), Under("ech", "query_server_name", None),
    Under("ech", "pq_signature_schemes_enabled", Some(KBoolean)),
    Under("ech", "dynamic_record_sizing_disabled", Some(KBoolean)), Under("utls", "enabled", Some(KBoolean)),
    Under("utls", "fingerprint", None), Under("reality", "enabled", Some(KBoolean)),
    Under("reality", "public_key", None), Under("reality", "short_id", None)
  ]

  const TLS_PLAIN_FIELDS: seq<CleanupField> := TLS_BASIC_FIELDS + TLS_VERSION_FIELDS + TLS_CERTIFICATE_FIELDS
                                              + TLS_CLIENT_FIELDS

  const TLS_FIELDS: seq<CleanupField> := TLS_PLAIN_FIELDS + TLS_FRAGMENT_FIELDS + TLS_NESTED_FIELDS

  const LEGACY_FIELDS: seq<CleanupField> := [
    Plain("address"), Plain("address_resolver"), Plain("address_strategy"), Plain("address_fallback_delay"),
    Plain("strategy"), Plain("detour"), Plain("client_subnet")
  ]

  const LOCAL_FIELDS: seq<CleanupField> := DIALER_FIELDS + [Of("prefer_go", KBoolean)]

  const SECURE_FIELDS: seq<CleanupField> := REMOTE_FIELDS + TLS_FIELDS

  const HTTP_FIELDS: seq<CleanupField> := [Plain("path"), Plain("method"), Of("headers", KObject)]

  const HTTPS_FIELDS: seq<CleanupField> := SECURE_FIELDS + HTTP_FIELDS

  const HOSTS_FIELDS: seq<CleanupField> := [Of("path", KList), Of("predefined", KObject)]

  const DHCP_FIELDS: seq<CleanupField> := LOCAL_FIELDS + [Plain("interface")]

  const FAKEIP_FIELDS: seq<CleanupField> := [Plain("inet4_range"), Plain("inet6_range")]

  const DNS_SERVERS: Registry := [
    ("legacy", LEGACY_FIELDS), ("local", LOCAL_FIELDS), ("hosts", HOSTS_FIELDS), ("udp", REMOTE_FIELDS),
    ("tcp", REMOTE_FIELDS), ("tls", SECURE_FIELDS), ("quic", SECURE_FIELDS), ("https", HTTPS_FIELDS),
    ("h3", HTTPS_FIELDS), ("dhcp", DHCP_FIELDS), ("fakeip", FAKEIP_FIELDS)
  ]

  const OPTION_FIELDS: seq<CleanupField> := [
    Plain("strategy"), Of("disable_cache", KBoolean), Of("rewrite_ttl", KNumber), Plain("client_subnet")
  ]

  const ROUTE_FIELDS: seq<CleanupField> := [Plain("server")] + OPTION_FIELDS

  const REJECT_FIELDS: seq<CleanupField> := [Plain("method"), Of("no_drop", KBoolean)]

  const PREDEFINED_FIELDS: seq<CleanupField> := [
    Of("rcode", KRCode), Of("answer", KList), Of("ns", KList), Of("extra", KList)
  ]

  const DNS_ACTIONS: Registry := [
    ("route", ROUTE_FIELDS), ("route-options", OPTION_FIELDS), ("reject", REJECT_FIELDS),
    ("predefined", PREDEFINED_FIELDS)
  ]

  const RULE_BASIC_FIELDS: seq<CleanupField> := [
    Of("inbound", KList), Of("ip_version", KNumber), Of("query_type", KQueryType), Of("network", KList),
    Of("auth_user", KList), Of("protocol", KList)
  ]

  const RULE_DOMAIN_FIELDS: seq<CleanupField> := [
    Of("domain", KList), Of("domain_suffix", KList), Of("domain_keyword", KList), Of("domain_regex", KList),
    Of("geosite", KList), Of("source_geoip", KList)
  ]

  const RULE_ADDRESS_FIELDS: seq<CleanupField> := [
    Of("geoip", KList), Of("ip_cidr", KList), Of("ip_is_private", KBoolean), Of("ip_accept_any", KBoolean),
    Of("source_ip_cidr", KList), Of("source_ip_is_private", KBoolean)
  ]

  const RULE_PORT_FIELDS: seq<CleanupField> := [
    Of("source_port", KNumberList), Of("source_port_range", KList), Of("port", KNumberList),
    Of("port_range", KList), Of("process_name", KList), Of("process_path", KList)
  ]

  const RULE_USER_FIELDS: seq<CleanupField> := [
    Of("process_path_regex", KList), Of("package_name", KList), Of("user", KList), Of("user_id", KNumberList),
    Of("outbound", KList), Plain("clash_mode")
  ]

  const RULE_NETWORK_FIELDS: seq<CleanupField> := [
    Of("network_type", KList), Of("network_is_expensive", KBoolean), Of("network_is_constrained", KBoolean),
    Of("wifi_ssid", KList), Of("wifi_bssid", KList)
  ]

  const RULE_INTERFACE_FIELDS: seq<CleanupField> := [
    Of("interface_address", KObject), Of("network_interface_address", KObject),
    Of("default_interface_address", KList)
  ]

  const RULE_SET_FIELDS: seq<CleanupField> := [
    Of("rule_set", KList), Of("rule_set_ip_cidr_match_source", KBoolean),
    Of("rule_set_ip_cidr_accept_empty", KBoolean), Of("rule_set_ipcidr_match_source", KBoolean),
    Of("invert", KBoolean)
  ]

  const FIRST_RULE_FIELDS: seq<CleanupField> := RULE_BASIC_FIELDS + RULE_DOMAIN_FIELDS + RULE_ADDRESS_FIELDS
                                               + RULE_PORT_FIELDS

  const SECOND_RULE_FIELDS: seq<CleanupField> := RULE_USER_FIELDS + RULE_NETWORK_FIELDS + RULE_INTERFACE_FIELDS
                                                + RULE_SET_FIELDS

  const LOGICAL_RULE_FIELDS: seq<CleanupField> := [Plain("mode"), Of("rules", KArray), Of("invert", KBoolean)]

  const DNS_RULES: Registry := [
    ("default", FIRST_RULE_FIELDS + SECOND_RULE_FIELDS), ("logical", LOGICAL_RULE_FIELDS)
  ]

  const BASIC_MATCH_KEYS: seq<string> := [
    "type", "inbound", "ip_version", "query_type", "network", "auth_user", "protocol", "domain", "domain_suffix"
  ]

  const DOMAIN_MATCH_KEYS: seq<string> := [
    "domain_keyword", "domain_regex", "source_ip_cidr", "source_ip_is_private", "ip_cidr", "ip_is_private",
    "source_port", "source_port_range", "port"
  ]

  const PROCESS_MATCH_KEYS: seq<string> := [
    "port_range", "process_name", "process_path", "process_path_regex", "package_name", "user", "user_id",
    "outbound", "clash_mode"
  ]

  const OTHER_MATCH_KEYS: seq<string> := [
    "rule_set", "rule_set_ip_cidr_match_source", "network_type", "network_is_expensive",
    "network_is_constrained", "wifi_ssid", "wifi_bssid", "invert"
  ]

  /** The keys of `dnsRuleMatchFields`. */
  const MATCH_KEYS: seq<string> := BASIC_MATCH_KEYS + DOMAIN_MATCH_KEYS + PROCESS_MATCH_KEYS + OTHER_MATCH_KEYS

  predicate TlsSection(key: string) {
    key == "ech" || key == "utls" || key == "reality"
  }

  /** The shape of every server path: a key below the resolver root, a key or a section key below "tls",
      or a plain key other than those roots and "type". */
  predicate ServerShape(path: Path) {
    if path[0] == RESOLVER_KEY then |path| == 2
    else if path[0] == "tls" then |path| >= 2 && |path| == if TlsSection(path[1]) then 3 else 2
    else |path| == 1 && path[0] != "type"
  }

  lemma ServerShapeUnrelated(p: Path, q: Path)
    requires ServerShape(p) && ServerShape(q) && Related(p, q)
    ensures p == q
  {
    assert p[0] == q[0];
    if p[0] == "tls" {
      assert p[1] == q[1];
    }
  }

  ghost predicate Shaped(fields: seq<CleanupField>) {
    forall f | f in fields :: ServerShape(f.path)
  }

  lemma ShapedConcat(a: seq<CleanupField>, b: seq<CleanupField>)
    requires Shaped(a) && Shaped(b)
    ensures Shaped(a + b)
  {}

  lemma {:induction false} ShapedRegistry(registry: Registry)
    requires forall i | 0 <= i < |registry| :: Shaped(registry[i].1)
    ensures Shaped(AllFields(registry))
  {
    if registry != [] {
      ShapedRegistry(registry[1..]);
      assert Groups(registry)[1..] == Groups(registry[1..]);
      ShapedConcat(registry[0].1, AllFields(registry[1..]));
    }
  }

  lemma BindShapes()
    ensures Shaped(BIND_FIELDS)
  {}

  lemma KeepAliveShapes()
    ensures Shaped(KEEP_ALIVE_FIELDS) && Shaped(NETWORK_FIELDS) && Shaped(RESOLVER_FIELDS)
  {}

  lemma FourShaped(a: seq<CleanupField>, b: seq<CleanupField>, c: seq<CleanupField>, d: seq<CleanupField>)
    requires Shaped(a) && Shaped(b) && Shaped(c) && Shaped(d)
    ensures Shaped(a + b + c + d)
  {}

  lemma DialerShapes()
    ensures Shaped(DIALER_FIELDS)
  {
    BindShapes();
    KeepAliveShapes();
    FourShaped(BIND_FIELDS, KEEP_ALIVE_FIELDS, RESOLVER_FIELDS, NETWORK_FIELDS);
  }

  lemma SmallFieldShapes()
    ensures Shaped([Of("prefer_go", KBoolean)]) && Shaped([Plain("interface")]) && Shaped(SERVER_FIELDS)
  {}

  lemma LocalShapes()
    ensures Shaped(LOCAL_FIELDS) && Shaped(DHCP_FIELDS) && Shaped(REMOTE_FIELDS)
  {
    DialerShapes();
    SmallFieldShapes();
    ShapedConcat(DIALER_FIELDS, [Of("prefer_go", KBoolean)]);
    ShapedConcat(LOCAL_FIELDS, [Plain("interface")]);
    ShapedConcat(SERVER_FIELDS, DIALER_FIELDS);
  }

  lemma TlsBasicShapes()
    ensures Shaped(TLS_BASIC_FIELDS)
  {}

  lemma TlsVersionShapes()
    ensures Shaped(TLS_VERSION_FIELDS)
  {}

  lemma TlsCertificateShapes()
    ensures Shaped(TLS_CERTIFICATE_FIELDS)
  {}

  lemma TlsClientShapes()
    ensures Shaped(TLS_CLIENT_FIELDS)
  {}

  lemma TlsFragmentShapes()
    ensures Shaped(TLS_FRAGMENT_FIELDS)
  {}

  lemma TlsNestedShapes()
    ensures Shaped(TLS_NESTED_FIELDS)
  {}

  lemma SmallShapes()
    ensures Shaped(HTTP_FIELDS) && Shaped(HOSTS_FIELDS) && Shaped(FAKEIP_FIELDS)
  {}

  lemma LegacyShapes()
    ensures Shaped(LEGACY_FIELDS)
  {}

  lemma TlsPlainShapes()
    ensures Shaped(TLS_PLAIN_FIELDS)
  {
    TlsBasicShapes();
    TlsVersionShapes();
    TlsCertificateShapes();
    TlsClientShapes();
    FourShaped(TLS_BASIC_FIELDS, TLS_VERSION_FIELDS, TLS_CERTIFICATE_FIELDS, TLS_CLIENT_FIELDS);
  }

  lemma SecureShapes()
    ensures Shaped(SECURE_FIELDS) && Shaped(HTTPS_FIELDS)
  {
    LocalShapes();
    TlsPlainShapes();
    TlsFragmentShapes();
    TlsNestedShapes();
    SmallShapes();
    ShapedConcat(TLS_PLAIN_FIELDS, TLS_FRAGMENT_FIELDS);
    ShapedConcat(TLS_PLAIN_FIELDS + TLS_FRAGMENT_FIELDS, TLS_NESTED_FIELDS);
    ShapedConcat(REMOTE_FIELDS, TLS_FIELDS);
    ShapedConcat(SECURE_FIELDS, HTTP_FIELDS);
  }

  lemma ShapedPrefixFree(fields: seq<CleanupField>)
    requires Shaped(fields)
    ensures PrefixFree(fields)
  {
    forall f, g | f in fields && g in fields && Related(f.path, g.path)
      ensures f.path == g.path
    {
      ServerShapeUnrelated(f.path, g.path);
    }
  }

  lemma ElevenGroups(legacy: seq<CleanupField>, local: seq<CleanupField>, hosts: seq<CleanupField>,
                     remote: seq<CleanupField>, secure: seq<CleanupField>, https: seq<CleanupField>,
                     dhcp: seq<CleanupField>, fakeip: seq<CleanupField>)
    requires Shaped(legacy) && Shaped(local) && Shaped(hosts) && Shaped(remote)
    requires Shaped(secure) && Shaped(https) && Shaped(dhcp) && Shaped(fakeip)
    ensures Shaped(AllFields([
      ("legacy", legacy), ("local", local), ("hosts", hosts), ("udp", remote), ("tcp", remote),
      ("tls", secure), ("quic", secure), ("https", https), ("h3", https), ("dhcp", dhcp), ("fakeip", fakeip)]))
  {
    ShapedRegistry([
      ("legacy", legacy), ("local", local), ("hosts", hosts), ("udp", remote), ("tcp", remote),
      ("tls", secure), ("quic", secure), ("https", https), ("h3", https), ("dhcp", dhcp), ("fakeip", fakeip)]);
  }

  /** The server registry is prefix-free, and none of its paths touches "type". */
  lemma ServersPrefixFree()
    ensures Shaped(AllFields(DNS_SERVERS)) && PrefixFree(AllFields(DNS_SERVERS))
  {
    LocalShapes();
    SecureShapes();
    SmallShapes();
    LegacyShapes();
    ElevenGroups(LEGACY_FIELDS, LOCAL_FIELDS, HOSTS_FIELDS, REMOTE_FIELDS, SECURE_FIELDS, HTTPS_FIELDS,
                 DHCP_FIELDS, FAKEIP_FIELDS);
    ShapedPrefixFree(AllFields(DNS_SERVERS));
  }

  /** The paths of the action registry. */
  predicate ActionKey(key: string) {
    || key == "server" || key == "strategy" || key == "disable_cache" || key == "rewrite_ttl"
    || key == "client_subnet" || key == "method" || key == "no_drop" || key == "rcode"
    || key == "answer" || key == "ns" || key == "extra"
  }

  ghost predicate ActionShaped(fields: seq<CleanupField>) {
    forall f | f in fields :: |f.path| == 1 && ActionKey(f.path[0])
  }

  lemma ActionShapedConcat(a: seq<CleanupField>, b: seq<CleanupField>)
    requires ActionShaped(a) && ActionShaped(b)
    ensures ActionShaped(a + b)
  {}

  lemma {:induction false} ActionShapedRegistry(registry: Registry)
    requires forall i | 0 <= i < |registry| :: ActionShaped(registry[i].1)
    ensures ActionShaped(AllFields(registry))
  {
    if registry != [] {
      ActionShapedRegistry(registry[1..]);
      assert Groups(registry)[1..] == Groups(registry[1..]);
      ActionShapedConcat(registry[0].1, AllFields(registry[1..]));
    }
  }

  lemma FourActionGroups(a: seq<CleanupField>, b: seq<CleanupField>, c: seq<CleanupField>, d: seq<CleanupField>)
    requires ActionShaped(a) && ActionShaped(b) && ActionShaped(c) && ActionShaped(d)
    ensures var all := AllFields([("route", a), ("route-options", b), ("reject", c), ("predefined", d)]);
            ActionShaped(all) && PrefixFree(all)
  {
    ActionShapedRegistry([("route", a), ("route-options", b), ("reject", c), ("predefined", d)]);
  }

  lemma ActionGroupShapes()
    ensures ActionShaped(OPTION_FIELDS) && ActionShaped([Plain("server")])
    ensures ActionShaped(REJECT_FIELDS) && ActionShaped(PREDEFINED_FIELDS)
  {}

  lemma ActionsShaped()
    ensures ActionShaped(AllFields(DNS_ACTIONS)) && PrefixFree(AllFields(DNS_ACTIONS))
  {
    ActionGroupShapes();
    ActionShapedConcat([Plain("server")], OPTION_FIELDS);
    FourActionGroups(ROUTE_FIELDS, OPTION_FIELDS, REJECT_FIELDS, PREDEFINED_FIELDS);
  }

  ghost predicate NoActionKeys(keys: seq<string>) {
    forall key | key in keys :: !ActionKey(key) && key != "action"
  }

  lemma BasicMatchKeys()
    ensures NoActionKeys(BASIC_MATCH_KEYS)
  {}

  lemma DomainMatchKeys()
    ensures NoActionKeys(DOMAIN_MATCH_KEYS)
  {}

  lemma ProcessMatchKeys()
    ensures NoActionKeys(PROCESS_MATCH_KEYS)
  {}

  lemma OtherMatchKeys()
    ensures NoActionKeys(OTHER_MATCH_KEYS)
  {}

  lemma NoActionKeysConcat(a: seq<string>, b: seq<string>)
    requires NoActionKeys(a) && NoActionKeys(b)
    ensures NoActionKeys(a + b)
  {}

  /** Rule fields are plain keys, and none of them is the type, the action or a field of an action. */
  ghost predicate RuleShaped(fields: seq<CleanupField>) {
    forall f | f in fields ::
      |f.path| == 1 && f.path[0] != "type" && f.path[0] != "action" && !ActionKey(f.path[0])
  }

  lemma BasicRuleShapes()
    ensures RuleShaped(RULE_BASIC_FIELDS)
  {}

  lemma DomainRuleShapes()
    ensures RuleShaped(RULE_DOMAIN_FIELDS)
  {}

  lemma AddressRuleShapes()
    ensures RuleShaped(RULE_ADDRESS_FIELDS)
  {}

  lemma PortRuleShapes()
    ensures RuleShaped(RULE_PORT_FIELDS)
  {}

  lemma UserRuleShapes()
    ensures RuleShaped(RULE_USER_FIELDS)
  {}

  lemma NetworkRuleShapes()
    ensures RuleShaped(RULE_NETWORK_FIELDS)
  {}

  lemma InterfaceRuleShapes()
    ensures RuleShaped(RULE_INTERFACE_FIELDS)
  {}

  lemma SetRuleShapes()
    ensures RuleShaped(RULE_SET_FIELDS)
  {}

  lemma LogicalRuleShapes()
    ensures RuleShaped(LOGICAL_RULE_FIELDS)
  {}

  lemma {:induction false} RuleShapedRegistry(registry: Registry)
    requires forall i | 0 <= i < |registry| :: RuleShaped(registry[i].1)
    ensures RuleShaped(AllFields(registry))
  {
    if registry != [] {
      RuleShapedRegistry(registry[1..]);
      assert Groups(registry)[1..] == Groups(registry[1..]);
      assert AllFields(registry) == registry[0].1 + AllFields(registry[1..]);
    }
  }

  lemma TwoRuleGroups(a: seq<CleanupField>, b: seq<CleanupField>)
    requires RuleShaped(a) && RuleShaped(b)
    ensures var all := AllFields([("default", a), ("logical", b)]);
            RuleShaped(all) && PrefixFree(all)
  {
    RuleShapedRegistry([("default", a), ("logical", b)]);
  }

  lemma FourRuleShaped(a: seq<CleanupField>, b: seq<CleanupField>, c: seq<CleanupField>, d: seq<CleanupField>)
    requires RuleShaped(a) && RuleShaped(b) && RuleShaped(c) && RuleShaped(d)
    ensures RuleShaped(a + b + c + d)
  {}

  lemma FirstRuleShapes()
    ensures RuleShaped(FIRST_RULE_FIELDS)
  {
    BasicRuleShapes();
    DomainRuleShapes();
    AddressRuleShapes();
    PortRuleShapes();
    FourRuleShaped(RULE_BASIC_FIELDS, RULE_DOMAIN_FIELDS, RULE_ADDRESS_FIELDS, RULE_PORT_FIELDS);
  }

  lemma SecondRuleShapes()
    ensures RuleShaped(SECOND_RULE_FIELDS)
  {
    UserRuleShapes();
    NetworkRuleShapes();
    InterfaceRuleShapes();
    SetRuleShapes();
    FourRuleShaped(RULE_USER_FIELDS, RULE_NETWORK_FIELDS, RULE_INTERFACE_FIELDS, RULE_SET_FIELDS);
  }

  /** The registry of the rule types, on any two field lists of the right shape. */
  lemma RuleRegistryShaped(a: seq<CleanupField>, b: seq<CleanupField>, logical: seq<CleanupField>)
    requires RuleShaped(a) && RuleShaped(b) && RuleShaped(logical)
    ensures var all := AllFields([("default", a + b), ("logical", logical)]);
            RuleShaped(all) && PrefixFree(all)
  {
    TwoRuleGroups(a + b, logical);
  }

  /** The rule registry is prefix-free, and changing the type of a rule is about no field of its action. */
  lemma RulesShaped()
    ensures RuleShaped(AllFields(DNS_RULES)) && PrefixFree(AllFields(DNS_RULES))
  {
    FirstRuleShapes();
    SecondRuleShapes();
    LogicalRuleShapes();
    RuleRegistryShaped(FIRST_RULE_FIELDS, SECOND_RULE_FIELDS, LOGICAL_RULE_FIELDS);
  }

  /** No DNS match key is an action key. */
  lemma MatchKeysAreNotActionKeys()
    ensures NoActionKeys(MATCH_KEYS)
  {
    BasicMatchKeys();
    DomainMatchKeys();
    ProcessMatchKeys();
    OtherMatchKeys();
    NoActionKeysConcat(BASIC_MATCH_KEYS, DOMAIN_MATCH_KEYS);
    NoActionKeysConcat(BASIC_MATCH_KEYS + DOMAIN_MATCH_KEYS, PROCESS_MATCH_KEYS);
    NoActionKeysConcat(BASIC_MATCH_KEYS + DOMAIN_MATCH_KEYS + PROCESS_MATCH_KEYS, OTHER_MATCH_KEYS);
  }
}

/** The type and action changes of the DNS form. */
module DnsFormModel {
  import opened Wrappers
  import opened Json
  import opened DottedPath
  import opened PolicyPath
  import opened FieldTransition
  import opened DnsFormCleanup
  import opened DnsRegistries

  const LEGACY := "legacy"

  function InferDNSServerType(server: JsonObject): string {
    match Get(server, ["type"])
    case Some(Str(name)) => if name == "" then LEGACY else name
    case _ => LEGACY
  }

  /** Legacy and modern types share nothing. */
  function ServerChange(current: string, name: string): Change {
    var bothKnown := HasOwn(DNS_SERVERS, current) && HasOwn(DNS_SERVERS, name);
    var separated := bothKnown && (current == LEGACY) != (name == LEGACY);
    Change(current, name, !separated)
  }

  function ChangeDNSServerType(server: JsonObject, name: string): JsonObject {
    var current := InferDNSServerType(server);
    Chosen(server, current == name, DNS_SERVERS, ServerChange(current, name), "type", TypeValue(name))
  }

  function ChangeDNSAction(rule: JsonObject, action: string, show: Json -> string): JsonObject {
    Chosen(rule, IsExplicit(rule, action, show), DNS_ACTIONS, Change(CurrentAction(rule, show), action, true),
           "action", ActionValue(action))
  }

  function ChangeDNSRuleType(rule: JsonObject, name: string, show: Json -> string): JsonObject {
    var current := CurrentRuleType(rule, show);
    Chosen(rule, current == name, DNS_RULES, Change(current, name, true), "type", RuleTypeValue(name))
  }

  /** What a type or action change does: the transition, then the new name. */
  function Changed(obj: JsonObject, registry: Registry, change: Change, key: string, value: Option<Json>): JsonObject {
    Set(Transition(obj, registry, change), [key], value)
  }

  /** The present type or action changes nothing. */
  function Chosen(obj: JsonObject, present: bool, registry: Registry, change: Change, key: string, value: Option<Json>)
    : JsonObject
  {
    if present then obj else Changed(obj, registry, change, key, value)
  }

  /** The outcome of a change at one path. */
  ghost predicate ChangedAt(obj: JsonObject, result: JsonObject, registry: Registry, change: Change,
                            key: string, value: Option<Json>, path: Path)
  {
    // The name is written.
    && Get(result, [key]) == value
    // A managed path survives exactly as the registry says.
    && (Managed(AllFields(registry), path) ==>
          Get(result, path) ==
          if Get(obj, path).Some? && Survives(registry, change, path, Get(obj, path).value)
          then Get(obj, path) else None)
    // Unrelated paths are unchanged.
    && ((forall f | f in AllFields(registry) :: !Related(f.path, path)) && path[0] != key ==>
          Get(result, path) == Get(obj, path))
  }

  /** No managed path is above another one, and none is at or below the key. */
  ghost predicate Sound(registry: Registry, key: string) {
    PrefixFree(AllFields(registry)) && forall f | f in AllFields(registry) :: f.path[0] != key
  }

  lemma {:induction false} ChangeExact(obj: JsonObject, registry: Registry, change: Change,
                                       key: string, value: Option<Json>, path: Path)
    requires Sound(registry, key)
    ensures ChangedAt(obj, Changed(obj, registry, change, key, value), registry, change, key, value, path)
  {
    var next := Transition(obj, registry, change);
    GetSet(next, [key], value);
    TransitionExact(obj, registry, change, path);
    if path[0] != key {
      SetFrame(next, [key], value, path);
    }
  }

  /** What is written as the type: nothing for a legacy server. */
  function TypeValue(name: string): Option<Json> {
    if name == LEGACY then None else Some(Str(name))
  }

  /** The outcome of choosing a type or an action: no change if it is the present one. */
  ghost predicate Outcome(obj: JsonObject, result: JsonObject, present: bool, registry: Registry, change: Change,
                          key: string, value: Option<Json>, path: Path)
  {
    if present then result == obj else ChangedAt(obj, result, registry, change, key, value, path)
  }

  lemma OutcomeExact(obj: JsonObject, present: bool, registry: Registry, change: Change,
                     key: string, value: Option<Json>, path: Path)
    requires Sound(registry, key)
    ensures Outcome(obj, Chosen(obj, present, registry, change, key, value), present, registry, change, key, value,
                    path)
  {
    ChangeExact(obj, registry, change, key, value, path);
  }

  lemma ShapedSound(registry: Registry)
    requires Shaped(AllFields(registry)) && PrefixFree(AllFields(registry))
    ensures Sound(registry, "type")
  {}

  lemma ServersSound()
    ensures Sound(DNS_SERVERS, "type")
  {
    ServersPrefixFree();
    ShapedSound(DNS_SERVERS);
  }

  lemma ActionShapedSound(registry: Registry)
    requires ActionShaped(AllFields(registry)) && PrefixFree(AllFields(registry))
    ensures Sound(registry, "action")
  {}

  lemma RuleShapedSound(registry: Registry)
    requires RuleShaped(AllFields(registry)) && PrefixFree(AllFields(registry))
    ensures Sound(registry, "type")
  {}

  lemma ServerTypeIsChosen(server: JsonObject, name: string)
    ensures ChangeDNSServerType(server, name) ==
            Chosen(server, InferDNSServerType(server) == name, DNS_SERVERS,
                   ServerChange(InferDNSServerType(server), name), "type", TypeValue(name))
  {}

  lemma ServerOutcome(server: JsonObject, present: bool, change: Change, value: Option<Json>, path: Path)
    ensures Outcome(server, Chosen(server, present, DNS_SERVERS, change, "type", value), present, DNS_SERVERS,
                    change, "type", value, path)
  {
    ServersSound();
    OutcomeExact(server, present, DNS_SERVERS, change, "type", value, path);
  }

  /** Changing the type of a DNS server, on the registry of the form: the type is written (absent for a
      legacy server), a managed path survives exactly as the registry says, nothing is shared between
      legacy and modern servers, and every unrelated path is unchanged. A change to the present type
      changes nothing. */
  lemma ChangeDNSServerTypeExact(server: JsonObject, name: string, path: Path)
    ensures Outcome(server, ChangeDNSServerType(server, name), InferDNSServerType(server) == name, DNS_SERVERS,
                    ServerChange(InferDNSServerType(server), name), "type", TypeValue(name), path)
  {
    ServerTypeIsChosen(server, name);
    ServerOutcome(server, InferDNSServerType(server) == name, ServerChange(InferDNSServerType(server), name),
                  TypeValue(name), path);
  }

  lemma MatchKeyUnrelated(fields: seq<CleanupField>, keys: seq<string>, key: string)
    requires ActionShaped(fields) && NoActionKeys(keys) && key in keys
    ensures key != "action" && forall f | f in fields :: !Related(f.path, [key])
  {}

  /** Changing the action of a DNS rule, on the registry of the form; a change to the explicit present action
      changes nothing. */
  lemma ChangeDNSActionExact(rule: JsonObject, action: string, show: Json -> string, path: Path)
    ensures Outcome(rule, ChangeDNSAction(rule, action, show), IsExplicit(rule, action, show), DNS_ACTIONS,
                    Change(CurrentAction(rule, show), action, true), "action", ActionValue(action), path)
  {
    ActionsShaped();
    ActionShapedSound(DNS_ACTIONS);
    OutcomeExact(rule, IsExplicit(rule, action, show), DNS_ACTIONS, Change(CurrentAction(rule, show), action, true),
                 "action", ActionValue(action), path);
  }

  lemma MatchKeyFacts(key: string)
    requires key in MATCH_KEYS
    ensures key != "action" && forall f | f in AllFields(DNS_ACTIONS) :: !Related(f.path, [key])
  {
    ActionsShaped();
    MatchKeysAreNotActionKeys();
    MatchKeyUnrelated(AllFields(DNS_ACTIONS), MATCH_KEYS, key);
  }

  lemma KeepsUnrelated(rule: JsonObject, action: string, show: Json -> string, path: Path)
    requires path[0] != "action" && forall f | f in AllFields(DNS_ACTIONS) :: !Related(f.path, path)
    ensures Get(ChangeDNSAction(rule, action, show), path) == Get(rule, path)
  {
    ChangeDNSActionExact(rule, action, show, path);
  }

  /** Changing the action never alters a match field. */
  lemma ChangeDNSActionKeepsMatch(rule: JsonObject, action: string, show: Json -> string, key: string)
    requires key in MATCH_KEYS
    ensures Get(ChangeDNSAction(rule, action, show), [key]) == Get(rule, [key])
  {
    MatchKeyFacts(key);
    KeepsUnrelated(rule, action, show, [key]);
  }

  /** Changing the type of a DNS rule, on the registry of the form; a change to the present type changes
      nothing. */
  lemma ChangeDNSRuleTypeExact(rule: JsonObject, name: string, show: Json -> string, path: Path)
    ensures Outcome(rule, ChangeDNSRuleType(rule, name, show), CurrentRuleType(rule, show) == name, DNS_RULES,
                    Change(CurrentRuleType(rule, show), name, true), "type", RuleTypeValue(name), path)
  {
    RulesShaped();
    RuleShapedSound(DNS_RULES);
    OutcomeExact(rule, CurrentRuleType(rule, show) == name, DNS_RULES,
                 Change(CurrentRuleType(rule, show), name, true), "type", RuleTypeValue(name), path);
  }

  lemma ActionUnrelated(fields: seq<CleanupField>, path: Path)
    requires RuleShaped(fields) && (path[0] == "action" || ActionKey(path[0]))
    ensures path[0] != "type" && forall f | f in fields :: !Related(f.path, path)
  {
    forall f | f in fields
      ensures !Related(f.path, path)
    {
      assert f.path[0] != path[0];
    }
  }

  /** Changing the type of a rule never alters its action or a field of it: the converse of
      ChangeDNSActionKeepsMatch. */
  lemma ChangeDNSRuleTypeKeepsAction(rule: JsonObject, name: string, show: Json -> string, path: Path)
    requires path[0] == "action" || ActionKey(path[0])
    ensures Get(ChangeDNSRuleType(rule, name, show), path) == Get(rule, path)
  {
    RulesShaped();
    ActionUnrelated(AllFields(DNS_RULES), path);
    ChangeDNSRuleTypeExact(rule, name, show, path);
  }
}

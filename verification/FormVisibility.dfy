/** Which fields stay in a pruned DNS server and in a pruned endpoint, told by keys and values. */
module FormVisibility {
  import opened Wrappers
  import opened Json
  import opened DottedPath
  import opened PolicyPath
  import opened PolicyPrune
  import opened FormConditions

  // ---- The dialer fields ----

  /** The list has the fields for dialing. */
  ghost predicate Dials(fields: seq<Field>) {
    && Alive("tcp_keep_alive") in fields && Alive("tcp_keep_alive_interval") in fields
    && Resolved("strategy") in fields && Resolved("disable_cache") in fields
    && Resolved("rewrite_ttl") in fields && Resolved("client_subnet") in fields
  }

  lemma DialsConcat(a: seq<Field>, b: seq<Field>)
    requires Dials(a) || Dials(b)
    ensures Dials(a + b)
  {}

  lemma DialerDials()
    ensures Dials(DIALER_FIELDS)
  {
    var alive, resolved := KEEP_ALIVE_FIELDS, RESOLVER_FIELDS;
    assert alive[1] == Alive("tcp_keep_alive") && alive[2] == Alive("tcp_keep_alive_interval");
    assert resolved[1] == Resolved("strategy") && resolved[2] == Resolved("disable_cache");
    assert resolved[3] == Resolved("rewrite_ttl") && resolved[4] == Resolved("client_subnet");
    DialerParts(BIND_FIELDS, alive, resolved, STRATEGY_FIELDS);
  }

  lemma DialerParts(a: seq<Field>, b: seq<Field>, c: seq<Field>, d: seq<Field>)
    requires Alive("tcp_keep_alive") in b && Alive("tcp_keep_alive_interval") in b
    requires Resolved("strategy") in c && Resolved("disable_cache") in c
    requires Resolved("rewrite_ttl") in c && Resolved("client_subnet") in c
    ensures Dials(a + b + c + d)
  {}

  /** In the result keep-alive settings stand only where keep-alive is not disabled, and options of the resolver only
      beside the name of its server. */
  lemma {:induction false} DialingVisible(obj: JsonObject, fields: seq<Field>, key: string)
    requires Dials(fields)
    ensures var result := Pruned(obj, fields);
            && (key in {"tcp_keep_alive", "tcp_keep_alive_interval"} && Get(result, [key]).Some? ==>
                  Get(result, ["disable_tcp_keep_alive"])
                  in {None, Some(Null), Some(Bool(false)), Some(Str("")), Some(Arr([]))})
            && (key in {"strategy", "disable_cache", "rewrite_ttl", "client_subnet"}
                && Get(result, ["domain_resolver", key]).Some? ==>
                  Get(result, ["domain_resolver", "server"])
                  !in {None, Some(Null), Some(Bool(false)), Some(Str("")), Some(Arr([]))})
  {
    var result := Pruned(obj, fields);
    if key in {"tcp_keep_alive", "tcp_keep_alive_interval"} && Get(result, [key]).Some? {
      FalsyConditionMet(obj, fields, Alive(key), KEEP_ALIVE_ON);
    }
    if key in {"strategy", "disable_cache", "rewrite_ttl", "client_subnet"}
       && Get(result, ["domain_resolver", key]).Some? {
      PlainConditionMet(obj, fields, Resolved(key), RESOLVER_ON);
    }
  }

  // ---- DNS servers ----

  /** The types of servers that are reached by dialing, and those among them that use TLS. */
  predicate IsDialing(name: string) {
    IsSecure(name) || name == "local" || name == "udp" || name == "tcp" || name == "dhcp"
  }

  predicate IsSecure(name: string) {
    name == "tls" || name == "quic" || name == "https" || name == "h3"
  }

  ghost predicate Secures(fields: seq<Field>) {
    && Secured("disable_sni") in fields && Secured("server_name") in fields && Secured("insecure") in fields
    && Secured("alpn") in fields && Secured("certificate") in fields && Secured("certificate_path") in fields
  }

  lemma TlsSecures()
    ensures Secures(TLS_FIELDS)
  {
    var tls := TLS_FIELDS;
    assert tls[1] == Secured("disable_sni") && tls[2] == Secured("server_name") && tls[3] == Secured("insecure");
    assert tls[4] == Secured("alpn") && tls[5] == Secured("certificate") && tls[6] == Secured("certificate_path");
  }

  lemma SecuresConcat(a: seq<Field>, b: seq<Field>)
    requires Secures(a) || Secures(b)
    ensures Secures(a + b)
  {}

  lemma ConcatsDial(dialer: seq<Field>, first: seq<Field>, tls: seq<Field>, http: seq<Field>, rest: seq<Field>)
    requires Dials(dialer)
    ensures Dials(dialer + rest) && Dials(first + dialer) && Dials(first + dialer + tls)
    ensures Dials(first + dialer + tls + http)
  {
    DialsConcat(dialer, rest);
    DialsConcat(first, dialer);
    DialsConcat(first + dialer, tls);
    DialsConcat(first + dialer + tls, http);
  }

  lemma LocalFields()
    ensures ServerFields("local") == DIALER_FIELDS + [Always("prefer_go")]
    ensures ServerFields("dhcp") == DIALER_FIELDS + [Always("prefer_go"), Always("interface")]
  {}

  lemma RemoteFields(name: string)
    ensures name == "udp" || name == "tcp" ==> ServerFields(name) == REMOTE_FIELDS
    ensures name == "tls" || name == "quic" ==> ServerFields(name) == REMOTE_FIELDS + TLS_FIELDS
    ensures name == "https" || name == "h3" ==> ServerFields(name) == REMOTE_FIELDS + TLS_FIELDS + HTTP_FIELDS
  {}

  lemma ServerDials(name: string)
    requires IsDialing(name)
    ensures Dials(ServerFields(name))
  {
    DialerDials();
    if name == "local" || name == "dhcp" {
      LocalFields();
      ConcatsDial(DIALER_FIELDS, [], [], [], [Always("prefer_go")]);
      ConcatsDial(DIALER_FIELDS, [], [], [], [Always("prefer_go"), Always("interface")]);
    } else {
      RemoteFields(name);
      ConcatsDial(DIALER_FIELDS, [Always("server"), Always("server_port")], TLS_FIELDS, HTTP_FIELDS, []);
    }
  }

  lemma ServerSecures(name: string)
    requires IsSecure(name)
    ensures Secures(ServerFields(name))
  {
    TlsSecures();
    RemoteFields(name);
    ConcatsSecure(REMOTE_FIELDS, TLS_FIELDS, HTTP_FIELDS);
  }

  lemma ConcatsSecure(remote: seq<Field>, tls: seq<Field>, http: seq<Field>)
    requires Secures(tls)
    ensures Secures(remote + tls) && Secures(remote + tls + http)
  {
    SecuresConcat(remote, tls);
    SecuresConcat(remote + tls, http);
  }

  /** In a pruned server that dials out, keep-alive settings and resolver options stand only where they apply. */
  lemma {:induction false} ServerDialingVisible(obj: JsonObject, name: string, key: string)
    requires IsDialing(name)
    ensures var result := Pruned(obj, ServerFields(name));
            && (key in {"tcp_keep_alive", "tcp_keep_alive_interval"} && Get(result, [key]).Some? ==>
                  Get(result, ["disable_tcp_keep_alive"])
                  in {None, Some(Null), Some(Bool(false)), Some(Str("")), Some(Arr([]))})
            && (key in {"strategy", "disable_cache", "rewrite_ttl", "client_subnet"}
                && Get(result, ["domain_resolver", key]).Some? ==>
                  Get(result, ["domain_resolver", "server"])
                  !in {None, Some(Null), Some(Bool(false)), Some(Str("")), Some(Arr([]))})
  {
    ServerDials(name);
    DialingVisible(obj, ServerFields(name), key);
  }

  /** In a pruned TLS, QUIC, HTTPS or HTTP/3 server TLS settings stand only where TLS is enabled. */
  lemma {:induction false} ServerTlsVisible(obj: JsonObject, name: string, key: string)
    requires IsSecure(name)
    requires key in {"disable_sni", "server_name", "insecure", "alpn", "certificate", "certificate_path"}
    requires Get(Pruned(obj, ServerFields(name)), ["tls", key]).Some?
    ensures Get(Pruned(obj, ServerFields(name)), ["tls", "enabled"]) == Some(Bool(true))
  {
    ServerSecures(name);
    TlsVisible(obj, ServerFields(name), key);
  }

  lemma TlsVisible(obj: JsonObject, fields: seq<Field>, key: string)
    requires Secures(fields)
    requires key in {"disable_sni", "server_name", "insecure", "alpn", "certificate", "certificate_path"}
    requires Get(Pruned(obj, fields), ["tls", key]).Some?
    ensures Get(Pruned(obj, fields), ["tls", "enabled"]) == Some(Bool(true))
  {
    IsConditionMet(obj, fields, Secured(key), TLS_ON);
  }

  // ---- Endpoints ----

  predicate IsWireGuardKey(key: string) {
    || key == "system" || key == "name" || key == "mtu" || key == "address" || key == "private_key"
    || key == "listen_port" || key == "peers" || key == "workers"
  }

  predicate IsTailscaleKey(key: string) {
    || key == "state_directory" || key == "auth_key" || key == "control_url" || key == "ephemeral"
    || key == "hostname" || key == "accept_routes" || key == "exit_node" || key == "advertise_routes"
    || key == "advertise_exit_node" || key == "advertise_tags" || key == "relay_server_port"
    || key == "relay_server_static_endpoints" || key == "system_interface"
  }

  lemma WireGuardListed(key: string)
    requires IsWireGuardKey(key)
    ensures WireGuard(key) in WIREGUARD_FIELDS
  {
    var fields := WIREGUARD_FIELDS;
    assert fields[0] == WireGuard("system") && fields[1] == WireGuard("name") && fields[2] == WireGuard("mtu");
    assert fields[3] == WireGuard("address") && fields[4] == WireGuard("private_key");
    assert fields[5] == WireGuard("listen_port") && fields[6] == WireGuard("peers");
    assert fields[8] == WireGuard("workers");
  }

  lemma TailscaleListed(key: string)
    requires IsTailscaleKey(key)
    ensures Tailscale(key) in TAILSCALE_BASIC_FIELDS || Tailscale(key) in TAILSCALE_OTHER_FIELDS
  {
    var a, b := TAILSCALE_BASIC_FIELDS, TAILSCALE_OTHER_FIELDS;
    assert a[0] == Tailscale("state_directory") && a[1] == Tailscale("auth_key") && a[2] == Tailscale("control_url");
    assert a[3] == Tailscale("ephemeral") && a[4] == Tailscale("hostname") && a[5] == Tailscale("accept_routes");
    assert a[6] == Tailscale("exit_node") && b[0] == Tailscale("advertise_routes");
    assert b[1] == Tailscale("advertise_exit_node") && b[2] == Tailscale("advertise_tags");
    assert b[3] == Tailscale("relay_server_port") && b[4] == Tailscale("relay_server_static_endpoints");
    assert b[5] == Tailscale("system_interface");
  }

  lemma InEndpoint(f: Field)
    requires f in WIREGUARD_FIELDS || f in TAILSCALE_BASIC_FIELDS || f in TAILSCALE_OTHER_FIELDS
    ensures f in ENDPOINT_FIELDS
  {
    InSumOfFive(f, IDENTITY_FIELDS, WIREGUARD_FIELDS, TAILSCALE_BASIC_FIELDS, TAILSCALE_OTHER_FIELDS, DIALER_FIELDS);
  }

  lemma InSumOfFive(f: Field, a: seq<Field>, b: seq<Field>, c: seq<Field>, d: seq<Field>, e: seq<Field>)
    requires f in b || f in c || f in d
    ensures f in a + b + c + d + e
  {}

  lemma OfType(obj: JsonObject, fields: seq<Field>, f: Field, kind: string)
    requires f in fields && Get(Pruned(obj, fields), f.path).Some?
    requires f.when != [] && f.when[0] == When(["type"], Some([Str(kind)]), false)
    ensures Get(Pruned(obj, fields), ["type"]) == Some(Str(kind))
  {
    IsConditionMet(obj, fields, f, f.when[0]);
  }

  /** A pruned endpoint has settings of one type only: WireGuard settings under the type "wireguard". */
  lemma {:induction false} WireGuardVisible(obj: JsonObject, key: string)
    requires IsWireGuardKey(key) && Get(Pruned(obj, ENDPOINT_FIELDS), [key]).Some?
    ensures Get(Pruned(obj, ENDPOINT_FIELDS), ["type"]) == Some(Str("wireguard"))
  {
    WireGuardListed(key);
    InEndpoint(WireGuard(key));
    OfType(obj, ENDPOINT_FIELDS, WireGuard(key), "wireguard");
  }

  /** And Tailscale settings under the type "tailscale". */
  lemma {:induction false} TailscaleVisible(obj: JsonObject, key: string)
    requires IsTailscaleKey(key) && Get(Pruned(obj, ENDPOINT_FIELDS), [key]).Some?
    ensures Get(Pruned(obj, ENDPOINT_FIELDS), ["type"]) == Some(Str("tailscale"))
  {
    TailscaleListed(key);
    InEndpoint(Tailscale(key));
    OfType(obj, ENDPOINT_FIELDS, Tailscale(key), "tailscale");
  }

  lemma NestedListed()
    ensures Field(["exit_node_allow_lan_access"], [IS_TAILSCALE, EXIT_NODE_ON]) in ENDPOINT_FIELDS
    ensures Field(["system_interface_name"], [IS_TAILSCALE, SYSTEM_INTERFACE_ON]) in ENDPOINT_FIELDS
    ensures Field(["system_interface_mtu"], [IS_TAILSCALE, SYSTEM_INTERFACE_ON]) in ENDPOINT_FIELDS
  {
    var a, b := TAILSCALE_BASIC_FIELDS, TAILSCALE_OTHER_FIELDS;
    assert a[7] in a && b[6] in b && b[7] in b;
    InEndpoint(a[7]);
    InEndpoint(b[6]);
    InEndpoint(b[7]);
  }

  /** Access to the local network stands only beside an exit node, the name and size of the system interface only where
      it is switched on, and all three under the type "tailscale". */
  lemma {:induction false} NestedVisible(obj: JsonObject, key: string)
    requires key in {"exit_node_allow_lan_access", "system_interface_name", "system_interface_mtu"}
    requires Get(Pruned(obj, ENDPOINT_FIELDS), [key]).Some?
    ensures var result := Pruned(obj, ENDPOINT_FIELDS);
            && Get(result, ["type"]) == Some(Str("tailscale"))
            && (key == "exit_node_allow_lan_access" ==>
                  Get(result, ["exit_node"]) !in {None, Some(Null), Some(Bool(false)), Some(Str("")), Some(Arr([]))})
            && (key != "exit_node_allow_lan_access" ==> Get(result, ["system_interface"]) == Some(Bool(true)))
  {
    NestedListed();
    Nested(obj, ENDPOINT_FIELDS, key);
  }

  lemma Nested(obj: JsonObject, fields: seq<Field>, key: string)
    requires key in {"exit_node_allow_lan_access", "system_interface_name", "system_interface_mtu"}
    requires Get(Pruned(obj, fields), [key]).Some?
    requires Field(["exit_node_allow_lan_access"], [IS_TAILSCALE, EXIT_NODE_ON]) in fields
    requires Field(["system_interface_name"], [IS_TAILSCALE, SYSTEM_INTERFACE_ON]) in fields
    requires Field(["system_interface_mtu"], [IS_TAILSCALE, SYSTEM_INTERFACE_ON]) in fields
    ensures var result := Pruned(obj, fields);
            && Get(result, ["type"]) == Some(Str("tailscale"))
            && (key == "exit_node_allow_lan_access" ==>
                  Get(result, ["exit_node"]) !in {None, Some(Null), Some(Bool(false)), Some(Str("")), Some(Arr([]))})
            && (key != "exit_node_allow_lan_access" ==> Get(result, ["system_interface"]) == Some(Bool(true)))
  {
    if key == "exit_node_allow_lan_access" {
      var f := Field([key], [IS_TAILSCALE, EXIT_NODE_ON]);
      OfType(obj, fields, f, "tailscale");
      PlainConditionMet(obj, fields, f, f.when[1]);
    } else {
      var f := Field([key], [IS_TAILSCALE, SYSTEM_INTERFACE_ON]);
      OfType(obj, fields, f, "tailscale");
      IsConditionMet(obj, fields, f, f.when[1]);
    }
  }
}

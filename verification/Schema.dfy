/** The privileged sing-box input language and its checker.

    Case folding and the recognition of loopback addresses are parameters, and the checker
    is proved for every schema table whose discriminators lead to plain objects; the table
    of this program is one (`DeployedIsSane`). */
module Schema {

  // A decoded JSON value; numbers keep their text, as with UseNumber.
  datatype Json =
    | Object(members: map<string, Json>)
    | Array(items: seq<Json>)
    | Text(text: string)
    | Flag(flag: bool)
    | Numeral(digits: string)
    | Null

  datatype Name =
    | Root | Log | Dns | DnsServers | DnsServer | DnsServerLocal | DnsServerTls | DnsServerUdp | DnsTls
    | DnsRules | DnsRule | Inbounds | Inbound | InboundTun | Outbounds | Outbound | OutboundVless
    | OutboundDirect | OutboundBlock | OutboundSocks | OutboundTls | Utls | Reality | Transport | TransportGrpc
    | Route | DefaultDomainResolver | RuleSets | RuleSet | RuleSetInline | InlineRules | InlineRule
    | RouteRules | RouteRule | Strings | String | Bool | Number | LoopbackString

  datatype Node =
    | Fields(fields: map<string, Name>, required: seq<string>)
    | Variants(discriminator: string, variants: map<string, Name>)
    | Elements(element: Name)
    | StringNode
    | LoopbackNode
    | BoolNode
    | NumberNode

  function SchemaOf(name: Name): Node {
    match name
    case Root => Fields(map["log" := Log, "dns" := Dns, "inbounds" := Inbounds, "outbounds" := Outbounds, "route" := Route], [])
    case Log => Fields(map["level" := String], [])
    case Dns =>
      Fields(map["servers" := DnsServers, "rules" := DnsRules, "final" := String, "strategy" := String, "reverse_mapping" := Bool], [])
    case DnsServers => Elements(DnsServer)
    case DnsServer => Variants("type", map["local" := DnsServerLocal, "tls" := DnsServerTls, "udp" := DnsServerUdp])
    case DnsServerLocal => Fields(map["type" := String, "tag" := String, "detour" := String], [])
    case DnsServerTls =>
      Fields(map["type" := String, "tag" := String, "server" := String, "server_port" := Number, "detour" := String, "tls" := DnsTls], [])
    case DnsServerUdp =>
      Fields(map["type" := String, "tag" := String, "server" := String, "server_port" := Number, "detour" := String], [])
    case DnsTls => Fields(map["enabled" := Bool, "server_name" := String], [])
    case DnsRules => Elements(DnsRule)
    case DnsRule => Fields(map["domain_suffix" := Strings, "rule_set" := Strings, "action" := String, "server" := String], [])
    case Inbounds => Elements(Inbound)
    case Inbound => Variants("type", map["tun" := InboundTun])
    case InboundTun =>
      Fields(map["type" := String, "tag" := String, "interface_name" := String, "address" := Strings, "auto_route" := Bool,
                 "strict_route" := Bool, "mtu" := Number, "route_exclude_address" := Strings], [])
    case Outbounds => Elements(Outbound)
    case Outbound =>
      Variants("type", map["vless" := OutboundVless, "direct" := OutboundDirect, "block" := OutboundBlock, "socks" := OutboundSocks])
    case OutboundVless =>
      Fields(map["type" := String, "tag" := String, "server" := String, "server_port" := Number, "uuid" := String, "flow" := String,
                 "tls" := OutboundTls, "transport" := Transport, "domain_resolver" := String], [])
    case OutboundDirect => Fields(map["type" := String, "tag" := String, "domain_resolver" := String], [])
    case OutboundBlock => Fields(map["type" := String, "tag" := String], [])
    case OutboundSocks =>
      Fields(map["type" := String, "tag" := String, "server" := LoopbackString, "server_port" := Number, "version" := String], ["server"])
    case OutboundTls =>
      Fields(map["enabled" := Bool, "server_name" := String, "utls" := Utls, "reality" := Reality, "fragment" := Bool,
                 "fragment_fallback_delay" := String, "record_fragment" := Bool, "curve_preferences" := Strings], [])
    case Utls => Fields(map["enabled" := Bool, "fingerprint" := String], [])
    case Reality => Fields(map["enabled" := Bool, "public_key" := String, "short_id" := String], [])
    case Transport => Variants("type", map["grpc" := TransportGrpc])
    case TransportGrpc => Fields(map["type" := String, "service_name" := String], [])
    case Route =>
      Fields(map["auto_detect_interface" := Bool, "default_domain_resolver" := DefaultDomainResolver, "rule_set" := RuleSets,
                 "rules" := RouteRules, "final" := String], [])
    case DefaultDomainResolver => Fields(map["server" := String, "strategy" := String], [])
    case RuleSets => Elements(RuleSet)
    case RuleSet => Variants("type", map["inline" := RuleSetInline])
    case RuleSetInline => Fields(map["type" := String, "tag" := String, "rules" := InlineRules], [])
    case InlineRules => Elements(InlineRule)
    case InlineRule => Fields(map["domain_suffix" := Strings, "ip_cidr" := Strings], [])
    case RouteRules => Elements(RouteRule)
    case RouteRule =>
      Fields(map["process_name" := Strings, "protocol" := String, "ip_is_private" := Bool, "rule_set" := Strings, "sniffer" := Strings,
                 "timeout" := String, "action" := String, "outbound" := String], [])
    case Strings => Elements(String)
    case String => StringNode
    case Bool => BoolNode
    case Number => NumberNode
    case LoopbackString => LoopbackNode
  }

  // The checker's surroundings: case folding, loopback addresses, and the table of schemas.
  datatype Env = Env(lower: string -> string, loopback: string -> bool, schema: Name -> Node)

  // The table this program uses.
  ghost predicate Deployed(env: Env) { forall name :: env.schema(name) == SchemaOf(name) }

  // A discriminator leads to a plain object, so it is followed at most once per value.
  ghost predicate Sane(env: Env) {
    forall name :: env.schema(name).Variants? ==> Plain(env, env.schema(name).variants)
  }

  ghost predicate Plain(env: Env, variants: map<string, Name>) {
    forall variant :: variant in variants ==> env.schema(variants[variant]).Fields?
  }

  lemma DeployedIsSane(env: Env)
    requires Deployed(env)
    ensures Sane(env)
  {
    forall name | env.schema(name).Variants? ensures Plain(env, env.schema(name).variants) {
      forall variant | variant in env.schema(name).variants ensures env.schema(env.schema(name).variants[variant]).Fields? {
        VariantsAreObjects(name, variant);
      }
    }
  }

  lemma VariantsAreObjects(name: Name, variant: string)
    requires SchemaOf(name).Variants? && variant in SchemaOf(name).variants
    ensures SchemaOf(SchemaOf(name).variants[variant]).Fields?
  {
  }

  function Rank(env: Env, name: Name): nat { if env.schema(name).Variants? then 1 else 0 }

  // No two keys of an object are equal ignoring case.
  ghost predicate DistinctKeys(env: Env, members: map<string, Json>) {
    forall a, b :: a in members && b in members && a != b ==> env.lower(a) != env.lower(b)
  }

  ghost predicate HasKey(env: Env, members: map<string, Json>, canonical: string) {
    exists k :: k in members && env.lower(k) == canonical
  }

  /** The grammar: which values a schema admits. */
  ghost predicate Conforms(env: Env, value: Json, name: Name)
    requires Sane(env)
    decreases value, Rank(env, name), 1
  {
    match env.schema(name)
    case Fields(fields, required) => ObjectConforms(env, value, fields, required)
    case Variants(discriminator, variants) => VariantConforms(env, value, discriminator, variants)
    case Elements(element) => ElementsConform(env, value, element)
    case _ => LeafConforms(env, value, env.schema(name))
  }

  predicate LeafConforms(env: Env, value: Json, node: Node) {
    match node
    case StringNode => value.Text?
    case LoopbackNode => value.Text? && env.loopback(value.text)
    case BoolNode => value.Flag?
    case NumberNode => value.Numeral?
    case _ => false
  }

  // Every key is declared and distinct, every required key is there, every member conforms.
  ghost predicate ObjectConforms(env: Env, value: Json, fields: map<string, Name>, required: seq<string>)
    requires Sane(env)
    decreases value, 0, 0, 1
  {
    && value.Object? && DistinctKeys(env, value.members)
    && (forall r :: r in required ==> HasKey(env, value.members, r))
    && MembersConform(env, value, fields)
  }

  ghost predicate MembersConform(env: Env, value: Json, fields: map<string, Name>)
    requires Sane(env) && value.Object?
    decreases value, 0, 0, 0
  {
    forall k :: k in value.members ==> env.lower(k) in fields && Conforms(env, value.members[k], fields[env.lower(k)])
  }

  // A discriminator names a plain object schema, and the value conforms to it.
  ghost predicate VariantConforms(env: Env, value: Json, discriminator: string, variants: map<string, Name>)
    requires Sane(env) && Plain(env, variants)
    decreases value, 1, 0
  {
    && value.Object? && DistinctKeys(env, value.members)
    && exists k :: k in value.members && env.lower(k) == discriminator && value.members[k].Text?
                   && value.members[k].text in variants && Conforms(env, value, variants[value.members[k].text])
  }

  ghost predicate ElementsConform(env: Env, value: Json, element: Name)
    requires Sane(env)
    decreases value, 0, 0
  {
    value.Array? && forall i :: 0 <= i < |value.items| ==> Conforms(env, value.items[i], element)
  }

  // `folded` maps the folded form of each visited key back to the key.
  ghost predicate FoldsExactly(env: Env, folded: map<string, string>, keys: set<string>) {
    && (forall c :: c in folded ==> folded[c] in keys && env.lower(folded[c]) == c)
    && (forall k :: k in keys ==> env.lower(k) in folded && folded[env.lower(k)] == k)
  }

  method FoldKeys(env: Env, members: map<string, Json>) returns (folded: map<string, string>, collides: bool)
    ensures collides <==> !DistinctKeys(env, members)
    ensures !collides ==> FoldsExactly(env, folded, members.Keys)
  {
    folded, collides := map[], false;
    var rest := members.Keys;
    while rest != {}
      invariant rest <= members.Keys && FoldsExactly(env, folded, members.Keys - rest)
      decreases rest
    {
      var key :| key in rest;
      var canonical := env.lower(key);
      if canonical in folded {
        assert folded[canonical] in members && folded[canonical] != key;
        return folded, true;
      }
      folded := folded[canonical := key];
      rest := rest - {key};
    }
    assert members.Keys - rest == members.Keys;
  }

  /** The checker, visiting keys in an arbitrary order.  It terminates, its verdict does not
      depend on that order, and it accepts exactly the values of the grammar. */
  method Walk(env: Env, value: Json, name: Name) returns (ok: bool)
    requires Sane(env)
    ensures ok <==> Conforms(env, value, name)
    decreases value, Rank(env, name), 1
  {
    var node := env.schema(name);
    if node.Fields? {
      ok := WalkObject(env, value, node.fields, node.required);
    } else if node.Variants? {
      ok := WalkVariants(env, value, node.discriminator, node.variants);
    } else if node.Elements? {
      ok := WalkElements(env, value, node.element);
    } else {
      ok := LeafConforms(env, value, node);
    }
  }

  method WalkObject(env: Env, value: Json, fields: map<string, Name>, required: seq<string>) returns (ok: bool)
    requires Sane(env)
    ensures ok <==> ObjectConforms(env, value, fields, required)
    decreases value, 0, 0, 1
  {
    if !value.Object? {
      return false;
    }
    var folded, collides := FoldKeys(env, value.members);
    if collides {
      return false;
    }
    ok := WalkFields(env, value, fields, required, folded);
  }

  method WalkVariants(env: Env, value: Json, discriminator: string, variants: map<string, Name>) returns (ok: bool)
    requires Sane(env) && Plain(env, variants)
    ensures ok <==> VariantConforms(env, value, discriminator, variants)
    decreases value, 1, 0
  {
    if !value.Object? {
      return false;
    }
    var folded, collides := FoldKeys(env, value.members);
    if collides {
      return false;
    }
    if discriminator !in folded {
      return false;
    }
    var actual := folded[discriminator];
    if !value.members[actual].Text? || value.members[actual].text !in variants {
      return false;
    }
    ok := Walk(env, value, variants[value.members[actual].text]);
  }

  method WalkElements(env: Env, value: Json, element: Name) returns (ok: bool)
    requires Sane(env)
    ensures ok <==> ElementsConform(env, value, element)
    decreases value, 0, 0
  {
    if !value.Array? {
      return false;
    }
    for i := 0 to |value.items|
      invariant forall j :: 0 <= j < i ==> Conforms(env, value.items[j], element)
    {
      ok := Walk(env, value.items[i], element);
      if !ok {
        return;
      }
    }
    ok := true;
  }

  // The object part of the grammar, apart from key collisions.
  method WalkFields(env: Env, value: Json, fields: map<string, Name>, required: seq<string>, folded: map<string, string>)
    returns (ok: bool)
    requires Sane(env) && value.Object? && FoldsExactly(env, folded, value.members.Keys)
    ensures ok <==> (forall r :: r in required ==> HasKey(env, value.members, r))
                    && MembersConform(env, value, fields)
    decreases value, 0, 0, 0
  {
    for i := 0 to |required|
      invariant forall j :: 0 <= j < i ==> HasKey(env, value.members, required[j])
    {
      if required[i] !in folded {
        assert required[i] in required && !HasKey(env, value.members, required[i]);
        return false;
      }
    }
    var rest := folded.Keys;
    while rest != {}
      invariant rest <= folded.Keys
      invariant forall c :: c in folded && c !in rest ==> c in fields && Conforms(env, value.members[folded[c]], fields[c])
      decreases rest
    {
      var canonical :| canonical in rest;
      if canonical !in fields {
        assert folded[canonical] in value.members && env.lower(folded[canonical]) == canonical;
        return false;
      }
      ok := Walk(env, value.members[folded[canonical]], fields[canonical]);
      if !ok {
        assert folded[canonical] in value.members && env.lower(folded[canonical]) == canonical;
        return;
      }
      rest := rest - {canonical};
    }
    ok := true;
    forall k | k in value.members ensures env.lower(k) in fields && Conforms(env, value.members[k], fields[env.lower(k)]) {
      assert folded[env.lower(k)] == k;
    }
  }

  // ---------------------------------------------------------------- what acceptance means

  // Every object inside a value has keys distinct ignoring case, all declared by one schema.
  ghost predicate DeclaredThroughout(env: Env, value: Json) {
    match value
    case Object(members) =>
      && DistinctKeys(env, members)
      && (exists name :: DeclaredBy(env, members, name))
      && (forall k :: k in members ==> DeclaredThroughout(env, members[k]))
    case Array(items) => forall i :: 0 <= i < |items| ==> DeclaredThroughout(env, items[i])
    case _ => true
  }

  ghost predicate DeclaredBy(env: Env, members: map<string, Json>, name: Name) {
    env.schema(name).Fields? && forall k :: k in members ==> env.lower(k) in env.schema(name).fields
  }

  /** At every depth of an accepted value, object keys are declared and do not collide
      ignoring case. */
  lemma {:induction false} AcceptedIsDeclaredThroughout(env: Env, value: Json, name: Name)
    requires Sane(env) && Conforms(env, value, name)
    ensures DeclaredThroughout(env, value)
    decreases value, Rank(env, name)
  {
    match env.schema(name)
    case Fields(fields, required) =>
      assert ObjectConforms(env, value, fields, required) && MembersConform(env, value, fields);
      assert DeclaredBy(env, value.members, name);
      forall k | k in value.members ensures DeclaredThroughout(env, value.members[k]) {
        AcceptedIsDeclaredThroughout(env, value.members[k], fields[env.lower(k)]);
      }
    case Variants(discriminator, variants) =>
      assert VariantConforms(env, value, discriminator, variants);
      var k :| k in value.members && env.lower(k) == discriminator && value.members[k].Text?
               && value.members[k].text in variants && Conforms(env, value, variants[value.members[k].text]);
      AcceptedIsDeclaredThroughout(env, value, variants[value.members[k].text]);
    case Elements(element) =>
      assert ElementsConform(env, value, element);
      forall i | 0 <= i < |value.items| ensures DeclaredThroughout(env, value.items[i]) {
        AcceptedIsDeclaredThroughout(env, value.items[i], element);
      }
    case _ =>
  }

  // The member a folded key stands for.
  ghost predicate Member(env: Env, value: Json, canonical: string, member: Json) {
    value.Object? && exists k :: k in value.members && env.lower(k) == canonical && value.members[k] == member
  }

  lemma MemberConforms(env: Env, value: Json, name: Name, canonical: string, member: Json)
    requires Sane(env) && Conforms(env, value, name) && env.schema(name).Fields? && Member(env, value, canonical, member)
    ensures ObjectConforms(env, value, env.schema(name).fields, env.schema(name).required)
    ensures canonical in env.schema(name).fields && Conforms(env, member, env.schema(name).fields[canonical])
  {
    assert ObjectConforms(env, value, env.schema(name).fields, env.schema(name).required);
    assert MembersConform(env, value, env.schema(name).fields);
  }

  // The discriminator of an accepted variant is a known one, and unique ignoring case.
  lemma VariantChosen(env: Env, value: Json, name: Name, chosen: Json)
    requires Sane(env) && Conforms(env, value, name) && env.schema(name).Variants? && Member(env, value, env.schema(name).discriminator, chosen)
    ensures chosen.Text? && chosen.text in env.schema(name).variants && Conforms(env, value, env.schema(name).variants[chosen.text])
  {
  }

  // There is a discriminator.
  lemma VariantNamed(env: Env, value: Json, name: Name) returns (chosen: Json)
    requires Sane(env) && Conforms(env, value, name) && env.schema(name).Variants?
    ensures Member(env, value, env.schema(name).discriminator, chosen)
  {
    var node := env.schema(name);
    assert VariantConforms(env, value, node.discriminator, node.variants);
    var k :| k in value.members && env.lower(k) == node.discriminator && value.members[k].Text?
             && value.members[k].text in node.variants && Conforms(env, value, node.variants[value.members[k].text]);
    chosen := value.members[k];
  }

  // A type member is there, and every one there is, in whatever spelling, says "tun".
  ghost predicate IsTun(env: Env, inbound: Json) {
    Member(env, inbound, "type", Text("tun")) && forall chosen :: Member(env, inbound, "type", chosen) ==> chosen == Text("tun")
  }

  lemma InboundIsTun(env: Env, inbound: Json)
    requires Deployed(env) && Sane(env) && Conforms(env, inbound, Inbound)
    ensures IsTun(env, inbound)
  {
    assert env.schema(Inbound) == Variants("type", map["tun" := InboundTun]);
    forall chosen | Member(env, inbound, "type", chosen) ensures chosen == Text("tun") {
      VariantChosen(env, inbound, Inbound, chosen);
    }
    var chosen := VariantNamed(env, inbound, Inbound);
  }

  /** The inbounds of an accepted configuration are a list, and every one is a tun inbound. */
  lemma InboundsAreTun(env: Env, config: Json, inbounds: Json)
    requires Deployed(env) && Sane(env) && Conforms(env, config, Root) && Member(env, config, "inbounds", inbounds)
    ensures inbounds.Array? && forall i :: 0 <= i < |inbounds.items| ==> IsTun(env, inbounds.items[i])
  {
    RootMember(env, config, "inbounds", inbounds, Inbounds, Inbound);
    forall i | 0 <= i < |inbounds.items| ensures IsTun(env, inbounds.items[i]) {
      InboundIsTun(env, inbounds.items[i]);
    }
  }

  // A list member of the root is a list of conforming elements.
  lemma RootMember(env: Env, config: Json, key: string, list: Json, name: Name, element: Name)
    requires Deployed(env) && Sane(env) && Conforms(env, config, Root) && Member(env, config, key, list)
    requires (key == "inbounds" && name == Inbounds && element == Inbound) || (key == "outbounds" && name == Outbounds && element == Outbound)
    ensures list.Array? && forall i :: 0 <= i < |list.items| ==> Conforms(env, list.items[i], element)
  {
    MemberConforms(env, config, Root, key, list);
    assert ElementsConform(env, list, element);
  }

  /** Every socks outbound of an accepted configuration names a server, and every server it
      names is a loopback address. */
  lemma SocksServersAreLoopback(env: Env, config: Json, outbounds: Json, i: nat)
    requires Deployed(env) && Sane(env) && Conforms(env, config, Root) && Member(env, config, "outbounds", outbounds)
    ensures outbounds.Array?
    ensures i < |outbounds.items| && Member(env, outbounds.items[i], "type", Text("socks")) ==>
            && outbounds.items[i].Object? && HasKey(env, outbounds.items[i].members, "server")
            && forall server :: Member(env, outbounds.items[i], "server", server) ==> server.Text? && env.loopback(server.text)
  {
    RootMember(env, config, "outbounds", outbounds, Outbounds, Outbound);
    if i < |outbounds.items| && Member(env, outbounds.items[i], "type", Text("socks")) {
      SocksConforms(env, outbounds.items[i]);
      SocksServer(env, outbounds.items[i]);
    }
  }

  lemma SocksConforms(env: Env, outbound: Json)
    requires Deployed(env) && Sane(env) && Conforms(env, outbound, Outbound) && Member(env, outbound, "type", Text("socks"))
    ensures Conforms(env, outbound, OutboundSocks)
  {
  }

  lemma SocksTable()
    ensures SchemaOf(OutboundSocks).Fields? && "server" in SchemaOf(OutboundSocks).required
    ensures "server" in SchemaOf(OutboundSocks).fields && SchemaOf(OutboundSocks).fields["server"] == LoopbackString
  {
  }

  lemma SocksServer(env: Env, outbound: Json)
    requires Deployed(env) && Sane(env) && Conforms(env, outbound, OutboundSocks)
    ensures outbound.Object? && HasKey(env, outbound.members, "server")
    ensures forall server :: Member(env, outbound, "server", server) ==> server.Text? && env.loopback(server.text)
  {
    SocksTable();
    assert ObjectConforms(env, outbound, SchemaOf(OutboundSocks).fields, SchemaOf(OutboundSocks).required);
    forall server | Member(env, outbound, "server", server) ensures server.Text? && env.loopback(server.text) {
      MemberConforms(env, outbound, OutboundSocks, "server", server);
    }
  }
}

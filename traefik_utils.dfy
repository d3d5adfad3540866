/**
 * Route keys and rules for Traefik v2: how a JupyterHub route spec
 * (`/user/alice/` or `host.tld/path`) becomes a Traefik matching rule, an
 * alias naming its router and service, and the key paths under which the
 * route is stored in a key-value store; and how the configured key prefix
 * is normalised.
 */
module TraefikUtils {
  import opened Strings
  import opened PercentDecoding
  import opened Escapism

  /** The proxy object, as far as the key builders read it. */
  datatype Proxy = Proxy(kvTraefikPrefix: string)

  /** The six identifiers of one route. */
  datatype RouteKeys = RouteKeys(
    backendAlias: string,
    backendUrlPath: string,
    backendWeightPath: string,
    frontendAlias: string,
    frontendBackendPath: string,
    frontendRulePath: string)

  /** A host-form route spec without a `/` (Python raises `ValueError` on unpacking the split). */
  datatype RuleError = MalformedRouteSpec(routespec: string)

  datatype RuleResult = Ok(rule: string) | Err(error: RuleError)

  // ---------------------------------------------------------------------
  // KVStorePrefix.validate

  /** The configured prefix with a `/` appended unless it already ends with one. */
  function SlashTerminated(value: string): (u: string)
    ensures EndsWith(u, "/")
    ensures u == value || u == value + "/"
    ensures EndsWith(value, "/") ==> u == value
  {
    if EndsWith(value, "/") then value else value + "/"
  }

  /**
   * `KVStorePrefix.validate`; `isConsul` says whether the proxy's class
   * name contains `Consul`.
   */
  function ValidatePrefix(value: string, isConsul: bool): (u: string)
    ensures !isConsul ==> EndsWith(u, "/") && (u == value || u == value + "/")
    ensures !isConsul && EndsWith(value, "/") ==> u == value
    ensures isConsul ==>
      if StartsWith(SlashTerminated(value), "/") then "/" + u == SlashTerminated(value)
      else u == SlashTerminated(value)
  {
    var u := SlashTerminated(value);
    if isConsul && StartsWith(u, "/") then u[1..] else u
  }

  /** Without the Consul flag the normalisation changes nothing the second time. */
  lemma ValidatePrefixIdempotent(value: string)
    ensures ValidatePrefix(ValidatePrefix(value, false), false) == ValidatePrefix(value, false)
  {
  }

  /** With the Consul flag the result ends with `/` unless it is empty. */
  lemma ConsulPrefixShape(value: string)
    ensures var u := ValidatePrefix(value, true); u == "" || EndsWith(u, "/")
  {
  }

  /** With the Consul flag `/` becomes the empty prefix. */
  lemma ConsulRootIsEmpty()
    ensures ValidatePrefix("/", true) == ""
  {
  }

  /**
   * With the Consul flag the normalisation is not idempotent, and its result
   * may still start with `/`: `//a/` becomes `/a/`, which becomes `a/`.
   */
  lemma ConsulPrefixNotIdempotent()
    ensures ValidatePrefix("//a/", true) == "/a/"
    ensures ValidatePrefix("/a/", true) == "a/"
    ensures ValidatePrefix(ValidatePrefix("//a/", true), true) != ValidatePrefix("//a/", true)
  {
  }

  // ---------------------------------------------------------------------
  // generate_rule

  /** `generate_rule`: the Traefik rule for a route spec, after percent-decoding it. */
  function GenerateRule(routespec: string): (r: RuleResult)
    ensures var d := Unquote(routespec);
      StartsWith(d, "/") ==> r == Ok("PathPrefix(`" + d + "`)")
    ensures var d := Unquote(routespec);
      r.Err? <==> !StartsWith(d, "/") && '/' !in d
    ensures r.Err? ==> r.error == MalformedRouteSpec(routespec)
  {
    var d := Unquote(routespec);
    if StartsWith(d, "/") then
      Ok("PathPrefix(`" + d + "`)")
    else
      match SplitFirst(d, '/')
      case None => Err(MalformedRouteSpec(routespec))
      case Some((host, rest)) =>
        var pathPrefix := "/" + rest;
        Ok("Host(`" + host + "`) && PathPrefix(`" + pathPrefix + "`)")
  }

  /**
   * A host-form spec that decodes to `host + "/" + path`, with no `/` in
   * `host`, becomes a `Host` rule for `host` and a `PathPrefix` rule for
   * `"/" + path`.
   */
  lemma RuleHostForm(routespec: string, host: string, path: string)
    requires Unquote(routespec) == host + "/" + path
    requires host != "" && '/' !in host
    ensures GenerateRule(routespec) == Ok("Host(`" + host + "`) && PathPrefix(`/" + path + "`)")
  {
    var d := Unquote(routespec);
    assert !StartsWith(d, "/") by { assert d[0] == host[0] != '/'; }
    SplitFirstAtFirst(d, '/', host, path);
    assert GenerateRule(routespec) == Ok("Host(`" + host + "`) && PathPrefix(`" + ("/" + path) + "`)");
    var x := "Host(`" + host;
    AppendAssoc(x + "`) && PathPrefix(`", "/", path);
    AppendAssoc(x, "`) && PathPrefix(`", "/");
    assert "`) && PathPrefix(`" + "/" == "`) && PathPrefix(`/";
  }

  // ---------------------------------------------------------------------
  // generate_alias

  /** The safe set of `generate_alias`: `string.ascii_letters + string.digits + "-"`. */
  function AliasSafe(c: char): (b: bool)
    ensures b <==> c in AsciiLetters + Digits + "-"
  {
    CharRangeMembership('a' as nat, 'z' as nat, c);
    CharRangeMembership('A' as nat, 'Z' as nat, c);
    CharRangeMembership('0' as nat, '9' as nat, c);
    'a' <= c <= 'z' || 'A' <= c <= 'Z' || '0' <= c <= '9' || c == '-'
  }

  /**
   * The string that is escaped: the spec, with the root `/` swapped for
   * `/public`, and every `/` then replaced by `-`.
   */
  function AliasBase(routespec: string): (r: string)
    ensures routespec == "/" ==> r == "-public"
    ensures routespec != "/" ==> r == ReplaceChar(routespec, '/', '-')
    ensures routespec != "/" ==> |r| == |routespec|
    ensures '/' !in r
    ensures (forall i :: 0 <= i < |routespec| ==> routespec[i] == '/' || AliasSafe(routespec[i])) ==>
      forall i :: 0 <= i < |r| ==> AliasSafe(r[i])
  {
    ReplaceChar(if routespec == "/" then "/public" else routespec, '/', '-')
  }

  /**
   * `generate_alias`: `serverType` followed by the escaped spec; `esc` is
   * the escape sequence escapism writes for one unsafe character.
   */
  function GenerateAlias(routespec: string, serverType: string, esc: CharEscaper): (r: string)
    ensures StartsWith(r, serverType)
    ensures routespec == "/" ==> r == serverType + "-public"
    ensures routespec != "/" && (forall i :: 0 <= i < |routespec| ==> routespec[i] == '/' || AliasSafe(routespec[i]))
      ==> r == serverType + ReplaceChar(routespec, '/', '-')
  {
    var r := serverType + Escape(AliasBase(routespec), AliasSafe, esc);
    assert r[..|serverType|] == serverType;
    r
  }

  /** `/` is named like `/public`. */
  lemma AliasOfRoot(serverType: string, esc: CharEscaper)
    ensures GenerateAlias("/", serverType, esc) == GenerateAlias("/public", serverType, esc)
  {
  }

  /**
   * `/` and `-` give the same alias character: two specs that differ only by
   * a `/` in place of a `-` get the same alias, unless the `/` form is the
   * root spec `/`, which is named as `/public`.
   */
  lemma AliasSlashDashCollide(u: string, v: string, serverType: string, esc: CharEscaper)
    requires u + "/" + v != "/"
    ensures GenerateAlias(u + "/" + v, serverType, esc) == GenerateAlias(u + "-" + v, serverType, esc)
  {
    var a, b := u + "/" + v, u + "-" + v;
    assert b != "/" by { assert b[|u|] == '-'; }
    var ra, rb := ReplaceChar(a, '/', '-'), ReplaceChar(b, '/', '-');
    assert |ra| == |rb|;
    forall i | 0 <= i < |ra| ensures ra[i] == rb[i] {
      if i != |u| {
        assert a[i] == b[i];
      }
    }
    assert ra == rb;
  }

  /** Aliases are not injective: `/a-b` and `/a/b` are named alike. */
  lemma AliasNotInjective(serverType: string, esc: CharEscaper)
    ensures "/a-b" != "/a/b"
    ensures GenerateAlias("/a-b", serverType, esc) == GenerateAlias("/a/b", serverType, esc)
  {
  }

  /**
   * The rule is built from the percent-decoded spec and the alias from the
   * spec as given: `/a%2Fb` and `/a/b` share a rule but not an alias.
   */
  lemma AliasIsNotDecoded(serverType: string, esc: CharEscaper)
    ensures GenerateRule("/a%2Fb") == GenerateRule("/a/b")
    ensures GenerateAlias("/a%2Fb", serverType, esc) != GenerateAlias("/a/b", serverType, esc)
  {
    UnquoteExample();
    assert StartsWith("/a/b", "/");
    assert |GenerateAlias("/a/b", serverType, esc)| == |serverType| + 4 by {
      var s := "/a/b";
      assert forall i :: 0 <= i < |s| ==> s[i] == '/' || AliasSafe(s[i]);
    }
    EncodedAliasLength(serverType, esc);
  }

  lemma EncodedAliasLength(serverType: string, esc: CharEscaper)
    ensures |GenerateAlias("/a%2Fb", serverType, esc)| >= |serverType| + 5
  {
    EncodedAliasBase();
    EscapeAppend("-a" + "%", "2Fb", AliasSafe, esc);
    EscapeAppend("-a", "%", AliasSafe, esc);
    SafeEscapes(esc);
  }

  lemma EncodedAliasBase()
    ensures AliasBase("/a%2Fb") == "-a" + "%" + "2Fb"
  {
    var b := ReplaceChar("/a%2Fb", '/', '-');
    assert |b| == 6;
    assert b[0] == '-' && b[1] == 'a' && b[2] == '%' && b[3] == '2' && b[4] == 'F' && b[5] == 'b';
  }

  lemma SafeEscapes(esc: CharEscaper)
    ensures Escape("-a", AliasSafe, esc) == "-a"
    ensures Escape("2Fb", AliasSafe, esc) == "2Fb"
  {
    var x, y := "-a", "2Fb";
    assert forall i :: 0 <= i < |x| ==> AliasSafe(x[i]);
    assert forall i :: 0 <= i < |y| ==> AliasSafe(y[i]);
  }

  lemma UnquoteExample()
    ensures Unquote("/a%2Fb") == "/a/b"
    ensures Unquote("/a/b") == "/a/b"
  {
    var s := "/a%2Fb";
    assert Unquote(s[5..]) == "b";
    assert Unquote(s[2..]) == "/b";
    assert Unquote(s[1..]) == "a/b";
  }

  /**
   * When no escape sequence contains `/`, neither does the alias of a
   * designator without `/`: an alias is one segment of a key path.
   */
  lemma AliasHasNoSlash(routespec: string, serverType: string, esc: CharEscaper)
    requires '/' !in serverType
    requires forall c :: '/' !in esc(c)
    ensures '/' !in GenerateAlias(routespec, serverType, esc)
  {
    var base := AliasBase(routespec);
    assert '/' !in base by {
      forall i | 0 <= i < |base| ensures base[i] != '/' { }
    }
    EscapeAvoids(base, AliasSafe, esc, '/');
  }

  // ---------------------------------------------------------------------
  // Key-path builders

  /**
   * `generate_backend_entry`: the service's load-balancer key, with the
   * proxy's prefix only when `separator` is `/`; `url` (which wins over
   * `weight`) appends `servers`, `0` and `url`, and `weight` appends
   * `serverstransport`, each word preceded by the separator.
   */
  function GenerateBackendEntry(proxy: Proxy, backendAlias: string, separator: string, url: bool, weight: bool): (r: string)
    ensures var p := proxy.kvTraefikPrefix;
      separator == "/" ==>
        && (url ==> r == p + "http/services/" + backendAlias + "/loadbalancer/servers/0/url")
        && (!url && weight ==> r == p + "http/services/" + backendAlias + "/loadbalancer/serverstransport")
        && (!url && !weight ==> r == p + "http/services/" + backendAlias + "/loadbalancer")
    ensures var base := "http" + separator + "services" + separator + backendAlias + separator + "loadbalancer";
      separator != "/" ==>
        && (url ==> r == base + separator + "servers" + separator + "0" + separator + "url")
        && (!url && weight ==> r == base + separator + "serverstransport")
        && (!url && !weight ==> r == base)
  {
    var head := if separator == "/" then proxy.kvTraefikPrefix else "";
    var loadBalancer := Join(separator, ["http", "services", backendAlias, "loadbalancer"]);
    var server := Join(separator, ["servers", "0", "url"]);
    JoinFour(separator, "http", "services", backendAlias, "loadbalancer");
    JoinThree(separator, "servers", "0", "url");
    SlashLoadBalancerJoin(backendAlias);
    SlashServerJoin();
    ServiceTexts(proxy.kvTraefikPrefix, backendAlias);
    assert separator != "/" ==> head + loadBalancer == loadBalancer;
    var entry := head + loadBalancer;
    if url then entry + separator + server
    else if weight then entry + separator + "serverstransport"
    else entry
  }

  /** The joins of `generate_backend_entry` for the separator `/`, written out. */
  lemma SlashLoadBalancerJoin(a: string)
    ensures Join("/", ["http", "services", a, "loadbalancer"]) == "http/services/" + a + "/loadbalancer"
  {
    JoinFour("/", "http", "services", a, "loadbalancer");
    assert "http" + "/" + "services" + "/" == "http/services/";
    AppendAssoc("http/services/" + a, "/", "loadbalancer");
    assert "/" + "loadbalancer" == "/loadbalancer";
  }

  lemma SlashServerJoin()
    ensures Join("/", ["servers", "0", "url"]) == "servers/0/url"
  {
    JoinThree("/", "servers", "0", "url");
    assert "servers" + "/" + "0" + "/" + "url" == "servers/0/url";
  }

  /** The prefixed service keys, regrouped into their literal segments. */
  lemma ServiceTexts(p: string, a: string)
    ensures var lb := "http/services/" + a + "/loadbalancer";
      && p + lb == p + "http/services/" + a + "/loadbalancer"
      && p + lb + "/" + "servers/0/url" == p + "http/services/" + a + "/loadbalancer/servers/0/url"
      && p + lb + "/" + "serverstransport" == p + "http/services/" + a + "/loadbalancer/serverstransport"
  {
    var h := "http/services/";
    var lb := h + a + "/loadbalancer";
    AppendAssoc(p, h, a);
    AppendAssoc(p, h + a, "/loadbalancer");
    AppendAssoc(p + lb, "/", "servers/0/url");
    AppendAssoc(p + h + a, "/loadbalancer", "/servers/0/url");
    assert "/loadbalancer" + "/servers/0/url" == "/loadbalancer/servers/0/url";
    AppendAssoc(p + lb, "/", "serverstransport");
    AppendAssoc(p + h + a, "/loadbalancer", "/serverstransport");
    assert "/loadbalancer" + "/serverstransport" == "/loadbalancer/serverstransport";
  }

  /** `url` takes precedence over `weight`. */
  lemma BackendEntryUrlWins(proxy: Proxy, backendAlias: string, separator: string)
    ensures GenerateBackendEntry(proxy, backendAlias, separator, true, true)
         == GenerateBackendEntry(proxy, backendAlias, separator, true, false)
  {
  }

  /** With neither flag the key ends at `loadbalancer`. */
  lemma BackendEntryDefault(proxy: Proxy, backendAlias: string, separator: string)
    ensures EndsWith(GenerateBackendEntry(proxy, backendAlias, separator, false, false), separator + "loadbalancer")
  {
    var r := GenerateBackendEntry(proxy, backendAlias, separator, false, false);
    if separator == "/" {
      var x := proxy.kvTraefikPrefix + "http/services/" + backendAlias;
      assert "/" + "loadbalancer" == "/loadbalancer";
      assert r == x + "/loadbalancer";
      EndsWithAppend(x, "/loadbalancer");
    } else {
      var x := "http" + separator + "services" + separator + backendAlias;
      assert r == x + separator + "loadbalancer";
      AppendAssoc(x, separator, "loadbalancer");
      EndsWithAppend(x, separator + "loadbalancer");
    }
  }

  /** `generate_frontend_backend_entry`: always under the prefix, always with `/`. */
  function GenerateFrontendBackendEntry(proxy: Proxy, frontendAlias: string): (r: string)
    ensures StartsWith(r, proxy.kvTraefikPrefix)
    ensures EndsWith(r, "/service")
    ensures r[|proxy.kvTraefikPrefix|..] == "http/routers/" + frontendAlias + "/service"
  {
    var r := proxy.kvTraefikPrefix + "http/routers/" + frontendAlias + "/service";
    EndsWithAppend(proxy.kvTraefikPrefix + "http/routers/" + frontendAlias, "/service");
    r
  }

  /**
   * `generate_frontend_rule_entry`: with `/`, the prefixed key of the
   * router's rule; otherwise the router's own path, without prefix.
   */
  function GenerateFrontendRuleEntry(proxy: Proxy, frontendAlias: string, separator: string): (r: string)
    ensures separator == "/" ==> r == proxy.kvTraefikPrefix + "http/routers/" + frontendAlias + "/rule"
    ensures separator != "/" ==> r == "http" + separator + "routers" + separator + frontendAlias
  {
    JoinThree(separator, "http", "routers", frontendAlias);
    var entry := Join(separator, ["http", "routers", frontendAlias]);
    if separator == "/" then
      SlashRulePath(proxy.kvTraefikPrefix, frontendAlias);
      proxy.kvTraefikPrefix + entry + separator + "rule"
    else entry
  }

  /** The joined router rule key for the separator `/`, written out. */
  lemma SlashRulePath(p: string, a: string)
    ensures p + Join("/", ["http", "routers", a]) + "/" + "rule" == p + "http/routers/" + a + "/rule"
  {
    var h := "http/routers/";
    JoinThree("/", "http", "routers", a);
    assert "http" + "/" + "routers" + "/" == h;
    AppendAssoc(p, h, a);
    AppendAssoc(p + h + a, "/", "rule");
  }

  // ---------------------------------------------------------------------
  // generate_route_keys

  /**
   * `generate_route_keys`: one alias for both router and service; with any
   * separator but `.` the four prefixed key paths of the key-value layout
   * (the separator itself is not passed on), with `.` only the two dotted,
   * unprefixed paths and two empty ones.
   */
  function GenerateRouteKeys(proxy: Proxy, routespec: string, desig: string, separator: string, esc: CharEscaper): (r: RouteKeys)
    ensures r.backendAlias == GenerateAlias(routespec, desig, esc)
    ensures r.frontendAlias == r.backendAlias
    ensures var p, a := proxy.kvTraefikPrefix, r.backendAlias;
      separator != "." ==>
        && r.backendUrlPath == p + "http/services/" + a + "/loadbalancer/servers/0/url"
        && r.backendWeightPath == p + "http/services/" + a + "/loadbalancer/serverstransport"
        && r.frontendBackendPath == p + "http/routers/" + a + "/service"
        && r.frontendRulePath == p + "http/routers/" + a + "/rule"
    ensures var a := r.backendAlias;
      separator == "." ==>
        && r.backendUrlPath == "http.services." + a + ".loadbalancer"
        && r.frontendRulePath == "http.routers." + a
        && r.backendWeightPath == ""
        && r.frontendBackendPath == ""
  {
    var backendAlias := GenerateAlias(routespec, desig, esc);
    var frontendAlias := backendAlias;
    DottedPathShapes(proxy, backendAlias);
    if separator != "." then
      RouteKeys(
        backendAlias,
        GenerateBackendEntry(proxy, backendAlias, "/", true, false),
        GenerateBackendEntry(proxy, backendAlias, "/", false, true),
        frontendAlias,
        GenerateFrontendBackendEntry(proxy, frontendAlias),
        GenerateFrontendRuleEntry(proxy, frontendAlias, "/"))
    else
      RouteKeys(
        backendAlias,
        GenerateBackendEntry(proxy, backendAlias, separator, false, false),
        "",
        frontendAlias,
        "",
        GenerateFrontendRuleEntry(proxy, frontendAlias, separator))
  }

  lemma DottedPathShapes(proxy: Proxy, a: string)
    ensures GenerateBackendEntry(proxy, a, ".", false, false) == "http.services." + a + ".loadbalancer"
    ensures GenerateFrontendRuleEntry(proxy, a, ".") == "http.routers." + a
  {
    assert "http" + "." + "services" + "." == "http.services.";
    AppendAssoc("http.services." + a, ".", "loadbalancer");
    assert "http" + "." + "routers" + "." == "http.routers.";
  }

  /** Every separator other than `.` gives the keys of the default `/`. */
  lemma SeparatorNotForwarded(proxy: Proxy, routespec: string, desig: string, separator: string, esc: CharEscaper)
    requires separator != "."
    ensures GenerateRouteKeys(proxy, routespec, desig, separator, esc) == GenerateRouteKeys(proxy, routespec, desig, "/", esc)
  {
  }

  /** With `.` the prefix plays no part. */
  lemma DottedKeysIgnorePrefix(p1: Proxy, p2: Proxy, routespec: string, desig: string, esc: CharEscaper)
    ensures GenerateRouteKeys(p1, routespec, desig, ".", esc) == GenerateRouteKeys(p2, routespec, desig, ".", esc)
  {
  }

  /** In the key-value layout the four key paths of a route are pairwise distinct. */
  lemma KvPathsDistinct(proxy: Proxy, routespec: string, desig: string, separator: string, esc: CharEscaper)
    requires separator != "."
    ensures var k := GenerateRouteKeys(proxy, routespec, desig, separator, esc);
      && k.backendUrlPath != k.backendWeightPath
      && k.backendUrlPath != k.frontendBackendPath
      && k.backendUrlPath != k.frontendRulePath
      && k.backendWeightPath != k.frontendBackendPath
      && k.backendWeightPath != k.frontendRulePath
      && k.frontendBackendPath != k.frontendRulePath
  {
  }

  /**
   * Under one prefix a route's URL key determines its alias, so routes with
   * different aliases never share a URL key.
   */
  lemma KvUrlPathDeterminesAlias(proxy: Proxy, spec1: string, spec2: string, desig: string, separator: string, esc: CharEscaper)
    requires separator != "."
    requires GenerateRouteKeys(proxy, spec1, desig, separator, esc).backendUrlPath
          == GenerateRouteKeys(proxy, spec2, desig, separator, esc).backendUrlPath
    ensures GenerateAlias(spec1, desig, esc) == GenerateAlias(spec2, desig, esc)
  {
    var a1, a2 := GenerateAlias(spec1, desig, esc), GenerateAlias(spec2, desig, esc);
    var head := proxy.kvTraefikPrefix + "http/services/";
    AppendAssoc(proxy.kvTraefikPrefix, "http/services/", a1);
    AppendAssoc(proxy.kvTraefikPrefix, "http/services/", a2);
    CancelAround(head, a1, a2, "/loadbalancer/servers/0/url");
  }
}

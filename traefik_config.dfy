/** The gateway's dynamic configuration: for every active fleet entry one HTTP router matching
    the entry's subdomain under DOMAIN and one service forwarding to the entry's local port on
    the backend host. The file itself is a value the Gateway object holds. */
module TraefikConfig {
  import opened Wrappers
  import opened Models
  import opened Database
  import opened Text

  datatype Router = Router(rule: string, service: string, entryPoints: seq<string>)

  /** A load balancer over the given server URLs. */
  datatype Service = Service(serverUrls: seq<string>)

  /** The file's content: the "# No active proxies" marker, or the http routers and services. */
  datatype GatewayConfig = NoActiveProxies | Routes(routers: map<string, Router>, services: map<string, Service>)

  function RouterName(subdomain: string): string { subdomain + "-router" }

  function ServiceName(subdomain: string): string { subdomain + "-service" }

  function RouterFor(p: ProxyKey, domain: string): Router
  {
    Router("Host(`" + p.subdomain + "." + domain + "`)", ServiceName(p.subdomain), ["web"])
  }

  function ServiceFor(p: ProxyKey): Service
  {
    Service(["http://backend:" + IntToString(p.port)])
  }

  lemma {:induction false} SuffixInjective(a: string, b: string, suffix: string)
    requires a + suffix == b + suffix
    ensures a == b
  {
    assert a == (a + suffix)[..|a|];
    assert b == (b + suffix)[..|b|];
  }

  /** The routers the loop inserts, a later entry overwriting an earlier one of the same name. */
  function RoutersOf(ps: seq<ProxyKey>, domain: string): map<string, Router>
    decreases |ps|
  {
    if ps == [] then map[]
    else RoutersOf(ps[..|ps| - 1], domain)[RouterName(ps[|ps| - 1].subdomain) := RouterFor(ps[|ps| - 1], domain)]
  }

  /** The services the loop inserts, a later entry overwriting an earlier one of the same name. */
  function ServicesOf(ps: seq<ProxyKey>): map<string, Service>
    decreases |ps|
  {
    if ps == [] then map[]
    else ServicesOf(ps[..|ps| - 1])[ServiceName(ps[|ps| - 1].subdomain) := ServiceFor(ps[|ps| - 1])]
  }

  /** One router per subdomain of the entries, each the router built from an entry of that subdomain. */
  lemma {:induction false} RoutersOfContents(ps: seq<ProxyKey>, domain: string)
    ensures RoutersOf(ps, domain).Keys == set p | p in ps :: RouterName(p.subdomain)
    ensures var m := RoutersOf(ps, domain);
      forall k :: k in m ==> exists p :: p in ps && k == RouterName(p.subdomain) && m[k] == RouterFor(p, domain)
    decreases |ps|
  {
    if ps != [] {
      var init := ps[..|ps| - 1];
      var last := ps[|ps| - 1];
      assert ps == init + [last];
      assert forall p :: p in ps <==> p in init || p == last;
      RoutersOfContents(init, domain);
    }
  }

  /** One service per subdomain of the entries, each the service built from an entry of that subdomain. */
  lemma {:induction false} ServicesOfContents(ps: seq<ProxyKey>)
    ensures ServicesOf(ps).Keys == set p | p in ps :: ServiceName(p.subdomain)
    ensures var m := ServicesOf(ps);
      forall k :: k in m ==> exists p :: p in ps && k == ServiceName(p.subdomain) && m[k] == ServiceFor(p)
    decreases |ps|
  {
    if ps != [] {
      var init := ps[..|ps| - 1];
      var last := ps[|ps| - 1];
      assert ps == init + [last];
      assert forall p :: p in ps <==> p in init || p == last;
      ServicesOfContents(init);
    }
  }

  /** generate_traefik_config(proxies): the configuration built from the active entries. */
  function ConfigOf(ps: seq<ProxyKey>, domain: string): GatewayConfig
  {
    var active := ActiveProxies(ps);
    if active == [] then NoActiveProxies else Routes(RoutersOf(active, domain), ServicesOf(active))
  }

  /** The marker is written exactly when no entry is active. */
  lemma {:induction false} ConfigEmptyIffNoneActive(ps: seq<ProxyKey>, domain: string)
    ensures ConfigOf(ps, domain).NoActiveProxies? <==> forall p :: p in ps ==> !p.isActive
  {
    var active := ActiveProxies(ps);
    if active != [] {
      assert active[0] in active;
    }
  }

  lemma {:induction false} FilterIdempotent<T(!new)>(s: seq<T>, keep: T -> bool)
    ensures Filter(Filter(s, keep), keep) == Filter(s, keep)
    decreases |s|
  {
    if s != [] {
      FilterIdempotent(s[1..], keep);
      var head := if keep(s[0]) then [s[0]] else [];
      FilterAppend(head, Filter(s[1..], keep), keep);
      assert Filter(head, keep) == head by {
        if keep(s[0]) {
          assert head[1..] == [];
        }
      }
    }
  }

  /** Inactive entries contribute nothing: the configuration of the active entries alone is the same. */
  lemma {:induction false} ConfigDependsOnlyOnActive(ps: seq<ProxyKey>, domain: string)
    ensures ConfigOf(ActiveProxies(ps), domain) == ConfigOf(ps, domain)
  {
    FilterIdempotent(ps, (p: ProxyKey) => p.isActive);
  }

  /** The subdomain of an entry identifies it. */
  predicate SubdomainsIdentify(ps: seq<ProxyKey>)
  {
    forall p, q :: p in ps && q in ps && p.subdomain == q.subdomain ==> p == q
  }

  /** With active entries present: one router and one service per active subdomain, and every
      router routes to a service of the same configuration. */
  lemma {:induction false} ConfigNamesMatch(ps: seq<ProxyKey>, domain: string)
    requires exists p :: p in ps && p.isActive
    ensures ConfigOf(ps, domain).Routes?
    ensures ConfigOf(ps, domain).routers.Keys == set p | p in ps && p.isActive :: RouterName(p.subdomain)
    ensures ConfigOf(ps, domain).services.Keys == set p | p in ps && p.isActive :: ServiceName(p.subdomain)
    ensures var c := ConfigOf(ps, domain);
      forall k :: k in c.routers ==> c.routers[k].service in c.services && c.routers[k].entryPoints == ["web"]
  {
    var active := ActiveProxies(ps);
    var p0 :| p0 in ps && p0.isActive;
    assert p0 in active;
    RoutersOfContents(active, domain);
    ServicesOfContents(active);
    var routers := RoutersOf(active, domain);
    var services := ServicesOf(active);
    assert (set p | p in active :: RouterName(p.subdomain)) == (set p | p in ps && p.isActive :: RouterName(p.subdomain));
    assert (set p | p in active :: ServiceName(p.subdomain)) == (set p | p in ps && p.isActive :: ServiceName(p.subdomain));
    forall k | k in routers
      ensures routers[k].service in services && routers[k].entryPoints == ["web"]
    {
      var p :| p in active && k == RouterName(p.subdomain) && routers[k] == RouterFor(p, domain);
      assert ServiceName(p.subdomain) in services;
    }
  }

  /** Entries that are all active: the marker exactly when there are none, otherwise one router
      per subdomain of an entry. */
  lemma {:induction false} ConfigOfAllActive(ps: seq<ProxyKey>, domain: string)
    requires forall p :: p in ps ==> p.isActive
    ensures ConfigOf(ps, domain).NoActiveProxies? <==> ps == []
    ensures ConfigOf(ps, domain).Routes? ==>
      ConfigOf(ps, domain).routers.Keys == set p | p in ps :: RouterName(p.subdomain)
  {
    ConfigEmptyIffNoneActive(ps, domain);
    if ps != [] {
      assert ps[0] in ps;
      ConfigNamesMatch(ps, domain);
      assert (set p | p in ps && p.isActive :: RouterName(p.subdomain)) == (set p | p in ps :: RouterName(p.subdomain));
    }
  }

  /** When subdomains identify entries, the router and the service of every active entry are
      exactly the ones built from it. */
  lemma {:induction false} ConfigOfEachActive(ps: seq<ProxyKey>, domain: string, p: ProxyKey)
    requires SubdomainsIdentify(ps) && p in ps && p.isActive
    ensures ConfigOf(ps, domain).Routes?
    ensures RouterName(p.subdomain) in ConfigOf(ps, domain).routers
    ensures ServiceName(p.subdomain) in ConfigOf(ps, domain).services
    ensures ConfigOf(ps, domain).routers[RouterName(p.subdomain)] == RouterFor(p, domain)
    ensures ConfigOf(ps, domain).services[ServiceName(p.subdomain)] == ServiceFor(p)
  {
    var active := ActiveProxies(ps);
    assert p in active;
    RoutersOfContents(active, domain);
    ServicesOfContents(active);
    var routers := RoutersOf(active, domain);
    var services := ServicesOf(active);
    var k := RouterName(p.subdomain);
    assert k in routers;
    var q :| q in active && k == RouterName(q.subdomain) && routers[k] == RouterFor(q, domain);
    SuffixInjective(p.subdomain, q.subdomain, "-router");
    var k2 := ServiceName(p.subdomain);
    assert k2 in services;
    var q2 :| q2 in active && k2 == ServiceName(q2.subdomain) && services[k2] == ServiceFor(q2);
    SuffixInjective(p.subdomain, q2.subdomain, "-service");
  }

  /** The configuration file of the gateway; None until it is first written. */
  class Gateway {
    var file: Option<GatewayConfig>

    constructor ()
      ensures file == None
    {
      file := None;
    }
  }

  /** The loop of generate_traefik_config across entry `i`: one more router and service inserted. */
  lemma {:induction false} InsertStep(ps: seq<ProxyKey>, i: nat, domain: string)
    requires i < |ps|
    ensures RoutersOf(ps[..i + 1], domain) == RoutersOf(ps[..i], domain)[RouterName(ps[i].subdomain) := RouterFor(ps[i], domain)]
    ensures ServicesOf(ps[..i + 1]) == ServicesOf(ps[..i])[ServiceName(ps[i].subdomain) := ServiceFor(ps[i])]
  {
    assert ps[..i + 1][..i] == ps[..i];
  }

  /** generate_traefik_config(proxies): filter the active entries, then insert a router and a
      service per entry, in order, and write the result (or the marker) to the file. */
  method GenerateTraefikConfig(gw: Gateway, proxies: seq<ProxyKey>, domain: string)
    modifies gw
    ensures gw.file == Some(ConfigOf(proxies, domain))
  {
    var active := ActiveProxies(proxies);
    if active == [] {
      gw.file := Some(NoActiveProxies);
      return;
    }
    var routers: map<string, Router> := map[];
    var services: map<string, Service> := map[];
    for i := 0 to |active|
      invariant routers == RoutersOf(active[..i], domain)
      invariant services == ServicesOf(active[..i])
    {
      var p := active[i];
      InsertStep(active, i, domain);
      routers := routers[RouterName(p.subdomain) := RouterFor(p, domain)];
      services := services[ServiceName(p.subdomain) := ServiceFor(p)];
    }
    assert active[..|active|] == active;
    gw.file := Some(Routes(routers, services));
  }

  /** remove_proxy_from_traefik(subdomain, remaining): regenerates from the remaining entries;
      the subdomain is only logged. */
  method RemoveProxyFromTraefik(gw: Gateway, subdomain: string, remaining: seq<ProxyKey>, domain: string)
    modifies gw
    ensures gw.file == Some(ConfigOf(remaining, domain))
  {
    GenerateTraefikConfig(gw, remaining, domain);
  }
}

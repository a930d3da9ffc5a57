/** The HTTP endpoints that change the fleet, and the startup recovery, as methods over the
    store, the provider client, the relay registry, the network and the gateway file. The
    authenticated caller arrives as a user id, the clock as `now`, the DOMAIN and
    PROXY_PORT_START settings as `domain` and `portStart`. An endpoint's HTTPException is a
    `Failure(HttpError(...))`; its normal response is the `Success` value. */
module Api {
  import opened Wrappers
  import opened Models
  import opened Database
  import opened Text
  import opened ProxyHandler
  import opened KiotProxy
  import opened TraefikConfig
  import opened Worker

  /** An HTTPException: the status code and the detail text. */
  datatype HttpError = HttpError(code: int, detail: string)

  /** Everything an endpoint may change besides the settings and the gateway file: the stored
      records, the log, the relays with the sockets, and the number of provider calls made. */
  datatype Fleet = Fleet(table: seq<ProxyKey>, log: seq<LogEntry>, world: World, calls: nat)

  function FleetOf(store: Store, provider: Provider, reg: Registry, net: Network): Fleet
    reads store, provider, reg, net
  {
    Fleet(store.proxyKeys, store.logs, World(reg.entries, net.State()), provider.calls)
  }

  // ----- startup recovery -----

  /** `if proxy.remote_http:` holds: an address is stored and it is not empty. */
  predicate HasRemote(p: ProxyKey)
  {
    p.remoteHttp.Some? && p.remoteHttp.value != ""
  }

  /** The relays and one record after recovering it. */
  datatype Recovered = Recovered(world: World, record: ProxyKey)

  /** One iteration of restart_all_proxies' loop: an entry with an address is started and
      becomes "active" when the start succeeds, "error" when it raises; an entry without one
      becomes "pending". */
  function RecoverOne(bind: (nat, int) -> BindAnswer, w: World, p: ProxyKey): (r: Recovered)
    ensures r.record == p.(status := r.record.status)
    ensures r.record.status == Pending <==> !HasRemote(p)
    ensures !HasRemote(p) ==> r.world == w
    ensures HasRemote(p) ==>
              var s := StartHandlerSpec(bind, w, p.id, p.port, p.remoteHttp);
              r.world == s.world && (r.record.status == Active <==> s.outcome.Pass?)
  {
    if HasRemote(p) then
      var s := StartHandlerSpec(bind, w, p.id, p.port, p.remoteHttp);
      Recovered(s.world, p.(status := if s.outcome.Pass? then Active else Error))
    else
      Recovered(w, p.(status := Pending))
  }

  /** The relays and the re-stated records after recovering a snapshot in order. */
  datatype Recovery = Recovery(world: World, records: seq<ProxyKey>)

  /** restart_all_proxies' loop over the snapshot: only the statuses change. */
  function RecoverAll(bind: (nat, int) -> BindAnswer, w: World, ps: seq<ProxyKey>): (r: Recovery)
    ensures |r.records| == |ps|
    ensures forall i :: 0 <= i < |ps| ==> r.records[i] == ps[i].(status := r.records[i].status)
    ensures forall i :: 0 <= i < |ps| ==> (r.records[i].status == Pending <==> !HasRemote(ps[i]))
    decreases |ps|
  {
    if ps == [] then Recovery(w, [])
    else
      var prev := RecoverAll(bind, w, ps[..|ps| - 1]);
      var one := RecoverOne(bind, prev.world, ps[|ps| - 1]);
      Recovery(one.world, prev.records + [one.record])
  }

  /** Recover one entry: start its relay when it has an address. */
  method RecoverEntry(reg: Registry, net: Network, p: ProxyKey) returns (q: ProxyKey)
    modifies reg, net
    ensures Recovered(World(reg.entries, net.State()), q) == RecoverOne(net.bind, old(World(reg.entries, net.State())), p)
  {
    if p.remoteHttp.Some? && p.remoteHttp.value != "" {
      var outcome := StartProxyHandler(reg, net, p.id, p.port, p.remoteHttp);
      if outcome.Pass? {
        q := p.(status := Active);
      } else {
        q := p.(status := Error);
      }
    } else {
      q := p.(status := Pending);
    }
  }

  predicate StartedOk(p: ProxyKey)
  {
    p.status == Active
  }

  /** `[p for p in proxies if p.status == "active"]`. */
  function Running(ps: seq<ProxyKey>): (r: seq<ProxyKey>)
    ensures forall p :: p in r <==> p in ps && p.status == Active
  {
    Filter(ps, StartedOk)
  }

  /** restart_all_proxies' loop: recover each entry of the snapshot in order and store it. */
  method RecoverSnapshot(store: Store, reg: Registry, net: Network, proxies: seq<ProxyKey>)
    returns (records: seq<ProxyKey>)
    modifies store, reg, net
    ensures Recovery(World(reg.entries, net.State()), records)
              == RecoverAll(net.bind, old(World(reg.entries, net.State())), proxies)
    ensures store.proxyKeys == ReplaceEach(old(store.proxyKeys), records)
    ensures store.logs == old(store.logs) && store.settings == old(store.settings)
  {
    ghost var w0 := World(reg.entries, net.State());
    records := [];
    for i := 0 to |proxies|
      invariant RecoverAll(net.bind, w0, proxies[..i]) == Recovery(World(reg.entries, net.State()), records)
      invariant store.proxyKeys == ReplaceEach(old(store.proxyKeys), records)
      invariant store.logs == old(store.logs) && store.settings == old(store.settings)
    {
      assert proxies[..i + 1][..i] == proxies[..i];
      var q := RecoverEntry(reg, net, proxies[i]);
      store.UpdateProxy(q);
      ReplaceEachSnoc(old(store.proxyKeys), records, q);
      records := records + [q];
    }
    assert proxies[..|proxies|] == proxies;
  }

  /** restart_all_proxies(): forget the stale relays (without closing them), restart every
      active record that has an address, store each record with its new status, and write the
      gateway file from the records that came up. */
  method RestartAllProxies(store: Store, reg: Registry, net: Network, gw: Gateway, domain: string)
    modifies store, reg, net, gw
    ensures var rec := RecoverAll(net.bind, World([], old(net.State())), ActiveProxies(old(store.proxyKeys)));
      && World(reg.entries, net.State()) == rec.world
      && store.proxyKeys == ReplaceEach(old(store.proxyKeys), rec.records)
      && gw.file == Some(ConfigOf(Running(rec.records), domain))
    ensures store.logs == old(store.logs) && store.settings == old(store.settings)
  {
    reg.Clear();
    var records := RecoverSnapshot(store, reg, net, ActiveProxies(store.proxyKeys));
    GenerateTraefikConfig(gw, Running(records), domain);
  }

  /** Recovery only re-states records, so the records it brings up are active records. */
  lemma {:induction false} RecoveredAreActive(bind: (nat, int) -> BindAnswer, w: World, table: seq<ProxyKey>)
    ensures forall p :: p in Running(RecoverAll(bind, w, ActiveProxies(table)).records) ==> p.isActive && p.status == Active
  {
    var snapshot := ActiveProxies(table);
    var rec := RecoverAll(bind, w, snapshot);
    forall p | p in Running(rec.records) ensures p.isActive && p.status == Active {
      var i :| 0 <= i < |rec.records| && rec.records[i] == p;
      assert snapshot[i] in snapshot;
    }
  }

  /** After recovery the gateway routes exactly the records that came up: the "no active
      proxies" marker when none did, otherwise one router per subdomain of a started record. */
  lemma {:induction false} RecoveredConfigRoutesStarted(bind: (nat, int) -> BindAnswer, w: World, table: seq<ProxyKey>, domain: string)
    ensures var up := Running(RecoverAll(bind, w, ActiveProxies(table)).records);
      ConfigOf(up, domain).NoActiveProxies? <==> up == []
    ensures var up := Running(RecoverAll(bind, w, ActiveProxies(table)).records);
      ConfigOf(up, domain).Routes? ==>
        ConfigOf(up, domain).routers.Keys == set p | p in up :: RouterName(p.subdomain)
  {
    RecoveredAreActive(bind, w, table);
    ConfigOfAllActive(Running(RecoverAll(bind, w, ActiveProxies(table)).records), domain);
  }

  // ----- create and bulk import -----

  /** f"{location}-{proxy_id}". */
  function KeyName(location: string, id: int): string
  {
    location + "-" + IntToString(id)
  }

  /** The record create_proxy and bulk import build from the provider's data: active, placed
      at the allocated subdomain and port, named after the location ("Unknown" when the
      provider gives none) and the id, rotated at creation time. */
  function CreatedRecord(id: int, userId: int, key: string, subdomain: string, port: int, region: string,
                         u: Upstream, now: Timestamp): (r: ProxyKey)
    ensures r.id == id && r.userId == userId && r.kiotproxyKey == key && r.region == region
    ensures r.subdomain == subdomain && r.port == port
    ensures r.keyName == KeyName(u.location.GetOr("Unknown"), id) && r.location == Some(u.location.GetOr("Unknown"))
    ensures r.isActive && r.status == Active && r.latencyMs == None && r.lastCheckAt == None
    ensures r.remoteHttp == Some(u.http) && r.remoteIp == Some(u.realIpAddress)
    ensures r.expirationAt == ExpirationOf(u) && r.ttl == Some(u.ttl) && r.ttc == Some(u.ttc)
    ensures r.lastRotatedAt == Some(now) && r.createdAt == now
  {
    var location := u.location.GetOr("Unknown");
    ProxyKey(id, userId, KeyName(location, id), key, subdomain, port, region, true,
             Some(u.http), Some(u.realIpAddress), Some(location), Active, None, None,
             ExpirationOf(u), Some(u.ttl), Some(u.ttc), Some(now), now)
  }

  /** A created record is the default record of its placement, set active in the requested
      region and rotated onto the provider's data at creation time, except that its location
      falls back to "Unknown". */
  lemma {:induction false} CreatedIsRotatedDefault(id: int, userId: int, key: string, subdomain: string, port: int, region: string,
                                u: Upstream, now: Timestamp)
    ensures var location := u.location.GetOr("Unknown");
      CreatedRecord(id, userId, key, subdomain, port, region, u, now)
        == Rotated(NewProxyKey(id, userId, KeyName(location, id), key, subdomain, port, now)
                     .(region := region, status := Active), u, now).(location := Some(location))
  {
  }

  /** The outcome of the shared steps of create and bulk import for one key, and the fleet after them. */
  datatype Admission = Admission(outcome: Result<ProxyKey, string>, fleet: Fleet)

  /** Fetch the key's current proxy, allocate an id, a subdomain and a port, store the record,
      then start its relay. Any failure raises with its text; a start failure leaves the record
      stored. */
  function AdmitSpec(answer: (nat, Request) -> Reply, bind: (nat, int) -> BindAnswer, f: Fleet, key: string,
                     region: string, userId: int, portStart: int, now: Timestamp): (a: Admission)
    ensures a.fleet.calls == f.calls + 1 && a.fleet.log == f.log
    ensures a.outcome.Success? ==> a.fleet.table == f.table + [a.outcome.value] && a.outcome.value.remoteIp.Some?
    ensures a.fleet.table == f.table || (|a.fleet.table| == |f.table| + 1 && a.fleet.table[..|f.table|] == f.table)
  {
    var fetched := Interpret(answer(f.calls, GetCurrent(key)));
    var f1 := f.(calls := f.calls + 1);
    if fetched.Failure? then Admission(Failure(fetched.error), f1)
    else
      var sub := FreeSubdomain(f.table);
      var port := FreePort(f.table, portStart);
      if sub.Failure? then Admission(Failure(sub.error), f1)
      else if port.Failure? then Admission(Failure(port.error), f1)
      else
        var u := fetched.value;
        var rec := CreatedRecord(NextId(f.table), userId, key, sub.value, port.value, region, u, now);
        var s := StartHandlerSpec(bind, f.world, rec.id, rec.port, Some(u.http));
        assert (f.table + [rec])[..|f.table|] == f.table;
        Admission(if s.outcome.Pass? then Success(rec) else Failure(s.outcome.error),
                  f1.(table := f.table + [rec], world := s.world))
  }

  /** An added record is new in every respect: its id exceeds every stored id, and its port (in
      the window) and its subdomain are ones no stored record holds, so distinct ids, ports and
      subdomains stay distinct. Nothing changes but the call count when the provider or an
      allocator fails. */
  lemma {:induction false} AdmittedRecordIsFresh(answer: (nat, Request) -> Reply, bind: (nat, int) -> BindAnswer, f: Fleet,
                              key: string, region: string, userId: int, portStart: int, now: Timestamp)
    ensures var a := AdmitSpec(answer, bind, f, key, region, userId, portStart, now);
      a.fleet.table != f.table ==>
        var rec := a.fleet.table[|f.table|];
        && (forall i :: 0 <= i < |f.table| ==> f.table[i].id < rec.id)
        && portStart <= rec.port < portStart + PortWindow
        && !PortInUse(f.table, rec.port) && !SubdomainInUse(f.table, rec.subdomain)
        && (UniqueProxyIds(f.table) ==> UniqueProxyIds(a.fleet.table))
        && (PortsAndSubdomainsDistinct(f.table) ==> PortsAndSubdomainsDistinct(a.fleet.table))
    ensures var a := AdmitSpec(answer, bind, f, key, region, userId, portStart, now);
      a.fleet.table == f.table <==>
        || Interpret(answer(f.calls, GetCurrent(key))).Failure?
        || FreeSubdomain(f.table).Failure? || FreePort(f.table, portStart).Failure?
    ensures var a := AdmitSpec(answer, bind, f, key, region, userId, portStart, now);
      a.fleet.table == f.table ==> a.outcome.Failure? && a.fleet == f.(calls := f.calls + 1)
  {
    var a := AdmitSpec(answer, bind, f, key, region, userId, portStart, now);
    if a.fleet.table != f.table {
      var rec := a.fleet.table[|f.table|];
      assert a.fleet.table == f.table + [rec];
      if UniqueProxyIds(f.table) {
        assert UniqueProxyIds(a.fleet.table);
      }
      if PortsAndSubdomainsDistinct(f.table) {
        AddingFreshRecordKeepsDistinct(f.table, rec);
      }
    }
  }

  /** A relay that fails to start is not compensated: the record stays stored, active and in
      status "active", and the endpoint fails with the start's error text. */
  lemma {:induction false} StartFailureKeepsRecord(answer: (nat, Request) -> Reply, bind: (nat, int) -> BindAnswer, f: Fleet,
                                key: string, region: string, userId: int, portStart: int, now: Timestamp)
    ensures var a := AdmitSpec(answer, bind, f, key, region, userId, portStart, now);
      a.outcome.Failure? && a.fleet.table != f.table ==>
        var rec := a.fleet.table[|f.table|];
        && rec.isActive && rec.status == Active
        && Interpret(answer(f.calls, GetCurrent(key))).Success?
        && var s := StartHandlerSpec(bind, f.world, rec.id, rec.port, Some(rec.remoteHttp.value));
           s.outcome == Fail(a.outcome.error) && a.fleet.world == s.world
  {
  }

  /** The shared steps of create_proxy and of one bulk-import iteration, up to the start. */
  method Admit(store: Store, provider: Provider, reg: Registry, net: Network, key: string, region: string,
               userId: int, portStart: int, now: Timestamp) returns (r: Result<ProxyKey, string>)
    modifies store, provider, reg, net
    ensures var a := AdmitSpec(provider.answer, net.bind, old(FleetOf(store, provider, reg, net)), key, region,
                               userId, portStart, now);
      r == a.outcome && FleetOf(store, provider, reg, net) == a.fleet
    ensures store.settings == old(store.settings)
  {
    var fetched := provider.GetCurrentProxy(key);
    if fetched.Failure? {
      return Failure(fetched.error);
    }
    var u := fetched.value;
    var id := NextId(store.proxyKeys);
    var sub := store.NextSubdomain();
    if sub.Failure? {
      return Failure(sub.error);
    }
    var port := store.NextPort(portStart);
    if port.Failure? {
      return Failure(port.error);
    }
    var rec := CreatedRecord(id, userId, key, sub.value, port.value, region, u, now);
    store.AddProxy(rec);
    var started := StartProxyHandler(reg, net, id, port.value, Some(u.http));
    if started.Fail? {
      return Failure(started.error);
    }
    r := Success(rec);
  }

  /** POST /api/proxies: admit the request's key under its region (the requested key name is
      not used), regenerate the gateway file from the active records and log the creation. A
      failure answers 500 with its text, after which nothing is logged and the file is not
      rewritten. */
  method CreateProxy(store: Store, provider: Provider, reg: Registry, net: Network, gw: Gateway,
                     request: AddProxyRequest, userId: int, portStart: int, domain: string, now: Timestamp)
    returns (r: Result<ProxyKey, HttpError>)
    modifies store, provider, reg, net, gw
    ensures var a := AdmitSpec(provider.answer, net.bind, old(FleetOf(store, provider, reg, net)),
                               request.kiotproxyKey, request.region, userId, portStart, now);
      && store.proxyKeys == a.fleet.table && World(reg.entries, net.State()) == a.fleet.world
      && provider.calls == a.fleet.calls
      && (a.outcome.Failure? ==>
            r == Failure(HttpError(500, a.outcome.error)) && store.logs == old(store.logs) && gw.file == old(gw.file))
      && (a.outcome.Success? ==>
            && r == Success(a.outcome.value)
            && gw.file == Some(ConfigOf(a.fleet.table, domain))
            && store.logs == old(store.logs) + [LogEntry(|old(store.logs)| + 1, a.outcome.value.id, Create,
                                                         Some(request.region), Succeeded,
                                                         Some("Created proxy " + a.outcome.value.subdomain), now)])
    ensures store.settings == old(store.settings)
  {
    var admitted := Admit(store, provider, reg, net, request.kiotproxyKey, request.region, userId, portStart, now);
    if admitted.Failure? {
      return Failure(HttpError(500, admitted.error));
    }
    var rec := admitted.value;
    GenerateTraefikConfig(gw, ActiveProxies(store.proxyKeys), domain);
    ConfigDependsOnlyOnActive(store.proxyKeys, domain);
    store.AddLog(rec.id, Create, Succeeded, Some(request.region), Some("Created proxy " + rec.subdomain), now);
    r := Success(rec);
  }

  /** When subdomains identify the stored records, a successful create routes the new
      subdomain to the new record's port. */
  lemma {:induction false} CreateRoutesNewRecord(answer: (nat, Request) -> Reply, bind: (nat, int) -> BindAnswer, f: Fleet,
                              key: string, region: string, userId: int, portStart: int, domain: string,
                              now: Timestamp)
    requires SubdomainsIdentify(f.table)
    ensures var a := AdmitSpec(answer, bind, f, key, region, userId, portStart, now);
      a.outcome.Success? ==>
        var rec := a.outcome.value;
        var c := ConfigOf(a.fleet.table, domain);
        && c.Routes? && RouterName(rec.subdomain) in c.routers && ServiceName(rec.subdomain) in c.services
        && c.routers[RouterName(rec.subdomain)] == RouterFor(rec, domain)
        && c.services[ServiceName(rec.subdomain)] == ServiceFor(rec)
  {
    var a := AdmitSpec(answer, bind, f, key, region, userId, portStart, now);
    if a.outcome.Success? {
      var rec := a.outcome.value;
      AdmittedRecordIsFresh(answer, bind, f, key, region, userId, portStart, now);
      var t := a.fleet.table;
      assert t == f.table + [rec] && t[|f.table|] == rec;
      FreshSubdomainIdentifies(f.table, rec);
      assert rec in t && rec.isActive;
      ConfigOfEachActive(t, domain, rec);
    }
  }

  /** Appending a record under a subdomain nobody holds keeps subdomains identifying records. */
  lemma {:induction false} FreshSubdomainIdentifies(ps: seq<ProxyKey>, rec: ProxyKey)
    requires SubdomainsIdentify(ps) && !SubdomainInUse(ps, rec.subdomain)
    ensures SubdomainsIdentify(ps + [rec])
  {
    var t := ps + [rec];
    forall p, q | p in t && q in t && p.subdomain == q.subdomain
      ensures p == q
    {
      if p != rec {
        var i :| 0 <= i < |ps| && ps[i] == p;
      }
      if q != rec {
        var j :| 0 <= j < |ps| && ps[j] == q;
      }
    }
  }

  /** The bulk-import limit. */
  const MaxImportKeys := 50

  predicate OneLine(s: string)
  {
    '\n' !in s
  }

  /** What a parsed key looks like: not empty, on one line, without surrounding whitespace. */
  predicate IsKey(k: string)
  {
    k != "" && OneLine(k) && Stripped(k)
  }

  /** The stripped, non-empty lines, in order. */
  function KeysOf(lines: seq<string>): (keys: seq<string>)
    requires forall j :: 0 <= j < |lines| ==> OneLine(lines[j])
    ensures |keys| <= |lines|
    ensures forall i :: 0 <= i < |keys| ==> IsKey(keys[i])
    decreases |lines|
  {
    if lines == [] then []
    else
      var k := Strip(lines[0]);
      var rest := KeysOf(lines[1..]);
      if k == "" then rest
      else
        assert IsKey(k) by {
          assert OneLine(lines[0]);
          StripKeepsAbsent(lines[0], '\n');
        }
        KeyCons(k, rest);
        [k] + rest
  }

  lemma {:induction false} KeyCons(k: string, keys: seq<string>)
    requires IsKey(k) && forall i :: 0 <= i < |keys| ==> IsKey(keys[i])
    ensures forall i :: 0 <= i < |[k] + keys| ==> IsKey(([k] + keys)[i])
  {
    forall i | 0 <= i < |[k] + keys| ensures IsKey(([k] + keys)[i]) {
      if i > 0 {
        assert ([k] + keys)[i] == keys[i - 1];
      }
    }
  }

  /** `[k.strip() for k in text.split('\n') if k.strip()]`. */
  function ParseKeys(text: string): (keys: seq<string>)
    ensures forall i :: 0 <= i < |keys| ==> IsKey(keys[i])
  {
    KeysOf(Split(text, '\n'))
  }

  lemma {:induction false} KeysOfKeys(keys: seq<string>)
    requires forall i :: 0 <= i < |keys| ==> OneLine(keys[i])
    requires forall i :: 0 <= i < |keys| ==> IsKey(keys[i])
    ensures KeysOf(keys) == keys
    decreases |keys|
  {
    if keys != [] {
      StripStripped(keys[0]);
      KeysOfKeys(keys[1..]);
      assert [keys[0]] + keys[1..] == keys;
    }
  }

  /** Keys written one per line come back exactly. */
  lemma {:induction false} ParseKeysOfLines(keys: seq<string>)
    requires forall i :: 0 <= i < |keys| ==> IsKey(keys[i])
    ensures ParseKeys(Join(keys, '\n')) == keys
  {
    if keys == [] {
      assert Split("", '\n') == [""];
      StripStripped("");
    } else {
      SplitJoin(keys, '\n');
      KeysOfKeys(keys);
    }
  }

  /** `kiotproxy_key[:8] + "..."`. */
  function Masked(key: string): string
  {
    Prefix(key, 8) + "..."
  }

  /** An entry of results["success"]. */
  datatype Imported = Imported(key: string, name: string, subdomain: string, ip: string)

  /** An entry of results["failed"]. */
  datatype Rejected = Rejected(key: string, error: string)

  /** The state of a bulk import: the fleet and the two result lists so far. */
  datatype Batch = Batch(fleet: Fleet, succeeded: seq<Imported>, failed: seq<Rejected>)

  /** One iteration: admit the key; on success log the import and report it, otherwise report
      the error. */
  function ImportOne(answer: (nat, Request) -> Reply, bind: (nat, int) -> BindAnswer, b: Batch, key: string,
                     region: string, userId: int, portStart: int, domain: string, now: Timestamp): (r: Batch)
    ensures r.fleet.calls == b.fleet.calls + 1
    ensures b.fleet.table <= r.fleet.table
    ensures |r.succeeded| + |r.failed| == |b.succeeded| + |b.failed| + 1
    ensures b.succeeded <= r.succeeded && b.failed <= r.failed
    ensures |r.succeeded| == |b.succeeded| ==> r.fleet.log == b.fleet.log
    ensures |r.succeeded| > |b.succeeded| ==>
              && |r.fleet.log| == |b.fleet.log| + 1 && b.fleet.log <= r.fleet.log
              && r.fleet.log[|b.fleet.log|].id == |b.fleet.log| + 1
              && r.fleet.log[|b.fleet.log|].action == BulkImport
              && r.fleet.log[|b.fleet.log|].details == Some("Imported as " + r.succeeded[|b.succeeded|].name)
  {
    var a := AdmitSpec(answer, bind, b.fleet, key, region, userId, portStart, now);
    match a.outcome
    case Success(rec) =>
      var entry := LogEntry(|a.fleet.log| + 1, rec.id, BulkImport, Some(region), Succeeded,
                            Some("Imported as " + rec.keyName), now);
      Batch(a.fleet.(log := a.fleet.log + [entry]),
            b.succeeded + [Imported(Masked(key), rec.keyName, rec.subdomain + "." + domain, rec.remoteIp.value)],
            b.failed)
    case Failure(e) =>
      Batch(a.fleet, b.succeeded, b.failed + [Rejected(Masked(key), e)])
  }

  /** The loop over all keys, in order. Every key ends in exactly one of the two lists, costs
      one provider call, and only a success adds a log entry; records are only ever appended. */
  function ImportAll(answer: (nat, Request) -> Reply, bind: (nat, int) -> BindAnswer, b: Batch, keys: seq<string>,
                     region: string, userId: int, portStart: int, domain: string, now: Timestamp): (r: Batch)
    ensures r.fleet.calls == b.fleet.calls + |keys|
    ensures |r.succeeded| + |r.failed| == |b.succeeded| + |b.failed| + |keys|
    ensures b.succeeded <= r.succeeded && b.failed <= r.failed
    ensures |r.fleet.log| == |b.fleet.log| + |r.succeeded| - |b.succeeded|
    ensures b.fleet.log <= r.fleet.log && b.fleet.table <= r.fleet.table
    decreases |keys|
  {
    if keys == [] then b
    else
      var prev := ImportAll(answer, bind, b, keys[..|keys| - 1], region, userId, portStart, domain, now);
      ImportOne(answer, bind, prev, keys[|keys| - 1], region, userId, portStart, domain, now)
  }

  /** The log entries added between `b` and `r` are the successes added between them, in
      order: the entry at position k is numbered k + 1 and says under which name the matching
      success was imported. */
  predicate LogsSuccesses(b: Batch, r: Batch)
  {
    && |b.fleet.log| <= |r.fleet.log| && |b.succeeded| <= |r.succeeded|
    && |r.fleet.log| - |b.fleet.log| == |r.succeeded| - |b.succeeded|
    && forall k :: |b.fleet.log| <= k < |r.fleet.log| ==>
         && r.fleet.log[k].id == k + 1
         && r.fleet.log[k].action == BulkImport
         && r.fleet.log[k].details == Some("Imported as " + r.succeeded[k - |b.fleet.log| + |b.succeeded|].name)
  }

  /** The log entries a bulk import adds are its successes, in order. */
  lemma {:induction false} ImportLogMatchesSuccesses(answer: (nat, Request) -> Reply, bind: (nat, int) -> BindAnswer,
                                                     b: Batch, keys: seq<string>, region: string, userId: int,
                                                     portStart: int, domain: string, now: Timestamp)
    ensures LogsSuccesses(b, ImportAll(answer, bind, b, keys, region, userId, portStart, domain, now))
    decreases |keys|
  {
    if keys != [] {
      var init := keys[..|keys| - 1];
      var prev := ImportAll(answer, bind, b, init, region, userId, portStart, domain, now);
      ImportLogMatchesSuccesses(answer, bind, b, init, region, userId, portStart, domain, now);
      var r := ImportOne(answer, bind, prev, keys[|keys| - 1], region, userId, portStart, domain, now);
      assert r == ImportAll(answer, bind, b, keys, region, userId, portStart, domain, now);
      forall k | |b.fleet.log| <= k < |r.fleet.log|
        ensures r.fleet.log[k].id == k + 1
        ensures r.fleet.log[k].action == BulkImport
        ensures r.fleet.log[k].details == Some("Imported as " + r.succeeded[k - |b.fleet.log| + |b.succeeded|].name)
      {
        var j := k - |b.fleet.log| + |b.succeeded|;
        if k < |prev.fleet.log| {
          assert r.fleet.log[k] == prev.fleet.log[k];
          assert r.succeeded[j] == prev.succeeded[j];
        } else {
          assert k == |prev.fleet.log| && j == |prev.succeeded|;
        }
      }
    }
  }

  /** The bulk import loop across key `i`. */
  lemma {:induction false} ImportAllStep(answer: (nat, Request) -> Reply, bind: (nat, int) -> BindAnswer, b: Batch,
                                         keys: seq<string>, i: nat, region: string, userId: int, portStart: int,
                                         domain: string, now: Timestamp)
    requires i < |keys|
    ensures ImportAll(answer, bind, b, keys[..i + 1], region, userId, portStart, domain, now)
              == ImportOne(answer, bind, ImportAll(answer, bind, b, keys[..i], region, userId, portStart, domain, now),
                           keys[i], region, userId, portStart, domain, now)
  {
    assert keys[..i + 1][..i] == keys[..i];
  }

  /** The bulk import's response body. */
  datatype ImportReport = ImportReport(total: int, succeeded: seq<Imported>, failed: seq<Rejected>)

  /** One iteration of the bulk import loop. */
  method ImportStep(store: Store, provider: Provider, reg: Registry, net: Network, key: string, region: string,
                    userId: int, portStart: int, domain: string, now: Timestamp, ghost b: Batch)
    returns (res: Result<Imported, Rejected>)
    requires FleetOf(store, provider, reg, net) == b.fleet
    modifies store, provider, reg, net
    ensures var n := ImportOne(provider.answer, net.bind, b, key, region, userId, portStart, domain, now);
      && FleetOf(store, provider, reg, net) == n.fleet
      && (res.Success? ==> n.succeeded == b.succeeded + [res.value] && n.failed == b.failed)
      && (res.Failure? ==> n.succeeded == b.succeeded && n.failed == b.failed + [res.error])
    ensures store.settings == old(store.settings)
  {
    var admitted := Admit(store, provider, reg, net, key, region, userId, portStart, now);
    if admitted.Success? {
      var rec := admitted.value;
      store.AddLog(rec.id, BulkImport, Succeeded, Some(region), Some("Imported as " + rec.keyName), now);
      res := Success(Imported(Masked(key), rec.keyName, rec.subdomain + "." + domain, rec.remoteIp.value));
    } else {
      res := Failure(Rejected(Masked(key), admitted.error));
    }
  }

  /** The bulk import loop: import the keys in order, collecting the two result lists. */
  method ImportKeys(store: Store, provider: Provider, reg: Registry, net: Network, keys: seq<string>, region: string,
                    userId: int, portStart: int, domain: string, now: Timestamp)
    returns (succeeded: seq<Imported>, failed: seq<Rejected>)
    modifies store, provider, reg, net
    ensures Batch(FleetOf(store, provider, reg, net), succeeded, failed)
              == ImportAll(provider.answer, net.bind, Batch(old(FleetOf(store, provider, reg, net)), [], []), keys,
                           region, userId, portStart, domain, now)
    ensures store.settings == old(store.settings)
  {
    ghost var start := Batch(FleetOf(store, provider, reg, net), [], []);
    succeeded, failed := [], [];
    for i := 0 to |keys|
      invariant ImportAll(provider.answer, net.bind, start, keys[..i], region, userId, portStart, domain, now)
                == Batch(FleetOf(store, provider, reg, net), succeeded, failed)
      invariant store.settings == old(store.settings)
    {
      ghost var b := Batch(FleetOf(store, provider, reg, net), succeeded, failed);
      var res := ImportStep(store, provider, reg, net, keys[i], region, userId, portStart, domain, now, b);
      ImportAllStep(provider.answer, net.bind, start, keys, i, region, userId, portStart, domain, now);
      if res.Success? {
        succeeded := succeeded + [res.value];
      } else {
        failed := failed + [res.error];
      }
    }
    assert keys[..|keys|] == keys;
  }

  /** POST /api/proxies/bulk-import: parse the keys, refuse none and more than 50 before any
      provider call, import each key in order and write the gateway file once at the end. */
  method BulkImportProxies(store: Store, provider: Provider, reg: Registry, net: Network, gw: Gateway,
                           request: BulkImportRequest, userId: int, portStart: int, domain: string, now: Timestamp)
    returns (r: Result<ImportReport, HttpError>)
    modifies store, provider, reg, net, gw
    ensures var keys := ParseKeys(request.kiotproxyKeys);
      && (keys == [] ==> r == Failure(HttpError(400, "No keys provided")))
      && (|keys| > MaxImportKeys ==> r == Failure(HttpError(400, "Maximum 50 keys per import")))
      && (r.Failure? ==> FleetOf(store, provider, reg, net) == old(FleetOf(store, provider, reg, net))
                         && gw.file == old(gw.file))
    ensures var keys := ParseKeys(request.kiotproxyKeys);
      1 <= |keys| <= MaxImportKeys ==>
        var b := ImportAll(provider.answer, net.bind, Batch(old(FleetOf(store, provider, reg, net)), [], []), keys,
                           request.region, userId, portStart, domain, now);
        && r == Success(ImportReport(|keys|, b.succeeded, b.failed))
        && FleetOf(store, provider, reg, net) == b.fleet
        && gw.file == Some(ConfigOf(b.fleet.table, domain))
    ensures r.Success? ==> r.value.total == |r.value.succeeded| + |r.value.failed|
    ensures store.settings == old(store.settings)
  {
    var keys := ParseKeys(request.kiotproxyKeys);
    if keys == [] {
      return Failure(HttpError(400, "No keys provided"));
    }
    if |keys| > MaxImportKeys {
      return Failure(HttpError(400, "Maximum 50 keys per import"));
    }
    var report := ImportAndPublish(store, provider, reg, net, gw, keys, request.region, userId, portStart, domain, now);
    r := Success(report);
  }

  /** The bulk import once the keys are accepted: import them all, then write the gateway file
      from the resulting table. */
  method ImportAndPublish(store: Store, provider: Provider, reg: Registry, net: Network, gw: Gateway,
                          keys: seq<string>, region: string, userId: int, portStart: int, domain: string,
                          now: Timestamp)
    returns (report: ImportReport)
    modifies store, provider, reg, net, gw
    ensures var b := ImportAll(provider.answer, net.bind, Batch(old(FleetOf(store, provider, reg, net)), [], []), keys,
                               region, userId, portStart, domain, now);
      && report == ImportReport(|keys|, b.succeeded, b.failed)
      && FleetOf(store, provider, reg, net) == b.fleet
      && gw.file == Some(ConfigOf(b.fleet.table, domain))
    ensures report.total == |report.succeeded| + |report.failed|
    ensures store.settings == old(store.settings)
  {
    var succeeded, failed := ImportKeys(store, provider, reg, net, keys, region, userId, portStart, domain, now);
    GenerateTraefikConfig(gw, ActiveProxies(store.proxyKeys), domain);
    ConfigDependsOnlyOnActive(store.proxyKeys, domain);
    report := ImportReport(|keys|, succeeded, failed);
  }

  // ----- operations on one record -----

  /** get_proxy_by_id, then the ownership check: 404 for an unknown id, 403 for another user's record. */
  function Authorize(ps: seq<ProxyKey>, id: int, userId: int): (r: Result<ProxyKey, HttpError>)
    ensures ProxyById(ps, id).None? ==> r == Failure(HttpError(404, "Proxy not found"))
    ensures ProxyById(ps, id).Some? && ProxyById(ps, id).value.userId != userId ==>
              r == Failure(HttpError(403, "Not authorized"))
    ensures r.Success? <==> ProxyById(ps, id).Some? && ProxyById(ps, id).value.userId == userId
    ensures r.Success? ==> r.value.id == id && r.value.userId == userId && r.value in ps
  {
    match ProxyById(ps, id)
    case None => Failure(HttpError(404, "Proxy not found"))
    case Some(p) => if p.userId != userId then Failure(HttpError(403, "Not authorized")) else Success(p)
  }

  /** With distinct ids the check finds the caller's own record and refuses anyone else's. */
  lemma {:induction false} AuthorizeByOwner(ps: seq<ProxyKey>, k: nat, userId: int)
    requires UniqueProxyIds(ps) && k < |ps|
    ensures ps[k].userId == userId ==> Authorize(ps, ps[k].id, userId) == Success(ps[k])
    ensures ps[k].userId != userId ==> Authorize(ps, ps[k].id, userId) == Failure(HttpError(403, "Not authorized"))
  {
    var found := IndexOfId(ps, ps[k].id);
    assert found.Some?;
    assert found.value == k;
  }

  /** POST /api/proxies/{id}/rotate: after the check, ask the provider for a new proxy in the
      requested region, restart the relay on it and store the record rotated into that region;
      log the outcome either way. A refused check changes nothing. */
  method RotateProxy(store: Store, provider: Provider, reg: Registry, net: Network, id: int,
                     request: RotateProxyRequest, userId: int, now: Timestamp)
    returns (r: Result<ProxyKey, HttpError>)
    modifies store, provider, reg, net
    ensures var auth := Authorize(old(store.proxyKeys), id, userId);
      auth.Failure? ==> r == Failure(auth.error) && FleetOf(store, provider, reg, net) == old(FleetOf(store, provider, reg, net))
    ensures var auth := Authorize(old(store.proxyKeys), id, userId);
      auth.Success? ==>
        var p := auth.value.(region := request.region);
        var rot := Renewal(net.bind, old(World(reg.entries, net.State())), p,
                           Interpret(provider.answer(old(provider.calls), GetNew(p.kiotproxyKey, request.region))));
        && provider.calls == old(provider.calls) + 1
        && World(reg.entries, net.State()) == rot.world
        && (rot.attempt.Renewed? ==>
              && r == Success(Rotated(p, rot.attempt.upstream, now))
              && store.proxyKeys == ReplaceFirst(old(store.proxyKeys), Rotated(p, rot.attempt.upstream, now))
              && store.logs == old(store.logs) + [LogEntry(|old(store.logs)| + 1, id, Rotate, Some(request.region), Succeeded,
                                                           Some("Rotated to " + rot.attempt.upstream.realIpAddress), now)])
        && (rot.attempt.RotationFailed? ==>
              && r == Failure(HttpError(500, rot.attempt.error))
              && store.proxyKeys == old(store.proxyKeys)
              && store.logs == old(store.logs) + [LogEntry(|old(store.logs)| + 1, id, Rotate, Some(request.region), Failed,
                                                           Some(rot.attempt.error), now)])
    ensures store.settings == old(store.settings)
  {
    var auth := Authorize(store.proxyKeys, id, userId);
    if auth.Failure? {
      return Failure(auth.error);
    }
    r := RotateRecord(store, provider, reg, net, auth.value.(region := request.region), now);
  }

  /** What a manual rotation stores once its attempt is known: after a renewal the rotated
      record and a success entry "Rotated to" the new ip; after a failure only a failure entry
      with the error, and the answer 500. */
  predicate RotationRecorded(table: seq<ProxyKey>, log: seq<LogEntry>, table': seq<ProxyKey>, log': seq<LogEntry>,
                             p: ProxyKey, a: Attempt, now: Timestamp, r: Result<ProxyKey, HttpError>)
  {
    && (a.Renewed? ==>
          && r == Success(Rotated(p, a.upstream, now))
          && table' == ReplaceFirst(table, Rotated(p, a.upstream, now))
          && log' == log + [LogEntry(|log| + 1, p.id, Rotate, Some(p.region), Succeeded,
                                     Some("Rotated to " + a.upstream.realIpAddress), now)])
    && (a.RotationFailed? ==>
          && r == Failure(HttpError(500, a.error))
          && table' == table
          && log' == log + [LogEntry(|log| + 1, p.id, Rotate, Some(p.region), Failed, Some(a.error), now)])
  }

  /** The steps of rotate_proxy after the check, for the record `p` moved to the requested
      region: fetch a new proxy, restart the relay on it, store and log. */
  method RotateRecord(store: Store, provider: Provider, reg: Registry, net: Network, p: ProxyKey, now: Timestamp)
    returns (r: Result<ProxyKey, HttpError>)
    modifies store, provider, reg, net
    ensures var rot := Renewal(net.bind, old(World(reg.entries, net.State())), p,
                               Interpret(provider.answer(old(provider.calls), GetNew(p.kiotproxyKey, p.region))));
      && provider.calls == old(provider.calls) + 1
      && World(reg.entries, net.State()) == rot.world
      && RotationRecorded(old(store.proxyKeys), old(store.logs), store.proxyKeys, store.logs, p, rot.attempt, now, r)
    ensures store.settings == old(store.settings)
  {
    var a := Renew(provider, reg, net, p);
    r := RecordRotation(store, p, a, now);
  }

  /** Stores the outcome of a manual rotation whose attempt is known. */
  method RecordRotation(store: Store, p: ProxyKey, a: Attempt, now: Timestamp) returns (r: Result<ProxyKey, HttpError>)
    requires !a.NotDue?
    modifies store
    ensures RotationRecorded(old(store.proxyKeys), old(store.logs), store.proxyKeys, store.logs, p, a, now, r)
    ensures store.settings == old(store.settings)
  {
    if a.Renewed? {
      var rotated := Rotated(p, a.upstream, now);
      store.UpdateProxy(rotated);
      store.AddLog(p.id, Rotate, Succeeded, Some(p.region), Some("Rotated to " + a.upstream.realIpAddress), now);
      r := Success(rotated);
    } else {
      store.AddLog(p.id, Rotate, Failed, Some(p.region), Some(a.error), now);
      r := Failure(HttpError(500, a.error));
    }
  }

  /** POST /api/proxies/{id}/restart: after the check, restart the relay on the stored address
      and log the restart; a failed start answers 500 and logs nothing. */
  method RestartProxy(store: Store, reg: Registry, net: Network, id: int, userId: int, now: Timestamp)
    returns (r: Outcome<HttpError>)
    modifies store, reg, net
    ensures var auth := Authorize(old(store.proxyKeys), id, userId);
      auth.Failure? ==>
        r == Fail(auth.error) && store.logs == old(store.logs)
        && World(reg.entries, net.State()) == old(World(reg.entries, net.State()))
    ensures var auth := Authorize(old(store.proxyKeys), id, userId);
      auth.Success? ==>
        var s := RestartHandlerSpec(net.bind, old(World(reg.entries, net.State())), id, auth.value.port,
                                    auth.value.remoteHttp);
        && World(reg.entries, net.State()) == s.world
        && (s.outcome.Pass? ==>
              r == Pass && store.logs == old(store.logs) + [NewLogEntry(|old(store.logs)| + 1, id, Restart, Succeeded, now)])
        && (s.outcome.Fail? ==> r == Fail(HttpError(500, s.outcome.error)) && store.logs == old(store.logs))
    ensures store.proxyKeys == old(store.proxyKeys) && store.settings == old(store.settings)
  {
    var auth := Authorize(store.proxyKeys, id, userId);
    if auth.Failure? {
      return Fail(auth.error);
    }
    var p := auth.value;
    var restarted := RestartProxyHandler(reg, net, id, p.port, p.remoteHttp);
    if restarted.Fail? {
      return Fail(HttpError(500, restarted.error));
    }
    store.AddLog(id, Restart, Succeeded, None, None, now);
    r := Pass;
  }

  /** Restarting a record that has no stored address stops its relay and then fails with
      Python's error text: the record is left without a running relay. */
  lemma {:induction false} RestartWithoutAddressStops(bind: (nat, int) -> BindAnswer, w: World, p: ProxyKey)
    requires p.remoteHttp.None?
    ensures RestartHandlerSpec(bind, w, p.id, p.port, p.remoteHttp) == Started(Fail(NoneSplitMessage), StopById(w, p.id), None)
    ensures !IsRegistered(RestartHandlerSpec(bind, w, p.id, p.port, p.remoteHttp).world.entries, p.id)
  {
    StartHandlerRejectsBadRemote(bind, StopById(w, p.id), p.id, p.port, p.remoteHttp);
  }

  /** DELETE /api/proxies/{id}: after the check, stop the relay, drop the record, regenerate
      the gateway file from the remaining active records and log the deletion. */
  method DeleteProxyEndpoint(store: Store, reg: Registry, net: Network, gw: Gateway, id: int, userId: int,
                             domain: string, now: Timestamp)
    returns (r: Outcome<HttpError>)
    modifies store, reg, net, gw
    ensures var auth := Authorize(old(store.proxyKeys), id, userId);
      auth.Failure? ==>
        && r == Fail(auth.error) && store.proxyKeys == old(store.proxyKeys) && store.logs == old(store.logs)
        && World(reg.entries, net.State()) == old(World(reg.entries, net.State())) && gw.file == old(gw.file)
    ensures Authorize(old(store.proxyKeys), id, userId).Success? ==>
      && r == Pass
      && World(reg.entries, net.State()) == StopById(old(World(reg.entries, net.State())), id)
      && store.proxyKeys == WithoutId(old(store.proxyKeys), id)
      && gw.file == Some(ConfigOf(WithoutId(old(store.proxyKeys), id), domain))
      && store.logs == old(store.logs) + [NewLogEntry(|old(store.logs)| + 1, id, Delete, Succeeded, now)]
    ensures store.settings == old(store.settings)
  {
    var auth := Authorize(store.proxyKeys, id, userId);
    if auth.Failure? {
      return Fail(auth.error);
    }
    DeleteRecord(store, reg, net, gw, id, auth.value.subdomain, domain, now);
    r := Pass;
  }

  /** The deletion itself, once the record has passed the check: stop its relay, drop the
      record, regenerate the gateway file from the remaining active records, log the deletion. */
  method DeleteRecord(store: Store, reg: Registry, net: Network, gw: Gateway, id: int, subdomain: string,
                      domain: string, now: Timestamp)
    modifies store, reg, net, gw
    ensures World(reg.entries, net.State()) == StopById(old(World(reg.entries, net.State())), id)
    ensures store.proxyKeys == WithoutId(old(store.proxyKeys), id)
    ensures gw.file == Some(ConfigOf(WithoutId(old(store.proxyKeys), id), domain))
    ensures store.logs == old(store.logs) + [NewLogEntry(|old(store.logs)| + 1, id, Delete, Succeeded, now)]
    ensures store.settings == old(store.settings)
  {
    StopProxyHandler(reg, net, id);
    DropRecord(store, gw, id, subdomain, domain, now);
  }

  /** The stored part of a deletion: drop the record, regenerate the file, log the deletion. */
  method DropRecord(store: Store, gw: Gateway, id: int, subdomain: string, domain: string, now: Timestamp)
    modifies store, gw
    ensures store.proxyKeys == WithoutId(old(store.proxyKeys), id)
    ensures gw.file == Some(ConfigOf(WithoutId(old(store.proxyKeys), id), domain))
    ensures store.logs == old(store.logs) + [NewLogEntry(|old(store.logs)| + 1, id, Delete, Succeeded, now)]
    ensures store.settings == old(store.settings)
  {
    store.DeleteProxy(id);
    ConfigDependsOnlyOnActive(store.proxyKeys, domain);
    RemoveProxyFromTraefik(gw, subdomain, ActiveProxies(store.proxyKeys), domain);
    store.AddLog(id, Delete, Succeeded, None, None, now);
  }

  /** When no other record holds the deleted record's subdomain, the regenerated file has no
      router and no service for it. */
  lemma {:induction false} DeletedSubdomainUnrouted(ps: seq<ProxyKey>, id: int, subdomain: string, domain: string)
    requires forall q :: q in ps && q.subdomain == subdomain ==> q.id == id
    ensures var c := ConfigOf(WithoutId(ps, id), domain);
      c.Routes? ==> RouterName(subdomain) !in c.routers && ServiceName(subdomain) !in c.services
  {
    var rest := WithoutId(ps, id);
    var active := ActiveProxies(rest);
    RoutersOfContents(active, domain);
    ServicesOfContents(active);
    if RouterName(subdomain) in RoutersOf(active, domain) {
      var q :| q in active && RouterName(subdomain) == RouterName(q.subdomain);
      SuffixInjective(subdomain, q.subdomain, "-router");
    }
    if ServiceName(subdomain) in ServicesOf(active) {
      var q :| q in active && ServiceName(subdomain) == ServiceName(q.subdomain);
      SuffixInjective(subdomain, q.subdomain, "-service");
    }
  }

  // ----- settings -----

  /** update_settings_endpoint's edits to the loaded settings: each supplied field replaces the
      stored one; an interval below two minutes is refused. */
  function ApplySettingsUpdate(s: Settings, req: UpdateSettingsRequest): (r: Result<Settings, HttpError>)
    ensures r.Failure? <==> req.autoRotateIntervalMinutes.Some? && req.autoRotateIntervalMinutes.value < MinIntervalMinutes
    ensures r.Failure? ==> r.error == HttpError(400, "Minimum interval is 2 minutes")
    ensures r.Success? ==>
      && r.value.autoRotateOnExpiration == (if req.autoRotateOnExpiration.Some? then req.autoRotateOnExpiration.value
                                            else s.autoRotateOnExpiration)
      && r.value.autoRotateIntervalEnabled == (if req.autoRotateIntervalEnabled.Some? then req.autoRotateIntervalEnabled.value
                                               else s.autoRotateIntervalEnabled)
      && r.value.autoRotateIntervalMinutes == (if req.autoRotateIntervalMinutes.Some? then req.autoRotateIntervalMinutes.value
                                               else s.autoRotateIntervalMinutes)
  {
    var s1 := if req.autoRotateOnExpiration.Some? then s.(autoRotateOnExpiration := req.autoRotateOnExpiration.value) else s;
    var s2 := if req.autoRotateIntervalEnabled.Some? then s1.(autoRotateIntervalEnabled := req.autoRotateIntervalEnabled.value) else s1;
    match req.autoRotateIntervalMinutes
    case None => Success(s2)
    case Some(m) => if m < MinIntervalMinutes then Failure(HttpError(400, "Minimum interval is 2 minutes"))
                    else Success(s2.(autoRotateIntervalMinutes := m))
  }

  /** An empty update keeps the settings; applying an accepted update a second time changes
      nothing more; an accepted update keeps an interval of at least two minutes. */
  lemma {:induction false} SettingsUpdateProperties(s: Settings, req: UpdateSettingsRequest)
    ensures ApplySettingsUpdate(s, EmptySettingsUpdate()) == Success(s)
    ensures ApplySettingsUpdate(s, req).Success? ==>
              ApplySettingsUpdate(ApplySettingsUpdate(s, req).value, req) == ApplySettingsUpdate(s, req)
    ensures s.autoRotateIntervalMinutes >= MinIntervalMinutes && ApplySettingsUpdate(s, req).Success? ==>
              ApplySettingsUpdate(s, req).value.autoRotateIntervalMinutes >= MinIntervalMinutes
  {
  }

  /** PUT /api/settings: apply the update to the stored settings and store the result; a refused
      interval stores nothing. */
  method UpdateSettingsEndpoint(store: Store, req: UpdateSettingsRequest) returns (r: Result<Settings, HttpError>)
    modifies store
    ensures r == ApplySettingsUpdate(old(store.settings), req)
    ensures store.settings == if r.Success? then r.value else old(store.settings)
    ensures store.proxyKeys == old(store.proxyKeys) && store.logs == old(store.logs)
  {
    var settings := store.settings;
    if req.autoRotateOnExpiration.Some? {
      settings := settings.(autoRotateOnExpiration := req.autoRotateOnExpiration.value);
    }
    if req.autoRotateIntervalEnabled.Some? {
      settings := settings.(autoRotateIntervalEnabled := req.autoRotateIntervalEnabled.value);
    }
    if req.autoRotateIntervalMinutes.Some? {
      if req.autoRotateIntervalMinutes.value < MinIntervalMinutes {
        return Failure(HttpError(400, "Minimum interval is 2 minutes"));
      }
      settings := settings.(autoRotateIntervalMinutes := req.autoRotateIntervalMinutes.value);
    }
    store.UpdateSettings(settings);
    r := Success(settings);
  }
}

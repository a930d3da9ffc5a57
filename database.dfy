/** The persisted fleet state (proxy keys, rotation log and settings) as an in-memory store,
    with the queries, updates and allocators of the record store. Each Store method is one
    whole-state read-modify-write of the source. */
module Database {
  import opened Wrappers
  import opened Models
  import opened Text

  /** [x for x in s if keep(x)]: the elements that pass, in their original order. */
  function Filter<T(!new)>(s: seq<T>, keep: T -> bool): (r: seq<T>)
    ensures |r| <= |s|
    ensures forall x :: x in r <==> x in s && keep(x)
    decreases |s|
  {
    if s == [] then [] else (if keep(s[0]) then [s[0]] else []) + Filter(s[1..], keep)
  }

  /** Filtering works element by element, so it keeps the relative order of what it keeps. */
  lemma {:induction false} FilterAppend<T(!new)>(a: seq<T>, b: seq<T>, keep: T -> bool)
    ensures Filter(a + b, keep) == Filter(a, keep) + Filter(b, keep)
    decreases |a|
  {
    if a == [] {
      assert a + b == b;
    } else {
      assert (a + b)[1..] == a[1..] + b;
      FilterAppend(a[1..], b, keep);
    }
  }

  /** A filter that every element passes changes nothing. */
  lemma {:induction false} FilterKeepsAll<T(!new)>(s: seq<T>, keep: T -> bool)
    requires forall i :: 0 <= i < |s| ==> keep(s[i])
    ensures Filter(s, keep) == s
    decreases |s|
  {
    if s != [] {
      FilterKeepsAll(s[1..], keep);
    }
  }

  /** get_all_proxies(user_id): the records of one user, in stored order. */
  function ProxiesOf(ps: seq<ProxyKey>, userId: int): (r: seq<ProxyKey>)
    ensures forall p :: p in r <==> p in ps && p.userId == userId
  {
    Filter(ps, (p: ProxyKey) => p.userId == userId)
  }

  /** get_active_proxies(): the records whose is_active flag is set, in stored order. */
  function ActiveProxies(ps: seq<ProxyKey>): (r: seq<ProxyKey>)
    ensures forall p :: p in r <==> p in ps && p.isActive
  {
    Filter(ps, (p: ProxyKey) => p.isActive)
  }

  lemma {:induction false} ActiveProxiesAppend(a: seq<ProxyKey>, b: seq<ProxyKey>)
    ensures ActiveProxies(a + b) == ActiveProxies(a) + ActiveProxies(b)
  {
    FilterAppend(a, b, (p: ProxyKey) => p.isActive);
  }

  /** Position of the first record carrying `id`. */
  function IndexOfId(ps: seq<ProxyKey>, id: int): (r: Option<nat>)
    ensures r.Some? ==> r.value < |ps| && ps[r.value].id == id
                        && forall j :: 0 <= j < r.value ==> ps[j].id != id
    ensures r.None? ==> forall j :: 0 <= j < |ps| ==> ps[j].id != id
    decreases |ps|
  {
    if ps == [] then None
    else if ps[0].id == id then Some(0)
    else match IndexOfId(ps[1..], id)
      case None => None
      case Some(k) => Some(k + 1)
  }

  /** get_proxy_by_id(id): the first record with that id, if any. */
  function ProxyById(ps: seq<ProxyKey>, id: int): (r: Option<ProxyKey>)
    ensures r.Some? <==> IndexOfId(ps, id).Some?
    ensures r.Some? ==> r.value == ps[IndexOfId(ps, id).value] && r.value.id == id
    decreases |ps|
  {
    if ps == [] then None
    else if ps[0].id == id then Some(ps[0])
    else ProxyById(ps[1..], id)
  }

  /** update_proxy(p) on the stored records: the first record with p's id becomes p. */
  function ReplaceFirst(ps: seq<ProxyKey>, p: ProxyKey): (r: seq<ProxyKey>)
    ensures |r| == |ps|
    ensures IndexOfId(ps, p.id).None? ==> r == ps
    ensures IndexOfId(ps, p.id).Some? ==> r == ps[IndexOfId(ps, p.id).value := p]
    decreases |ps|
  {
    if ps == [] then []
    else if ps[0].id == p.id then [p] + ps[1..]
    else [ps[0]] + ReplaceFirst(ps[1..], p)
  }

  /** delete_proxy(id) on the stored records: every record with that id is gone. */
  function WithoutId(ps: seq<ProxyKey>, id: int): (r: seq<ProxyKey>)
    ensures forall q :: q in r <==> q in ps && q.id != id
    ensures |r| <= |ps|
  {
    Filter(ps, (q: ProxyKey) => q.id != id)
  }

  /** Deleting works record by record, so the survivors keep their order. */
  lemma {:induction false} WithoutIdAppend(a: seq<ProxyKey>, b: seq<ProxyKey>, id: int)
    ensures WithoutId(a + b, id) == WithoutId(a, id) + WithoutId(b, id)
  {
    FilterAppend(a, b, (q: ProxyKey) => q.id != id);
  }

  function MaxId(ps: seq<ProxyKey>): (m: int)
    requires ps != []
    ensures forall i :: 0 <= i < |ps| ==> ps[i].id <= m
    ensures exists i :: 0 <= i < |ps| && ps[i].id == m
    decreases |ps|
  {
    if |ps| == 1 then ps[0].id
    else
      var m := MaxId(ps[1..]);
      assert exists i :: 1 <= i < |ps| && ps[i].id == m by {
        var k :| 0 <= k < |ps[1..]| && ps[1..][k].id == m;
        assert ps[k + 1].id == m;
      }
      if ps[0].id > m then ps[0].id else m
  }

  /** get_next_proxy_id(): 1 for an empty table, otherwise one more than the largest id. */
  function NextId(ps: seq<ProxyKey>): (r: int)
    ensures ps == [] ==> r == 1
    ensures forall i :: 0 <= i < |ps| ==> ps[i].id < r
    ensures ps != [] ==> exists i :: 0 <= i < |ps| && ps[i].id == r - 1
  {
    if ps == [] then 1 else MaxId(ps) + 1
  }

  /** Ids are not reserved: a record created with the next id and deleted again leaves the
      table as it was, so that id is handed out again. */
  lemma {:induction false} NextIdReusesDeletedId(ps: seq<ProxyKey>, p: ProxyKey)
    requires p.id == NextId(ps)
    ensures WithoutId(ps + [p], p.id) == ps
    ensures NextId(WithoutId(ps + [p], p.id)) == p.id
  {
    WithoutIdAppend(ps, [p], p.id);
    FilterKeepsAll(ps, (q: ProxyKey) => q.id != p.id);
    assert WithoutId([p], p.id) == [];
  }

  /** No two records share an id (the allocator hands out fresh ids; nothing else enforces it). */
  predicate UniqueProxyIds(ps: seq<ProxyKey>)
  {
    forall i, j :: 0 <= i < j < |ps| ==> ps[i].id != ps[j].id
  }

  /** Filtering keeps ids distinct. */
  lemma {:induction false} FilterKeepsUniqueIds(ps: seq<ProxyKey>, keep: ProxyKey -> bool)
    requires UniqueProxyIds(ps)
    ensures UniqueProxyIds(Filter(ps, keep))
    decreases |ps|
  {
    if ps != [] {
      assert UniqueProxyIds(ps[1..]) by {
        forall i, j | 0 <= i < j < |ps[1..]| ensures ps[1..][i].id != ps[1..][j].id {
          assert ps[1..][i] == ps[i + 1] && ps[1..][j] == ps[j + 1];
        }
      }
      FilterKeepsUniqueIds(ps[1..], keep);
      var rest := Filter(ps[1..], keep);
      if keep(ps[0]) {
        var r := [ps[0]] + rest;
        forall i, j | 0 <= i < j < |r| ensures r[i].id != r[j].id {
          if i == 0 {
            assert r[j] in ps[1..];
            var k :| 0 <= k < |ps[1..]| && ps[1..][k] == r[j];
            assert ps[k + 1] == r[j];
          } else {
            assert r[i] == rest[i - 1] && r[j] == rest[j - 1];
          }
        }
      }
    }
  }

  /** Two tables with the same id at every position. */
  predicate SameIds(a: seq<ProxyKey>, b: seq<ProxyKey>)
  {
    |a| == |b| && forall k :: 0 <= k < |a| ==> a[k].id == b[k].id
  }

  lemma {:induction false} SameIdsSameIndex(a: seq<ProxyKey>, b: seq<ProxyKey>, id: int)
    requires SameIds(a, b)
    ensures IndexOfId(a, id) == IndexOfId(b, id)
  {
    match IndexOfId(a, id)
    case None =>
    case Some(k) =>
  }

  /** update_proxy(u) for each u of `us` in turn. */
  function ReplaceEach(ps: seq<ProxyKey>, us: seq<ProxyKey>): (r: seq<ProxyKey>)
    ensures SameIds(ps, r)
    decreases |us|
  {
    if us == [] then ps else ReplaceFirst(ReplaceEach(ps, us[..|us| - 1]), us[|us| - 1])
  }

  lemma {:induction false} ReplaceEachSnoc(ps: seq<ProxyKey>, us: seq<ProxyKey>, u: ProxyKey)
    ensures ReplaceEach(ps, us + [u]) == ReplaceFirst(ReplaceEach(ps, us), u)
  {
    assert (us + [u])[..|us|] == us;
  }

  /** Updating records of distinct, stored ids: each update lands on the record of its id, and
      every record whose id no update carries is left as it was. */
  lemma {:induction false} ReplaceEachEffect(ps: seq<ProxyKey>, us: seq<ProxyKey>)
    requires UniqueProxyIds(us)
    requires forall j :: 0 <= j < |us| ==> IndexOfId(ps, us[j].id).Some?
    ensures forall j :: 0 <= j < |us| ==> ReplaceEach(ps, us)[IndexOfId(ps, us[j].id).value] == us[j]
    ensures forall k :: 0 <= k < |ps| && (forall j :: 0 <= j < |us| ==> us[j].id != ps[k].id) ==>
              ReplaceEach(ps, us)[k] == ps[k]
    decreases |us|
  {
    if us != [] {
      var init := us[..|us| - 1];
      var last := us[|us| - 1];
      assert UniqueProxyIds(init);
      ReplaceEachEffect(ps, init);
      var mid := ReplaceEach(ps, init);
      SameIdsSameIndex(ps, mid, last.id);
      var k := IndexOfId(ps, last.id).value;
      assert ReplaceEach(ps, us) == mid[k := last];
      forall j | 0 <= j < |us|
        ensures ReplaceEach(ps, us)[IndexOfId(ps, us[j].id).value] == us[j]
      {
        if j < |us| - 1 {
          assert us[j] == init[j];
          assert us[j].id != last.id;
        }
      }
    }
  }

  /** The subdomain allocator scans proxy1 .. proxy999. */
  const MaxSubdomainNumber := 999

  /** The port allocator scans a window of this many ports from the configured start. */
  const PortWindow := 100

  function SubdomainName(n: nat): string
  {
    "proxy" + NatToString(n)
  }

  predicate SubdomainInUse(ps: seq<ProxyKey>, s: string)
  {
    exists i :: 0 <= i < |ps| && ps[i].subdomain == s
  }

  predicate PortInUse(ps: seq<ProxyKey>, port: int)
  {
    exists i :: 0 <= i < |ps| && ps[i].port == port
  }

  /** The least proxyN with N in n .. 999 that no record holds, or the allocator's error. */
  function SubdomainFrom(ps: seq<ProxyKey>, n: nat): (r: Result<string, string>)
    ensures r.Success? ==>
      exists k :: n <= k <= MaxSubdomainNumber && r.value == SubdomainName(k)
                  && !SubdomainInUse(ps, r.value)
                  && forall m :: n <= m < k ==> SubdomainInUse(ps, SubdomainName(m))
    ensures r.Failure? ==>
      r.error == "No available subdomains"
      && forall k :: n <= k <= MaxSubdomainNumber ==> SubdomainInUse(ps, SubdomainName(k))
    decreases MaxSubdomainNumber + 1 - n
  {
    if n > MaxSubdomainNumber then Failure("No available subdomains")
    else if !SubdomainInUse(ps, SubdomainName(n)) then Success(SubdomainName(n))
    else SubdomainFrom(ps, n + 1)
  }

  /** What get_next_subdomain() returns or raises for the table. */
  function FreeSubdomain(ps: seq<ProxyKey>): Result<string, string>
  {
    SubdomainFrom(ps, 1)
  }

  /** The least port in [port, portStart + 100) that no record uses, or the allocator's error. */
  function PortFrom(ps: seq<ProxyKey>, portStart: int, port: int): (r: Result<int, string>)
    ensures r.Success? ==>
      port <= r.value < portStart + PortWindow && !PortInUse(ps, r.value)
      && forall q :: port <= q < r.value ==> PortInUse(ps, q)
    ensures r.Failure? ==>
      r.error == "No available ports"
      && forall q :: port <= q < portStart + PortWindow ==> PortInUse(ps, q)
    decreases portStart + PortWindow - port
  {
    if port >= portStart + PortWindow then Failure("No available ports")
    else if !PortInUse(ps, port) then Success(port)
    else PortFrom(ps, portStart, port + 1)
  }

  /** What get_next_port() returns or raises for the table and the configured start. */
  function FreePort(ps: seq<ProxyKey>, portStart: int): Result<int, string>
  {
    PortFrom(ps, portStart, portStart)
  }

  /** No two records share a port, and no two share a subdomain. */
  predicate PortsAndSubdomainsDistinct(ps: seq<ProxyKey>)
  {
    forall i, j :: 0 <= i < j < |ps| ==> ps[i].port != ps[j].port && ps[i].subdomain != ps[j].subdomain
  }

  /** A record whose port and subdomain nobody holds keeps ports and subdomains pairwise distinct. */
  lemma {:induction false} AddingFreshRecordKeepsDistinct(ps: seq<ProxyKey>, p: ProxyKey)
    requires PortsAndSubdomainsDistinct(ps)
    requires !PortInUse(ps, p.port) && !SubdomainInUse(ps, p.subdomain)
    ensures PortsAndSubdomainsDistinct(ps + [p])
  {
    var qs := ps + [p];
    forall i, j | 0 <= i < j < |qs|
      ensures qs[i].port != qs[j].port && qs[i].subdomain != qs[j].subdomain
    {
      if j == |ps| {
        assert qs[i] == ps[i];
      }
    }
  }

  /** Log entries that get_logs considers: all of them, or those of one proxy. */
  function MatchingLogs(logs: seq<LogEntry>, proxyId: Option<int>): (r: seq<LogEntry>)
    ensures forall e :: e in r <==> e in logs && (proxyId.Some? ==> e.proxyId == proxyId.value)
  {
    if proxyId.None? then logs else Filter(logs, (e: LogEntry) => e.proxyId == proxyId.value)
  }

  predicate NewestFirst(s: seq<LogEntry>)
  {
    forall i, j :: 0 <= i < j < |s| ==> s[i].timestamp >= s[j].timestamp
  }

  lemma {:induction false} PrependNewestFirst(x: LogEntry, t: seq<LogEntry>)
    requires NewestFirst(t)
    requires t == [] || t[0].timestamp <= x.timestamp
    ensures NewestFirst([x] + t)
  {
  }

  /** Places `e` after every entry at least as new as it, so entries with equal timestamps
      keep the order in which they were logged (Python's sort is stable). */
  function InsertNewestFirst(s: seq<LogEntry>, e: LogEntry): (r: seq<LogEntry>)
    requires NewestFirst(s)
    ensures NewestFirst(r)
    ensures multiset(r) == multiset(s) + multiset{e}
    ensures |r| == |s| + 1
    ensures r[0] == e || (s != [] && r[0] == s[0])
    decreases |s|
  {
    if s == [] then [e]
    else if s[0].timestamp >= e.timestamp then
      var tail := InsertNewestFirst(s[1..], e);
      assert s == [s[0]] + s[1..];
      PrependNewestFirst(s[0], tail);
      [s[0]] + tail
    else
      PrependNewestFirst(e, s);
      [e] + s
  }

  /** sorted(logs, key=timestamp, reverse=True). */
  function SortNewestFirst(s: seq<LogEntry>): (r: seq<LogEntry>)
    ensures NewestFirst(r)
    ensures multiset(r) == multiset(s)
    ensures |r| == |s|
    decreases |s|
  {
    if s == [] then []
    else
      assert s == s[..|s| - 1] + [s[|s| - 1]];
      InsertNewestFirst(SortNewestFirst(s[..|s| - 1]), s[|s| - 1])
  }

  /** s[:limit] in Python: a negative limit drops that many entries from the end. */
  function Take<T>(s: seq<T>, limit: int): (r: seq<T>)
    ensures r <= s
    ensures 0 <= limit ==> |r| == if limit < |s| then limit else |s|
    ensures limit < 0 ==> |r| == if |s| + limit < 0 then 0 else |s| + limit
  {
    if 0 <= limit then (if limit < |s| then s[..limit] else s)
    else if |s| + limit < 0 then []
    else s[..|s| + limit]
  }

  lemma {:induction false} PrefixOfNewestFirst(r: seq<LogEntry>, s: seq<LogEntry>)
    requires r <= s && NewestFirst(s)
    ensures NewestFirst(r)
    ensures multiset(r) <= multiset(s)
  {
    assert s == r + s[|r|..];
  }

  /** get_logs(proxy_id, limit): the matching entries newest first, cut to `limit`. */
  function QueryLogs(logs: seq<LogEntry>, proxyId: Option<int>, limit: int): (r: seq<LogEntry>)
    ensures forall e :: e in r ==> e in logs && (proxyId.Some? ==> e.proxyId == proxyId.value)
    ensures NewestFirst(r)
    ensures multiset(r) <= multiset(MatchingLogs(logs, proxyId))
    ensures 0 <= limit ==> |r| == if limit < |MatchingLogs(logs, proxyId)| then limit else |MatchingLogs(logs, proxyId)|
  {
    var matching := MatchingLogs(logs, proxyId);
    var sorted := SortNewestFirst(matching);
    var r := Take(sorted, limit);
    PrefixOfNewestFirst(r, sorted);
    assert forall e :: e in r ==> e in multiset(matching);
    r
  }

  /** What get_logs leaves out is never newer than what it returns. */
  lemma {:induction false} QueryLogsKeepsNewest(logs: seq<LogEntry>, proxyId: Option<int>, limit: int, i: int, e: LogEntry)
    requires 0 <= i < |QueryLogs(logs, proxyId, limit)|
    requires e in multiset(MatchingLogs(logs, proxyId)) - multiset(QueryLogs(logs, proxyId, limit))
    ensures e.timestamp <= QueryLogs(logs, proxyId, limit)[i].timestamp
  {
    var sorted := SortNewestFirst(MatchingLogs(logs, proxyId));
    var r := QueryLogs(logs, proxyId, limit);
    assert r == Take(sorted, limit);
    PrefixHoldsNewest(sorted, r, i, e);
  }

  /** In a newest-first sequence, an entry past a prefix is no newer than any entry of the prefix. */
  lemma {:induction false} PrefixHoldsNewest(sorted: seq<LogEntry>, r: seq<LogEntry>, i: int, e: LogEntry)
    requires NewestFirst(sorted) && r <= sorted && 0 <= i < |r|
    requires e in multiset(sorted) - multiset(r)
    ensures e.timestamp <= r[i].timestamp
  {
    var rest := sorted[|r|..];
    assert e in rest by {
      assert sorted == r + rest;
      assert multiset(sorted) == multiset(r) + multiset(rest);
    }
    var k :| 0 <= k < |rest| && rest[k] == e;
    assert sorted[|r| + k] == rest[k];
    assert sorted[i] == r[i];
  }

  /** The record store: the proxy_keys, logs and settings of the persisted document. */
  class Store {
    var proxyKeys: seq<ProxyKey>
    var logs: seq<LogEntry>
    var settings: Settings

    /** init_data_file(): default settings, no records, no log entries. */
    constructor ()
      ensures proxyKeys == [] && logs == [] && settings == DefaultSettings()
    {
      proxyKeys := [];
      logs := [];
      settings := DefaultSettings();
    }

    /** add_proxy(p): appends the record. */
    method AddProxy(p: ProxyKey)
      modifies this
      ensures proxyKeys == old(proxyKeys) + [p]
      ensures logs == old(logs) && settings == old(settings)
    {
      proxyKeys := proxyKeys + [p];
    }

    /** update_proxy(p): overwrites the first record with p's id; a no-op when there is none. */
    method UpdateProxy(p: ProxyKey)
      modifies this
      ensures proxyKeys == ReplaceFirst(old(proxyKeys), p)
      ensures logs == old(logs) && settings == old(settings)
    {
      var i := 0;
      while i < |proxyKeys|
        invariant 0 <= i <= |proxyKeys|
        invariant proxyKeys == old(proxyKeys) && logs == old(logs) && settings == old(settings)
        invariant forall j :: 0 <= j < i ==> proxyKeys[j].id != p.id
      {
        if proxyKeys[i].id == p.id {
          proxyKeys := proxyKeys[i := p];
          return;
        }
        i := i + 1;
      }
    }

    /** delete_proxy(id): drops every record with that id. */
    method DeleteProxy(id: int)
      modifies this
      ensures proxyKeys == WithoutId(old(proxyKeys), id)
      ensures logs == old(logs) && settings == old(settings)
    {
      proxyKeys := WithoutId(proxyKeys, id);
    }

    /** get_next_subdomain(): the least proxyN, N in 1..999, that no record holds
        (inactive records included). */
    method NextSubdomain() returns (r: Result<string, string>)
      ensures r == FreeSubdomain(proxyKeys)
    {
      var existing := seq(|proxyKeys|, i requires 0 <= i < |proxyKeys| reads this => proxyKeys[i].subdomain);
      for n := 1 to MaxSubdomainNumber + 1
        invariant SubdomainFrom(proxyKeys, n) == FreeSubdomain(proxyKeys)
      {
        var s := SubdomainName(n);
        if s !in existing {
          forall i | 0 <= i < |proxyKeys| ensures proxyKeys[i].subdomain != s {
            assert existing[i] == proxyKeys[i].subdomain;
          }
          assert SubdomainFrom(proxyKeys, n) == Success(s);
          return Success(s);
        }
        var i :| 0 <= i < |existing| && existing[i] == s;
        assert proxyKeys[i].subdomain == s;
        assert SubdomainFrom(proxyKeys, n) == SubdomainFrom(proxyKeys, n + 1);
      }
      assert SubdomainFrom(proxyKeys, MaxSubdomainNumber + 1) == Failure("No available subdomains");
      return Failure("No available subdomains");
    }

    /** get_next_port(): the least port in [portStart, portStart + 100) that no record uses. */
    method NextPort(portStart: int) returns (r: Result<int, string>)
      ensures r == FreePort(proxyKeys, portStart)
    {
      var used := seq(|proxyKeys|, i requires 0 <= i < |proxyKeys| reads this => proxyKeys[i].port);
      for port := portStart to portStart + PortWindow
        invariant PortFrom(proxyKeys, portStart, port) == FreePort(proxyKeys, portStart)
      {
        if port !in used {
          forall i | 0 <= i < |proxyKeys| ensures proxyKeys[i].port != port {
            assert used[i] == proxyKeys[i].port;
          }
          return Success(port);
        }
        var i :| 0 <= i < |used| && used[i] == port;
        assert proxyKeys[i].port == port;
      }
      return Failure("No available ports");
    }

    /** add_log(...): appends an entry numbered one past the current count, stamped `now`. */
    method AddLog(proxyId: int, action: Action, status: LogStatus, region: Option<string>,
                  details: Option<string>, now: Timestamp)
      modifies this
      ensures logs == old(logs) + [LogEntry(|old(logs)| + 1, proxyId, action, region, status, details, now)]
      ensures proxyKeys == old(proxyKeys) && settings == old(settings)
    {
      var entry := LogEntry(|logs| + 1, proxyId, action, region, status, details, now);
      logs := logs + [entry];
    }

    /** update_settings(s): replaces the settings. */
    method UpdateSettings(s: Settings)
      modifies this
      ensures settings == s
      ensures proxyKeys == old(proxyKeys) && logs == old(logs)
    {
      settings := s;
    }
  }
}

/** The two background workers: the health check, which probes every active fleet entry through
    its relay and records status and latency, and automatic rotation, which renews the upstream
    of entries whose lease is about to expire or whose rotation interval has passed. One loop
    iteration of each worker is modelled; the sleeping between iterations is not. */
module Worker {
  import opened Wrappers
  import opened Models
  import opened Database
  import opened Text
  import opened ProxyHandler
  import opened KiotProxy

  /** An entry is renewed once its lease is at most a minute from expiring. */
  const ExpirationMarginMs := 60_000

  const MsPerMinute := 60_000

  /** The text of the KeyError raised when the provider data carries no "location". */
  const LocationKeyError := "'location'"

  /** The expiration test of rotate_expired_proxies: an expiry is recorded and `now` is at most
      a minute before it (or past it). */
  predicate ExpirationDue(p: ProxyKey, now: Timestamp)
  {
    p.expirationAt.Some? && now >= p.expirationAt.value - ExpirationMarginMs
  }

  /** The last rotation, or the creation time of an entry never rotated. */
  function LastRotation(p: ProxyKey): Timestamp
  {
    p.lastRotatedAt.GetOr(p.createdAt)
  }

  /** The interval test of rotate_by_interval: at least `minutes` have passed since the last
      rotation (elapsed seconds / 60 >= minutes, which in whole milliseconds is the comparison below). */
  predicate IntervalDue(p: ProxyKey, minutes: int, now: Timestamp)
  {
    now - LastRotation(p) >= minutes * MsPerMinute
  }

  /** The expiry stored for provider data: its expirationAt when present and non-zero (the source
      tests the value for truth), otherwise none. */
  function ExpirationOf(u: Upstream): (r: Option<Timestamp>)
    ensures r.Some? <==> u.expirationAt.Some? && u.expirationAt.value != 0
    ensures r.Some? ==> r.value == u.expirationAt.value
  {
    match u.expirationAt
    case Some(v) => if v != 0 then Some(v) else None
    case None => None
  }

  // ----- health check -----

  /** What one probe through a relay gave: an answer after `elapsedMs` milliseconds, or an error. */
  datatype ProbeOutcome = Answered(elapsedMs: nat) | Unreachable

  /** The entry after its probe: active with the measured latency, or in error with latency 0;
      the check time is recorded either way and nothing else changes. */
  function HealthChecked(p: ProxyKey, probe: ProbeOutcome, now: Timestamp): (r: ProxyKey)
    ensures probe.Answered? ==> r.status == Active && r.latencyMs == Some(probe.elapsedMs)
    ensures probe.Unreachable? ==> r.status == Error && r.latencyMs == Some(0)
    ensures r.lastCheckAt == Some(now)
    ensures r == p.(status := r.status, latencyMs := r.latencyMs, lastCheckAt := r.lastCheckAt)
  {
    match probe
    case Answered(ms) => p.(status := Active, latencyMs := Some(ms), lastCheckAt := Some(now))
    case Unreachable => p.(status := Error, latencyMs := Some(0), lastCheckAt := Some(now))
  }

  /** A probe decides the status alone: a second check overrides the first completely. */
  lemma {:induction false} HealthCheckedOverrides(p: ProxyKey, first: ProbeOutcome, second: ProbeOutcome, t1: Timestamp, t2: Timestamp)
    ensures HealthChecked(HealthChecked(p, first, t1), second, t2) == HealthChecked(p, second, t2)
  {
  }

  /** One health check pass: probe every active entry of one snapshot in order (probe i is the
      i-th probe of the pass) and write each back with update_proxy. */
  method HealthCheck(store: Store, probe: nat -> ProbeOutcome, now: Timestamp) returns (checked: seq<ProxyKey>)
    modifies store
    ensures |checked| == |ActiveProxies(old(store.proxyKeys))|
    ensures forall i :: 0 <= i < |checked| ==> checked[i] == HealthChecked(ActiveProxies(old(store.proxyKeys))[i], probe(i), now)
    ensures store.proxyKeys == ReplaceEach(old(store.proxyKeys), checked)
    ensures store.logs == old(store.logs) && store.settings == old(store.settings)
  {
    var proxies := ActiveProxies(store.proxyKeys);
    checked := [];
    for i := 0 to |proxies|
      invariant |checked| == i
      invariant forall k :: 0 <= k < i ==> checked[k] == HealthChecked(proxies[k], probe(k), now)
      invariant store.proxyKeys == ReplaceEach(old(store.proxyKeys), checked)
      invariant store.logs == old(store.logs) && store.settings == old(store.settings)
    {
      var q := HealthChecked(proxies[i], probe(i), now);
      ghost var before := store.proxyKeys;
      store.UpdateProxy(q);
      HealthStep(old(store.proxyKeys), proxies, probe, now, i, checked, before, store.proxyKeys);
      checked := checked + [q];
    }
  }

  /** One iteration of the health check loop: entry `i` checked and written back. */
  lemma {:induction false} HealthStep(table: seq<ProxyKey>, proxies: seq<ProxyKey>, probe: nat -> ProbeOutcome,
                                      now: Timestamp, i: nat, checked: seq<ProxyKey>,
                                      before: seq<ProxyKey>, after: seq<ProxyKey>)
    requires |checked| == i < |proxies|
    requires forall k :: 0 <= k < i ==> checked[k] == HealthChecked(proxies[k], probe(k), now)
    requires before == ReplaceEach(table, checked)
    requires after == ReplaceFirst(before, HealthChecked(proxies[i], probe(i), now))
    ensures var checked' := checked + [HealthChecked(proxies[i], probe(i), now)];
      && (forall k :: 0 <= k < i + 1 ==> checked'[k] == HealthChecked(proxies[k], probe(k), now))
      && after == ReplaceEach(table, checked')
  {
    ReplaceEachSnoc(table, checked, HealthChecked(proxies[i], probe(i), now));
  }

  /** Every stored active record of a table is a record of that table found by its id. */
  lemma {:induction false} ActiveFound(ps: seq<ProxyKey>)
    ensures forall i :: 0 <= i < |ActiveProxies(ps)| ==> IndexOfId(ps, ActiveProxies(ps)[i].id).Some?
  {
    var active := ActiveProxies(ps);
    forall i | 0 <= i < |active| ensures IndexOfId(ps, active[i].id).Some? {
      assert active[i] in ps;
      var m :| 0 <= m < |ps| && ps[m] == active[i];
    }
  }

  /** After a pass over a table with distinct ids, the stored record of every active entry is
      that entry as its probe left it, and every inactive record is untouched. */
  lemma {:induction false} HealthCheckPersists(ps: seq<ProxyKey>, probe: nat -> ProbeOutcome, now: Timestamp,
                                               checked: seq<ProxyKey>)
    requires UniqueProxyIds(ps)
    requires |checked| == |ActiveProxies(ps)|
    requires forall i :: 0 <= i < |checked| ==> checked[i] == HealthChecked(ActiveProxies(ps)[i], probe(i), now)
    ensures forall i :: 0 <= i < |checked| ==> IndexOfId(ps, checked[i].id).Some?
    ensures forall i :: 0 <= i < |checked| ==>
              ReplaceEach(ps, checked)[IndexOfId(ps, checked[i].id).value] == HealthChecked(ActiveProxies(ps)[i], probe(i), now)
    ensures forall k :: 0 <= k < |ps| && !ps[k].isActive ==> ReplaceEach(ps, checked)[k] == ps[k]
  {
    var active := ActiveProxies(ps);
    ActiveFound(ps);
    FilterKeepsUniqueIds(ps, (p: ProxyKey) => p.isActive);
    assert UniqueProxyIds(checked) by {
      forall i, j | 0 <= i < j < |checked| ensures checked[i].id != checked[j].id {
        assert checked[i].id == active[i].id && checked[j].id == active[j].id;
      }
    }
    ReplaceEachEffect(ps, checked);
    forall k | 0 <= k < |ps| && !ps[k].isActive
      ensures forall j :: 0 <= j < |checked| ==> checked[j].id != ps[k].id
    {
      forall j | 0 <= j < |checked| ensures checked[j].id != ps[k].id {
        assert active[j] in ps;
        var m :| 0 <= m < |ps| && ps[m] == active[j];
        assert m != k;
      }
    }
  }

  // ----- automatic rotation -----

  /** The entry after a successful rotation onto `u` at `now`: the upstream fields come from the
      provider data, the rotation time is recorded, and the identity, the placement and the
      health fields stay as they were. */
  function Rotated(p: ProxyKey, u: Upstream, now: Timestamp): (r: ProxyKey)
    ensures r.remoteHttp == Some(u.http) && r.remoteIp == Some(u.realIpAddress) && r.location == u.location
    ensures r.expirationAt == ExpirationOf(u) && r.ttl == Some(u.ttl) && r.ttc == Some(u.ttc)
    ensures r.lastRotatedAt == Some(now)
    ensures r.id == p.id && r.userId == p.userId && r.keyName == p.keyName && r.kiotproxyKey == p.kiotproxyKey
    ensures r.subdomain == p.subdomain && r.port == p.port && r.region == p.region && r.isActive == p.isActive
    ensures r.status == p.status && r.latencyMs == p.latencyMs && r.lastCheckAt == p.lastCheckAt
    ensures r.createdAt == p.createdAt
  {
    p.(remoteHttp := Some(u.http), remoteIp := Some(u.realIpAddress), location := u.location,
       expirationAt := ExpirationOf(u), ttl := Some(u.ttl), ttc := Some(u.ttc), lastRotatedAt := Some(now))
  }

  /** The snapshot entry when the rotation stopped at the missing "location": the address
      fields were already overwritten. */
  function AddressTouched(p: ProxyKey, u: Upstream): (r: ProxyKey)
    ensures r.remoteHttp == Some(u.http) && r.remoteIp == Some(u.realIpAddress)
    ensures r == p.(remoteHttp := r.remoteHttp, remoteIp := r.remoteIp)
  {
    p.(remoteHttp := Some(u.http), remoteIp := Some(u.realIpAddress))
  }

  /** A later rotation overwrites every field an earlier one or a half-done one wrote. */
  lemma {:induction false} RotationOverwrites(p: ProxyKey, u1: Upstream, u2: Upstream, t1: Timestamp, t2: Timestamp)
    ensures Rotated(Rotated(p, u1, t1), u2, t2) == Rotated(p, u2, t2)
    ensures Rotated(AddressTouched(p, u1), u2, t2) == Rotated(p, u2, t2)
  {
  }

  /** A record just rotated at `now` is not due for interval rotation again until `minutes`
      more have passed. */
  lemma {:induction false} RotatedNotIntervalDue(p: ProxyKey, u: Upstream, now: Timestamp, minutes: int, later: Timestamp)
    requires now <= later < now + minutes * MsPerMinute
    ensures !IntervalDue(Rotated(p, u, now), minutes, later)
  {
  }

  /** After a rotation the expiration test follows the new lease alone: it holds exactly when the
      provider reported a non-zero expiry at most a minute after `later`. */
  lemma {:induction false} RotatedExpirationDue(p: ProxyKey, u: Upstream, now: Timestamp, later: Timestamp)
    ensures ExpirationDue(Rotated(p, u, now), later) <==>
              u.expirationAt.Some? && u.expirationAt.value != 0 && later >= u.expirationAt.value - ExpirationMarginMs
  {
  }

  /** Which of the two passes runs: rotation on expiration, or on an interval of `minutes`. */
  datatype Policy = OnExpiration | OnInterval(minutes: int)

  predicate Due(policy: Policy, p: ProxyKey, now: Timestamp)
  {
    match policy
    case OnExpiration => ExpirationDue(p, now)
    case OnInterval(m) => IntervalDue(p, m, now)
  }

  /** How a pass words its log entries: the action, and the details of a success. */
  datatype Wording = Wording(action: Action, success: string)

  function WordingOf(policy: Policy): (w: Wording)
    ensures policy.OnExpiration? ==> w == Wording(AutoRotateExpiration, "Rotated on expiration")
    ensures policy.OnInterval? ==>
              w == Wording(AutoRotateInterval, "Rotated on " + IntToString(policy.minutes) + "min interval")
  {
    match policy
    case OnExpiration => Wording(AutoRotateExpiration, "Rotated on expiration")
    case OnInterval(m) => Wording(AutoRotateInterval, "Rotated on " + IntToString(m) + "min interval")
  }

  /** What the pass did with one entry: nothing (not due), renewed it onto `upstream`, or failed
      with `error`; `touched` is the data already written into the snapshot when it failed late. */
  datatype Attempt = NotDue | Renewed(upstream: Upstream) | RotationFailed(error: string, touched: Option<Upstream>)

  /** The snapshot entry after its attempt. */
  function AfterAttempt(p: ProxyKey, a: Attempt, now: Timestamp): ProxyKey
  {
    match a
    case NotDue => p
    case Renewed(u) => Rotated(p, u, now)
    case RotationFailed(_, touched) => if touched.Some? then AddressTouched(p, touched.value) else p
  }

  /** The log entries an attempt adds, the first numbered `id`: none when not due, otherwise one
      success or failure entry under the pass's action and the entry's region, whose details are
      the pass's success text or the error. */
  function LogFor(p: ProxyKey, a: Attempt, w: Wording, now: Timestamp, id: int): seq<LogEntry>
  {
    match a
    case NotDue => []
    case Renewed(_) => [LogEntry(id, p.id, w.action, Some(p.region), Succeeded, Some(w.success), now)]
    case RotationFailed(e, _) => [LogEntry(id, p.id, w.action, Some(p.region), Failed, Some(e), now)]
  }

  /** What an attempt logs: nothing exactly when the entry was not due, otherwise one entry
      numbered `id` about that entry, under the pass's action and the entry's region, that
      succeeded exactly when the entry was renewed and whose details are the pass's success text
      or the error. */
  lemma {:induction false} LogForShape(p: ProxyKey, a: Attempt, w: Wording, now: Timestamp, id: int)
    ensures var r := LogFor(p, a, w, now, id);
      && (a.NotDue? <==> r == [])
      && (r != [] ==> |r| == 1 && r[0].id == id && r[0].proxyId == p.id && r[0].region == Some(p.region)
                      && r[0].action == w.action && r[0].timestamp == now
                      && (r[0].status == Succeeded <==> a.Renewed?)
                      && r[0].details == Some(if a.Renewed? then w.success else a.error))
  {
  }

  /** An attempt together with the relays and sockets after it. */
  datatype Rotation = Rotation(attempt: Attempt, world: World)

  /** The steps every rotation of `p` takes, in the workers and in the manual rotation alike:
      the provider's answer, then the relay restart on the new address, then the data's
      "location" key (a KeyError when it is missing, after the address is already written). */
  function Renewal(bind: (nat, int) -> BindAnswer, w: World, p: ProxyKey, answer: Result<Upstream, string>): (r: Rotation)
    ensures !r.attempt.NotDue?
    ensures answer.Failure? ==> r == Rotation(RotationFailed(answer.error, None), w)
    ensures answer.Success? ==>
      var s := RestartHandlerSpec(bind, w, p.id, p.port, Some(answer.value.http));
      && r.world == s.world
      && (s.outcome.Fail? ==> r.attempt == RotationFailed(s.outcome.error, None))
      && (s.outcome.Pass? && answer.value.location.None? ==> r.attempt == RotationFailed(LocationKeyError, Some(answer.value)))
    ensures r.attempt.Renewed? <==>
              answer.Success? && answer.value.location.Some?
              && RestartHandlerSpec(bind, w, p.id, p.port, Some(answer.value.http)).outcome.Pass?
    ensures r.attempt.Renewed? ==> r.attempt.upstream == answer.value
  {
    match answer
    case Failure(e) => Rotation(RotationFailed(e, None), w)
    case Success(u) =>
      var s := RestartHandlerSpec(bind, w, p.id, p.port, Some(u.http));
      if s.outcome.Fail? then Rotation(RotationFailed(s.outcome.error, None), s.world)
      else if u.location.None? then Rotation(RotationFailed(LocationKeyError, Some(u)), s.world)
      else Rotation(Renewed(u), s.world)
  }

  /** The provider call and the relay restart of a rotation, before anything is stored. */
  method Renew(provider: Provider, reg: Registry, net: Network, p: ProxyKey) returns (a: Attempt)
    modifies provider, reg, net
    ensures var rot := Renewal(net.bind, old(World(reg.entries, net.State())), p,
                               Interpret(provider.answer(old(provider.calls), GetNew(p.kiotproxyKey, p.region))));
      && provider.calls == old(provider.calls) + 1
      && World(reg.entries, net.State()) == rot.world
      && a == rot.attempt
  {
    var fetched := provider.GetNewProxy(p.kiotproxyKey, p.region);
    if fetched.Failure? {
      a := RotationFailed(fetched.error, None);
    } else {
      var u := fetched.value;
      var restarted := RestartProxyHandler(reg, net, p.id, p.port, Some(u.http));
      if restarted.Fail? {
        a := RotationFailed(restarted.error, None);
      } else if u.location.None? {
        a := RotationFailed(LocationKeyError, Some(u));
      } else {
        a := Renewed(u);
      }
    }
  }

  /** What an attempt on `p` does to the stored table and the log: a renewal writes back the
      rotated record, and the attempt's log entries are appended. */
  predicate AttemptRecorded(table: seq<ProxyKey>, log: seq<LogEntry>, table': seq<ProxyKey>, log': seq<LogEntry>,
                            p: ProxyKey, a: Attempt, w: Wording, now: Timestamp)
  {
    && table' == (if a.Renewed? then ReplaceFirst(table, Rotated(p, a.upstream, now)) else table)
    && log' == log + LogFor(p, a, w, now, |log| + 1)
  }

  /** One iteration's work on a due entry: ask the provider for a new upstream in the entry's
      region, restart the relay on it, update and persist the record, and log the outcome. Any
      failure is logged with its text and leaves the stored record as it was. */
  method RotateEntry(store: Store, provider: Provider, reg: Registry, net: Network, p: ProxyKey,
                     w: Wording, now: Timestamp) returns (a: Attempt)
    modifies store, provider, reg, net
    ensures provider.calls == old(provider.calls) + 1
    ensures var rot := Renewal(net.bind, old(World(reg.entries, net.State())), p,
                               Interpret(provider.answer(old(provider.calls), GetNew(p.kiotproxyKey, p.region))));
      a == rot.attempt && World(reg.entries, net.State()) == rot.world
    ensures AttemptRecorded(old(store.proxyKeys), old(store.logs), store.proxyKeys, store.logs, p, a, w, now)
    ensures store.settings == old(store.settings)
  {
    a := Renew(provider, reg, net, p);
    RecordAttempt(store, p, a, w, now);
  }

  /** What a pass stores once the attempt on a due entry is known: the rotated record after a
      renewal, and in every case one log entry with the pass's success text or the error. */
  method RecordAttempt(store: Store, p: ProxyKey, a: Attempt, w: Wording, now: Timestamp)
    requires !a.NotDue?
    modifies store
    ensures AttemptRecorded(old(store.proxyKeys), old(store.logs), store.proxyKeys, store.logs, p, a, w, now)
    ensures store.settings == old(store.settings)
  {
    if a.Renewed? {
      store.UpdateProxy(Rotated(p, a.upstream, now));
    }
    var status := if a.Renewed? then Succeeded else Failed;
    var details := if a.Renewed? then w.success else a.error;
    store.AddLog(p.id, w.action, status, Some(p.region), Some(details), now);
  }

  /** The attempt a pass makes on entry `p` from relays `w` after `calls` provider requests:
      nothing when the entry is not due, otherwise the renewal with the provider's answer to the
      request numbered `calls`, for a new proxy in the entry's region. */
  function AttemptOn(answer: (nat, Request) -> Reply, bind: (nat, int) -> BindAnswer, w: World, calls: nat,
                     p: ProxyKey, policy: Policy, now: Timestamp): (r: Rotation)
    ensures r.attempt.NotDue? <==> !Due(policy, p, now)
    ensures r.attempt.NotDue? ==> r.world == w
    ensures r.attempt.Renewed? ==>
      var reply := Interpret(answer(calls, GetNew(p.kiotproxyKey, p.region)));
      reply.Success? && r.attempt.upstream == reply.value
  {
    if !Due(policy, p, now) then Rotation(NotDue, w)
    else Renewal(bind, w, p, Interpret(answer(calls, GetNew(p.kiotproxyKey, p.region))))
  }

  /** One iteration of a pass: rotate the entry when it is due, otherwise leave everything as it is. */
  method AttemptEntry(store: Store, provider: Provider, reg: Registry, net: Network, p: ProxyKey,
                      policy: Policy, w: Wording, now: Timestamp) returns (a: Attempt)
    modifies store, provider, reg, net
    ensures var rot := AttemptOn(provider.answer, net.bind, old(World(reg.entries, net.State())), old(provider.calls),
                                 p, policy, now);
      a == rot.attempt && World(reg.entries, net.State()) == rot.world
    ensures a.NotDue? <==> !Due(policy, p, now)
    ensures provider.calls == old(provider.calls) + (if a.NotDue? then 0 else 1)
    ensures AttemptRecorded(old(store.proxyKeys), old(store.logs), store.proxyKeys, store.logs, p, a, w, now)
    ensures store.settings == old(store.settings)
  {
    a := NotDue;
    if Due(policy, p, now) {
      a := RotateEntry(store, provider, reg, net, p, w, now);
    }
  }

  /** The number of entries a pass tried to rotate. */
  function DueCount(attempts: seq<Attempt>): nat
    decreases |attempts|
  {
    if attempts == [] then 0
    else DueCount(attempts[..|attempts| - 1]) + (if attempts[|attempts| - 1].NotDue? then 0 else 1)
  }

  /** The attempt a pass makes on an entry, from given relays after a given number of provider
      requests: `AttemptOn` with the oracles, the due test and the clock of the pass fixed. */
  type StepFn = (World, nat, ProxyKey) -> Rotation

  function StepOf(answer: (nat, Request) -> Reply, bind: (nat, int) -> BindAnswer, policy: Policy, now: Timestamp): StepFn
  {
    (w: World, calls: nat, p: ProxyKey) => AttemptOn(answer, bind, w, calls, p, policy, now)
  }

  lemma StepOfIsAttemptOn(answer: (nat, Request) -> Reply, bind: (nat, int) -> BindAnswer, policy: Policy,
                          now: Timestamp, w: World, calls: nat, p: ProxyKey)
    ensures StepOf(answer, bind, policy, now)(w, calls, p) == AttemptOn(answer, bind, w, calls, p, policy, now)
  {
  }

  /** Entry `k` of a pass over `ps`: the attempt on it starts from the relays `worlds[k]` the
      earlier entries left, is answered by the provider request numbered after the earlier due
      entries' requests, and leaves the relays `worlds[k + 1]`. */
  predicate StepAt(step: StepFn, calls: nat, ps: seq<ProxyKey>, attempts: seq<Attempt>, worlds: seq<World>, k: nat)
    requires k < |ps| == |attempts| && |worlds| == |ps| + 1
  {
    step(worlds[k], calls + DueCount(attempts[..k]), ps[k]) == Rotation(attempts[k], worlds[k + 1])
  }

  /** A pass over `ps` started after `calls` provider requests made `attempts`, and the relays
      went through `worlds`, one entry at a time. */
  predicate PassTrace(step: StepFn, calls: nat, ps: seq<ProxyKey>, attempts: seq<Attempt>, worlds: seq<World>)
  {
    && |attempts| == |ps| && |worlds| == |ps| + 1
    && forall k :: 0 <= k < |ps| ==> StepAt(step, calls, ps, attempts, worlds, k)
  }

  /** A trace over entries 0..i of `proxies` extended by the attempt on entry i. */
  lemma {:induction false} TraceStep(step: StepFn, calls: nat, proxies: seq<ProxyKey>, i: nat,
                                     done: seq<Attempt>, worlds: seq<World>, rot: Rotation)
    requires i < |proxies|
    requires PassTrace(step, calls, proxies[..i], done, worlds)
    requires rot == step(worlds[i], calls + DueCount(done), proxies[i])
    ensures PassTrace(step, calls, proxies[..i + 1], done + [rot.attempt], worlds + [rot.world])
  {
    var ps, attempts, worlds' := proxies[..i + 1], done + [rot.attempt], worlds + [rot.world];
    forall k | 0 <= k < i + 1 ensures StepAt(step, calls, ps, attempts, worlds', k) {
      if k < i {
        assert StepAt(step, calls, proxies[..i], done, worlds, k);
        StepKept(step, calls, proxies, i, done, worlds, rot, k);
      } else {
        StepAdded(step, calls, proxies, i, done, worlds, rot);
      }
    }
  }

  /** An earlier entry's step is unchanged by extending the trace. */
  lemma {:induction false} StepKept(step: StepFn, calls: nat, proxies: seq<ProxyKey>, i: nat,
                                    done: seq<Attempt>, worlds: seq<World>, rot: Rotation, k: nat)
    requires k < i < |proxies| && |done| == i && |worlds| == i + 1
    requires StepAt(step, calls, proxies[..i], done, worlds, k)
    ensures StepAt(step, calls, proxies[..i + 1], done + [rot.attempt], worlds + [rot.world], k)
  {
    var attempts, worlds' := done + [rot.attempt], worlds + [rot.world];
    assert attempts[..k] == done[..k] && attempts[k] == done[k];
    assert proxies[..i + 1][k] == proxies[..i][k];
    assert worlds'[k] == worlds[k] && worlds'[k + 1] == worlds[k + 1];
  }

  /** The step of the entry that extends the trace. */
  lemma {:induction false} StepAdded(step: StepFn, calls: nat, proxies: seq<ProxyKey>, i: nat,
                                     done: seq<Attempt>, worlds: seq<World>, rot: Rotation)
    requires i < |proxies| && |done| == i && |worlds| == i + 1
    requires rot == step(worlds[i], calls + DueCount(done), proxies[i])
    ensures StepAt(step, calls, proxies[..i + 1], done + [rot.attempt], worlds + [rot.world], i)
  {
    var attempts, worlds' := done + [rot.attempt], worlds + [rot.world];
    assert attempts[..i] == done && attempts[i] == rot.attempt;
    assert proxies[..i + 1][i] == proxies[i];
    assert worlds'[i] == worlds[i] && worlds'[i + 1] == rot.world;
  }

  /** The attempt function determines the pass: two traces of the same pass from the same
      relays agree on the attempts of the first k entries and on the relays after them. */
  lemma {:induction false} TracesAgree(step: StepFn, calls: nat, ps: seq<ProxyKey>,
                                       a1: seq<Attempt>, w1: seq<World>, a2: seq<Attempt>, w2: seq<World>, k: nat)
    requires PassTrace(step, calls, ps, a1, w1)
    requires PassTrace(step, calls, ps, a2, w2)
    requires w1[0] == w2[0] && k <= |ps|
    ensures a1[..k] == a2[..k] && w1[k] == w2[k]
    decreases k
  {
    if k > 0 {
      TracesAgree(step, calls, ps, a1, w1, a2, w2, k - 1);
      StepsAgree(step, calls, ps, a1, w1, a2, w2, k - 1);
      assert a1[..k] == a1[..k - 1] + [a1[k - 1]] && a2[..k] == a2[..k - 1] + [a2[k - 1]];
    }
  }

  /** Two traces that agree up to entry k agree on its attempt and on the relays after it. */
  lemma {:induction false} StepsAgree(step: StepFn, calls: nat, ps: seq<ProxyKey>,
                                      a1: seq<Attempt>, w1: seq<World>, a2: seq<Attempt>, w2: seq<World>, k: nat)
    requires PassTrace(step, calls, ps, a1, w1)
    requires PassTrace(step, calls, ps, a2, w2)
    requires k < |ps| && a1[..k] == a2[..k] && w1[k] == w2[k]
    ensures a1[k] == a2[k] && w1[k + 1] == w2[k + 1]
  {
    var c := calls + DueCount(a1[..k]);
    assert c == calls + DueCount(a2[..k]);
    assert step(w1[k], c, ps[k]) == Rotation(a1[k], w1[k + 1]) by {
      assert StepAt(step, calls, ps, a1, w1, k);
    }
    assert step(w1[k], c, ps[k]) == Rotation(a2[k], w2[k + 1]) by {
      assert StepAt(step, calls, ps, a2, w2, k);
    }
  }

  /** A pass's contract pins its outcome: the attempts and the final relays are the same in
      every trace of it from the same relays. */
  lemma {:induction false} PassTraceDeterministic(step: StepFn, calls: nat, ps: seq<ProxyKey>,
                                                  a1: seq<Attempt>, w1: seq<World>, a2: seq<Attempt>, w2: seq<World>)
    requires PassTrace(step, calls, ps, a1, w1)
    requires PassTrace(step, calls, ps, a2, w2)
    requires w1[0] == w2[0]
    ensures a1 == a2 && w1[|ps|] == w2[|ps|]
  {
    TracesAgree(step, calls, ps, a1, w1, a2, w2, |ps|);
    assert a1[..|ps|] == a1 && a2[..|ps|] == a2;
  }

  /** The snapshot after a pass: each entry as its attempt left it. */
  function AfterPass(ps: seq<ProxyKey>, attempts: seq<Attempt>, now: Timestamp): seq<ProxyKey>
    requires |ps| == |attempts|
  {
    seq(|ps|, k requires 0 <= k < |ps| => AfterAttempt(ps[k], attempts[k], now))
  }

  /** The stored table, the log and the provider call count. */
  datatype Stored = Stored(table: seq<ProxyKey>, log: seq<LogEntry>, calls: nat)

  /** What a pass over `ps` with `attempts` leaves stored: the renewed records written back,
      the pass's log entries appended, one provider call per due entry. */
  function AfterStored(s: Stored, ps: seq<ProxyKey>, attempts: seq<Attempt>, policy: Policy, now: Timestamp): Stored
    requires |ps| == |attempts|
  {
    Stored(ReplaceEach(s.table, RenewedRecords(ps, attempts, now)),
           s.log + PassLog(ps, attempts, WordingOf(policy), now, |s.log|),
           s.calls + DueCount(attempts))
  }

  /** A whole pass over `ps` from the stored state `s0` and relays `w0` made `attempts` through
      `worlds`, and left the snapshot `after`, the stored state `s1` and the relays `w1`. */
  predicate PassDone(answer: (nat, Request) -> Reply, bind: (nat, int) -> BindAnswer, s0: Stored, w0: World,
                     ps: seq<ProxyKey>, policy: Policy, now: Timestamp, attempts: seq<Attempt>, worlds: seq<World>,
                     after: seq<ProxyKey>, s1: Stored, w1: World)
  {
    && PassOutcomes(ps, after, attempts, policy, now)
    && PassTrace(StepOf(answer, bind, policy, now), s0.calls, ps, attempts, worlds)
    && worlds[0] == w0 && worlds[|ps|] == w1
    && after == AfterPass(ps, attempts, now)
    && s1 == AfterStored(s0, ps, attempts, policy, now)
  }

  /** One iteration of the auto-rotation worker from the stored state `s0` and relays `w0` under
      settings `s`: the expiration pass over the active entries when enabled, then the interval
      pass over the snapshot the first pass left, from the state it left, when enabled. A pass
      that is off makes no attempt and its relays stay as they were. */
  predicate CycleDone(answer: (nat, Request) -> Reply, bind: (nat, int) -> BindAnswer, s: Settings, s0: Stored, w0: World,
                      nowExpiration: Timestamp, nowInterval: Timestamp,
                      expiration: seq<Attempt>, worldsE: seq<World>, interval: seq<Attempt>, worldsI: seq<World>,
                      s2: Stored, w2: World)
  {
    var active := ActiveProxies(s0.table);
    && (s.autoRotateOnExpiration || (expiration == [] && worldsE == [w0]))
    && (s.autoRotateOnExpiration ==>
          PassTrace(StepOf(answer, bind, OnExpiration, nowExpiration), s0.calls, active, expiration, worldsE) && worldsE[0] == w0)
    && var seen := if s.autoRotateOnExpiration then AfterPass(active, expiration, nowExpiration) else active;
       var s1 := if s.autoRotateOnExpiration then AfterStored(s0, active, expiration, OnExpiration, nowExpiration) else s0;
       var w1 := worldsE[|worldsE| - 1];
       var interval' := OnInterval(s.autoRotateIntervalMinutes);
       && (s.autoRotateIntervalEnabled || (interval == [] && worldsI == [w1] && s2 == s1))
       && (s.autoRotateIntervalEnabled ==>
             && PassTrace(StepOf(answer, bind, interval', nowInterval), s1.calls, seen, interval, worldsI)
             && worldsI[0] == w1 && s2 == AfterStored(s1, seen, interval, interval', nowInterval))
       && w2 == worldsI[|worldsI| - 1]
  }

  /** The records a pass wrote back, in order: the renewed entries, rotated. */
  function RenewedRecords(ps: seq<ProxyKey>, attempts: seq<Attempt>, now: Timestamp): seq<ProxyKey>
    requires |ps| == |attempts|
    decreases |ps|
  {
    if ps == [] then []
    else if attempts[|ps| - 1].Renewed? then
      RenewedRecords(ps[..|ps| - 1], attempts[..|ps| - 1], now) + [Rotated(ps[|ps| - 1], attempts[|ps| - 1].upstream, now)]
    else RenewedRecords(ps[..|ps| - 1], attempts[..|ps| - 1], now)
  }

  /** The log entries a pass appends after `base` existing ones. */
  function PassLog(ps: seq<ProxyKey>, attempts: seq<Attempt>, w: Wording, now: Timestamp, base: nat): seq<LogEntry>
    requires |ps| == |attempts|
    decreases |ps|
  {
    if ps == [] then []
    else
      PassLog(ps[..|ps| - 1], attempts[..|ps| - 1], w, now, base)
      + LogFor(ps[|ps| - 1], attempts[|ps| - 1], w, now, base + |PassLog(ps[..|ps| - 1], attempts[..|ps| - 1], w, now, base)| + 1)
  }

  /** The pass functions on one more entry. */
  lemma {:induction false} RenewedRecordsSnoc(ps: seq<ProxyKey>, attempts: seq<Attempt>, p: ProxyKey, a: Attempt, now: Timestamp)
    requires |ps| == |attempts|
    ensures RenewedRecords(ps + [p], attempts + [a], now)
              == RenewedRecords(ps, attempts, now) + (if a.Renewed? then [Rotated(p, a.upstream, now)] else [])
  {
    assert (ps + [p])[..|ps|] == ps;
    assert (attempts + [a])[..|attempts|] == attempts;
  }

  lemma {:induction false} PassLogSnoc(ps: seq<ProxyKey>, attempts: seq<Attempt>, p: ProxyKey, a: Attempt, w: Wording,
                    now: Timestamp, base: nat)
    requires |ps| == |attempts|
    ensures PassLog(ps + [p], attempts + [a], w, now, base)
              == PassLog(ps, attempts, w, now, base) + LogFor(p, a, w, now, base + |PassLog(ps, attempts, w, now, base)| + 1)
  {
    var ps', attempts' := ps + [p], attempts + [a];
    assert ps'[..|ps'| - 1] == ps && ps'[|ps'| - 1] == p;
    assert attempts'[..|ps'| - 1] == attempts && attempts'[|ps'| - 1] == a;
    PassLogUnfold(ps', attempts', w, now, base);
  }

  /** PassLog of a non-empty snapshot, one step of its definition. */
  lemma {:induction false} PassLogUnfold(ps: seq<ProxyKey>, attempts: seq<Attempt>, w: Wording, now: Timestamp, base: nat)
    requires |ps| == |attempts| && ps != []
    ensures PassLog(ps, attempts, w, now, base)
              == PassLog(ps[..|ps| - 1], attempts[..|ps| - 1], w, now, base)
                 + LogFor(ps[|ps| - 1], attempts[|ps| - 1], w, now, base + |PassLog(ps[..|ps| - 1], attempts[..|ps| - 1], w, now, base)| + 1)
  {
  }

  lemma {:induction false} DueCountSnoc(attempts: seq<Attempt>, a: Attempt)
    ensures DueCount(attempts + [a]) == DueCount(attempts) + (if a.NotDue? then 0 else 1)
  {
    assert (attempts + [a])[..|attempts|] == attempts;
  }

  /** Entry by entry: an attempt was made exactly on the due entries, and the snapshot holds
      each entry as its attempt left it. */
  predicate PassOutcomes(ps: seq<ProxyKey>, after: seq<ProxyKey>, attempts: seq<Attempt>, policy: Policy, now: Timestamp)
  {
    && |after| == |ps| && |attempts| == |ps|
    && (forall k :: 0 <= k < |ps| ==> (attempts[k].NotDue? <==> !Due(policy, ps[k], now)))
    && (forall k :: 0 <= k < |ps| ==> after[k] == AfterAttempt(ps[k], attempts[k], now))
  }

  lemma {:induction false} PassOutcomesSnoc(ps: seq<ProxyKey>, after: seq<ProxyKey>, attempts: seq<Attempt>, policy: Policy,
                         now: Timestamp, p: ProxyKey, a: Attempt)
    requires PassOutcomes(ps, after, attempts, policy, now)
    requires a.NotDue? <==> !Due(policy, p, now)
    ensures PassOutcomes(ps + [p], after + [AfterAttempt(p, a, now)], attempts + [a], policy, now)
  {
    var ps', after', attempts' := ps + [p], after + [AfterAttempt(p, a, now)], attempts + [a];
    forall k | 0 <= k < |ps'|
      ensures (attempts'[k].NotDue? <==> !Due(policy, ps'[k], now)) && after'[k] == AfterAttempt(ps'[k], attempts'[k], now)
    {
      if k < |ps| {
        assert ps'[k] == ps[k] && after'[k] == after[k] && attempts'[k] == attempts[k];
      }
    }
  }

  /** The first i + 1 elements of `s` are its first i followed by element i. */
  lemma PrefixSnoc<T>(s: seq<T>, i: nat)
    requires i < |s|
    ensures s[..i + 1] == s[..i] + [s[i]]
  {
  }

  /** The stored table across one iteration of a pass over `proxies`, entry `i`. */
  lemma {:induction false} TableStep(table: seq<ProxyKey>, proxies: seq<ProxyKey>, i: nat, done: seq<Attempt>, a: Attempt,
                                     now: Timestamp, before: seq<ProxyKey>, after: seq<ProxyKey>)
    requires i < |proxies| && |done| == i
    requires before == ReplaceEach(table, RenewedRecords(proxies[..i], done, now))
    requires after == if a.Renewed? then ReplaceFirst(before, Rotated(proxies[i], a.upstream, now)) else before
    ensures after == ReplaceEach(table, RenewedRecords(proxies[..i + 1], done + [a], now))
  {
    PrefixSnoc(proxies, i);
    RenewedRecordsSnoc(proxies[..i], done, proxies[i], a, now);
    if a.Renewed? {
      ReplaceEachSnoc(table, RenewedRecords(proxies[..i], done, now), Rotated(proxies[i], a.upstream, now));
    }
  }

  /** The log across one iteration of a pass over `proxies`, entry `i`. */
  lemma {:induction false} LogStep(log: seq<LogEntry>, proxies: seq<ProxyKey>, i: nat, done: seq<Attempt>, a: Attempt,
                                   w: Wording, now: Timestamp, before: seq<LogEntry>, after: seq<LogEntry>)
    requires i < |proxies| && |done| == i
    requires before == log + PassLog(proxies[..i], done, w, now, |log|)
    requires after == before + LogFor(proxies[i], a, w, now, |before| + 1)
    ensures after == log + PassLog(proxies[..i + 1], done + [a], w, now, |log|)
  {
    PrefixSnoc(proxies, i);
    PassLogSnoc(proxies[..i], done, proxies[i], a, w, now, |log|);
  }

  /** The pass invariant across entry `i` of `proxies`, given what the attempt on it did to the
      stored table, the log and the provider calls. */
  lemma {:induction false} PassInvariantStep(proxies: seq<ProxyKey>, i: nat, seen: seq<ProxyKey>, done: seq<Attempt>,
                                             a: Attempt, policy: Policy, w: Wording, now: Timestamp,
                                             table: seq<ProxyKey>, log: seq<LogEntry>, calls: nat,
                                             tableBefore: seq<ProxyKey>, logBefore: seq<LogEntry>, callsBefore: nat,
                                             tableAfter: seq<ProxyKey>, logAfter: seq<LogEntry>, callsAfter: nat)
    requires i < |proxies| && |done| == i
    requires PassOutcomes(proxies[..i], seen, done, policy, now)
    requires tableBefore == ReplaceEach(table, RenewedRecords(proxies[..i], done, now))
    requires logBefore == log + PassLog(proxies[..i], done, w, now, |log|)
    requires callsBefore == calls + DueCount(done)
    requires a.NotDue? <==> !Due(policy, proxies[i], now)
    requires callsAfter == callsBefore + (if a.NotDue? then 0 else 1)
    requires tableAfter == if a.Renewed? then ReplaceFirst(tableBefore, Rotated(proxies[i], a.upstream, now)) else tableBefore
    requires logAfter == logBefore + LogFor(proxies[i], a, w, now, |logBefore| + 1)
    ensures PassOutcomes(proxies[..i + 1], seen + [AfterAttempt(proxies[i], a, now)], done + [a], policy, now)
    ensures tableAfter == ReplaceEach(table, RenewedRecords(proxies[..i + 1], done + [a], now))
    ensures logAfter == log + PassLog(proxies[..i + 1], done + [a], w, now, |log|)
    ensures callsAfter == calls + DueCount(done + [a])
  {
    assert tableAfter == ReplaceEach(table, RenewedRecords(proxies[..i + 1], done + [a], now)) by {
      TableStep(table, proxies, i, done, a, now, tableBefore, tableAfter);
    }
    assert logAfter == log + PassLog(proxies[..i + 1], done + [a], w, now, |log|) by {
      LogStep(log, proxies, i, done, a, w, now, logBefore, logAfter);
    }
    assert PassOutcomes(proxies[..i + 1], seen + [AfterAttempt(proxies[i], a, now)], done + [a], policy, now) by {
      PassOutcomesSnoc(proxies[..i], seen, done, policy, now, proxies[i], a);
      PrefixSnoc(proxies, i);
    }
    DueCountSnoc(done, a);
  }

  /** One iteration of a pass, entry `i` of `proxies`: its attempt is added to `done`, its
      entry as the attempt left it to `seen` and the relays after it to `worlds`, and the stored
      table, the log and the provider calls move from their values for the first i entries to
      their values for i + 1. */
  method PassStep(store: Store, provider: Provider, reg: Registry, net: Network, proxies: seq<ProxyKey>,
                  i: nat, seen: seq<ProxyKey>, done: seq<Attempt>, policy: Policy, w: Wording, now: Timestamp,
                  ghost table: seq<ProxyKey>, ghost log: seq<LogEntry>, ghost calls: nat, ghost worlds: seq<World>)
    returns (seen': seq<ProxyKey>, done': seq<Attempt>, ghost worlds': seq<World>)
    requires i < |proxies| && |done| == i
    requires PassOutcomes(proxies[..i], seen, done, policy, now)
    requires PassTrace(StepOf(provider.answer, net.bind, policy, now), calls, proxies[..i], done, worlds)
    requires worlds[i] == World(reg.entries, net.State())
    requires store.proxyKeys == ReplaceEach(table, RenewedRecords(proxies[..i], done, now))
    requires store.logs == log + PassLog(proxies[..i], done, w, now, |log|)
    requires provider.calls == calls + DueCount(done)
    modifies store, provider, reg, net
    ensures PassOutcomes(proxies[..i + 1], seen', done', policy, now)
    ensures PassTrace(StepOf(provider.answer, net.bind, policy, now), calls, proxies[..i + 1], done', worlds')
    ensures worlds'[0] == worlds[0] && worlds'[i + 1] == World(reg.entries, net.State())
    ensures store.proxyKeys == ReplaceEach(table, RenewedRecords(proxies[..i + 1], done', now))
    ensures store.logs == log + PassLog(proxies[..i + 1], done', w, now, |log|)
    ensures provider.calls == calls + DueCount(done')
    ensures store.settings == old(store.settings)
  {
    var p := proxies[i];
    ghost var tableBefore, logBefore, callsBefore := store.proxyKeys, store.logs, provider.calls;
    var a;
    a, worlds' := TracedAttempt(store, provider, reg, net, proxies, i, done, policy, w, now, calls, worlds);
    PassInvariantStep(proxies, i, seen, done, a, policy, w, now, table, log, calls,
                      tableBefore, logBefore, callsBefore, store.proxyKeys, store.logs, provider.calls);
    seen', done' := seen + [AfterAttempt(p, a, now)], done + [a];
  }

  /** The attempt on entry `i` of a pass, with the trace of the pass extended by it. */
  method TracedAttempt(store: Store, provider: Provider, reg: Registry, net: Network, proxies: seq<ProxyKey>, i: nat,
                       done: seq<Attempt>, policy: Policy, w: Wording, now: Timestamp, ghost calls: nat,
                       ghost worlds: seq<World>)
    returns (a: Attempt, ghost worlds': seq<World>)
    requires i < |proxies|
    requires PassTrace(StepOf(provider.answer, net.bind, policy, now), calls, proxies[..i], done, worlds)
    requires worlds[i] == World(reg.entries, net.State()) && provider.calls == calls + DueCount(done)
    modifies store, provider, reg, net
    ensures PassTrace(StepOf(provider.answer, net.bind, policy, now), calls, proxies[..i + 1], done + [a], worlds')
    ensures worlds' == worlds + [World(reg.entries, net.State())]
    ensures a.NotDue? <==> !Due(policy, proxies[i], now)
    ensures provider.calls == old(provider.calls) + (if a.NotDue? then 0 else 1)
    ensures store.proxyKeys == if a.Renewed? then ReplaceFirst(old(store.proxyKeys), Rotated(proxies[i], a.upstream, now))
                               else old(store.proxyKeys)
    ensures store.logs == old(store.logs) + LogFor(proxies[i], a, w, now, |old(store.logs)| + 1)
    ensures store.settings == old(store.settings)
  {
    a := AttemptEntry(store, provider, reg, net, proxies[i], policy, w, now);
    ghost var rot := Rotation(a, World(reg.entries, net.State()));
    StepOfIsAttemptOn(provider.answer, net.bind, policy, now, worlds[i], calls + DueCount(done), proxies[i]);
    TraceStep(StepOf(provider.answer, net.bind, policy, now), calls, proxies, i, done, worlds, rot);
    worlds' := worlds + [World(reg.entries, net.State())];
  }

  /** A pass of either worker over one snapshot of entries (rotate_expired_proxies for
      OnExpiration, rotate_by_interval for OnInterval): every due entry gets one rotation attempt,
      a failure does not stop the pass, and the snapshot is updated in place for whatever runs
      next on it. `worlds` are the relays before each entry and after the last. */
  method RotatePass(store: Store, provider: Provider, reg: Registry, net: Network, proxies: seq<ProxyKey>,
                    policy: Policy, now: Timestamp)
    returns (after: seq<ProxyKey>, attempts: seq<Attempt>, ghost worlds: seq<World>)
    modifies store, provider, reg, net
    ensures PassDone(provider.answer, net.bind, old(Stored(store.proxyKeys, store.logs, provider.calls)),
                     old(World(reg.entries, net.State())), proxies, policy, now, attempts, worlds,
                     after, Stored(store.proxyKeys, store.logs, provider.calls), World(reg.entries, net.State()))
    ensures store.settings == old(store.settings)
  {
    var wording := WordingOf(policy);
    after := [];
    attempts := [];
    worlds := [World(reg.entries, net.State())];
    for i := 0 to |proxies|
      invariant PassOutcomes(proxies[..i], after, attempts, policy, now)
      invariant PassTrace(StepOf(provider.answer, net.bind, policy, now), old(provider.calls), proxies[..i], attempts, worlds)
      invariant worlds[0] == old(World(reg.entries, net.State())) && worlds[i] == World(reg.entries, net.State())
      invariant store.proxyKeys == ReplaceEach(old(store.proxyKeys), RenewedRecords(proxies[..i], attempts, now))
      invariant store.logs == old(store.logs) + PassLog(proxies[..i], attempts, wording, now, |old(store.logs)|)
      invariant store.settings == old(store.settings)
      invariant provider.calls == old(provider.calls) + DueCount(attempts)
    {
      after, attempts, worlds := PassStep(store, provider, reg, net, proxies, i, after, attempts, policy, wording, now,
                                          old(store.proxyKeys), old(store.logs), old(provider.calls), worlds);
    }
    assert proxies[..|proxies|] == proxies;
    assert after == AfterPass(proxies, attempts, now);
  }

  /** The log of a pass: one entry per due entry, numbered on from the existing log. */
  lemma {:induction false} PassLogNumbering(ps: seq<ProxyKey>, attempts: seq<Attempt>, w: Wording, now: Timestamp, base: nat)
    requires |ps| == |attempts|
    ensures |PassLog(ps, attempts, w, now, base)| == DueCount(attempts)
    ensures forall j :: 0 <= j < |PassLog(ps, attempts, w, now, base)| ==>
              PassLog(ps, attempts, w, now, base)[j].id == base + j + 1
              && PassLog(ps, attempts, w, now, base)[j].action == w.action
    decreases |ps|
  {
    if ps != [] {
      var n := |ps| - 1;
      PassLogNumbering(ps[..n], attempts[..n], w, now, base);
      LogForShape(ps[n], attempts[n], w, now, base + |PassLog(ps[..n], attempts[..n], w, now, base)| + 1);
    }
  }

  /** A log entry about a due entry of the pass: its id and region, and success exactly when
      that entry was renewed. */
  predicate LogsDueEntry(e: LogEntry, ps: seq<ProxyKey>, attempts: seq<Attempt>)
    requires |ps| == |attempts|
  {
    exists i :: 0 <= i < |ps| && !attempts[i].NotDue? && e.proxyId == ps[i].id && e.region == Some(ps[i].region)
                && (e.status == Succeeded <==> attempts[i].Renewed?)
  }

  /** Each entry of a pass's log is about a due entry of the pass. */
  lemma {:induction false} PassLogEntries(ps: seq<ProxyKey>, attempts: seq<Attempt>, w: Wording, now: Timestamp, base: nat)
    requires |ps| == |attempts|
    ensures forall j :: 0 <= j < |PassLog(ps, attempts, w, now, base)| ==>
              LogsDueEntry(PassLog(ps, attempts, w, now, base)[j], ps, attempts)
    decreases |ps|
  {
    if ps != [] {
      var n := |ps| - 1;
      PassLogEntries(ps[..n], attempts[..n], w, now, base);
      var prior := PassLog(ps[..n], attempts[..n], w, now, base);
      var log := PassLog(ps, attempts, w, now, base);
      var tail := LogFor(ps[n], attempts[n], w, now, base + |prior| + 1);
      LogForShape(ps[n], attempts[n], w, now, base + |prior| + 1);
      assert log == prior + tail;
      forall j | 0 <= j < |log| ensures LogsDueEntry(log[j], ps, attempts) {
        if j < |prior| {
          assert log[j] == prior[j];
          assert LogsDueEntry(prior[j], ps[..n], attempts[..n]);
          var i :| 0 <= i < n && !attempts[..n][i].NotDue? && prior[j].proxyId == ps[..n][i].id
                   && prior[j].region == Some(ps[..n][i].region)
                   && (prior[j].status == Succeeded <==> attempts[..n][i].Renewed?);
          assert ps[..n][i] == ps[i] && attempts[..n][i] == attempts[i];
        } else {
          assert log[j] == tail[0];
        }
      }
    }
  }

  /** `x` is some renewed entry of the pass, rotated. */
  predicate WrittenBackFrom(x: ProxyKey, ps: seq<ProxyKey>, attempts: seq<Attempt>, now: Timestamp)
    requires |ps| == |attempts|
  {
    exists i :: 0 <= i < |ps| && attempts[i].Renewed? && x == Rotated(ps[i], attempts[i].upstream, now)
  }

  /** Every record a pass writes back is a renewed entry, rotated, and every renewed entry is written back. */
  lemma {:induction false} RenewedRecordsShape(ps: seq<ProxyKey>, attempts: seq<Attempt>, now: Timestamp)
    requires |ps| == |attempts|
    ensures forall j :: 0 <= j < |RenewedRecords(ps, attempts, now)| ==>
              WrittenBackFrom(RenewedRecords(ps, attempts, now)[j], ps, attempts, now)
    ensures forall i :: 0 <= i < |ps| && attempts[i].Renewed? ==>
              Rotated(ps[i], attempts[i].upstream, now) in RenewedRecords(ps, attempts, now)
    decreases |ps|
  {
    if ps != [] {
      var n := |ps| - 1;
      RenewedRecordsShape(ps[..n], attempts[..n], now);
      var prior := RenewedRecords(ps[..n], attempts[..n], now);
      var r := RenewedRecords(ps, attempts, now);
      assert r == prior + (if attempts[n].Renewed? then [Rotated(ps[n], attempts[n].upstream, now)] else []);
      forall j | 0 <= j < |r| ensures WrittenBackFrom(r[j], ps, attempts, now) {
        if j < |prior| {
          assert r[j] == prior[j];
          assert WrittenBackFrom(prior[j], ps[..n], attempts[..n], now);
          var i :| 0 <= i < |ps[..n]| && attempts[..n][i].Renewed? && prior[j] == Rotated(ps[..n][i], attempts[..n][i].upstream, now);
          assert ps[..n][i] == ps[i] && attempts[..n][i] == attempts[i];
          assert r[j] == prior[j];
        } else {
          assert r[j] == Rotated(ps[n], attempts[n].upstream, now);
        }
      }
      forall i | 0 <= i < |ps| && attempts[i].Renewed? ensures Rotated(ps[i], attempts[i].upstream, now) in r {
        if i < n {
          assert ps[..n][i] == ps[i] && attempts[..n][i] == attempts[i];
        }
      }
    }
  }

  /** The records written back carry distinct ids when the snapshot does. */
  lemma {:induction false} RenewedRecordsUnique(ps: seq<ProxyKey>, attempts: seq<Attempt>, now: Timestamp)
    requires |ps| == |attempts| && UniqueProxyIds(ps)
    ensures UniqueProxyIds(RenewedRecords(ps, attempts, now))
    decreases |ps|
  {
    if ps != [] {
      var n := |ps| - 1;
      assert UniqueProxyIds(ps[..n]);
      RenewedRecordsUnique(ps[..n], attempts[..n], now);
      var prior := RenewedRecords(ps[..n], attempts[..n], now);
      var r := RenewedRecords(ps, attempts, now);
      if attempts[n].Renewed? {
        RenewedRecordsShape(ps[..n], attempts[..n], now);
        assert r == prior + [Rotated(ps[n], attempts[n].upstream, now)];
        forall a, b | 0 <= a < b < |r| ensures r[a].id != r[b].id {
          if b == |prior| {
            assert r[a] == prior[a];
            assert WrittenBackFrom(prior[a], ps[..n], attempts[..n], now);
            var i :| 0 <= i < n && attempts[..n][i].Renewed? && prior[a] == Rotated(ps[..n][i], attempts[..n][i].upstream, now);
            assert ps[..n][i] == ps[i];
          } else {
            assert r[a] == prior[a] && r[b] == prior[b];
          }
        }
      }
    }
  }

  /** What a pass leaves in a table with distinct ids that holds every entry of the snapshot: the
      stored record of a renewed entry is that entry rotated, and the record of every other entry
      is untouched, whatever the outcome of its attempt. */
  lemma {:induction false} PassPersists(table: seq<ProxyKey>, ps: seq<ProxyKey>, attempts: seq<Attempt>, now: Timestamp)
    requires |ps| == |attempts| && UniqueProxyIds(ps)
    requires forall i :: 0 <= i < |ps| ==> IndexOfId(table, ps[i].id).Some?
    ensures forall i :: 0 <= i < |ps| && attempts[i].Renewed? ==>
              ReplaceEach(table, RenewedRecords(ps, attempts, now))[IndexOfId(table, ps[i].id).value]
                == Rotated(ps[i], attempts[i].upstream, now)
    ensures forall i :: 0 <= i < |ps| && !attempts[i].Renewed? ==>
              ReplaceEach(table, RenewedRecords(ps, attempts, now))[IndexOfId(table, ps[i].id).value]
                == table[IndexOfId(table, ps[i].id).value]
  {
    var r := RenewedRecords(ps, attempts, now);
    RenewedRecordsShape(ps, attempts, now);
    RenewedRecordsUnique(ps, attempts, now);
    forall j | 0 <= j < |r| ensures IndexOfId(table, r[j].id).Some? {
      assert WrittenBackFrom(r[j], ps, attempts, now);
      var i :| 0 <= i < |ps| && attempts[i].Renewed? && r[j] == Rotated(ps[i], attempts[i].upstream, now);
    }
    ReplaceEachEffect(table, r);
    forall i | 0 <= i < |ps| && attempts[i].Renewed?
      ensures ReplaceEach(table, r)[IndexOfId(table, ps[i].id).value] == Rotated(ps[i], attempts[i].upstream, now)
    {
      var x := Rotated(ps[i], attempts[i].upstream, now);
      var j :| 0 <= j < |r| && r[j] == x;
    }
    forall i | 0 <= i < |ps| && !attempts[i].Renewed?
      ensures ReplaceEach(table, r)[IndexOfId(table, ps[i].id).value] == table[IndexOfId(table, ps[i].id).value]
    {
      var k := IndexOfId(table, ps[i].id).value;
      forall j | 0 <= j < |r| ensures r[j].id != table[k].id {
        assert WrittenBackFrom(r[j], ps, attempts, now);
        var i' :| 0 <= i' < |ps| && attempts[i'].Renewed? && r[j] == Rotated(ps[i'], attempts[i'].upstream, now);
        assert i' != i;
      }
    }
  }

  /** One iteration of the auto-rotation worker: read the settings and one snapshot of the active
      entries, run the expiration pass on it when enabled, then the interval pass on the same
      (updated) snapshot when enabled. Each pass reads its own clock (`nowExpiration`,
      `nowInterval`). */
  method RotationCycle(store: Store, provider: Provider, reg: Registry, net: Network,
                       nowExpiration: Timestamp, nowInterval: Timestamp)
    returns (expiration: seq<Attempt>, interval: seq<Attempt>, ghost worldsE: seq<World>, ghost worldsI: seq<World>)
    modifies store, provider, reg, net
    ensures CycleDone(provider.answer, net.bind, old(store.settings), old(Stored(store.proxyKeys, store.logs, provider.calls)),
                      old(World(reg.entries, net.State())), nowExpiration, nowInterval, expiration, worldsE, interval, worldsI,
                      Stored(store.proxyKeys, store.logs, provider.calls), World(reg.entries, net.State()))
    ensures var s := old(store.settings);
      var active := ActiveProxies(old(store.proxyKeys));
      && (s.autoRotateOnExpiration ==>
            (|expiration| == |active|
             && forall i :: 0 <= i < |active| ==> (expiration[i].NotDue? <==> !ExpirationDue(active[i], nowExpiration))))
      && (!s.autoRotateOnExpiration ==> expiration == [])
      && (!s.autoRotateIntervalEnabled ==> interval == [])
    ensures var s := old(store.settings);
      var active := ActiveProxies(old(store.proxyKeys));
      s.autoRotateIntervalEnabled ==>
        && |interval| == |active|
        && (!s.autoRotateOnExpiration ==>
              forall i :: 0 <= i < |active| ==>
                (interval[i].NotDue? <==> !IntervalDue(active[i], s.autoRotateIntervalMinutes, nowInterval)))
        && (s.autoRotateOnExpiration ==>
              forall i :: 0 <= i < |active| ==>
                (interval[i].NotDue? <==>
                   !IntervalDue(AfterAttempt(active[i], expiration[i], nowExpiration), s.autoRotateIntervalMinutes, nowInterval)))
    ensures var s := old(store.settings);
      var active := ActiveProxies(old(store.proxyKeys));
      s.autoRotateOnExpiration && s.autoRotateIntervalEnabled && nowExpiration <= nowInterval < nowExpiration + s.autoRotateIntervalMinutes * MsPerMinute ==>
        forall i :: 0 <= i < |active| && expiration[i].Renewed? ==> interval[i].NotDue?
    ensures store.settings == old(store.settings)
  {
    var settings := store.settings;
    var proxies := ActiveProxies(store.proxyKeys);
    ghost var active := proxies;
    expiration := [];
    interval := [];
    worldsE := [World(reg.entries, net.State())];
    if settings.autoRotateOnExpiration {
      proxies, expiration, worldsE := RotatePass(store, provider, reg, net, proxies, OnExpiration, nowExpiration);
    }
    ghost var seen := proxies;
    worldsI := [World(reg.entries, net.State())];
    if settings.autoRotateIntervalEnabled {
      var m := settings.autoRotateIntervalMinutes;
      var rest, attempts;
      rest, attempts, worldsI := RotatePass(store, provider, reg, net, proxies, OnInterval(m), nowInterval);
      interval := attempts;
      if settings.autoRotateOnExpiration && nowExpiration <= nowInterval < nowExpiration + m * MsPerMinute {
        forall i | 0 <= i < |active| && expiration[i].Renewed? ensures interval[i].NotDue? {
          assert seen[i] == Rotated(active[i], expiration[i].upstream, nowExpiration);
          RotatedNotIntervalDue(active[i], expiration[i].upstream, nowExpiration, m, nowInterval);
          assert !Due(OnInterval(m), seen[i], nowInterval);
        }
      }
    }
  }
}

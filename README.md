# Proxy fleet manager: a Dafny model of its core

The system rents upstream proxies from a provider (KiotProxy) and exposes each one under a
local port and a subdomain. The model covers six parts:

- **The record store** (`Database`): rented entries ("proxy keys"), an append-only rotation log
  and a settings singleton. It also holds the id, subdomain and port allocators and the log
  query.
- **The relay registry** (`ProxyHandler`): one raw TCP relay per entry, in a process-wide
  registry keyed by entry id. The registry's start/stop/restart state machine includes
  recovery from a port held by another relay.
- **The scheduler** (`Worker`): one cycle each of the health-check worker and of the
  auto-rotation worker, which rotates on expiration and on an interval.
- **The gateway configuration** (`TraefikConfig`): the routers and services built from the
  active entries.
- **The endpoints** (`Api`, main.py): startup recovery, create, bulk import, rotate, restart,
  delete and the settings update.
- **The records** (`Models`) and the provider client (`KiotProxy`), which the model treats as
  an oracle.

## How the model is built

- **In-place state.** State the program mutates in place is a class:
  - `Store`: the JSON document.
  - `Registry`: the `proxy_servers` dict.
  - `Network`: the listening sockets together with the operating system's bind.
  - `Provider`: the provider's HTTP API.
  - `Gateway`: the configuration file.
  - `RawProxyHandler`: the relay object.

  Each method's `ensures` states the new state in terms of a pure function of the old state.
  The properties are proved as lemmas about those functions:
  - `StartSpec`, `StopById` and `RestartHandlerSpec` for the relays;
  - `RotatePass` with `PassLog` and `RenewedRecords` for the rotation passes;
  - `AdmitSpec` and `ImportAll` for create and bulk import;
  - `RecoverAll` for startup recovery;
  - `Renewal` for one rotation (provider answer, relay restart, "location"), shared by the
    workers and the rotate endpoint;
  - `AttemptOn` and the trace predicate `PassTrace` for the provider requests and the relay
    states of a whole pass, and `CycleDone` for a cycle of the auto-rotation worker.
- **Oracles.** The operating system, the provider and the health probe are oracles.
  - `Network.bind` answers the n-th bind attempt for a port. The sockets are opened with
    SO_REUSEPORT, so the answer is not a function of the ports this process holds.
    A failed bind tells an `OSError` (with its errno) from any other exception, because only
    an `OSError` can lead to the cleanup and retry.
  - `Provider.answer` answers the n-th provider request with data, with a refusal (and
    maybe a message) or with a client exception.
  - The probe answers the i-th entry of a health pass with an elapsed time or a failure.
- **Registry entries.** A registry entry is the value `Entry(id, port, remote, listener)`.
  The source stores the relay object itself, but the only use the registry makes of it is to
  stop it. Stopping closes the listener that relay registered and deletes the entry under
  its id.
- **Insertion order.** The registry is an insertion-ordered sequence, because "the first
  other id on the same port" depends on dict order.
- **Timestamps** are integers in milliseconds. The provider reports expiry in milliseconds.
  One `now` stands for every clock reading of a call, or of a pass.
- **Environment values** (DOMAIN, PROXY_PORT_START) and the caller's user id are parameters.

## Behaviour kept as the code has it

Where the project's own documentation describes the behaviour differently, the model follows
the code:

- **Id reuse.** The next id is max id + 1, so deleting the newest entry makes its id
  available again (`Database.NextIdReusesDeletedId`).
- **Health failure.** A failed health check stores latency 0, not an absent latency
  (`Worker.HealthChecked`).
- **Create when the start fails.** `create_proxy` stores the entry, with status "active",
  before it starts the relay. A start failure then answers 500 and leaves that entry stored
  and marked active (`Api.StartFailureKeepsRecord`).
- **Start on an id that is already registered.** `start` first calls `stop()` on the *new*
  relay object, which holds no socket. So only the registry entry is dropped, and the old
  relay's listener stays open, referenced by nobody (`ProxyHandler.StartOrphansReplacedListener`).
  `restart_proxy_handler` stops the registered relay first, so it does close the old listener
  (`ProxyHandler.RestartClosesOldListener`).
- **Startup recovery** clears the registry without closing any listener.
- **Restart of an entry without an address.** `restart_proxy` on such an entry stops the
  running relay, then fails with Python's `AttributeError` text
  (`Api.RestartWithoutAddressStops`).
- **Rotation without a "location".** When the provider's data has no "location", rotation
  fails with a `KeyError` after the relay has already been restarted on the new address.
  - In the workers, the shared snapshot entry keeps the new address fields assigned before the
    error (`Attempt.RotationFailed.touched`, `Worker.AddressTouched`). The interval pass sees
    them.
  - In the rotate endpoint, the partially updated object is discarded.

## Model

| member | source | states |
|---|---|---|
| Text.NatToString | backend/app/proxy_handler.py:105-109 | the decimal text of a number is non-empty and all digits |
| Text.IntRoundTrip | backend/app/proxy_handler.py:17-20 | `int()` of the decimal text of any integer gives that integer back |
| Text.Split | backend/app/proxy_handler.py:18 | `split(sep)` gives at least one part and no part contains the separator |
| Text.JoinSplit | backend/app/proxy_handler.py:18 | joining the parts of a split with the separator gives back the text: nothing is lost |
| Text.SplitWithoutSeparator | backend/app/proxy_handler.py:18 | text without the separator splits into itself alone |
| Text.SplitAtFirst | backend/app/proxy_handler.py:18 | splitting cuts at the first separator: the part before it, then the parts of the rest |
| Text.SplitJoin | backend/app/main.py:311 | splitting joined separator-free parts gives those parts back |
| Text.TrimStart | backend/app/main.py:311 | drops exactly the leading whitespace: the result is a suffix, everything dropped is whitespace and the result does not start with whitespace |
| Text.TrimEnd | backend/app/main.py:311 | drops exactly the trailing whitespace: the result is a prefix, everything dropped is whitespace and the result does not end with whitespace |
| Text.Strip | backend/app/main.py:311 | `strip()` never lengthens and its result neither starts nor ends with whitespace |
| Text.StripIsInfix | backend/app/main.py:311 | `strip()` returns a contiguous slice such that everything before and after it is whitespace |
| Text.StripStripped | backend/app/main.py:311 | `strip()` leaves stripped text unchanged, so it is idempotent |
| Text.StripKeepsAbsent | backend/app/main.py:311 | stripping never introduces a character, so stripped lines hold no newline |
| Text.Prefix | backend/app/main.py:376 | `key[:8]` has length min(8, len) and is a prefix |
| Text.LowerAscii | backend/app/proxy_handler.py:114 | `lower()` on ASCII letters: the length is kept, no ASCII capital is left, exactly the capitals change, and each character keeps its letter up to case |
| Text.LowerAsciiIdempotent | backend/app/proxy_handler.py:114 | lowering lowered text changes nothing |
| Text.LowerAsciiPrefix | backend/app/proxy_handler.py:114 | the lowered form of a prefix is a prefix of the lowered text |
| Text.ContainsLowered | backend/app/proxy_handler.py:114 | whenever `t in s`, also `t.lower() in s.lower()`: the test is case-insensitive |
| Models.NewProxyKey | backend/app/models.py:73-92 | a record built from its required fields has region "random", is active and pending, and every upstream and timing field is absent |
| Models.NewLogEntry | backend/app/models.py:95-102 | a log entry built from its required fields has no region and no details |
| Models.DefaultSettings | backend/app/models.py:105-108 | default settings: expiration rotation on, interval rotation off, 10 minutes, which is above the 2-minute floor |
| Models.EmptySettingsUpdate | backend/app/models.py:51-54 | a settings update with no field given has every field absent |
| Models.NewAddProxyRequest | backend/app/models.py:18-21 | an add request's region defaults to "random" |
| Models.NewBulkImportRequest | backend/app/models.py:24-26 | a bulk import request's region defaults to "random" |
| Models.NewRotateProxyRequest | backend/app/models.py:47-48 | a rotate request's region defaults to "random" |
| Database.Filter | backend/app/database.py:133-140 | a filter keeps exactly the elements meeting the condition and never lengthens |
| Database.FilterAppend | backend/app/database.py:133-140 | filtering distributes over concatenation, so the stored order is kept |
| Database.ProxiesOf | backend/app/database.py:123-130 | `get_all_proxies(user)` holds exactly the user's records |
| Database.ActiveProxies | backend/app/database.py:133-140 | `get_active_proxies()` holds exactly the active records |
| Database.ActiveProxiesAppend | backend/app/database.py:133-140 | the active filter keeps the stored order (it distributes over concatenation) |
| Database.IndexOfId | backend/app/database.py:163-166 | the position found is the first record with the id; none is found only when no record has it |
| Database.ProxyById | backend/app/database.py:143-149 | `get_proxy_by_id` returns the first record with the id, or None exactly when there is none |
| Database.ReplaceFirst | backend/app/database.py:160-167 | `update_proxy` replaces only the first record with the id, keeps the length, and changes nothing when no record has the id |
| Database.WithoutId | backend/app/database.py:170-174 | `delete_proxy` keeps exactly the records with another id |
| Database.WithoutIdAppend | backend/app/database.py:170-174 | deletion keeps the order of the remaining records (it distributes over concatenation) |
| Database.MaxId | backend/app/database.py:182 | the maximum id is held by some record and bounds every id |
| Database.NextId | backend/app/database.py:177-182 | the next id is 1 on an empty table, otherwise greater than every id and exactly one more than a stored id |
| Database.FilterKeepsAll | backend/app/database.py:170-174 | a filter every record passes leaves the table as it is |
| Database.NextIdReusesDeletedId | backend/app/database.py:152-182 | adding a record with the next id and deleting it again restores the table, so the same id is the next one again |
| Database.FilterKeepsUniqueIds | backend/app/database.py:133-140 | a filtered table with unique ids still has unique ids |
| Database.ReplaceEach | backend/app/database.py:160-167 | a sequence of `update_proxy` calls keeps the ids at every position |
| Database.ReplaceEachSnoc | backend/app/database.py:160-167 | one more update is one more `update_proxy` on the result so far |
| Database.ReplaceEachEffect | backend/app/database.py:160-167 | after updates with distinct ids that are all stored, each one sits at its id's position and every other record is unchanged |
| Database.SubdomainFrom | backend/app/database.py:185-193 | the subdomain chosen is `proxyN` for the least free N in range; failure, with "No available subdomains", only when all 999 are held |
| Database.PortFrom | backend/app/database.py:196-204 | the port chosen is the least free port in the 100-port window; failure, with "No available ports", only when the window is full |
| Database.AddingFreshRecordKeepsDistinct | backend/app/database.py:152-157 | adding a record with a free port and a free subdomain keeps ports and subdomains pairwise distinct |
| Database.MatchingLogs | backend/app/database.py:231-232 | the log filter keeps exactly the entries of the requested id, or all without one |
| Database.InsertNewestFirst | backend/app/database.py:235 | insertion into a newest-first list keeps it newest first and adds exactly the new entry |
| Database.SortNewestFirst | backend/app/database.py:235 | the sort yields a newest-first permutation of its input |
| Database.Take | backend/app/database.py:238 | `[:limit]` is a prefix of length min(limit, len), with Python's meaning for a negative limit |
| Database.PrefixOfNewestFirst | backend/app/database.py:238 | a prefix of a newest-first list is newest first and a sub-multiset |
| Database.QueryLogs | backend/app/database.py:226-240 | `get_logs` returns only matching entries, newest first, drawn from the matches, and for a non-negative limit min(limit, matches) of them |
| Database.QueryLogsKeepsNewest | backend/app/database.py:234-238 | no matching entry left out by the limit is newer than any entry returned |
| Database.PrefixHoldsNewest | backend/app/database.py:234-238 | an entry cut off a newest-first list is no newer than any entry kept |
| Database.Store.constructor | backend/app/database.py:21-37 | the initial document: no records, no logs, default settings |
| Database.Store.AddProxy | backend/app/database.py:152-157 | appends the record and changes nothing else |
| Database.Store.UpdateProxy | backend/app/database.py:160-167 | the loop-and-break replaces the first record with the id; logs and settings are unchanged |
| Database.Store.DeleteProxy | backend/app/database.py:170-174 | removes every record with the id; logs and settings are unchanged |
| Database.Store.NextSubdomain | backend/app/database.py:185-193 | the scanning loop returns the least free `proxyN`, or the failure |
| Database.Store.NextPort | backend/app/database.py:196-204 | the scanning loop returns the least free port of the window, or the failure |
| Database.Store.AddLog | backend/app/database.py:209-223 | appends an entry numbered (number of logs + 1); earlier logs and the records are unchanged |
| Database.Store.UpdateSettings | backend/app/database.py:66-71 | replaces the settings and nothing else |
| ProxyHandler.AddressInUseAnyCasing | backend/app/proxy_handler.py:113-114 | an OSError whose text holds the phrase in any casing asks for the cleanup; any other exception never does |
| ProxyHandler.Lookup | backend/app/proxy_handler.py:179-180 | the registered entry of an id; none found exactly when the id is not registered |
| ProxyHandler.RemoveEntry | backend/app/proxy_handler.py:148-149 | `del proxy_servers[id]` keeps exactly the other entries, and is a no-op without the id |
| ProxyHandler.RemoveEntryKeepsUnique | backend/app/proxy_handler.py:148-149 | deletion keeps dict keys unique |
| ProxyHandler.PutEntry | backend/app/proxy_handler.py:105-109 | `proxy_servers[id] = …` appends a new id, and otherwise replaces the id's entry, keeping keys unique |
| ProxyHandler.FirstConflict | backend/app/proxy_handler.py:118-126 | the conflict found is the first entry of another id on the port; none found only when there is none |
| ProxyHandler.StopHandler | backend/app/proxy_handler.py:141-154 | `stop()` closes the relay's own server if it has one and drops the registry entry under its id; nothing else changes |
| ProxyHandler.StopById | backend/app/proxy_handler.py:177-181 | `stop_proxy_handler` is a no-op on an unregistered id; otherwise it leaves the id unregistered, the other entries intact, and closes only that id's listener |
| ProxyHandler.StopByIdKeepsConsistent | backend/app/proxy_handler.py:177-181 | stopping by id keeps the registry consistent with the open sockets |
| ProxyHandler.StartRegistersIffSucceeds | backend/app/proxy_handler.py:86-139 | `start` succeeds exactly when it leaves the id registered with the requested port, the formatted remote and the relay's new open listener; a failure leaves the relay's server as it was |
| ProxyHandler.StartAfterStop | backend/app/proxy_handler.py:90-93 | for a registered id, `start` is the same as stopping the relay first and then starting on an unregistered id |
| ProxyHandler.StartUnregistered | backend/app/proxy_handler.py:95-136 | an unregistered id binds once: it is recorded with a fresh listener on success, and any error other than a retried address-in-use fails with its text |
| ProxyHandler.StartBindsAtMostTwice | backend/app/proxy_handler.py:113-136 | one bind, or two after a retried address-in-use (so recursion depth is at most 2); a non-retried error propagates its text |
| ProxyHandler.AttemptKeepsOthers | backend/app/proxy_handler.py:95-109 | a start without retry leaves every other id's entries as they were |
| ProxyHandler.StartEvictsAtMostOne | backend/app/proxy_handler.py:113-131 | a start adds no foreign entry and removes at most one entry of another id, and that entry was on the same port |
| ProxyHandler.StartWithoutEviction | backend/app/proxy_handler.py:113-136 | without an address-in-use retry that finds a conflict, the retry flag makes no difference to the state |
| ProxyHandler.StartAfterEviction | backend/app/proxy_handler.py:113-131 | an address-in-use with a conflict stops exactly the first conflicting id and then starts once more without retry |
| ProxyHandler.StartUnregisteredEvicts | backend/app/proxy_handler.py:113-131 | the same eviction rule for an id that was not registered |
| ProxyHandler.StopHandlerKeepsConsistent | backend/app/proxy_handler.py:141-154 | `stop()` keeps the registry consistent with the sockets |
| ProxyHandler.BoundKeepsConsistent | backend/app/proxy_handler.py:95-109 | recording a successful bind keeps the registry consistent with the sockets |
| ProxyHandler.StartKeepsConsistent | backend/app/proxy_handler.py:86-139 | `start` keeps unique ids, every registered listener open and registered once, and the relay's server its own |
| ProxyHandler.AttemptKeepsListeners | backend/app/proxy_handler.py:86-112 | a fresh relay's start without retry closes no socket, and every entry afterwards was there before or holds the new listener |
| ProxyHandler.StartKeepsUnreferenced | backend/app/proxy_handler.py:86-139 | an open listener no entry refers to stays open and unreferenced through a fresh relay's start |
| ProxyHandler.StartOrphansReplacedListener | backend/app/proxy_handler.py:90-93 | starting a fresh relay for a registered id leaves the old listener open and referenced by no entry |
| ProxyHandler.ParseFormatRoundTrip | backend/app/proxy_handler.py:17-20 | parsing the registry's `host:port` text gives back that host and port |
| ProxyHandler.FormatOfParsedIsStable | backend/app/proxy_handler.py:105-109 | formatting a parsed address and parsing it again changes nothing |
| ProxyHandler.StartHandlerRejectsBadRemote | backend/app/proxy_handler.py:170-174 | an address that does not parse fails with Python's error text (None, no colon, bad port) before any socket is touched |
| ProxyHandler.RestartClosesOldListener | backend/app/proxy_handler.py:184-188 | `restart_proxy_handler` closes the old listener; it succeeds exactly when the id ends registered with the new address, and a bad address leaves the relay stopped |
| ProxyHandler.StartClosedStaysClosed | backend/app/proxy_handler.py:86-139 | a closed listener is never reopened by a start |
| ProxyHandler.Registry.constructor | backend/app/proxy_handler.py:8 | the registry starts empty |
| ProxyHandler.Registry.Put | backend/app/proxy_handler.py:105-109 | stores the entry under its id |
| ProxyHandler.Registry.Delete | backend/app/proxy_handler.py:148-149 | deletes the id's entry |
| ProxyHandler.Registry.Clear | backend/app/main.py:77 | `proxy_servers.clear()` empties the registry |
| ProxyHandler.Network.constructor | backend/app/proxy_handler.py:96-102 | no socket is open before the first bind |
| ProxyHandler.Network.StartServer | backend/app/proxy_handler.py:96-102 | a bind asks the oracle; success opens a fresh listener, failure changes nothing but the attempt count |
| ProxyHandler.Network.Close | backend/app/proxy_handler.py:144-146 | closes one listener |
| ProxyHandler.RawProxyHandler.constructor | backend/app/proxy_handler.py:14-21 | a relay holds the parsed host and port and no server |
| ProxyHandler.RawProxyHandler.IsRunning | backend/app/proxy_handler.py:165-167 | `is_running` holds exactly when the id is registered |
| ProxyHandler.RawProxyHandler.Stop | backend/app/proxy_handler.py:141-154 | the state afterwards is `StopHandler` of the state before |
| ProxyHandler.RawProxyHandler.Start | backend/app/proxy_handler.py:86-139 | outcome, state and server afterwards are `StartSpec` of the state before |
| ProxyHandler.RawProxyHandler.Bind | backend/app/proxy_handler.py:95-136 | the bind-and-retry part of `start` on an unregistered id agrees with `StartSpec` |
| ProxyHandler.RawProxyHandler.Retry | backend/app/proxy_handler.py:113-133 | the cleanup branch (stop the first conflict, start once without retry, or fail) agrees with `StartSpec` |
| ProxyHandler.RawProxyHandler.Restart | backend/app/proxy_handler.py:156-163 | a non-empty new address is adopted (a bad port raises after the host is taken), then stop and start with retry |
| ProxyHandler.FindConflict | backend/app/proxy_handler.py:118-126 | the loop over the snapshot returns the first conflicting entry |
| ProxyHandler.StartProxyHandler | backend/app/proxy_handler.py:170-174 | outcome and state are `StartHandlerSpec`: parse the address, then start with retry |
| ProxyHandler.StopProxyHandler | backend/app/proxy_handler.py:177-181 | the state afterwards is `StopById` of the state before |
| ProxyHandler.RestartProxyHandler | backend/app/proxy_handler.py:184-188 | outcome and state are stop then start, `RestartHandlerSpec` |
| ProxyHandler.CleanupAllProxies | backend/app/proxy_handler.py:191-197 | every id present at entry is stopped: the registry ends empty and exactly the registered listeners are closed |
| ProxyHandler.CleanupStep | backend/app/proxy_handler.py:193-195 | one iteration stops the next id of the snapshot and closes exactly its listener |
| KiotProxy.InterpretOutcomes | backend/app/kiotproxy.py:28-36 | the client returns the data exactly on a success body; a refusal raises "KiotProxy API error: " followed by "Unknown error" for a missing message, "None" for a null one, or the message; a client error raises its own text |
| KiotProxy.Provider.constructor | backend/app/kiotproxy.py:7-9 | a client has made no request yet |
| KiotProxy.Provider.GetNewProxy | backend/app/kiotproxy.py:11-36 | one `/proxies/new` request with key and region, whose reply is interpreted |
| KiotProxy.Provider.GetCurrentProxy | backend/app/kiotproxy.py:38-62 | one `/proxies/current` request with the key, whose reply is interpreted |
| TraefikConfig.RoutersOfContents | backend/app/traefik_config.py:41-48 | one router per subdomain of the entries, each built from an entry with that subdomain |
| TraefikConfig.ServicesOfContents | backend/app/traefik_config.py:50-58 | one service per subdomain of the entries, each built from an entry with that subdomain |
| TraefikConfig.ConfigEmptyIffNoneActive | backend/app/traefik_config.py:24-31 | the "# No active proxies" marker is written exactly when no entry is active |
| TraefikConfig.ConfigDependsOnlyOnActive | backend/app/traefik_config.py:24 | inactive entries contribute nothing |
| TraefikConfig.ConfigNamesMatch | backend/app/traefik_config.py:41-58 | with active entries: routers and services are exactly those of the active subdomains, and every router names a service of the same file and the "web" entry point |
| TraefikConfig.ConfigOfAllActive | backend/app/traefik_config.py:24-58 | for entries that are all active: the marker exactly when there are none, otherwise one router per subdomain |
| TraefikConfig.ConfigOfEachActive | backend/app/traefik_config.py:43-58 | when subdomains identify entries, each active entry's router and service are exactly the ones built from it |
| TraefikConfig.Gateway.constructor | backend/app/traefik_config.py:9 | no file has been written yet |
| TraefikConfig.InsertStep | backend/app/traefik_config.py:41-58 | one iteration of the loop inserts the entry's router and service |
| TraefikConfig.GenerateTraefikConfig | backend/app/traefik_config.py:12-68 | the file written is `ConfigOf` the given entries |
| TraefikConfig.RemoveProxyFromTraefik | backend/app/traefik_config.py:71-81 | the same file as regenerating from the remaining entries; the subdomain is not used |
| Worker.ExpirationOf | backend/app/worker.py:129-130 | the new expiry is present exactly when the provider gives a non-zero `expirationAt` |
| Worker.HealthChecked | backend/app/worker.py:41-59 | a probe that answers sets "active" and its latency, a failed one "error" and latency 0; the check time is set and nothing else changes |
| Worker.HealthCheckedOverrides | backend/app/worker.py:50-59 | a second check fully overrides the first |
| Worker.HealthCheck | backend/app/worker.py:19-71 | one pass checks every active entry in order and persists each checked entry; logs and settings are unchanged |
| Worker.HealthStep | backend/app/worker.py:27-62 | one iteration of the health loop: entry i is checked, and writing it back extends the table by one more `update_proxy` |
| Worker.HealthCheckPersists | backend/app/worker.py:27-62 | with unique ids, each active entry's stored record is its checked version, and inactive records are untouched |
| Worker.Rotated | backend/app/worker.py:132-139 | a successful rotation sets the address, location, expiry, ttl, ttc and rotation time, and keeps id, port, subdomain, key, region and status |
| Worker.AddressTouched | backend/app/worker.py:133-135 | the fields assigned before a missing "location" raises: only the address |
| Worker.RotationOverwrites | backend/app/worker.py:133-139 | a later rotation overwrites an earlier rotation or a partial update |
| Worker.RotatedNotIntervalDue | backend/app/worker.py:157-166 | an entry rotated at `now` is not interval-due again within one interval |
| Worker.RotatedExpirationDue | backend/app/worker.py:106-112 | after a rotation, expiration-due means the new expiry exists and now >= expiry - 1 minute |
| Worker.WordingOf | backend/app/worker.py:142-197 | the action and success text of each pass |
| Worker.LogForShape | backend/app/worker.py:142-148 | no log for an entry that is not due; otherwise exactly one entry with the pass's action, the entry's region and "success" with the pass's text or "failed" with the error |
| Worker.Renewal | backend/app/worker.py:113-139 | a provider failure leaves the relays as they were and fails with its text; otherwise the relays are those `restart_proxy_handler` on the new address leaves, a failed restart fails with its error, a missing "location" fails with the KeyError text after the restart, and renewal onto exactly the provider's data happens exactly when the provider answered, the restart passed and "location" is present |
| Worker.Renew | backend/app/worker.py:113-138 | one provider request, numbered by the calls so far, for a new proxy with the entry's key and region, then the restart; attempt and relays afterwards are `Renewal` of that answer |
| Worker.RotateEntry | backend/app/worker.py:113-148 | one rotation: attempt and relays are `Renewal` of the provider's answer to this entry's request; only a renewal writes back the rotated record; one log entry either way |
| Worker.RecordAttempt | backend/app/worker.py:139-148 | a renewal writes back the rotated record; every attempt appends its log entry; settings are unchanged |
| Worker.AttemptOn | backend/app/worker.py:104-148 | an entry that is not due is left alone with the relays as they were; a renewal carries exactly the data of the provider's answer to the request numbered `calls` |
| Worker.AttemptEntry | backend/app/worker.py:104-148 | an entry is attempted exactly when due, with a provider call only then; attempt and relays afterwards are `AttemptOn` of the state before |
| Worker.TraceStep | backend/app/worker.py:102-148 | the trace of a pass over the first i entries, extended by the attempt the pass's step function (`StepOf`, that is `AttemptOn`) gives for entry i, is a trace over i + 1 entries |
| Worker.StepKept | backend/app/worker.py:102-148 | extending a trace leaves an earlier entry's step as it was |
| Worker.StepAdded | backend/app/worker.py:102-148 | the added entry's step starts from the last relays and the request numbered after the earlier due entries |
| Worker.TracesAgree | backend/app/worker.py:102-148 | two traces of one pass from the same relays agree on the first k attempts and the relays after them |
| Worker.StepsAgree | backend/app/worker.py:102-148 | two traces that agree up to entry k agree on its attempt and the relays after it |
| Worker.PassTraceDeterministic | backend/app/worker.py:102-148 | the step function, and so the oracles, determine a pass: every trace from the same relays has the same attempts and final relays |
| Worker.PassOutcomesSnoc | backend/app/worker.py:104-148 | one more entry, attempted exactly when due, extends the record of what the pass attempted and left in the snapshot |
| Worker.DueCountSnoc | backend/app/worker.py:112-119 | one more entry makes one more provider call exactly when it was attempted |
| Worker.RenewedRecordsSnoc | backend/app/worker.py:141 | one more entry adds its rotated record when renewed |
| Worker.PassLogSnoc | backend/app/worker.py:142-148 | one more entry adds its log entries after the earlier ones |
| Worker.PassLogUnfold | backend/app/worker.py:142-148 | a pass's log is that of all entries but the last, followed by the last entry's own |
| Worker.TableStep | backend/app/worker.py:141 | one iteration's `update_proxy` extends the pass's stored records |
| Worker.LogStep | backend/app/worker.py:142-148 | one iteration's `add_log` extends the pass's log |
| Worker.PassInvariantStep | backend/app/worker.py:104-148 | given what one attempt did to the table, the log and the provider calls, the pass invariant moves from the first i entries to i + 1 |
| Worker.PassStep | backend/app/worker.py:104-148 | one iteration of a pass keeps the pass invariant and extends the pass's trace by the entry's attempt |
| Worker.TracedAttempt | backend/app/worker.py:104-148 | the attempt on entry i, with its table and log effect, extends the trace of the first i entries |
| Worker.RotatePass | backend/app/worker.py:100-148 | a pass (both rotation functions) attempts exactly the due entries, each from the relays the previous one left and answered by the provider in order (`PassTrace`); it leaves the snapshot as the attempts left it, writes back exactly the renewals, logs every attempt in order and makes one provider call per due entry |
| Worker.PassLogNumbering | backend/app/worker.py:142-148 | a pass logs once per due entry, numbered consecutively, with the pass's action |
| Worker.PassLogEntries | backend/app/worker.py:142-148 | every log entry of a pass belongs to a due entry, with "success" exactly for a renewal |
| Worker.RenewedRecordsShape | backend/app/worker.py:133-141 | the records written back are exactly the rotated versions of the renewed entries |
| Worker.RenewedRecordsUnique | backend/app/worker.py:141 | the written-back records have unique ids |
| Worker.PassPersists | backend/app/worker.py:141 | a renewed entry's stored record is its rotated version; any other is left as stored |
| Worker.RotationCycle | backend/app/worker.py:74-97 | reads settings once and runs the expiration pass on the active entries, then the interval pass on the snapshot and the stored state and relays the first pass left (`CycleDone`); a pass that is off makes no attempt; an entry renewed on expiration is not interval-due within the interval |
| Api.RecoverOne | backend/app/main.py:85-100 | an entry with an address is started: "active" if the start succeeded, "error" if not; one without an address becomes "pending"; only the status changes |
| Api.RecoverAll | backend/app/main.py:84-100 | recovery changes only statuses, and "pending" exactly for entries without an address |
| Api.RecoverEntry | backend/app/main.py:85-100 | one iteration agrees with `RecoverOne` |
| Api.Running | backend/app/main.py:105 | the filter keeps exactly the records that came up |
| Api.RecoverSnapshot | backend/app/main.py:83-101 | the loop agrees with `RecoverAll` and persists every record |
| Api.RestartAllProxies | backend/app/main.py:72-110 | clears the registry, recovers the active records and writes the file of those that came up |
| Api.RecoveredAreActive | backend/app/main.py:105 | the records routed after recovery are active with status "active" |
| Api.RecoveredConfigRoutesStarted | backend/app/main.py:104-106 | after recovery the marker is written exactly when nothing came up, otherwise one router per started record |
| Api.CreatedRecord | backend/app/main.py:239-265 | a created record is named location-id ("Unknown" without a location), active, rotated and created at now, and holds the provider's data |
| Api.CreatedIsRotatedDefault | backend/app/main.py:247-265 | a created record is a default record, made active, rotated with the provider's data |
| Api.AdmitSpec | backend/app/main.py:226-272 | one provider call and no log; a success appends exactly the new record; otherwise the table is unchanged or gains one record |
| Api.AdmittedRecordIsFresh | backend/app/main.py:230-268 | a stored record has a larger id than all others, a free port in the window and a free subdomain, and keeps ids, ports and subdomains distinct; nothing is stored exactly when the provider or an allocator fails |
| Api.StartFailureKeepsRecord | backend/app/main.py:267-272 | a start failure leaves the new record stored, active with status "active" |
| Api.Admit | backend/app/main.py:226-272 | the fetch, allocation, store and start steps agree with `AdmitSpec` |
| Api.CreateProxy | backend/app/main.py:222-303 | success regenerates the file and logs the creation; failure answers 500 with the error, logs nothing and leaves the file |
| Api.CreateRoutesNewRecord | backend/app/main.py:274-276 | a created record is routed by exactly its own router and service |
| Api.FreshSubdomainIdentifies | backend/app/main.py:232 | a record with a free subdomain keeps subdomains identifying records |
| Api.KeysOf | backend/app/main.py:311 | the kept lines are non-empty, stripped, and no more than the lines |
| Api.ParseKeys | backend/app/main.py:311 | every parsed key is non-empty, stripped and a single line |
| Api.KeysOfKeys | backend/app/main.py:311 | lines that are already keys are kept as they are |
| Api.ParseKeysOfLines | backend/app/main.py:311 | parsing keys joined by newlines gives back those keys |
| Api.ImportOne | backend/app/main.py:324-389 | one key lands in exactly one result list; a success adds exactly one "bulk_import" log entry "Imported as" the name |
| Api.ImportAll | backend/app/main.py:324-389 | every key lands in exactly one list, with one provider call per key and one log per success |
| Api.ImportLogMatchesSuccesses | backend/app/main.py:373 | the import log entries correspond one to one, in order, to the successes |
| Api.ImportAllStep | backend/app/main.py:324-389 | one more key is one more `ImportOne` |
| Api.ImportStep | backend/app/main.py:325-389 | one loop iteration agrees with `ImportOne` |
| Api.ImportKeys | backend/app/main.py:324-389 | the loop agrees with `ImportAll` |
| Api.BulkImportProxies | backend/app/main.py:306-406 | no keys or more than 50 answer 400 before any provider call; otherwise it imports all keys, regenerates the file once, and total = successes + failures |
| Api.ImportAndPublish | backend/app/main.py:324-400 | imports the keys, then writes the file of the resulting table once |
| Api.Authorize | backend/app/main.py:412-418 | 404 for an unknown id, 403 for another user's record, otherwise that user's record |
| Api.AuthorizeByOwner | backend/app/main.py:412-418 | with unique ids, a stored record is authorized exactly for its owner |
| Api.RotateProxy | backend/app/main.py:409-469 | 404/403 before any call; otherwise the region is set, and a renewal updates the record and logs "Rotated to" the ip, while a failure logs the error and answers 500 |
| Api.RotateRecord | backend/app/main.py:420-469 | the rotation of an authorized record is `Renewal` of the provider's answer, with the same steps as the workers, and stores only a renewal |
| Api.RecordRotation | backend/app/main.py:432-469 | a renewal stores the rotated record and a success log; a failure stores only a failure log and answers 500 |
| Api.RestartProxy | backend/app/main.py:472-490 | 404/403 first; then restart the relay with the stored address and log only a success; a failure answers 500 |
| Api.RestartWithoutAddressStops | backend/app/main.py:485 | restarting a record without an address stops its relay and fails |
| Api.DeleteProxyEndpoint | backend/app/main.py:493-522 | 404/403 first; then stop the relay, delete the record, regenerate the file from the rest and log the deletion |
| Api.DeleteRecord | backend/app/main.py:504-519 | the deletion steps after the check |
| Api.DropRecord | backend/app/main.py:510-517 | drops the record, regenerates the file from the remaining records and logs the deletion |
| Api.DeletedSubdomainUnrouted | backend/app/main.py:513-515 | when no other record holds the subdomain, the new file has no router or service for it |
| Api.ApplySettingsUpdate | backend/app/main.py:535-548 | rejected (400) exactly for an interval below 2; otherwise exactly the given fields change |
| Api.SettingsUpdateProperties | backend/app/main.py:537-548 | an empty update changes nothing; applying an update twice is applying it once; the 2-minute floor is preserved |
| Api.UpdateSettingsEndpoint | backend/app/main.py:532-553 | persists the update only when it is accepted; records and logs are unchanged |

## Left out

- **Plumbing.** HTTP routing, CORS and response bodies (`ProxyResponse`, `SettingsResponse`)
  are left out. Endpoints return a result or an `HttpError(code, detail)`.
- **Outer exception handlers.** The outer handler of `restart_all_proxies` and the
  catch-all 500 of bulk import would only report exceptions. Within the model such
  exceptions cannot arise.
- **Authentication.** Login, logout, sessions and password hashing are left out. The caller's
  user id is a parameter.
- **The JSON file.** `load_data`/`save_data` are the `Store` object. Five things follow from
  that:
  - A missing "settings" object, which `get_settings()` would default, cannot occur.
  - Filling in a missing `is_active` flag as true is not modelled: the flag is always
    present.
  - `get_settings` is a read of `Store.settings`, so it has no member of its own.
  - `update_settings` is `Store.UpdateSettings`.
  - The endpoints `get_settings_endpoint` and `get_logs_endpoint` only return
    `Store.settings` and `QueryLogs`.
- **Relay traffic.** The relay's byte forwarding (`handle_client`, `_forward_data`) is left
  out. So are asyncio task handling, the sleeps and the workers' `while True` loops: one
  pass or cycle is modelled.
- **Time.** Clocks are replaced by one `now` parameter per call, or per pass. Two things that
  depend on real clock text are not modelled:
  - ISO-8601 text and its local-time conversion.
  - The log sort's ordering of timestamp text.
- **The health probe.** The httpx request and its latency measurement are an oracle that
  answers with a non-negative elapsed time or a failure.
- **YAML.** YAML serialisation and the file write are left out. The gateway file is the
  `GatewayConfig` value. Only the last file written is kept, because later writes replace
  earlier ones.
- **The provider's HTTP client** (httpx, the base URL, timeouts) is left out. So is
  `exit_proxy`, which no core operation calls.
- **Python operations on text.** Python's `repr` inside error texts is not modelled: the
  text of a `ValueError` quotes the bad text as it is. `int()` accepts only an optional sign
  followed by ASCII digits, without surrounding whitespace or underscores.
- **Provider data.** The fields "http", "realIpAddress", "ttl" and "ttc" are assumed
  present. A "location" that is present but null is not distinguished from a missing one.
  That changes two outcomes for a null "location":
  - In create, Python names the record "None-<id>" and stores no location; the model names
    it "Unknown-<id>".
  - In a rotation, Python succeeds and stores no location; the model fails with the
    `KeyError` text, as for a missing key.
- **Provider messages.** A refusal's "message" is missing, null or text. Any other JSON value
  (a number, a list) would show in Python's own formatting, which is not modelled.
- **Snapshots.** The record objects the workers and startup recovery iterate over are
  values. Their in-place mutation is modelled by threading the updated values through each
  pass.
- ProxyHandler.CleanupAllProxies: requires unique registry ids, which the dict guarantees and
  the model keeps as an invariant (`Consistent`).
- Database.SortNewestFirst: states that the result is newest first and a permutation, but not
  that entries with equal timestamps keep their order (Python's sort is stable).
- Text.LowerAscii: lowers only the ASCII capitals, where Python's `str.lower()` lowers every
  capital. Its one use, the test for "address already in use", gives the same answer either
  way: that phrase is ASCII without a 'k', and no other character lowers to its letters.
- Worker.RotatePass: covers both `rotate_expired_proxies` and `rotate_by_interval`, which
  differ only in the due test, the action and the success text (`Policy`, `WordingOf`).

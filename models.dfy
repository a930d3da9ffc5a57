/** The records of the fleet manager: fleet entries (proxy keys), rotation log entries, the
    settings singleton and the request bodies, each with the defaults its pydantic model gives.
    Timestamps are whole milliseconds; the `Option` fields are the model's Optional fields. */
module Models {
  import opened Wrappers

  /** Milliseconds since the epoch (the source stores ISO-8601 text and the provider reports
      expiry in milliseconds). */
  type Timestamp = int

  /** The `status` text of a fleet entry: "pending", "active" or "error". */
  datatype Status = Pending | Active | Error

  /** One fleet entry: a rented upstream proxy exposed on a local port under a subdomain. */
  datatype ProxyKey = ProxyKey(
    id: int,
    userId: int,
    keyName: string,
    kiotproxyKey: string,
    subdomain: string,
    port: int,
    region: string,
    isActive: bool,
    remoteHttp: Option<string>,
    remoteIp: Option<string>,
    location: Option<string>,
    status: Status,
    latencyMs: Option<int>,
    lastCheckAt: Option<Timestamp>,
    expirationAt: Option<Timestamp>,
    ttl: Option<int>,
    ttc: Option<int>,
    lastRotatedAt: Option<Timestamp>,
    createdAt: Timestamp)

  /** The region every request uses when it names none. */
  const DefaultRegion := "random"

  /** ProxyKey(...) given only the fields the model requires: every other field takes its default. */
  function NewProxyKey(id: int, userId: int, keyName: string, kiotproxyKey: string,
                       subdomain: string, port: int, createdAt: Timestamp): (k: ProxyKey)
    ensures k.id == id && k.userId == userId && k.keyName == keyName && k.kiotproxyKey == kiotproxyKey
    ensures k.subdomain == subdomain && k.port == port && k.createdAt == createdAt
    ensures k.region == "random" && k.isActive && k.status == Pending
    ensures k.remoteHttp == None && k.remoteIp == None && k.location == None && k.latencyMs == None
    ensures k.expirationAt == None && k.ttl == None && k.ttc == None
    ensures k.lastRotatedAt == None && k.lastCheckAt == None
  {
    ProxyKey(id, userId, keyName, kiotproxyKey, subdomain, port, DefaultRegion, true,
             None, None, None, Pending, None, None, None, None, None, None, createdAt)
  }

  /** The action text a log entry carries. */
  datatype Action = Create | BulkImport | Rotate | Restart | Delete
                  | AutoRotateExpiration | AutoRotateInterval

  /** The outcome text of a log entry: "success" or "failed". */
  datatype LogStatus = Succeeded | Failed

  /** One entry of the append-only rotation log. */
  datatype LogEntry = LogEntry(
    id: int,
    proxyId: int,
    action: Action,
    region: Option<string>,
    status: LogStatus,
    details: Option<string>,
    timestamp: Timestamp)

  /** LogEntry(...) given only its required fields: region and details are absent. */
  function NewLogEntry(id: int, proxyId: int, action: Action, status: LogStatus, timestamp: Timestamp): (e: LogEntry)
    ensures e.id == id && e.proxyId == proxyId && e.action == action && e.status == status
    ensures e.timestamp == timestamp && e.region == None && e.details == None
  {
    LogEntry(id, proxyId, action, None, status, None, timestamp)
  }

  /** The process-wide rotation policy. */
  datatype Settings = Settings(
    autoRotateOnExpiration: bool,
    autoRotateIntervalEnabled: bool,
    autoRotateIntervalMinutes: int)

  /** The smallest interval the settings update accepts (main.py rejects anything below it). */
  const MinIntervalMinutes := 2

  /** Settings(): rotation on expiration on, interval rotation off, every 10 minutes. */
  function DefaultSettings(): (s: Settings)
    ensures s.autoRotateOnExpiration && !s.autoRotateIntervalEnabled
    ensures s.autoRotateIntervalMinutes == 10
    ensures s.autoRotateIntervalMinutes >= MinIntervalMinutes
  {
    Settings(true, false, 10)
  }

  /** A partial settings update: None means "field not supplied". */
  datatype UpdateSettingsRequest = UpdateSettingsRequest(
    autoRotateOnExpiration: Option<bool>,
    autoRotateIntervalEnabled: Option<bool>,
    autoRotateIntervalMinutes: Option<int>)

  /** UpdateSettingsRequest() with no field given. */
  function EmptySettingsUpdate(): (u: UpdateSettingsRequest)
    ensures u.autoRotateOnExpiration == None && u.autoRotateIntervalEnabled == None
    ensures u.autoRotateIntervalMinutes == None
  {
    UpdateSettingsRequest(None, None, None)
  }

  datatype AddProxyRequest = AddProxyRequest(keyName: string, kiotproxyKey: string, region: string)

  /** Newline-separated provider keys. */
  datatype BulkImportRequest = BulkImportRequest(kiotproxyKeys: string, region: string)

  datatype RotateProxyRequest = RotateProxyRequest(region: string)

  /** AddProxyRequest(key_name, kiotproxy_key): the region defaults to "random". */
  function NewAddProxyRequest(keyName: string, kiotproxyKey: string): (r: AddProxyRequest)
    ensures r.keyName == keyName && r.kiotproxyKey == kiotproxyKey && r.region == "random"
  {
    AddProxyRequest(keyName, kiotproxyKey, DefaultRegion)
  }

  /** BulkImportRequest(kiotproxy_keys): the region defaults to "random". */
  function NewBulkImportRequest(kiotproxyKeys: string): (r: BulkImportRequest)
    ensures r.kiotproxyKeys == kiotproxyKeys && r.region == "random"
  {
    BulkImportRequest(kiotproxyKeys, DefaultRegion)
  }

  /** RotateProxyRequest(): the region defaults to "random". */
  function NewRotateProxyRequest(): (r: RotateProxyRequest)
    ensures r.region == "random"
  {
    RotateProxyRequest(DefaultRegion)
  }
}

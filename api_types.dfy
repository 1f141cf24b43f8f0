/** The frontend's view of the REST payloads (frontend/src/types/api.ts).
    The enumerations are the backend's (module Models); this module gives the
    strings the TypeScript enums assign to them. ISO-8601 timestamp strings
    are modelled as the integer instants they parse to. */
module ApiTypes {
  import opened Wrappers
  import opened Models

  /** The TypeScript enum values. */
  function FrontendNodeStatusValue(s: NodeStatus): string {
    match s
    case Online => "Online"
    case Offline => "Offline"
    case Maintenance => "Maintenance"
  }

  function FrontendLogLevelValue(l: LogLevel): string {
    match l
    case Info => "INFO"
    case Warn => "WARN"
    case Error => "ERROR"
  }

  function FrontendAlertSeverityValue(a: AlertSeverity): string {
    match a
    case InfoSeverity => "INFO"
    case Warning => "Warning"
    case Critical => "Critical"
  }

  /** Both sides of the wire spell every enumeration member the same way, so
      every value the backend sends decodes to the member it encodes. */
  lemma EnumValuesAgree()
    ensures forall s :: FrontendNodeStatusValue(s) == NodeStatusValue(s)
    ensures forall l :: FrontendLogLevelValue(l) == LogLevelValue(l)
    ensures forall a :: FrontendAlertSeverityValue(a) == AlertSeverityValue(a)
    ensures forall s :: ParseNodeStatus(FrontendNodeStatusValue(s)) == Some(s)
    ensures forall l :: ParseLogLevel(FrontendLogLevelValue(l)) == Some(l)
    ensures forall a :: ParseAlertSeverity(FrontendAlertSeverityValue(a)) == Some(a)
  {
  }

  datatype SystemStatus = SystemStatus(
    nodes_online: int,
    nodes_total: int,
    active_alerts: int,
    avg_network_latency_ms: int)

  datatype SensorReading = SensorReading(
    reading_id: int,
    node_id: string,
    timestamp: int,
    water_level_cm: real,
    signal_strength_dbm: int)

  /** `NodeWithLatestReading`: a node plus the optional latest-reading fields,
      absent for a node that has no readings. */
  datatype NodeWithLatestReading = NodeWithLatestReading(
    node_id: string,
    name: string,
    location_desc: Option<string>,
    status: NodeStatus,
    firmware_version: Option<string>,
    last_ping: int,
    created_at: int,
    water_level_cm: Option<real>,
    signal_strength_dbm: Option<int>)

  /** `NodeDetail`: a node plus its recent readings, as the server ordered them. */
  datatype NodeDetail = NodeDetail(
    node_id: string,
    name: string,
    location_desc: Option<string>,
    status: NodeStatus,
    firmware_version: Option<string>,
    last_ping: int,
    created_at: int,
    recent_readings: seq<SensorReading>)

  /** `Alert`: `reading_id`, the image URL and the embedded node name are
      optional; `is_acknowledged` is a required boolean. */
  datatype Alert = Alert(
    alert_id: int,
    node_id: string,
    reading_id: Option<int>,
    timestamp: int,
    severity: AlertSeverity,
    verification_image_url: Option<string>,
    is_acknowledged: bool,
    node_name: Option<string>)

  datatype EventLog = EventLog(
    log_id: int,
    timestamp: int,
    source: string,
    log_level: LogLevel,
    message: string)
}

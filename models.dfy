/** The backend's database schema (backend/models.py): the three string
    enumerations, the four tables with their column defaults, and the
    primary keys. Timestamps are integer instants; `Float` columns are reals. */
module Models {
  import opened Wrappers

  datatype NodeStatus = Online | Offline | Maintenance
  datatype LogLevel = Info | Warn | Error
  datatype AlertSeverity = InfoSeverity | Warning | Critical

  /** The string each enumeration member stores in the database. */
  function NodeStatusValue(s: NodeStatus): string {
    match s
    case Online => "Online"
    case Offline => "Offline"
    case Maintenance => "Maintenance"
  }

  function LogLevelValue(l: LogLevel): string {
    match l
    case Info => "INFO"
    case Warn => "WARN"
    case Error => "ERROR"
  }

  function AlertSeverityValue(a: AlertSeverity): string {
    match a
    case InfoSeverity => "INFO"
    case Warning => "Warning"
    case Critical => "Critical"
  }

  /** Reading a stored string back as an enumeration member; `None` for any
      string that is not one of the declared values. */
  function ParseNodeStatus(t: string): (r: Option<NodeStatus>)
    ensures r.Some? ==> NodeStatusValue(r.value) == t
    ensures forall s :: NodeStatusValue(s) == t ==> r == Some(s)
  {
    if t == "Online" then Some(Online)
    else if t == "Offline" then Some(Offline)
    else if t == "Maintenance" then Some(Maintenance)
    else None
  }

  function ParseLogLevel(t: string): (r: Option<LogLevel>)
    ensures r.Some? ==> LogLevelValue(r.value) == t
    ensures forall l :: LogLevelValue(l) == t ==> r == Some(l)
  {
    if t == "INFO" then Some(Info)
    else if t == "WARN" then Some(Warn)
    else if t == "ERROR" then Some(Error)
    else None
  }

  function ParseAlertSeverity(t: string): (r: Option<AlertSeverity>)
    ensures r.Some? ==> AlertSeverityValue(r.value) == t
    ensures forall a :: AlertSeverityValue(a) == t ==> r == Some(a)
  {
    if t == "INFO" then Some(InfoSeverity)
    else if t == "Warning" then Some(Warning)
    else if t == "Critical" then Some(Critical)
    else None
  }

  /** Table `nodes`, primary key `node_id`. */
  datatype Node = Node(
    node_id: string,
    name: string,
    location_desc: Option<string>,
    status: NodeStatus,
    firmware_version: Option<string>,
    last_ping: Option<int>,
    created_at: int)

  /** Table `sensor_readings`, primary key `reading_id`; `node_id` refers to `nodes`. */
  datatype SensorReading = SensorReading(
    reading_id: int,
    node_id: string,
    timestamp: int,
    water_level_cm: real,
    signal_strength_dbm: int)

  /** Table `alerts`, primary key `alert_id`. */
  datatype Alert = Alert(
    alert_id: int,
    node_id: string,
    reading_id: Option<int>,
    timestamp: int,
    severity: AlertSeverity,
    verification_image_url: Option<string>,
    is_acknowledged: bool)

  /** Table `event_logs`, primary key `log_id`. */
  datatype EventLog = EventLog(
    log_id: int,
    timestamp: int,
    source: string,
    log_level: LogLevel,
    message: string)

  /** A node row as inserted: a missing status takes the column default. */
  function NewNode(node_id: string, name: string, location_desc: Option<string>, status: Option<NodeStatus>,
                   firmware_version: Option<string>, last_ping: Option<int>, created_at: int): (n: Node)
    ensures status.None? ==> n.status == Offline
    ensures status.Some? ==> n.status == status.value
    ensures n.node_id == node_id && n.name == name && n.created_at == created_at
    ensures n.location_desc == location_desc && n.firmware_version == firmware_version && n.last_ping == last_ping
  {
    Node(node_id, name, location_desc, status.GetOr(Offline), firmware_version, last_ping, created_at)
  }

  /** An alert row as inserted: missing severity and acknowledgement take the column defaults. */
  function NewAlert(alert_id: int, node_id: string, reading_id: Option<int>, timestamp: int,
                    severity: Option<AlertSeverity>, verification_image_url: Option<string>,
                    is_acknowledged: Option<bool>): (a: Alert)
    ensures severity.None? ==> a.severity == Warning
    ensures is_acknowledged.None? ==> !a.is_acknowledged
    ensures severity.Some? ==> a.severity == severity.value
    ensures is_acknowledged.Some? ==> a.is_acknowledged == is_acknowledged.value
    ensures a.alert_id == alert_id && a.node_id == node_id && a.timestamp == timestamp
    ensures a.reading_id == reading_id && a.verification_image_url == verification_image_url
  {
    Alert(alert_id, node_id, reading_id, timestamp, severity.GetOr(Warning), verification_image_url,
          is_acknowledged.GetOr(false))
  }

  /** Primary keys: no two rows of a table share their key. */
  ghost predicate UniqueNodeIds(nodes: seq<Node>) {
    forall i, j :: 0 <= i < j < |nodes| ==> nodes[i].node_id != nodes[j].node_id
  }

  ghost predicate UniqueReadingIds(readings: seq<SensorReading>) {
    forall i, j :: 0 <= i < j < |readings| ==> readings[i].reading_id != readings[j].reading_id
  }

  ghost predicate UniqueAlertIds(alerts: seq<Alert>) {
    forall i, j :: 0 <= i < j < |alerts| ==> alerts[i].alert_id != alerts[j].alert_id
  }

  ghost predicate UniqueLogIds(logs: seq<EventLog>) {
    forall i, j :: 0 <= i < j < |logs| ==> logs[i].log_id != logs[j].log_id
  }
}

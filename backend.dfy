/** The REST handlers of the backend (backend/main.py) over in-memory tables:
    each table is a sequence of rows in storage order. Reads are functions of
    the tables (except `get_all_nodes`, which builds its answer in a loop);
    seeding and acknowledging change the tables. */
module Backend {
  import opened Wrappers
  import opened Seqs
  import opened Sorting
  import opened Models

  /** An `HTTPException` or a failed response validation. */
  datatype HttpError = HttpError(status: int, detail: string)

  const NodeNotFound := HttpError(404, "Node not found")
  const AlertNotFound := HttpError(404, "Alert not found")
  /** A row the response schema rejects makes the handler fail with a server error. */
  const ValidationFailed := HttpError(500, "Internal Server Error")

  const AvgNetworkLatencyMs := 43
  const NodeReadingsLimit := 20
  const EventLogsLimit := 50

  // ---- Response schemas ----

  datatype SystemStatus = SystemStatus(nodes_online: nat, nodes_total: nat, active_alerts: nat, avg_network_latency_ms: int)

  /** `NodeWithLatestReading`: the `NodeBase` fields (no `created_at`) and the
      latest reading's level and signal, absent without readings. */
  datatype NodeWithLatestReading = NodeWithLatestReading(
    node_id: string, name: string, location_desc: Option<string>, status: NodeStatus,
    firmware_version: Option<string>, last_ping: int,
    water_level_cm: Option<real>, signal_strength_dbm: Option<int>)

  datatype NodeDetail = NodeDetail(
    node_id: string, name: string, location_desc: Option<string>, status: NodeStatus,
    firmware_version: Option<string>, last_ping: int, created_at: int,
    recent_readings: seq<SensorReading>)

  /** `AlertSchema`: the alert row without `reading_id`. */
  datatype AlertSchema = AlertSchema(
    alert_id: int, node_id: string, timestamp: int, severity: AlertSeverity,
    verification_image_url: Option<string>, is_acknowledged: bool)

  function ToAlertSchema(a: Alert): AlertSchema {
    AlertSchema(a.alert_id, a.node_id, a.timestamp, a.severity, a.verification_image_url, a.is_acknowledged)
  }

  // ---- GET /api/v1/system/status ----

  function IsOnline(): Node -> bool {
    (n: Node) => n.status == Online
  }

  function IsUnacknowledged(): Alert -> bool {
    (a: Alert) => !a.is_acknowledged
  }

  function GetSystemStatus(nodes: seq<Node>, alerts: seq<Alert>): SystemStatus {
    SystemStatus(|Filter(nodes, IsOnline())|, |nodes|, |Filter(alerts, IsUnacknowledged())|, AvgNetworkLatencyMs)
  }

  /** Online nodes never outnumber nodes, and the active and acknowledged
      alerts together are all alerts. */
  lemma SystemStatusCounts(nodes: seq<Node>, alerts: seq<Alert>)
    ensures GetSystemStatus(nodes, alerts).nodes_online <= GetSystemStatus(nodes, alerts).nodes_total
    ensures GetSystemStatus(nodes, alerts).nodes_total == |nodes|
    ensures GetSystemStatus(nodes, alerts).active_alerts + |Filter(alerts, Not(IsUnacknowledged()))| == |alerts|
    ensures (forall i :: 0 <= i < |alerts| ==> alerts[i].is_acknowledged) ==> GetSystemStatus(nodes, alerts).active_alerts == 0
  {
    FilterPartition(alerts, IsUnacknowledged());
    if forall i :: 0 <= i < |alerts| ==> alerts[i].is_acknowledged {
      FilterNone(alerts, IsUnacknowledged());
    }
  }

  // ---- Readings of one node, newest first ----

  function ForNode(nodeId: string): SensorReading -> bool {
    (r: SensorReading) => r.node_id == nodeId
  }

  /** `order_by(timestamp.desc())`; rows with equal timestamps keep storage order. */
  function NewestFirstKey(r: SensorReading): Key {
    Key(-r.timestamp, 0)
  }

  function ReadingsNewestFirst(readings: seq<SensorReading>, nodeId: string): seq<SensorReading> {
    SortBy(Filter(readings, ForNode(nodeId)), NewestFirstKey)
  }

  /** The `.first()` of the node's readings ordered newest first. */
  function LatestReading(readings: seq<SensorReading>, nodeId: string): Option<SensorReading> {
    var ordered := ReadingsNewestFirst(readings, nodeId);
    if |ordered| == 0 then None else Some(ordered[0])
  }

  /** The latest reading is one of the node's readings with the largest
      timestamp; there is none exactly when the node has no readings. */
  lemma LatestReadingSpec(readings: seq<SensorReading>, nodeId: string)
    ensures LatestReading(readings, nodeId).None? <==> forall i :: 0 <= i < |readings| ==> readings[i].node_id != nodeId
    ensures LatestReading(readings, nodeId).Some? ==>
              var r := LatestReading(readings, nodeId).value;
              r in readings && r.node_id == nodeId &&
              forall i :: 0 <= i < |readings| && readings[i].node_id == nodeId ==> readings[i].timestamp <= r.timestamp
  {
    var mine := Filter(readings, ForNode(nodeId));
    var ordered := ReadingsNewestFirst(readings, nodeId);
    SortBySorted(mine, NewestFirstKey);
    forall i | 0 <= i < |readings| && readings[i].node_id == nodeId
      ensures readings[i] in ordered
    {
      FilterMembership(readings, ForNode(nodeId), readings[i]);
      assert readings[i] in multiset(mine);
    }
    if |ordered| > 0 {
      var r := ordered[0];
      assert r in multiset(mine);
      FilterMembership(readings, ForNode(nodeId), r);
      forall i | 0 <= i < |readings| && readings[i].node_id == nodeId
        ensures readings[i].timestamp <= r.timestamp
      {
        var j :| 0 <= j < |ordered| && ordered[j] == readings[i];
        if j > 0 {
          assert KeyLe(NewestFirstKey(ordered[0]), NewestFirstKey(ordered[j]));
        }
      }
    }
  }

  // ---- GET /api/v1/nodes/{node_id} ----

  function FindNode(nodes: seq<Node>, nodeId: string): (r: Option<Node>)
    ensures r.Some? ==> r.value in nodes && r.value.node_id == nodeId
    ensures r.None? <==> forall i :: 0 <= i < |nodes| ==> nodes[i].node_id != nodeId
  {
    if nodes == [] then None
    else if nodes[0].node_id == nodeId then Some(nodes[0])
    else FindNode(nodes[1..], nodeId)
  }

  /** The node's readings under `LIMIT 20`. */
  function RecentReadings(readings: seq<SensorReading>, nodeId: string): seq<SensorReading> {
    Take(ReadingsNewestFirst(readings, nodeId), NodeReadingsLimit)
  }

  /** The node's newest min(count, 20) readings: exactly that many, newest
      first, each one of the node's readings, and none of its readings left
      out is newer than one included. */
  lemma RecentReadingsSpec(readings: seq<SensorReading>, nodeId: string)
    ensures |RecentReadings(readings, nodeId)| <= NodeReadingsLimit
    ensures |RecentReadings(readings, nodeId)| ==
              if |Filter(readings, ForNode(nodeId))| <= NodeReadingsLimit then |Filter(readings, ForNode(nodeId))|
              else NodeReadingsLimit
    ensures multiset(RecentReadings(readings, nodeId)) <= multiset(Filter(readings, ForNode(nodeId)))
    ensures forall i :: 0 <= i < |RecentReadings(readings, nodeId)| ==>
              RecentReadings(readings, nodeId)[i] in readings && RecentReadings(readings, nodeId)[i].node_id == nodeId
    ensures forall i, j :: 0 <= i < j < |RecentReadings(readings, nodeId)| ==>
              RecentReadings(readings, nodeId)[i].timestamp >= RecentReadings(readings, nodeId)[j].timestamp
    ensures forall x, y ::
              (x in multiset(Filter(readings, ForNode(nodeId))) - multiset(RecentReadings(readings, nodeId)) &&
               y in RecentReadings(readings, nodeId)) ==> x.timestamp <= y.timestamp
  {
    RecentReadingsCount(readings, nodeId);
    RecentReadingsOwn(readings, nodeId);
    RecentReadingsOrder(readings, nodeId);
  }

  /** `LIMIT 20` keeps min(count, 20) of the node's readings. */
  lemma RecentReadingsCount(readings: seq<SensorReading>, nodeId: string)
    ensures |RecentReadings(readings, nodeId)| ==
              if |Filter(readings, ForNode(nodeId))| <= NodeReadingsLimit then |Filter(readings, ForNode(nodeId))|
              else NodeReadingsLimit
    ensures multiset(RecentReadings(readings, nodeId)) <= multiset(Filter(readings, ForNode(nodeId)))
  {
    TakeSortedIsSmallest(Filter(readings, ForNode(nodeId)), NewestFirstKey, NodeReadingsLimit);
  }

  /** Every recent reading is one of the node's own readings. */
  lemma RecentReadingsOwn(readings: seq<SensorReading>, nodeId: string)
    ensures forall i :: 0 <= i < |RecentReadings(readings, nodeId)| ==>
              RecentReadings(readings, nodeId)[i] in readings && RecentReadings(readings, nodeId)[i].node_id == nodeId
  {
    var mine := Filter(readings, ForNode(nodeId));
    RecentReadingsCount(readings, nodeId);
    var rs := RecentReadings(readings, nodeId);
    forall i | 0 <= i < |rs| ensures rs[i] in readings && rs[i].node_id == nodeId {
      assert rs[i] in multiset(mine);
      FilterMembership(readings, ForNode(nodeId), rs[i]);
    }
  }

  /** The recent readings are newest first, and none of the node's readings
      left out is newer than one included. */
  lemma RecentReadingsOrder(readings: seq<SensorReading>, nodeId: string)
    ensures forall i, j :: 0 <= i < j < |RecentReadings(readings, nodeId)| ==>
              RecentReadings(readings, nodeId)[i].timestamp >= RecentReadings(readings, nodeId)[j].timestamp
    ensures forall x, y ::
              (x in multiset(Filter(readings, ForNode(nodeId))) - multiset(RecentReadings(readings, nodeId)) &&
               y in RecentReadings(readings, nodeId)) ==> x.timestamp <= y.timestamp
  {
    var mine := Filter(readings, ForNode(nodeId));
    TakeSortedIsSmallest(mine, NewestFirstKey, NodeReadingsLimit);
    var rs := RecentReadings(readings, nodeId);
    forall i, j | 0 <= i < j < |rs| ensures rs[i].timestamp >= rs[j].timestamp {
      assert KeyLe(NewestFirstKey(rs[i]), NewestFirstKey(rs[j]));
    }
    forall x, y | x in multiset(mine) - multiset(rs) && y in rs ensures x.timestamp <= y.timestamp {
      assert KeyLe(NewestFirstKey(y), NewestFirstKey(x));
    }
  }

  function GetNodeDetails(nodes: seq<Node>, readings: seq<SensorReading>, nodeId: string): Result<NodeDetail, HttpError> {
    match FindNode(nodes, nodeId)
    case None => Failure(NodeNotFound)
    case Some(n) =>
      if n.last_ping.None? then Failure(ValidationFailed)
      else Success(NodeDetail(n.node_id, n.name, n.location_desc, n.status, n.firmware_version,
                              n.last_ping.value, n.created_at, RecentReadings(readings, nodeId)))
  }

  /** An unknown id is a 404; the node the query finds fails the schema
      exactly when it has no last ping, and otherwise the detail is that
      node's row with its recent readings. Under the primary key the found
      node is the one row carrying the id. */
  lemma NodeDetailsSpec(nodes: seq<Node>, readings: seq<SensorReading>, nodeId: string)
    ensures (forall i :: 0 <= i < |nodes| ==> nodes[i].node_id != nodeId) <==>
              GetNodeDetails(nodes, readings, nodeId) == Failure(NodeNotFound)
    ensures (FindNode(nodes, nodeId).Some? && FindNode(nodes, nodeId).value.last_ping.None?) <==>
              GetNodeDetails(nodes, readings, nodeId) == Failure(ValidationFailed)
    ensures GetNodeDetails(nodes, readings, nodeId).Success? ==>
              var n := FindNode(nodes, nodeId).value;
              n.last_ping.Some? &&
              GetNodeDetails(nodes, readings, nodeId).value ==
                NodeDetail(n.node_id, n.name, n.location_desc, n.status, n.firmware_version,
                           n.last_ping.value, n.created_at, RecentReadings(readings, nodeId))
    ensures UniqueNodeIds(nodes) ==> forall i :: 0 <= i < |nodes| && nodes[i].node_id == nodeId ==>
              (nodes[i].last_ping.None? <==> GetNodeDetails(nodes, readings, nodeId) == Failure(ValidationFailed)) &&
              (nodes[i].last_ping.Some? ==>
                 GetNodeDetails(nodes, readings, nodeId) ==
                   Success(NodeDetail(nodes[i].node_id, nodes[i].name, nodes[i].location_desc, nodes[i].status,
                                      nodes[i].firmware_version, nodes[i].last_ping.value, nodes[i].created_at,
                                      RecentReadings(readings, nodeId))))
  {
    if UniqueNodeIds(nodes) {
      forall i | 0 <= i < |nodes| && nodes[i].node_id == nodeId
        ensures FindNode(nodes, nodeId) == Some(nodes[i])
      {
        FindNodeUnique(nodes, nodeId, i);
      }
    }
  }

  /** Under the primary key, the query finds the one row with the id. */
  lemma {:induction false} FindNodeUnique(nodes: seq<Node>, nodeId: string, i: nat)
    requires UniqueNodeIds(nodes)
    requires i < |nodes| && nodes[i].node_id == nodeId
    ensures FindNode(nodes, nodeId) == Some(nodes[i])
  {
    if i > 0 {
      assert nodes[0].node_id != nodeId;
      assert UniqueNodeIds(nodes[1..]) by {
        forall a, b | 0 <= a < b < |nodes[1..]| ensures nodes[1..][a].node_id != nodes[1..][b].node_id {
          assert nodes[1..][a] == nodes[a + 1] && nodes[1..][b] == nodes[b + 1];
        }
      }
      FindNodeUnique(nodes[1..], nodeId, i - 1);
    }
  }

  // ---- GET /api/v1/logs/events ----

  function LogKey(l: EventLog): Key {
    Key(-l.timestamp, 0)
  }

  function GetEventLogs(logs: seq<EventLog>): seq<EventLog> {
    Take(SortBy(logs, LogKey), EventLogsLimit)
  }

  /** At most 50 logs, newest first, all from the table, and no log left out
      is newer than one returned. */
  lemma EventLogsSpec(logs: seq<EventLog>)
    ensures |GetEventLogs(logs)| == if |logs| <= EventLogsLimit then |logs| else EventLogsLimit
    ensures forall i, j :: 0 <= i < j < |GetEventLogs(logs)| ==> GetEventLogs(logs)[i].timestamp >= GetEventLogs(logs)[j].timestamp
    ensures multiset(GetEventLogs(logs)) <= multiset(logs)
    ensures forall x, y :: x in multiset(logs) - multiset(GetEventLogs(logs)) && y in GetEventLogs(logs) ==>
              x.timestamp <= y.timestamp
  {
    TakeSortedIsSmallest(logs, LogKey, EventLogsLimit);
    var r := GetEventLogs(logs);
    forall i, j | 0 <= i < j < |r| ensures r[i].timestamp >= r[j].timestamp {
      assert KeyLe(LogKey(r[i]), LogKey(r[j]));
    }
    forall x, y | x in multiset(logs) - multiset(r) && y in r ensures x.timestamp <= y.timestamp {
      assert KeyLe(LogKey(y), LogKey(x));
    }
  }

  // ---- GET /api/v1/alerts ----

  /** `order_by(is_acknowledged.asc(), timestamp.desc())`. */
  function AlertRowKey(a: Alert): Key {
    Key(if a.is_acknowledged then 1 else 0, -a.timestamp)
  }

  function ToAlertSchemas(alerts: seq<Alert>): (r: seq<AlertSchema>)
    ensures |r| == |alerts|
    ensures forall i :: 0 <= i < |alerts| ==> r[i] == ToAlertSchema(alerts[i])
  {
    if alerts == [] then [] else [ToAlertSchema(alerts[0])] + ToAlertSchemas(alerts[1..])
  }

  lemma ToAlertSchemasAppend(a: seq<Alert>, b: seq<Alert>)
    ensures ToAlertSchemas(a + b) == ToAlertSchemas(a) + ToAlertSchemas(b)
  {
  }

  lemma ToAlertSchemasRemove(b: seq<Alert>, k: nat)
    requires k < |b|
    ensures multiset(ToAlertSchemas(b)) == multiset(ToAlertSchemas(b[..k] + b[k + 1..])) + multiset{ToAlertSchema(b[k])}
  {
    RemoveAt(b, k);
    ToAlertSchemasAppend(b[..k] + [b[k]], b[k + 1..]);
    ToAlertSchemasAppend(b[..k], [b[k]]);
    ToAlertSchemasAppend(b[..k], b[k + 1..]);
  }

  /** Converting a permutation of the rows gives a permutation of the schemas. */
  lemma {:induction false} ToAlertSchemasPermutation(a: seq<Alert>, b: seq<Alert>)
    requires multiset(a) == multiset(b)
    ensures multiset(ToAlertSchemas(a)) == multiset(ToAlertSchemas(b))
    decreases |a|
  {
    if a != [] {
      var k := MatchFirst(a, b);
      ToAlertSchemasPermutation(a[1..], b[..k] + b[k + 1..]);
      ToAlertSchemasRemove(b, k);
      assert ToAlertSchemas(a) == [ToAlertSchema(a[0])] + ToAlertSchemas(a[1..]);
    }
  }

  function GetAlerts(alerts: seq<Alert>): seq<AlertSchema> {
    ToAlertSchemas(SortBy(alerts, AlertRowKey))
  }

  /** Every alert is returned once; unacknowledged alerts come before
      acknowledged ones, and each group is newest first. */
  lemma GetAlertsSpec(alerts: seq<Alert>)
    ensures |GetAlerts(alerts)| == |alerts|
    ensures multiset(GetAlerts(alerts)) == multiset(ToAlertSchemas(alerts))
    ensures forall i, j :: 0 <= i < j < |GetAlerts(alerts)| ==>
              !(GetAlerts(alerts)[i].is_acknowledged && !GetAlerts(alerts)[j].is_acknowledged)
    ensures forall i, j ::
              (0 <= i < j < |GetAlerts(alerts)| && GetAlerts(alerts)[i].is_acknowledged == GetAlerts(alerts)[j].is_acknowledged) ==>
              GetAlerts(alerts)[i].timestamp >= GetAlerts(alerts)[j].timestamp
  {
    var sorted := SortBy(alerts, AlertRowKey);
    SortBySorted(alerts, AlertRowKey);
    var r := GetAlerts(alerts);
    ToAlertSchemasPermutation(sorted, alerts);
    forall i, j | 0 <= i < j < |r| ensures !(r[i].is_acknowledged && !r[j].is_acknowledged) {
      assert KeyLe(AlertRowKey(sorted[i]), AlertRowKey(sorted[j]));
    }
    forall i, j | 0 <= i < j < |r| && r[i].is_acknowledged == r[j].is_acknowledged
      ensures r[i].timestamp >= r[j].timestamp
    {
      assert KeyLe(AlertRowKey(sorted[i]), AlertRowKey(sorted[j]));
    }
  }

  // ---- The acknowledge transition ----

  function FindAlertIndex(alerts: seq<Alert>, alertId: int): (r: Option<nat>)
    ensures r.Some? ==> r.value < |alerts| && alerts[r.value].alert_id == alertId &&
                        forall k :: 0 <= k < r.value ==> alerts[k].alert_id != alertId
    ensures r.None? <==> forall i :: 0 <= i < |alerts| ==> alerts[i].alert_id != alertId
  {
    if alerts == [] then None
    else if alerts[0].alert_id == alertId then Some(0)
    else match FindAlertIndex(alerts[1..], alertId)
      case None => None
      case Some(k) => Some(k + 1)
  }

  /** The decimal digits of `n`, as an f-string prints an integer. */
  function NatToString(n: nat): (s: string)
    ensures |s| > 0
    ensures forall i :: 0 <= i < |s| ==> '0' <= s[i] <= '9'
    decreases n
  {
    var digit := ['0' + (n % 10) as char];
    if n < 10 then digit else NatToString(n / 10) + digit
  }

  function IntToString(n: int): string {
    if n < 0 then "-" + NatToString(-n) else NatToString(n)
  }

  function AckMessage(alertId: int, nodeId: string): string {
    "Alert " + IntToString(alertId) + " (" + nodeId + ") acknowledged by admin."
  }

  /** The id the table assigns to a new log row: one more than any stored id. */
  function NextLogId(logs: seq<EventLog>): (id: int)
    ensures forall i :: 0 <= i < |logs| ==> logs[i].log_id < id
  {
    if logs == [] then 1
    else
      var rest := NextLogId(logs[1..]);
      assert forall i :: 1 <= i < |logs| ==> logs[i] == logs[1..][i - 1];
      if logs[0].log_id + 1 > rest then logs[0].log_id + 1 else rest
  }

  /** One `NodeWithLatestReading`: the node's own fields, and the latest
      reading's level and signal, both absent when there is no reading. */
  function WithLatest(n: Node, latest: Option<SensorReading>): (e: NodeWithLatestReading)
    requires n.last_ping.Some?
    ensures e.node_id == n.node_id && e.name == n.name && e.location_desc == n.location_desc
    ensures e.status == n.status && e.firmware_version == n.firmware_version && e.last_ping == n.last_ping.value
    ensures latest.None? ==> e.water_level_cm.None? && e.signal_strength_dbm.None?
    ensures latest.Some? ==> e.water_level_cm == Some(latest.value.water_level_cm) &&
                             e.signal_strength_dbm == Some(latest.value.signal_strength_dbm)
  {
    NodeWithLatestReading(n.node_id, n.name, n.location_desc, n.status, n.firmware_version, n.last_ping.value,
                          if latest.Some? then Some(latest.value.water_level_cm) else None,
                          if latest.Some? then Some(latest.value.signal_strength_dbm) else None)
  }

  /** The tables. Primary keys are unique in every table. */
  class Database {
    var nodes: seq<Node>
    var readings: seq<SensorReading>
    var alerts: seq<Alert>
    var logs: seq<EventLog>

    ghost predicate Valid()
      reads this
    {
      UniqueNodeIds(nodes) && UniqueReadingIds(readings) && UniqueAlertIds(alerts) && UniqueLogIds(logs)
    }

    constructor()
      ensures Valid()
      ensures nodes == [] && readings == [] && alerts == [] && logs == []
    {
      nodes := [];
      readings := [];
      alerts := [];
      logs := [];
    }

    /** `seed_database`: a table that already has a node is left alone;
        otherwise the seed rows are added. */
    method SeedIfEmpty(seedNodes: seq<Node>, seedReadings: seq<SensorReading>, seedAlerts: seq<Alert>, seedLogs: seq<EventLog>)
      requires Valid()
      requires |nodes| == 0 ==> UniqueNodeIds(seedNodes) && UniqueReadingIds(readings + seedReadings)
      requires |nodes| == 0 ==> UniqueAlertIds(alerts + seedAlerts) && UniqueLogIds(logs + seedLogs)
      modifies this
      ensures Valid()
      ensures |old(nodes)| > 0 ==>
                nodes == old(nodes) && readings == old(readings) && alerts == old(alerts) && logs == old(logs)
      ensures |old(nodes)| == 0 ==>
                nodes == seedNodes && readings == old(readings) + seedReadings &&
                alerts == old(alerts) + seedAlerts && logs == old(logs) + seedLogs
    {
      if |nodes| > 0 {
        return;
      }
      nodes := nodes + seedNodes;
      readings := readings + seedReadings;
      alerts := alerts + seedAlerts;
      logs := logs + seedLogs;
    }

    /** `get_all_nodes`: one entry per node, in table order, carrying the
        node's latest reading; a node without a last ping fails the schema. */
    method GetAllNodes() returns (r: Result<seq<NodeWithLatestReading>, HttpError>)
      ensures r.Failure? <==> exists i :: 0 <= i < |nodes| && nodes[i].last_ping.None?
      ensures r.Failure? ==> r.error == ValidationFailed
      ensures r.Success? ==> |r.value| == |nodes| && forall i :: 0 <= i < |nodes| ==>
                nodes[i].last_ping.Some? && r.value[i] == WithLatest(nodes[i], LatestReading(readings, nodes[i].node_id))
    {
      var response: seq<NodeWithLatestReading> := [];
      var i := 0;
      while i < |nodes|
        invariant 0 <= i <= |nodes|
        invariant |response| == i
        invariant forall k :: 0 <= k < i ==>
                    nodes[k].last_ping.Some? && response[k] == WithLatest(nodes[k], LatestReading(readings, nodes[k].node_id))
      {
        var node := nodes[i];
        var latest := LatestReading(readings, node.node_id);
        if node.last_ping.None? {
          return Failure(ValidationFailed);
        }
        var entry := NodeWithLatestReading(node.node_id, node.name, node.location_desc, node.status,
                                           node.firmware_version, node.last_ping.value, None, None);
        if latest.Some? {
          entry := entry.(water_level_cm := Some(latest.value.water_level_cm),
                          signal_strength_dbm := Some(latest.value.signal_strength_dbm));
        }
        response := response + [entry];
        i := i + 1;
      }
      return Success(response);
    }

    /** `acknowledge_alert`: an unknown id is a 404 and changes nothing; an
        acknowledged alert is returned as it is and changes nothing;
        otherwise exactly that alert becomes acknowledged and exactly one
        INFO row from "API" is appended to the log. */
    method AcknowledgeAlert(alertId: int, now: int) returns (r: Result<AlertSchema, HttpError>)
      requires Valid()
      modifies this
      ensures Valid()
      ensures nodes == old(nodes) && readings == old(readings)
      ensures FindAlertIndex(old(alerts), alertId).None? ==>
                r == Failure(AlertNotFound) && alerts == old(alerts) && logs == old(logs)
      ensures FindAlertIndex(old(alerts), alertId).Some? ==>
                var k := FindAlertIndex(old(alerts), alertId).value;
                var a := old(alerts)[k];
                r == Success(ToAlertSchema(a.(is_acknowledged := true))) &&
                alerts == old(alerts)[k := a.(is_acknowledged := true)] &&
                (a.is_acknowledged ==> logs == old(logs)) &&
                (!a.is_acknowledged ==>
                   logs == old(logs) + [EventLog(NextLogId(old(logs)), now, "API", Info, AckMessage(alertId, a.node_id))])
    {
      var found := FindAlertIndex(alerts, alertId);
      if found.None? {
        return Failure(AlertNotFound);
      }
      var k := found.value;
      var alert := alerts[k];
      if alert.is_acknowledged {
        assert alerts[k := alert] == alerts;
        return Success(ToAlertSchema(alert));
      }
      alert := alert.(is_acknowledged := true);
      alerts := alerts[k := alert];
      var entry := EventLog(NextLogId(logs), now, "API", Info, AckMessage(alertId, alert.node_id));
      logs := logs + [entry];
      r := Success(ToAlertSchema(alert));
    }
  }

  /** Two startups on one database: the first seeds the empty tables, the
      second finds a node and leaves the seeded rows as they are. */
  method RestartKeepsSeed(seedNodes: seq<Node>, seedReadings: seq<SensorReading>, seedAlerts: seq<Alert>, seedLogs: seq<EventLog>)
    returns (nodes: seq<Node>, readings: seq<SensorReading>, alerts: seq<Alert>, logs: seq<EventLog>)
    requires |seedNodes| > 0
    requires UniqueNodeIds(seedNodes) && UniqueReadingIds(seedReadings)
    requires UniqueAlertIds(seedAlerts) && UniqueLogIds(seedLogs)
    ensures nodes == seedNodes && readings == seedReadings && alerts == seedAlerts && logs == seedLogs
  {
    var db := new Database();
    assert [] + seedReadings == seedReadings && [] + seedAlerts == seedAlerts && [] + seedLogs == seedLogs;
    db.SeedIfEmpty(seedNodes, seedReadings, seedAlerts, seedLogs);
    db.SeedIfEmpty(seedNodes, seedReadings, seedAlerts, seedLogs);
    nodes, readings, alerts, logs := db.nodes, db.readings, db.alerts, db.logs;
  }
}

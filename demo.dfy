/** The record shapes of the demo data in frontend/src/App.tsx, which the
    views under frontend/src/components receive as `any[]`. Every field the
    views compare is a string or a boolean. */
module Demo {

  /** A device row: `status` is one of 'Online', 'Maintenance', 'Offline' in
      the demo data, but the views accept any string. */
  datatype DemoNode = DemoNode(
    id: string,
    name: string,
    status: string,
    firmware: string,
    lastSeen: string,
    waterLevel: string,
    signalStrength: string)

  datatype DemoAlert = DemoAlert(
    id: string,
    severity: string,
    nodeId: string,
    image: string,
    timestamp: string,
    acknowledged: bool)

  /** A log line; `type` is one of 'INFO', 'WARN', 'ERROR' in the demo data. */
  datatype DemoLog = DemoLog(timestamp: string, logType: string, message: string)

  /** The `'all'` sentinel of every filter select. */
  const All := "all"
}

/** The node detail drawer (frontend/src/ui/NodeDetailDrawer.tsx): when it is
    shown, when it shows the node, and the series it hands to the chart. */
module UiNodeDetailDrawer {
  import opened Wrappers
  import opened Seqs
  import opened ApiTypes
  import Models

  /** The drawer body: the node's fields, the chart series and the readings list. */
  datatype Content = Content(
    name: string,
    node_id: string,
    status: Models.NodeStatus,
    firmware_version: Option<string>,
    last_ping: int,
    location_desc: Option<string>,
    chart: seq<real>,
    readings: seq<SensorReading>)

  /** `Hidden`: the component returns `null`. */
  datatype Drawer = Hidden | Open(showsLoading: bool, content: Option<Content>)

  function WaterLevels(rs: seq<SensorReading>): (levels: seq<real>)
    ensures |levels| == |rs|
    ensures forall i :: 0 <= i < |rs| ==> levels[i] == rs[i].water_level_cm
  {
    if rs == [] then [] else [rs[0].water_level_cm] + WaterLevels(rs[1..])
  }

  /** `recent_readings.map(r => r.water_level_cm).reverse()`. */
  function ChartSeries(node: NodeDetail): seq<real> {
    Reverse(WaterLevels(node.recent_readings))
  }

  /** The server sends the readings newest first; the chart gets them oldest
      first: the same number of values, the last reading's level first. */
  lemma ChartSeriesIsOldestFirst(node: NodeDetail)
    ensures |ChartSeries(node)| == |node.recent_readings|
    ensures forall i :: 0 <= i < |node.recent_readings| ==>
              ChartSeries(node)[i] == node.recent_readings[|node.recent_readings| - 1 - i].water_level_cm
  {
  }

  function NodeContent(node: NodeDetail): Content {
    Content(node.name, node.node_id, node.status, node.firmware_version, node.last_ping,
            node.location_desc, ChartSeries(node), node.recent_readings)
  }

  /** Hidden exactly when there is neither a node nor a load in progress; the
      loading line shows exactly while loading; the node's content shows
      only when not loading, with the readings list in server order. */
  function Render(node: Option<NodeDetail>, loading: bool): (d: Drawer)
    ensures d.Hidden? <==> node.None? && !loading
    ensures d.Open? ==> d.showsLoading == loading
    ensures d.Open? ==> (d.content.Some? <==> node.Some? && !loading)
    ensures d.Open? && d.content.Some? ==>
              d.content.value.readings == node.value.recent_readings &&
              d.content.value.node_id == node.value.node_id &&
              d.content.value.chart == ChartSeries(node.value)
  {
    if node.None? && !loading then Hidden
    else Open(loading, if !loading && node.Some? then Some(NodeContent(node.value)) else None)
  }
}

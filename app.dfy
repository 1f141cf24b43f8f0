/** The demo shell (frontend/src/App.tsx): the local acknowledge map over the
    demo alerts, the two header counts, and node clicks opening the drawer. */
module App {
  import opened Wrappers
  import opened Seqs
  import opened Demo

  /** `alerts.map(alert => alert.id === id ? { ...alert, acknowledged: true } : alert)`. */
  function AcknowledgeById(alerts: seq<DemoAlert>, id: string): (r: seq<DemoAlert>)
    ensures |r| == |alerts|
  {
    if alerts == [] then []
    else [if alerts[0].id == id then alerts[0].(acknowledged := true) else alerts[0]] + AcknowledgeById(alerts[1..], id)
  }

  /** Only the alerts with that id change, and they become acknowledged;
      every other field, the ids and the order are kept. */
  lemma {:induction false} AcknowledgeByIdPointwise(alerts: seq<DemoAlert>, id: string)
    ensures forall i :: 0 <= i < |alerts| ==>
              AcknowledgeById(alerts, id)[i] == if alerts[i].id == id then alerts[i].(acknowledged := true) else alerts[i]
    ensures forall i :: 0 <= i < |alerts| ==>
              AcknowledgeById(alerts, id)[i].id == alerts[i].id &&
              AcknowledgeById(alerts, id)[i].acknowledged == (alerts[i].acknowledged || alerts[i].id == id)
  {
    if alerts != [] {
      AcknowledgeByIdPointwise(alerts[1..], id);
      forall i | 1 <= i < |alerts|
        ensures AcknowledgeById(alerts, id)[i] == if alerts[i].id == id then alerts[i].(acknowledged := true) else alerts[i]
      {
        assert AcknowledgeById(alerts, id)[i] == AcknowledgeById(alerts[1..], id)[i - 1];
        assert alerts[i] == alerts[1..][i - 1];
      }
    }
  }

  /** Acknowledging the same id twice is acknowledging it once. */
  lemma AcknowledgeByIdIdempotent(alerts: seq<DemoAlert>, id: string)
    ensures AcknowledgeById(AcknowledgeById(alerts, id), id) == AcknowledgeById(alerts, id)
  {
    AcknowledgeByIdPointwise(alerts, id);
    AcknowledgeByIdPointwise(AcknowledgeById(alerts, id), id);
  }

  function IsActive(): DemoAlert -> bool {
    (a: DemoAlert) => !a.acknowledged
  }

  /** `activeAlerts`. */
  function ActiveAlerts(alerts: seq<DemoAlert>): nat {
    |Filter(alerts, IsActive())|
  }

  /** The active alerts that carry `id`. */
  function ActiveWithId(id: string): DemoAlert -> bool {
    (a: DemoAlert) => !a.acknowledged && a.id == id
  }

  /** `onlineNodes`: never more than the nodes there are. */
  function OnlineNodes(nodes: seq<DemoNode>): (n: nat)
    ensures n <= |nodes|
  {
    |Filter(nodes, (node: DemoNode) => node.status == "Online")|
  }

  /** An acknowledge never raises the active count: it drops by the number
      of active alerts that carry the id. */
  lemma {:induction false} AcknowledgeNeverRaisesActive(alerts: seq<DemoAlert>, id: string)
    ensures ActiveAlerts(AcknowledgeById(alerts, id)) <= ActiveAlerts(alerts)
    ensures ActiveAlerts(AcknowledgeById(alerts, id)) ==
              ActiveAlerts(alerts) - |Filter(alerts, ActiveWithId(id))|
  {
    if alerts != [] {
      AcknowledgeNeverRaisesActive(alerts[1..], id);
      assert AcknowledgeById(alerts, id)[1..] == AcknowledgeById(alerts[1..], id);
    }
  }

  /** The shell's state cells that the handlers replace. */
  class Shell {
    var alerts: seq<DemoAlert>
    var selectedNode: Option<DemoNode>
    var isDrawerOpen: bool

    constructor(initialAlerts: seq<DemoAlert>)
      ensures alerts == initialAlerts && selectedNode == None && !isDrawerOpen
    {
      alerts := initialAlerts;
      selectedNode := None;
      isDrawerOpen := false;
    }

    /** `handleAcknowledge`. */
    method HandleAcknowledge(id: string)
      modifies this
      ensures alerts == AcknowledgeById(old(alerts), id)
      ensures ActiveAlerts(alerts) <= ActiveAlerts(old(alerts))
      ensures selectedNode == old(selectedNode) && isDrawerOpen == old(isDrawerOpen)
    {
      AcknowledgeNeverRaisesActive(alerts, id);
      alerts := AcknowledgeById(alerts, id);
    }

    /** `handleNodeClick`: select the node and open the drawer. */
    method HandleNodeClick(node: DemoNode)
      modifies this
      ensures selectedNode == Some(node) && isDrawerOpen
      ensures alerts == old(alerts)
    {
      selectedNode := Some(node);
      isDrawerOpen := true;
    }

    /** The drawer's `onClose`: only the open flag changes; the node stays selected. */
    method CloseDrawer()
      modifies this
      ensures !isDrawerOpen
      ensures selectedNode == old(selectedNode) && alerts == old(alerts)
    {
      isDrawerOpen := false;
    }
  }
}

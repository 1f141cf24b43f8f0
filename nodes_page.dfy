/** The Nodes page (frontend/src/pages/NodesPage.tsx) as a state machine:
    the polled node list and the node-detail drawer. Selecting the node whose
    detail is loaded closes it; selecting any other id (or an id whose detail
    is still loading) starts a detail request. Detail answers are not matched
    against the current selection, so whichever arrives last is shown. */
module NodesPage {
  import opened Wrappers
  import opened Fetch
  import opened ApiTypes
  import UiNodeDetailDrawer

  const FetchFailedMessage := "Failed to fetch nodes"

  /** The message thrown for a non-ok detail answer names the requested id. */
  function DetailFailedMessage(nodeId: string): (m: string)
    ensures |m| == 33 + |nodeId|
    ensures m[|m| - |nodeId|..] == nodeId
    ensures m[..|m| - |nodeId|] == "Failed to fetch details for node "
  {
    "Failed to fetch details for node " + nodeId
  }

  datatype TableSection = LoadingLine | ErrorLine(message: string) | Table(nodes: seq<NodeWithLatestReading>, selectedNodeId: Option<string>)

  datatype Screen = Screen(table: TableSection, drawer: UiNodeDetailDrawer.Drawer)

  /** The table section shows the loading line, else a truthy error (from
      either request), else the table with the selected id marked; the
      drawer is rendered from the selection and its own loading flag,
      independently of the table. */
  function Render(nodes: seq<NodeWithLatestReading>, selectedNode: Option<NodeDetail>, loadingNodes: bool,
                  loadingNodeDetail: bool, error: Option<string>): (v: Screen)
    ensures v.table.LoadingLine? <==> loadingNodes
    ensures v.table.ErrorLine? <==> !loadingNodes && Truthy(error)
    ensures v.table.ErrorLine? ==> v.table.message == error.value
    ensures v.table.Table? ==>
              v.table.nodes == nodes &&
              (v.table.selectedNodeId.Some? <==> selectedNode.Some?) &&
              (selectedNode.Some? ==> v.table.selectedNodeId == Some(selectedNode.value.node_id))
    ensures v.drawer == UiNodeDetailDrawer.Render(selectedNode, loadingNodeDetail)
  {
    var table :=
      if loadingNodes then LoadingLine
      else if Truthy(error) then ErrorLine(error.value)
      else Table(nodes, if selectedNode.Some? then Some(selectedNode.value.node_id) else None);
    Screen(table, UiNodeDetailDrawer.Render(selectedNode, loadingNodeDetail))
  }

  /** Whether a click on `nodeId` closes the drawer instead of fetching:
      `selectedNode?.node_id === nodeId`. */
  predicate ClosesOnSelect(selectedNode: Option<NodeDetail>, nodeId: string) {
    selectedNode.Some? && selectedNode.value.node_id == nodeId
  }

  class Page {
    var nodes: seq<NodeWithLatestReading>
    var selectedNode: Option<NodeDetail>
    var loadingNodes: bool
    var loadingNodeDetail: bool
    var error: Option<string>
    var polling: bool
    ghost var listFetchesInFlight: nat
    /** The ids of the detail requests sent and not yet answered. */
    ghost var detailFetchesInFlight: multiset<string>

    /** Each loading flag is only set while a request of its kind is outstanding. */
    ghost predicate Valid()
      reads this
    {
      (loadingNodes ==> listFetchesInFlight > 0) &&
      (loadingNodeDetail ==> |detailFetchesInFlight| > 0)
    }

    function View(): Screen
      reads this
    {
      Render(nodes, selectedNode, loadingNodes, loadingNodeDetail, error)
    }

    constructor()
      ensures Valid()
      ensures nodes == [] && selectedNode == None && loadingNodes && !loadingNodeDetail && error == None && polling
      ensures listFetchesInFlight == 1 && detailFetchesInFlight == multiset{}
    {
      nodes := [];
      selectedNode := None;
      loadingNodes := true;
      loadingNodeDetail := false;
      error := None;
      polling := true;
      listFetchesInFlight := 1;
      detailFetchesInFlight := multiset{};
    }

    /** The start of `fetchNodes`. */
    method StartCycle()
      requires Valid()
      modifies this
      ensures Valid()
      ensures error == None && loadingNodes
      ensures nodes == old(nodes) && selectedNode == old(selectedNode) && loadingNodeDetail == old(loadingNodeDetail)
      ensures polling == old(polling)
      ensures listFetchesInFlight == old(listFetchesInFlight) + 1 && detailFetchesInFlight == old(detailFetchesInFlight)
    {
      error := None;
      loadingNodes := true;
      listFetchesInFlight := listFetchesInFlight + 1;
    }

    /** The 30 000 ms interval fires: a new list cycle starts. */
    method Tick()
      requires Valid() && polling
      modifies this
      ensures Valid()
      ensures error == None && loadingNodes
      ensures nodes == old(nodes) && selectedNode == old(selectedNode) && loadingNodeDetail == old(loadingNodeDetail)
      ensures polling
      ensures listFetchesInFlight == old(listFetchesInFlight) + 1 && detailFetchesInFlight == old(detailFetchesInFlight)
    {
      StartCycle();
    }

    method Unmount()
      requires Valid()
      modifies this
      ensures Valid()
      ensures !polling
      ensures nodes == old(nodes) && selectedNode == old(selectedNode) && loadingNodes == old(loadingNodes)
      ensures loadingNodeDetail == old(loadingNodeDetail) && error == old(error)
      ensures listFetchesInFlight == old(listFetchesInFlight) && detailFetchesInFlight == old(detailFetchesInFlight)
    {
      polling := false;
    }

    /** A list request is answered: success replaces the list, failure keeps
        it and stores the message; `loadingNodes` ends false. */
    method FetchResponded(r: Response<seq<NodeWithLatestReading>>)
      requires Valid() && listFetchesInFlight > 0
      modifies this
      ensures Valid()
      ensures !loadingNodes
      ensures r.Ok? ==> nodes == r.body && error == old(error)
      ensures !r.Ok? ==> nodes == old(nodes) && error == Some(FailureMessage(r, FetchFailedMessage))
      ensures selectedNode == old(selectedNode) && loadingNodeDetail == old(loadingNodeDetail) && polling == old(polling)
      ensures listFetchesInFlight == old(listFetchesInFlight) - 1 && detailFetchesInFlight == old(detailFetchesInFlight)
    {
      if r.Ok? {
        nodes := r.body;
      } else {
        error := Some(FailureMessage(r, FetchFailedMessage));
      }
      loadingNodes := false;
      listFetchesInFlight := listFetchesInFlight - 1;
    }

    /** `handleNodeSelect`: a click on the loaded node's id clears the
        selection and sends nothing; any other click clears the error and
        the selection, sets the detail flag and sends a request. */
    method SelectNode(nodeId: string)
      requires Valid()
      modifies this
      ensures Valid()
      ensures ClosesOnSelect(old(selectedNode), nodeId) ==>
                selectedNode == None && error == old(error) && loadingNodeDetail == old(loadingNodeDetail) &&
                detailFetchesInFlight == old(detailFetchesInFlight)
      ensures !ClosesOnSelect(old(selectedNode), nodeId) ==>
                selectedNode == None && error == None && loadingNodeDetail &&
                detailFetchesInFlight == old(detailFetchesInFlight) + multiset{nodeId}
      ensures nodes == old(nodes) && loadingNodes == old(loadingNodes) && polling == old(polling)
      ensures listFetchesInFlight == old(listFetchesInFlight)
    {
      if ClosesOnSelect(selectedNode, nodeId) {
        selectedNode := None;
        return;
      }
      error := None;
      loadingNodeDetail := true;
      selectedNode := None;
      detailFetchesInFlight := detailFetchesInFlight + multiset{nodeId};
    }

    /** A detail request for `nodeId` is answered, whatever is selected now:
        success shows the fetched detail, failure stores the message naming
        `nodeId`; the detail flag ends false either way. */
    method DetailResponded(nodeId: string, r: Response<NodeDetail>)
      requires Valid() && nodeId in detailFetchesInFlight
      modifies this
      ensures Valid()
      ensures !loadingNodeDetail
      ensures r.Ok? ==> selectedNode == Some(r.body) && error == old(error)
      ensures !r.Ok? ==> selectedNode == old(selectedNode) &&
                         error == Some(FailureMessage(r, DetailFailedMessage(nodeId)))
      ensures nodes == old(nodes) && loadingNodes == old(loadingNodes) && polling == old(polling)
      ensures listFetchesInFlight == old(listFetchesInFlight)
      ensures detailFetchesInFlight == old(detailFetchesInFlight) - multiset{nodeId}
    {
      if r.Ok? {
        selectedNode := Some(r.body);
      } else {
        error := Some(FailureMessage(r, DetailFailedMessage(nodeId)));
      }
      loadingNodeDetail := false;
      detailFetchesInFlight := detailFetchesInFlight - multiset{nodeId};
    }

    /** `handleCloseDrawer`. */
    method CloseDrawer()
      requires Valid()
      modifies this
      ensures Valid()
      ensures selectedNode == None
      ensures nodes == old(nodes) && loadingNodes == old(loadingNodes) && loadingNodeDetail == old(loadingNodeDetail)
      ensures error == old(error) && polling == old(polling)
      ensures listFetchesInFlight == old(listFetchesInFlight) && detailFetchesInFlight == old(detailFetchesInFlight)
    {
      selectedNode := None;
    }
  }

  function Detail(nodeId: string): NodeDetail {
    NodeDetail(nodeId, nodeId, None, Models.Online, None, 0, 0, [])
  }

  /** Node A is clicked, then B before A's detail arrived; B's answer comes
      first and A's last, so the drawer shows A although B was clicked last. */
  method LastDetailWinsScenario() returns (shown: Option<NodeDetail>)
    ensures shown == Some(Detail("A"))
  {
    var p := new Page();
    p.SelectNode("A");
    p.SelectNode("B");
    p.DetailResponded("B", Ok(Detail("B")));
    p.DetailResponded("A", Ok(Detail("A")));
    shown := p.selectedNode;
  }

  /** Clicking a node again while its detail is still loading sends a
      second request. The first answer opens the drawer, a click on the same
      node closes it, and the second answer then opens it again. */
  method ReselectWhileLoadingScenario() returns (afterClose: Option<NodeDetail>, afterLateAnswer: Option<NodeDetail>)
    ensures afterClose == None
    ensures afterLateAnswer == Some(Detail("A"))
  {
    var p := new Page();
    p.SelectNode("A");
    p.SelectNode("A");
    p.DetailResponded("A", Ok(Detail("A")));
    p.SelectNode("A");
    afterClose := p.selectedNode;
    p.DetailResponded("A", Ok(Detail("A")));
    afterLateAnswer := p.selectedNode;
  }

  /** A failed detail request leaves the drawer closed and replaces the
      node table with the error. */
  method DetailFailureHidesTableScenario() returns (view: Screen)
    ensures view.table == ErrorLine(DetailFailedMessage("A"))
    ensures view.drawer == UiNodeDetailDrawer.Hidden
  {
    var p := new Page();
    p.FetchResponded(Ok([]));
    p.SelectNode("A");
    p.DetailResponded("A", NotOk);
    view := p.View();
  }
}

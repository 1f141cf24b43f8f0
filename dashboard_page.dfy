/** The Dashboard page (frontend/src/pages/DashboardPage.tsx) as a state
    machine. One cycle sends three requests through `Promise.all`; they
    settle together, and the cycle either updates status, nodes and alerts
    or none of them. `loading` is true only until the first cycle settles. */
module DashboardPage {
  import opened Wrappers
  import opened Seqs
  import opened Fetch
  import opened ApiTypes
  import UiAlertsPanel

  const FetchFailedMessage := "Failed to fetch dashboard data"
  const AckFailedMessage := "Failed to acknowledge alert"

  datatype Payload = Payload(status: SystemStatus, nodes: seq<NodeWithLatestReading>, alerts: seq<Alert>)

  /** The alerts the dashboard keeps: the unacknowledged ones, in server order. */
  function ActiveAlerts(all: seq<Alert>): seq<Alert> {
    Filter(all, UiAlertsPanel.Unacknowledged)
  }

  /** Exactly the unacknowledged alerts are kept, as an order-preserving
      subsequence, and the panel's default filter then lists all of them. */
  lemma ActiveAlertsSpec(all: seq<Alert>, a: Alert)
    ensures IsSubsequence(ActiveAlerts(all), all)
    ensures a in ActiveAlerts(all) <==> a in all && !a.is_acknowledged
    ensures forall i :: 0 <= i < |ActiveAlerts(all)| ==> !ActiveAlerts(all)[i].is_acknowledged
    ensures UiAlertsPanel.VisibleAlerts(ActiveAlerts(all), UiAlertsPanel.DefaultShowAcknowledged) == ActiveAlerts(all)
  {
    FilterIsSubsequence(all, UiAlertsPanel.Unacknowledged);
    FilterMembership(all, UiAlertsPanel.Unacknowledged, a);
    FilterIdempotent(all, UiAlertsPanel.Unacknowledged);
  }

  /** How one cycle settles. A rejected request rejects `Promise.all` before
      any status is looked at (its message is taken in argument order); with
      all three answered, any non-ok status throws the page's message; only
      three ok answers produce data. */
  function CycleOutcome(status: Response<SystemStatus>, nodes: Response<seq<NodeWithLatestReading>>,
                        alerts: Response<seq<Alert>>): (r: Result<Payload, string>)
    ensures r.Success? <==> status.Ok? && nodes.Ok? && alerts.Ok?
    ensures r.Success? ==> r.value == Payload(status.body, nodes.body, ActiveAlerts(alerts.body))
    ensures r.Failure? && !status.Rejected? && !nodes.Rejected? && !alerts.Rejected? ==>
              r.error == FetchFailedMessage
    ensures status.Rejected? ==> r == Failure(status.message)
    ensures !status.Rejected? && nodes.Rejected? ==> r == Failure(nodes.message)
    ensures !status.Rejected? && !nodes.Rejected? && alerts.Rejected? ==> r == Failure(alerts.message)
  {
    if status.Rejected? then Failure(status.message)
    else if nodes.Rejected? then Failure(nodes.message)
    else if alerts.Rejected? then Failure(alerts.message)
    else if !status.Ok? || !nodes.Ok? || !alerts.Ok? then Failure(FetchFailedMessage)
    else Success(Payload(status.body, nodes.body, ActiveAlerts(alerts.body)))
  }

  /** The three KPI cards, `'...'` standing for a missing status. */
  datatype Kpis = Kpis(nodesOnline: Option<(int, int)>, activeAlerts: Option<int>, latencyMs: Option<int>)

  datatype Screen =
    | LoadingPane
    | ErrorPane(message: string)
    | Content(kpis: Kpis, nodes: seq<NodeWithLatestReading>, panel: UiAlertsPanel.Panel)

  function KpisOf(status: Option<SystemStatus>): (k: Kpis)
    ensures status.None? ==> k == Kpis(None, None, None)
    ensures status.Some? ==> k.nodesOnline == Some((status.value.nodes_online, status.value.nodes_total))
    ensures status.Some? ==> k.activeAlerts == Some(status.value.active_alerts)
    ensures status.Some? ==> k.latencyMs == Some(status.value.avg_network_latency_ms)
  {
    match status
    case None => Kpis(None, None, None)
    case Some(s) => Kpis(Some((s.nodes_online, s.nodes_total)), Some(s.active_alerts), Some(s.avg_network_latency_ms))
  }

  /** The loading pane only while loading with no status yet; then the error
      pane while the error is truthy; otherwise the cards, the table and the
      panel with its default filter. */
  function Render(loading: bool, status: Option<SystemStatus>, error: Option<string>,
                  nodes: seq<NodeWithLatestReading>, alerts: seq<Alert>): (v: Screen)
    ensures v.LoadingPane? <==> loading && status.None?
    ensures v.ErrorPane? <==> !(loading && status.None?) && Truthy(error)
    ensures v.ErrorPane? ==> v.message == error.value
    ensures v.Content? ==> v.kpis == KpisOf(status) && v.nodes == nodes &&
                           v.panel == UiAlertsPanel.Render(alerts, UiAlertsPanel.DefaultShowAcknowledged)
  {
    if loading && status.None? then LoadingPane
    else if Truthy(error) then ErrorPane(error.value)
    else Content(KpisOf(status), nodes, UiAlertsPanel.Render(alerts, UiAlertsPanel.DefaultShowAcknowledged))
  }

  class Page {
    var systemStatus: Option<SystemStatus>
    var nodes: seq<NodeWithLatestReading>
    var alerts: seq<Alert>
    var loading: bool
    var error: Option<string>
    var polling: bool
    /** Cycles started and not yet settled. */
    ghost var cyclesInFlight: nat
    /** Whether some cycle has settled. */
    ghost var settledOnce: bool
    ghost var acksInFlight: multiset<int>

    /** Every stored alert is unacknowledged; `loading` means no cycle has
        settled yet, which needs one in flight; a status only arrives with a
        settled cycle. */
    ghost predicate Valid()
      reads this
    {
      (forall i :: 0 <= i < |alerts| ==> !alerts[i].is_acknowledged) &&
      (loading <==> !settledOnce) &&
      (loading ==> cyclesInFlight > 0) &&
      (systemStatus.Some? ==> settledOnce)
    }

    function View(): Screen
      reads this
    {
      Render(loading, systemStatus, error, nodes, alerts)
    }

    /** Mounting: the initial state, then the first cycle and the interval. */
    constructor()
      ensures Valid()
      ensures systemStatus == None && nodes == [] && alerts == [] && loading && error == None && polling
      ensures cyclesInFlight == 1 && !settledOnce && acksInFlight == multiset{}
    {
      systemStatus := None;
      nodes := [];
      alerts := [];
      loading := true;
      error := None;
      polling := true;
      cyclesInFlight := 1;
      settledOnce := false;
      acksInFlight := multiset{};
    }

    /** The synchronous start of `fetchData`: only the error is cleared. */
    method StartCycle()
      requires Valid()
      modifies this
      ensures Valid()
      ensures error == None
      ensures systemStatus == old(systemStatus) && nodes == old(nodes) && alerts == old(alerts)
      ensures loading == old(loading) && polling == old(polling) && settledOnce == old(settledOnce)
      ensures cyclesInFlight == old(cyclesInFlight) + 1 && acksInFlight == old(acksInFlight)
    {
      error := None;
      cyclesInFlight := cyclesInFlight + 1;
    }

    /** The 30 000 ms interval fires: a new `fetchData` cycle starts. */
    method Tick()
      requires Valid() && polling
      modifies this
      ensures Valid()
      ensures error == None
      ensures systemStatus == old(systemStatus) && nodes == old(nodes) && alerts == old(alerts)
      ensures loading == old(loading) && polling && settledOnce == old(settledOnce)
      ensures cyclesInFlight == old(cyclesInFlight) + 1 && acksInFlight == old(acksInFlight)
    {
      StartCycle();
    }

    method Unmount()
      requires Valid()
      modifies this
      ensures Valid()
      ensures !polling
      ensures systemStatus == old(systemStatus) && nodes == old(nodes) && alerts == old(alerts)
      ensures loading == old(loading) && error == old(error) && settledOnce == old(settledOnce)
      ensures cyclesInFlight == old(cyclesInFlight) && acksInFlight == old(acksInFlight)
    {
      polling := false;
    }

    /** A cycle settles: all three cells take the new data, or none changes
        and the error is stored; loading ends for good. */
    method CycleSettled(status: Response<SystemStatus>, nodesResponse: Response<seq<NodeWithLatestReading>>,
                        alertsResponse: Response<seq<Alert>>)
      requires Valid() && cyclesInFlight > 0
      modifies this
      ensures Valid()
      ensures !loading && settledOnce
      ensures !View().LoadingPane?
      ensures CycleOutcome(status, nodesResponse, alertsResponse).Success? ==>
                var payload := CycleOutcome(status, nodesResponse, alertsResponse).value;
                systemStatus == Some(payload.status) && nodes == payload.nodes && alerts == payload.alerts &&
                error == old(error)
      ensures CycleOutcome(status, nodesResponse, alertsResponse).Failure? ==>
                systemStatus == old(systemStatus) && nodes == old(nodes) && alerts == old(alerts) &&
                error == Some(CycleOutcome(status, nodesResponse, alertsResponse).error)
      ensures polling == old(polling)
      ensures cyclesInFlight == old(cyclesInFlight) - 1 && acksInFlight == old(acksInFlight)
    {
      var outcome := CycleOutcome(status, nodesResponse, alertsResponse);
      if outcome.Success? {
        systemStatus := Some(outcome.value.status);
        nodes := outcome.value.nodes;
        alerts := outcome.value.alerts;
      } else {
        error := Some(outcome.error);
      }
      loading := false;
      settledOnce := true;
      cyclesInFlight := cyclesInFlight - 1;
    }

    method Acknowledge(alertId: int)
      requires Valid()
      modifies this
      ensures Valid()
      ensures systemStatus == old(systemStatus) && nodes == old(nodes) && alerts == old(alerts)
      ensures loading == old(loading) && error == old(error) && polling == old(polling)
      ensures settledOnce == old(settledOnce) && cyclesInFlight == old(cyclesInFlight)
      ensures acksInFlight == old(acksInFlight) + multiset{alertId}
    {
      acksInFlight := acksInFlight + multiset{alertId};
    }

    /** Success starts one new cycle; failure stores the message and starts none. */
    method AckResponded(alertId: int, r: Response<()>)
      requires Valid() && alertId in acksInFlight
      modifies this
      ensures Valid()
      ensures systemStatus == old(systemStatus) && nodes == old(nodes) && alerts == old(alerts)
      ensures loading == old(loading) && polling == old(polling) && settledOnce == old(settledOnce)
      ensures acksInFlight == old(acksInFlight) - multiset{alertId}
      ensures r.Ok? ==> error == None && cyclesInFlight == old(cyclesInFlight) + 1
      ensures !r.Ok? ==> error == Some(FailureMessage(r, AckFailedMessage)) && cyclesInFlight == old(cyclesInFlight)
    {
      acksInFlight := acksInFlight - multiset{alertId};
      if r.Ok? {
        StartCycle();
      } else {
        error := Some(FailureMessage(r, AckFailedMessage));
      }
    }
  }

  /** The first cycle fails: the error pane shows, not the loading pane, and
      a later successful cycle brings the content without a loading pane in
      between. */
  method FirstCycleFailsScenario() returns (afterFailure: Screen, duringRetry: Screen, afterRetry: Screen)
    ensures afterFailure == ErrorPane(FetchFailedMessage)
    ensures duringRetry.Content? && duringRetry.kpis == Kpis(None, None, None)
    ensures afterRetry.Content? && afterRetry.kpis.activeAlerts == Some(0)
  {
    var p := new Page();
    p.CycleSettled(Ok(SystemStatus(0, 0, 0, 43)), NotOk, Ok([]));
    afterFailure := p.View();
    p.Tick();
    duringRetry := p.View();
    p.CycleSettled(Ok(SystemStatus(0, 0, 0, 43)), Ok([]), Ok([]));
    afterRetry := p.View();
  }
}

/** The Alerts page (frontend/src/pages/AlertsPage.tsx) as a state machine.
    Timers and HTTP are environment events applied one at a time: a poll
    tick, the answer to an outstanding alerts request, a click on
    Acknowledge and the answer to an outstanding acknowledge request.
    Requests carry no identity, nothing guards against overlapping cycles and
    answers still land after the page is torn down, as in the page itself. */
module AlertsPage {
  import opened Wrappers
  import opened Fetch
  import opened ApiTypes
  import opened AlertOrder
  import opened Sorting
  import UiAlertsPanel

  const FetchFailedMessage := "Failed to fetch alerts"
  const AckFailedMessage := "Failed to acknowledge alert"

  datatype Screen = LoadingLine | ErrorLine(message: string) | Panel(panel: UiAlertsPanel.Panel)

  /** The page body: the loading line while loading, else the error while it
      is truthy, else the panel listing every alert with acknowledged ones
      included. The list is never shown beside an error. */
  function Render(loading: bool, error: Option<string>, alerts: seq<Alert>): (v: Screen)
    ensures v.LoadingLine? <==> loading
    ensures v.ErrorLine? <==> !loading && Truthy(error)
    ensures v.ErrorLine? ==> v.message == error.value
    ensures v.Panel? <==> !loading && !Truthy(error)
    ensures v.Panel? ==> UiAlertsPanel.VisibleAlerts(alerts, true) == alerts &&
                         v.panel == UiAlertsPanel.Render(alerts, true)
  {
    if loading then LoadingLine
    else if Truthy(error) then ErrorLine(error.value)
    else Panel(UiAlertsPanel.Render(alerts, true))
  }

  class Page {
    var alerts: seq<Alert>
    var loading: bool
    var error: Option<string>
    /** Whether the 30 s interval is installed. */
    var polling: bool
    /** Alerts requests sent and not yet answered. */
    ghost var fetchesInFlight: nat
    /** Ids of the acknowledge requests sent and not yet answered. */
    ghost var acksInFlight: multiset<int>

    /** The stored list is always in the page's order, and `loading` is
        only set while some alerts request is outstanding. */
    ghost predicate Valid()
      reads this
    {
      IsOrdered(alerts) && (loading ==> fetchesInFlight > 0)
    }

    function View(): Screen
      reads this
    {
      Render(loading, error, alerts)
    }

    /** Mounting: the initial state, then the effect's first cycle and the interval. */
    constructor()
      ensures Valid()
      ensures alerts == [] && loading && error == None && polling
      ensures fetchesInFlight == 1 && acksInFlight == multiset{}
    {
      alerts := [];
      loading := true;
      error := None;
      polling := true;
      fetchesInFlight := 1;
      acksInFlight := multiset{};
    }

    /** The synchronous start of `fetchAlerts`: clear the error, set loading,
        send the request. */
    method StartCycle()
      requires Valid()
      modifies this
      ensures Valid()
      ensures error == None && loading
      ensures alerts == old(alerts) && polling == old(polling)
      ensures fetchesInFlight == old(fetchesInFlight) + 1 && acksInFlight == old(acksInFlight)
    {
      error := None;
      loading := true;
      fetchesInFlight := fetchesInFlight + 1;
    }

    /** The 30 000 ms interval fires: a new cycle starts whatever is still in flight. */
    method Tick()
      requires Valid() && polling
      modifies this
      ensures Valid()
      ensures error == None && loading && alerts == old(alerts) && polling
      ensures fetchesInFlight == old(fetchesInFlight) + 1 && acksInFlight == old(acksInFlight)
    {
      StartCycle();
    }

    /** The effect's cleanup clears the interval; outstanding requests stay. */
    method Unmount()
      requires Valid()
      modifies this
      ensures Valid()
      ensures !polling
      ensures alerts == old(alerts) && loading == old(loading) && error == old(error)
      ensures fetchesInFlight == old(fetchesInFlight) && acksInFlight == old(acksInFlight)
    {
      polling := false;
    }

    /** An alerts request is answered: success stores the sorted list,
        failure keeps the list and stores the message, and `finally`
        clears loading either way. */
    method FetchResponded(r: Response<seq<Alert>>)
      requires Valid() && fetchesInFlight > 0
      modifies this
      ensures Valid()
      ensures !loading
      ensures r.Ok? ==> alerts == SortAlerts(r.body) && error == old(error)
      ensures !r.Ok? ==> alerts == old(alerts) && error == Some(FailureMessage(r, FetchFailedMessage))
      ensures polling == old(polling)
      ensures fetchesInFlight == old(fetchesInFlight) - 1 && acksInFlight == old(acksInFlight)
    {
      if r.Ok? {
        SortAlertsCorrect(r.body, false, 0);
        alerts := SortAlerts(r.body);
      } else {
        error := Some(FailureMessage(r, FetchFailedMessage));
      }
      loading := false;
      fetchesInFlight := fetchesInFlight - 1;
    }

    /** A click on Acknowledge sends the POST and changes nothing visible. */
    method Acknowledge(alertId: int)
      requires Valid()
      modifies this
      ensures Valid()
      ensures alerts == old(alerts) && loading == old(loading) && error == old(error) && polling == old(polling)
      ensures fetchesInFlight == old(fetchesInFlight) && acksInFlight == old(acksInFlight) + multiset{alertId}
    {
      acksInFlight := acksInFlight + multiset{alertId};
    }

    /** An acknowledge request is answered: success starts exactly one new
        cycle and touches no alert; failure stores the message and starts
        none. */
    method AckResponded(alertId: int, r: Response<()>)
      requires Valid() && alertId in acksInFlight
      modifies this
      ensures Valid()
      ensures alerts == old(alerts) && polling == old(polling)
      ensures acksInFlight == old(acksInFlight) - multiset{alertId}
      ensures r.Ok? ==> error == None && loading && fetchesInFlight == old(fetchesInFlight) + 1
      ensures !r.Ok? ==> error == Some(FailureMessage(r, AckFailedMessage)) && loading == old(loading) &&
                         fetchesInFlight == old(fetchesInFlight)
    {
      acksInFlight := acksInFlight - multiset{alertId};
      if r.Ok? {
        StartCycle();
      } else {
        error := Some(FailureMessage(r, AckFailedMessage));
      }
    }
  }

  /** An unacknowledged alert from 10:00 and an acknowledged one from 12:00. */
  const Older := Alert(1, "N1", None, 36000, Models.Warning, None, false, None)
  const Newer := Alert(2, "N2", None, 43200, Models.Critical, None, true, None)
  /** The first alert once the server has acknowledged it. */
  const AckedOlder := Alert(1, "N1", None, 36000, Models.Warning, None, true, None)

  /** Sorting the example before and after the first alert is acknowledged. */
  lemma ReorderExampleSorts()
    ensures SortAlerts([Newer, Older]) == [Older, Newer]
    ensures SortAlerts([AckedOlder, Newer]) == [Newer, AckedOlder]
  {
    SortPair(Newer, Older, AlertKey);
    SortPair(AckedOlder, Newer, AlertKey);
  }

  /** The example is listed in the order older, newer; once the older alert
      is acknowledged and the list re-fetched, the newer one comes first. */
  method AcknowledgeReordersScenario() returns (before: seq<Alert>, after: seq<Alert>)
    ensures before == [Older, Newer]
    ensures after == [Newer, AckedOlder]
  {
    ReorderExampleSorts();
    var p := new Page();
    p.FetchResponded(Ok([Newer, Older]));
    before := p.alerts;
    p.Acknowledge(1);
    p.AckResponded(1, Ok(()));
    p.FetchResponded(Ok([AckedOlder, Newer]));
    after := p.alerts;
  }

  /** Two cycles overlap; the newer answer arrives first with data and the
      older one fails afterwards: the fresh list is stored but the page shows
      the stale failure instead of it. */
  method StaleFailureScenario() returns (stored: seq<Alert>, view: Screen)
    ensures stored == [Alert(7, "N1", None, 0, Models.Critical, None, false, None)]
    ensures view == ErrorLine(FetchFailedMessage)
  {
    var a := Alert(7, "N1", None, 0, Models.Critical, None, false, None);
    var p := new Page();
    p.Tick();
    p.FetchResponded(Ok([a]));
    p.FetchResponded(NotOk);
    stored := p.alerts;
    view := p.View();
  }
}

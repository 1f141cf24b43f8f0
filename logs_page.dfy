/** The Logs page (frontend/src/pages/LogsPage.tsx) as a state machine,
    polled every 10 s. Its body stacks independent lines: the loading line,
    the error line, the empty-state line and the entries, which are shown
    even beside an error. */
module LogsPage {
  import opened Wrappers
  import opened Fetch
  import opened ApiTypes

  const FetchFailedMessage := "Failed to fetch event logs"

  datatype Screen = Screen(loadingLine: bool, errorLine: Option<string>, emptyMessage: bool, entries: seq<EventLog>)

  /** The empty-state line shows exactly when nothing is loading, no error
      is truthy and no log is stored; the stored logs are always listed. */
  function Render(loading: bool, error: Option<string>, logs: seq<EventLog>): (v: Screen)
    ensures v.loadingLine == loading
    ensures v.errorLine.Some? <==> Truthy(error)
    ensures v.errorLine.Some? ==> v.errorLine.value == error.value
    ensures v.emptyMessage <==> !loading && !Truthy(error) && |logs| == 0
    ensures v.entries == logs
  {
    Screen(loading, if Truthy(error) then error else None, !loading && !Truthy(error) && |logs| == 0, logs)
  }

  class Page {
    var logs: seq<EventLog>
    var loading: bool
    var error: Option<string>
    var polling: bool
    ghost var fetchesInFlight: nat

    ghost predicate Valid()
      reads this
    {
      loading ==> fetchesInFlight > 0
    }

    function View(): Screen
      reads this
    {
      Render(loading, error, logs)
    }

    constructor()
      ensures Valid()
      ensures logs == [] && loading && error == None && polling && fetchesInFlight == 1
    {
      logs := [];
      loading := true;
      error := None;
      polling := true;
      fetchesInFlight := 1;
    }

    /** The 10 000 ms interval fires: a new `fetchLogs` starts. */
    method Tick()
      requires Valid() && polling
      modifies this
      ensures Valid()
      ensures error == None && loading && logs == old(logs) && polling
      ensures fetchesInFlight == old(fetchesInFlight) + 1
    {
      error := None;
      loading := true;
      fetchesInFlight := fetchesInFlight + 1;
    }

    /** The cleanup clears the interval; no further tick can start a cycle. */
    method Unmount()
      requires Valid()
      modifies this
      ensures Valid()
      ensures !polling
      ensures logs == old(logs) && loading == old(loading) && error == old(error)
      ensures fetchesInFlight == old(fetchesInFlight)
    {
      polling := false;
    }

    /** Success replaces the logs, failure keeps them and stores the message;
        `loading` ends false either way. */
    method FetchResponded(r: Response<seq<EventLog>>)
      requires Valid() && fetchesInFlight > 0
      modifies this
      ensures Valid()
      ensures !loading
      ensures r.Ok? ==> logs == r.body && error == old(error)
      ensures !r.Ok? ==> logs == old(logs) && error == Some(FailureMessage(r, FetchFailedMessage))
      ensures polling == old(polling) && fetchesInFlight == old(fetchesInFlight) - 1
    {
      if r.Ok? {
        logs := r.body;
      } else {
        error := Some(FailureMessage(r, FetchFailedMessage));
      }
      loading := false;
      fetchesInFlight := fetchesInFlight - 1;
    }
  }

  /** A failed refresh leaves the earlier entries listed under the error
      line, and an answer arriving after teardown still replaces them. */
  method FailureKeepsEntriesScenario(entry: EventLog) returns (afterFailure: Screen, afterTeardown: seq<EventLog>)
    ensures afterFailure == Screen(false, Some(FetchFailedMessage), false, [entry])
    ensures afterTeardown == []
  {
    var p := new Page();
    p.FetchResponded(Ok([entry]));
    p.Tick();
    p.FetchResponded(NotOk);
    afterFailure := p.View();
    p.Tick();
    p.Unmount();
    p.FetchResponded(Ok([]));
    afterTeardown := p.logs;
  }
}

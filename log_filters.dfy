/** The log list view (frontend/src/components/pages/LogsPage.tsx): the type
    and message-search filter, the per-level cards and clear-filters. */
module LogFilters {
  import opened Seqs
  import opened Text
  import opened Demo

  /** `matchesType && matchesSearch`. */
  predicate LogMatches(log: DemoLog, filterType: string, searchQuery: string) {
    (filterType == All || log.logType == filterType) &&
    Includes(ToLower(log.message), ToLower(searchQuery))
  }

  function Matcher(filterType: string, searchQuery: string): DemoLog -> bool {
    (l: DemoLog) => LogMatches(l, filterType, searchQuery)
  }

  /** `filteredLogs`. */
  function FilterLogs(logs: seq<DemoLog>, filterType: string, searchQuery: string): seq<DemoLog> {
    Filter(logs, Matcher(filterType, searchQuery))
  }

  /** An order-preserving subsequence keeping a log exactly when its type is
      selected (or the select is `'all'`) and the lower-cased query occurs in
      its lower-cased message; filtering again changes nothing. */
  lemma FilterLogsSpec(logs: seq<DemoLog>, filterType: string, searchQuery: string, l: DemoLog)
    ensures IsSubsequence(FilterLogs(logs, filterType, searchQuery), logs)
    ensures l in FilterLogs(logs, filterType, searchQuery) <==>
              l in logs && (filterType == All || l.logType == filterType) &&
              exists i :: OccursAt(ToLower(l.message), ToLower(searchQuery), i)
    ensures FilterLogs(FilterLogs(logs, filterType, searchQuery), filterType, searchQuery)
            == FilterLogs(logs, filterType, searchQuery)
  {
    FilterIsSubsequence(logs, Matcher(filterType, searchQuery));
    MatcherIff(filterType, searchQuery, l);
    FilterMembership(logs, Matcher(filterType, searchQuery), l);
    FilterIdempotent(logs, Matcher(filterType, searchQuery));
  }

  /** The matcher accepts a log exactly when its type is selected and the
      query occurs in its message. */
  lemma MatcherIff(filterType: string, searchQuery: string, l: DemoLog)
    ensures Matcher(filterType, searchQuery)(l) <==>
              (filterType == All || l.logType == filterType) &&
              exists i :: OccursAt(ToLower(l.message), ToLower(searchQuery), i)
  {
    IncludesIffOccurs(ToLower(l.message), ToLower(searchQuery));
    assert Matcher(filterType, searchQuery)(l) == LogMatches(l, filterType, searchQuery);
    assert LogMatches(l, filterType, searchQuery) ==
      ((filterType == All || l.logType == filterType) && Includes(ToLower(l.message), ToLower(searchQuery)));
  }

  /** `'all'` with an empty query shows every log. */
  lemma FilterLogsIdentity(logs: seq<DemoLog>)
    ensures FilterLogs(logs, All, "") == logs
  {
    forall i | 0 <= i < |logs| ensures Matcher(All, "")(logs[i]) {
      IncludesEmpty(ToLower(logs[i].message));
    }
    FilterAll(logs, Matcher(All, ""));
  }

  function HasType(logType: string): DemoLog -> bool {
    (l: DemoLog) => l.logType == logType
  }

  function CountType(logs: seq<DemoLog>, logType: string): nat {
    |Filter(logs, HasType(logType))|
  }

  /** The Info, Warnings and Errors cards add up to at most Total Events, and
      to exactly it when every type is one of the three. */
  lemma LevelCountsAddUp(logs: seq<DemoLog>)
    ensures CountType(logs, "INFO") + CountType(logs, "WARN") + CountType(logs, "ERROR") <= |logs|
    ensures (forall i :: 0 <= i < |logs| ==> logs[i].logType in {"INFO", "WARN", "ERROR"}) ==>
              CountType(logs, "INFO") + CountType(logs, "WARN") + CountType(logs, "ERROR") == |logs|
  {
    FilterThreeWay(logs, HasType("INFO"), HasType("WARN"), HasType("ERROR"));
  }

  class FilterState {
    var filterType: string
    var searchQuery: string

    function Visible(logs: seq<DemoLog>): seq<DemoLog>
      reads this
    {
      FilterLogs(logs, filterType, searchQuery)
    }

    constructor()
      ensures filterType == All && searchQuery == ""
    {
      filterType := All;
      searchQuery := "";
    }

    method SetFilterType(value: string)
      modifies this
      ensures filterType == value && searchQuery == old(searchQuery)
    {
      filterType := value;
    }

    method SetSearchQuery(value: string)
      modifies this
      ensures searchQuery == value && filterType == old(filterType)
    {
      searchQuery := value;
    }

    /** Clear Filters: `'all'` and an empty query, every log visible. */
    method ClearFilters()
      modifies this
      ensures filterType == All && searchQuery == ""
      ensures forall logs :: Visible(logs) == logs
    {
      filterType := All;
      searchQuery := "";
      forall logs ensures Visible(logs) == logs {
        FilterLogsIdentity(logs);
      }
    }
  }
}

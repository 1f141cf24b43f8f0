/** The alert list view (frontend/src/components/pages/AlertsPage.tsx): the
    severity and acknowledgement filter, the stat cards and clear-filters. */
module AlertFilters {
  import opened Seqs
  import opened Demo

  const Acknowledged := "acknowledged"
  const Unacknowledged := "unacknowledged"

  /** `matchesSeverity && matchesStatus`. */
  predicate AlertMatches(a: DemoAlert, filterSeverity: string, filterStatus: string) {
    (filterSeverity == All || a.severity == filterSeverity) &&
    (filterStatus == All ||
     (filterStatus == Acknowledged && a.acknowledged) ||
     (filterStatus == Unacknowledged && !a.acknowledged))
  }

  function Matcher(filterSeverity: string, filterStatus: string): DemoAlert -> bool {
    (a: DemoAlert) => AlertMatches(a, filterSeverity, filterStatus)
  }

  /** `filteredAlerts`. */
  function FilterAlerts(alerts: seq<DemoAlert>, filterSeverity: string, filterStatus: string): seq<DemoAlert> {
    Filter(alerts, Matcher(filterSeverity, filterStatus))
  }

  function IsAcknowledged(): DemoAlert -> bool {
    (a: DemoAlert) => a.acknowledged
  }

  function IsUnacknowledged(): DemoAlert -> bool {
    (a: DemoAlert) => !a.acknowledged
  }

  /** The result is an order-preserving subsequence that keeps exactly the
      matching alerts, and filtering it again changes nothing. */
  lemma FilterAlertsSpec(alerts: seq<DemoAlert>, filterSeverity: string, filterStatus: string, a: DemoAlert)
    ensures IsSubsequence(FilterAlerts(alerts, filterSeverity, filterStatus), alerts)
    ensures a in FilterAlerts(alerts, filterSeverity, filterStatus) <==> a in alerts && AlertMatches(a, filterSeverity, filterStatus)
    ensures FilterAlerts(FilterAlerts(alerts, filterSeverity, filterStatus), filterSeverity, filterStatus)
            == FilterAlerts(alerts, filterSeverity, filterStatus)
  {
    FilterIsSubsequence(alerts, Matcher(filterSeverity, filterStatus));
    FilterMembership(alerts, Matcher(filterSeverity, filterStatus), a);
    FilterIdempotent(alerts, Matcher(filterSeverity, filterStatus));
  }

  /** `'all'` on both selects shows every alert. */
  lemma FilterAlertsIdentity(alerts: seq<DemoAlert>)
    ensures FilterAlerts(alerts, All, All) == alerts
  {
    FilterAll(alerts, Matcher(All, All));
  }

  /** The two status choices select exactly the acknowledged and exactly the
      unacknowledged alerts, which together are the whole list; any other
      status value selects nothing. */
  lemma StatusFilterPartitions(alerts: seq<DemoAlert>, filterStatus: string)
    ensures FilterAlerts(alerts, All, Acknowledged) == Filter(alerts, IsAcknowledged())
    ensures FilterAlerts(alerts, All, Unacknowledged) == Filter(alerts, IsUnacknowledged())
    ensures |FilterAlerts(alerts, All, Acknowledged)| + |FilterAlerts(alerts, All, Unacknowledged)| == |alerts|
    ensures filterStatus !in {All, Acknowledged, Unacknowledged} ==>
              forall filterSeverity :: FilterAlerts(alerts, filterSeverity, filterStatus) == []
  {
    FilterExtensional(alerts, Matcher(All, Acknowledged), IsAcknowledged());
    FilterExtensional(alerts, Matcher(All, Unacknowledged), IsUnacknowledged());
    FilterPartition(alerts, IsAcknowledged());
    FilterExtensional(alerts, Not(IsAcknowledged()), IsUnacknowledged());
    if filterStatus !in {All, Acknowledged, Unacknowledged} {
      forall filterSeverity ensures FilterAlerts(alerts, filterSeverity, filterStatus) == [] {
        FilterNone(alerts, Matcher(filterSeverity, filterStatus));
      }
    }
  }

  /** The count on a card: `alerts.filter(p).length`. */
  function Count(alerts: seq<DemoAlert>, p: DemoAlert -> bool): nat {
    |Filter(alerts, p)|
  }

  function IsCritical(): DemoAlert -> bool {
    (a: DemoAlert) => a.severity == "Critical"
  }

  /** The Unacknowledged and Acknowledged cards add up to the Total card, and
      the Critical card is at most the total. */
  lemma StatCountsAddUp(alerts: seq<DemoAlert>)
    ensures Count(alerts, IsUnacknowledged()) + Count(alerts, IsAcknowledged()) == |alerts|
    ensures Count(alerts, IsCritical()) <= |alerts|
  {
    FilterPartition(alerts, IsAcknowledged());
    FilterExtensional(alerts, Not(IsAcknowledged()), IsUnacknowledged());
  }

  /** The view's two filter cells. */
  class FilterState {
    var filterSeverity: string
    var filterStatus: string

    function Visible(alerts: seq<DemoAlert>): seq<DemoAlert>
      reads this
    {
      FilterAlerts(alerts, filterSeverity, filterStatus)
    }

    constructor()
      ensures filterSeverity == All && filterStatus == All
    {
      filterSeverity := All;
      filterStatus := All;
    }

    method SetFilterSeverity(value: string)
      modifies this
      ensures filterSeverity == value && filterStatus == old(filterStatus)
    {
      filterSeverity := value;
    }

    method SetFilterStatus(value: string)
      modifies this
      ensures filterStatus == value && filterSeverity == old(filterSeverity)
    {
      filterStatus := value;
    }

    /** Clear Filters: both selects back on `'all'`, every alert visible. */
    method ClearFilters()
      modifies this
      ensures filterSeverity == All && filterStatus == All
      ensures forall alerts :: Visible(alerts) == alerts
    {
      filterSeverity := All;
      filterStatus := All;
      forall alerts ensures Visible(alerts) == alerts {
        FilterAlertsIdentity(alerts);
      }
    }
  }
}

/** The alert order of the Alerts page (frontend/src/pages/AlertsPage.tsx):
    unacknowledged alerts first, newest first within each group, applied by a
    stable sort with the page's comparator. */
module AlertOrder {
  import opened Seqs
  import opened Sorting
  import opened ApiTypes

  /** The comparator passed to `data.sort`: negative when `a` goes first. */
  function Compare(a: Alert, b: Alert): int {
    if a.is_acknowledged == b.is_acknowledged then b.timestamp - a.timestamp
    else if a.is_acknowledged then 1 else -1
  }

  /** The key the comparator orders by: acknowledgement, then the negated time. */
  function AlertKey(a: Alert): Key {
    Key(if a.is_acknowledged then 1 else 0, -a.timestamp)
  }

  /** The comparator is exactly the key order: negative, zero and positive
      results match smaller, equal and larger keys. */
  lemma CompareIsKeyOrder(a: Alert, b: Alert)
    ensures Compare(a, b) < 0 <==> KeyLess(AlertKey(a), AlertKey(b))
    ensures Compare(a, b) == 0 <==> AlertKey(a) == AlertKey(b)
    ensures Compare(a, b) > 0 <==> KeyLess(AlertKey(b), AlertKey(a))
  {
  }

  /** What the page stores after a successful fetch. */
  function SortAlerts(s: seq<Alert>): seq<Alert> {
    SortBy(s, AlertKey)
  }

  /** Every unacknowledged alert precedes every acknowledged one. */
  ghost predicate UnacknowledgedFirst(s: seq<Alert>) {
    forall i, j :: 0 <= i < j < |s| ==> !(s[i].is_acknowledged && !s[j].is_acknowledged)
  }

  /** Within one acknowledgement state, timestamps do not increase. */
  ghost predicate NewestFirstInGroup(s: seq<Alert>) {
    forall i, j :: 0 <= i < j < |s| && s[i].is_acknowledged == s[j].is_acknowledged ==>
      s[i].timestamp >= s[j].timestamp
  }

  ghost predicate IsOrdered(s: seq<Alert>) {
    UnacknowledgedFirst(s) && NewestFirstInGroup(s)
  }

  /** The two ordering rules are exactly "sorted by the key". */
  lemma OrderedIffSortedByKey(s: seq<Alert>)
    ensures IsOrdered(s) <==> SortedBy(s, AlertKey)
  {
    if IsOrdered(s) {
      forall i, j | 0 <= i < j < |s| ensures KeyLe(AlertKey(s[i]), AlertKey(s[j])) {
        assert !(s[i].is_acknowledged && !s[j].is_acknowledged);
      }
    }
    if SortedBy(s, AlertKey) {
      forall i, j | 0 <= i < j < |s| ensures !(s[i].is_acknowledged && !s[j].is_acknowledged) {
        assert KeyLe(AlertKey(s[i]), AlertKey(s[j]));
      }
      forall i, j | 0 <= i < j < |s| && s[i].is_acknowledged == s[j].is_acknowledged
        ensures s[i].timestamp >= s[j].timestamp
      {
        assert KeyLe(AlertKey(s[i]), AlertKey(s[j]));
      }
    }
  }

  /** The alerts that tie under the comparator with an alert of this
      acknowledgement state and timestamp. */
  function SameRank(acknowledged: bool, timestamp: int): Alert -> bool {
    (a: Alert) => a.is_acknowledged == acknowledged && a.timestamp == timestamp
  }

  /** The stored list is ordered, is a permutation of the fetched list, and
      alerts that compare equal keep the server's relative order. */
  lemma SortAlertsCorrect(s: seq<Alert>, acknowledged: bool, timestamp: int)
    ensures IsOrdered(SortAlerts(s))
    ensures multiset(SortAlerts(s)) == multiset(s)
    ensures Filter(SortAlerts(s), SameRank(acknowledged, timestamp)) == Filter(s, SameRank(acknowledged, timestamp))
  {
    SortBySorted(s, AlertKey);
    OrderedIffSortedByKey(SortAlerts(s));
    var k := Key(if acknowledged then 1 else 0, -timestamp);
    SortByStable(s, AlertKey, k);
    forall a: Alert ensures SameRank(acknowledged, timestamp)(a) == HasKey(AlertKey, k)(a) {
      assert HasKey(AlertKey, k)(a) == (AlertKey(a) == k);
      assert SameRank(acknowledged, timestamp)(a) == (a.is_acknowledged == acknowledged && a.timestamp == timestamp);
    }
    FilterExtensional(SortAlerts(s), SameRank(acknowledged, timestamp), HasKey(AlertKey, k));
    FilterExtensional(s, SameRank(acknowledged, timestamp), HasKey(AlertKey, k));
  }

  /** Sorting a list the server already ordered changes nothing. */
  lemma SortOrderedIsIdentity(s: seq<Alert>)
    requires IsOrdered(s)
    ensures SortAlerts(s) == s
  {
    OrderedIffSortedByKey(s);
    SortBySortedIsIdentity(s, AlertKey);
  }
}

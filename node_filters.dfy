/** The node list view (frontend/src/components/pages/NodesPage.tsx): the
    status, firmware and name-search filter, the firmware choices, the status
    counts and the clear-filters reset. */
module NodeFilters {
  import opened Seqs
  import opened Text
  import opened Demo

  /** `matchesStatus && matchesFirmware && matchesSearch`. */
  predicate NodeMatches(node: DemoNode, statusFilter: string, firmwareFilter: string, searchQuery: string) {
    (statusFilter == All || node.status == statusFilter) &&
    (firmwareFilter == All || node.firmware == firmwareFilter) &&
    Includes(ToLower(node.name), ToLower(searchQuery))
  }

  function Matcher(statusFilter: string, firmwareFilter: string, searchQuery: string): DemoNode -> bool {
    (n: DemoNode) => NodeMatches(n, statusFilter, firmwareFilter, searchQuery)
  }

  /** `filteredNodes`. */
  function FilterNodes(nodes: seq<DemoNode>, statusFilter: string, firmwareFilter: string, searchQuery: string): seq<DemoNode> {
    Filter(nodes, Matcher(statusFilter, firmwareFilter, searchQuery))
  }

  /** The filtered list is an order-preserving subsequence; a node is in it
      exactly when it is in the input, each select is `'all'` or equal to its
      field, and the lower-cased query occurs somewhere in the lower-cased
      name; filtering the result again changes nothing. */
  lemma FilterNodesSpec(nodes: seq<DemoNode>, statusFilter: string, firmwareFilter: string, searchQuery: string, n: DemoNode)
    ensures IsSubsequence(FilterNodes(nodes, statusFilter, firmwareFilter, searchQuery), nodes)
    ensures n in FilterNodes(nodes, statusFilter, firmwareFilter, searchQuery) <==>
              n in nodes &&
              (statusFilter == All || n.status == statusFilter) &&
              (firmwareFilter == All || n.firmware == firmwareFilter) &&
              exists i :: OccursAt(ToLower(n.name), ToLower(searchQuery), i)
    ensures FilterNodes(FilterNodes(nodes, statusFilter, firmwareFilter, searchQuery), statusFilter, firmwareFilter, searchQuery)
            == FilterNodes(nodes, statusFilter, firmwareFilter, searchQuery)
  {
    var m := Matcher(statusFilter, firmwareFilter, searchQuery);
    FilterIsSubsequence(nodes, m);
    MatcherIff(statusFilter, firmwareFilter, searchQuery, n);
    FilterMembership(nodes, m, n);
    FilterIdempotent(nodes, m);
  }

  /** The matcher accepts a node exactly when both selects admit it and the
      query occurs in its name. */
  lemma MatcherIff(statusFilter: string, firmwareFilter: string, searchQuery: string, n: DemoNode)
    ensures Matcher(statusFilter, firmwareFilter, searchQuery)(n) <==>
              (statusFilter == All || n.status == statusFilter) &&
              (firmwareFilter == All || n.firmware == firmwareFilter) &&
              exists i :: OccursAt(ToLower(n.name), ToLower(searchQuery), i)
  {
    IncludesIffOccurs(ToLower(n.name), ToLower(searchQuery));
    assert Matcher(statusFilter, firmwareFilter, searchQuery)(n) == NodeMatches(n, statusFilter, firmwareFilter, searchQuery);
    assert NodeMatches(n, statusFilter, firmwareFilter, searchQuery) ==
      ((statusFilter == All || n.status == statusFilter) &&
       (firmwareFilter == All || n.firmware == firmwareFilter) && Includes(ToLower(n.name), ToLower(searchQuery)));
  }

  /** With both selects on `'all'` and an empty query every node is shown. */
  lemma FilterNodesIdentity(nodes: seq<DemoNode>)
    ensures FilterNodes(nodes, All, All, "") == nodes
  {
    forall i | 0 <= i < |nodes| ensures Matcher(All, All, "")(nodes[i]) {
      IncludesEmpty(ToLower(nodes[i].name));
    }
    FilterAll(nodes, Matcher(All, All, ""));
  }

  /** `Array.from(new Set(values))`: the distinct values in order of first occurrence. */
  function Distinct(s: seq<string>): (r: seq<string>)
    ensures forall x :: x in r <==> x in s
    decreases |s|
  {
    if s == [] then []
    else
      var prefix := Distinct(s[..|s| - 1]);
      assert forall x :: x in s <==> x in s[..|s| - 1] || x == s[|s| - 1] by {
        assert s == s[..|s| - 1] + [s[|s| - 1]];
      }
      if s[|s| - 1] in prefix then prefix else prefix + [s[|s| - 1]]
  }

  /** The index where `x` first occurs in `s`. */
  function FirstIndex(s: seq<string>, x: string): (i: nat)
    requires x in s
    ensures i < |s| && s[i] == x
    ensures forall k :: 0 <= k < i ==> s[k] != x
  {
    if s[0] == x then 0 else 1 + FirstIndex(s[1..], x)
  }

  lemma FirstIndexOfPrefix(s: seq<string>, m: nat, x: string)
    requires m <= |s| && x in s[..m]
    ensures FirstIndex(s, x) == FirstIndex(s[..m], x)
  {
    var i, j := FirstIndex(s, x), FirstIndex(s[..m], x);
    assert s[j] == x;
  }

  /** The firmware choices hold each value once, exactly the values present,
      ordered by where each value first occurs. */
  lemma {:induction false} DistinctSpec(s: seq<string>)
    ensures NoDuplicates(Distinct(s))
    ensures forall i, j :: 0 <= i < j < |Distinct(s)| ==> FirstIndex(s, Distinct(s)[i]) < FirstIndex(s, Distinct(s)[j])
    decreases |s|
  {
    if s != [] {
      var init := s[..|s| - 1];
      var x := s[|s| - 1];
      var prefix := Distinct(init);
      DistinctSpec(init);
      var r := Distinct(s);
      forall y | y in prefix ensures FirstIndex(s, y) == FirstIndex(init, y) {
        FirstIndexOfPrefix(s, |s| - 1, y);
      }
      if x !in prefix {
        assert r == prefix + [x];
        assert x !in init;
        assert FirstIndex(s, x) == |s| - 1;
        forall i, j | 0 <= i < j < |r| ensures FirstIndex(s, r[i]) < FirstIndex(s, r[j]) {
          if j < |prefix| {
            assert r[i] == prefix[i] && r[j] == prefix[j];
          } else {
            assert r[i] == prefix[i];
          }
        }
      }
    }
  }

  /** `uniqueFirmwareVersions`. */
  function Firmwares(nodes: seq<DemoNode>): (r: seq<string>)
    ensures |r| == |nodes|
    ensures forall i :: 0 <= i < |nodes| ==> r[i] == nodes[i].firmware
  {
    if nodes == [] then [] else [nodes[0].firmware] + Firmwares(nodes[1..])
  }

  function UniqueFirmwareVersions(nodes: seq<DemoNode>): seq<string> {
    Distinct(Firmwares(nodes))
  }

  /** The firmware select lists each firmware of some node exactly once, in
      the order the nodes first use them. */
  lemma UniqueFirmwareVersionsSpec(nodes: seq<DemoNode>, fw: string)
    ensures fw in UniqueFirmwareVersions(nodes) <==> exists i :: 0 <= i < |nodes| && nodes[i].firmware == fw
    ensures NoDuplicates(UniqueFirmwareVersions(nodes))
    ensures forall i, j :: 0 <= i < j < |UniqueFirmwareVersions(nodes)| ==>
              FirstIndex(Firmwares(nodes), UniqueFirmwareVersions(nodes)[i]) <
              FirstIndex(Firmwares(nodes), UniqueFirmwareVersions(nodes)[j])
  {
    DistinctSpec(Firmwares(nodes));
    if fw in Firmwares(nodes) {
      var k :| 0 <= k < |nodes| && Firmwares(nodes)[k] == fw;
      assert nodes[k].firmware == fw;
    }
  }

  function HasStatus(status: string): DemoNode -> bool {
    (n: DemoNode) => n.status == status
  }

  /** The count on a status card. */
  function CountStatus(nodes: seq<DemoNode>, status: string): nat {
    |Filter(nodes, HasStatus(status))|
  }

  /** The Online, Maintenance and Offline cards add up to at most the Total
      card, and to exactly it when every status is one of the three. */
  lemma StatusCountsAddUp(nodes: seq<DemoNode>)
    ensures CountStatus(nodes, "Online") + CountStatus(nodes, "Maintenance") + CountStatus(nodes, "Offline") <= |nodes|
    ensures (forall i :: 0 <= i < |nodes| ==> nodes[i].status in {"Online", "Maintenance", "Offline"}) ==>
              CountStatus(nodes, "Online") + CountStatus(nodes, "Maintenance") + CountStatus(nodes, "Offline") == |nodes|
  {
    FilterThreeWay(nodes, HasStatus("Online"), HasStatus("Maintenance"), HasStatus("Offline"));
  }

  /** The view's three filter cells. */
  class FilterState {
    var statusFilter: string
    var firmwareFilter: string
    var searchQuery: string

    function Visible(nodes: seq<DemoNode>): seq<DemoNode>
      reads this
    {
      FilterNodes(nodes, statusFilter, firmwareFilter, searchQuery)
    }

    constructor()
      ensures statusFilter == All && firmwareFilter == All && searchQuery == ""
    {
      statusFilter := All;
      firmwareFilter := All;
      searchQuery := "";
    }

    method SetStatusFilter(value: string)
      modifies this
      ensures statusFilter == value && firmwareFilter == old(firmwareFilter) && searchQuery == old(searchQuery)
    {
      statusFilter := value;
    }

    method SetFirmwareFilter(value: string)
      modifies this
      ensures firmwareFilter == value && statusFilter == old(statusFilter) && searchQuery == old(searchQuery)
    {
      firmwareFilter := value;
    }

    method SetSearchQuery(value: string)
      modifies this
      ensures searchQuery == value && statusFilter == old(statusFilter) && firmwareFilter == old(firmwareFilter)
    {
      searchQuery := value;
    }

    /** Clear Filters: every node is visible again. */
    method ClearFilters()
      modifies this
      ensures statusFilter == All && firmwareFilter == All && searchQuery == ""
      ensures forall nodes :: Visible(nodes) == nodes
    {
      statusFilter := All;
      firmwareFilter := All;
      searchQuery := "";
      forall nodes ensures Visible(nodes) == nodes {
        FilterNodesIdentity(nodes);
      }
    }
  }
}

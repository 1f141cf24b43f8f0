/** What the frontend receives from the backend: the alert list decoded
    into the frontend's `Alert` type, and how the pages' own processing
    relates to what the server already did. */
module Wire {
  import opened Wrappers
  import opened Seqs
  import Models
  import Sorting
  import ApiTypes
  import Backend
  import AlertOrder
  import UiAlertsPanel
  import DashboardPage

  /** The JSON of an `AlertSchema` carries no `reading_id` and no node name,
      so both optional fields arrive absent. */
  function DecodeAlert(a: Backend.AlertSchema): (r: ApiTypes.Alert)
    ensures r.reading_id.None? && r.node_name.None?
    ensures r.alert_id == a.alert_id && r.timestamp == a.timestamp && r.is_acknowledged == a.is_acknowledged
    ensures r.node_id == a.node_id && r.severity == a.severity && r.verification_image_url == a.verification_image_url
  {
    ApiTypes.Alert(a.alert_id, a.node_id, None, a.timestamp, a.severity, a.verification_image_url,
                   a.is_acknowledged, None)
  }

  function DecodeAlerts(s: seq<Backend.AlertSchema>): (r: seq<ApiTypes.Alert>)
    ensures |r| == |s|
    ensures forall i :: 0 <= i < |s| ==> r[i] == DecodeAlert(s[i])
  {
    if s == [] then [] else [DecodeAlert(s[0])] + DecodeAlerts(s[1..])
  }

  /** The list `GET /api/v1/alerts` delivers, as the frontend sees it. */
  function ServedAlerts(alerts: seq<Models.Alert>): seq<ApiTypes.Alert> {
    DecodeAlerts(Backend.GetAlerts(alerts))
  }

  /** The server already sends alerts in the order the Alerts page sorts
      them into, so the page's sort leaves the served list as it is. */
  lemma FrontendSortKeepsServerOrder(alerts: seq<Models.Alert>)
    ensures AlertOrder.IsOrdered(ServedAlerts(alerts))
    ensures AlertOrder.SortAlerts(ServedAlerts(alerts)) == ServedAlerts(alerts)
  {
    Backend.GetAlertsSpec(alerts);
    AlertOrder.SortOrderedIsIdentity(ServedAlerts(alerts));
  }

  lemma {:induction false} UnacknowledgedCountDecoded(s: seq<Models.Alert>)
    ensures |Filter(DecodeAlerts(Backend.ToAlertSchemas(s)), UiAlertsPanel.Unacknowledged)| ==
            |Filter(s, Backend.IsUnacknowledged())|
  {
    if s != [] {
      UnacknowledgedCountDecoded(s[1..]);
      assert Backend.ToAlertSchemas(s)[1..] == Backend.ToAlertSchemas(s[1..]);
      assert DecodeAlerts(Backend.ToAlertSchemas(s))[1..] == DecodeAlerts(Backend.ToAlertSchemas(s[1..]));
    }
  }

  /** The dashboard's "Active Alerts" figure, taken from the status
      endpoint, equals the number of alerts its panel lists, taken from the
      alerts endpoint, when both answer from the same tables. */
  lemma DashboardKpiMatchesPanel(nodes: seq<Models.Node>, alerts: seq<Models.Alert>)
    ensures |DashboardPage.ActiveAlerts(ServedAlerts(alerts))| == Backend.GetSystemStatus(nodes, alerts).active_alerts
  {
    var sorted := Sorting.SortBy(alerts, Backend.AlertRowKey);
    UnacknowledgedCountDecoded(sorted);
    FilterCountPermutation(sorted, alerts, Backend.IsUnacknowledged());
  }
}

/** The alert list component (frontend/src/ui/AlertsPanel.tsx): which alerts
    are listed and which of them offer the Acknowledge action. */
module UiAlertsPanel {
  import opened Seqs
  import opened ApiTypes

  /** The value `showAcknowledged` takes when the caller omits it. */
  const DefaultShowAcknowledged := false

  predicate Unacknowledged(a: Alert) {
    !a.is_acknowledged
  }

  /** `filteredAlerts`. */
  function VisibleAlerts(alerts: seq<Alert>, showAcknowledged: bool): seq<Alert> {
    if showAcknowledged then alerts else Filter(alerts, Unacknowledged)
  }

  /** With the flag off exactly the unacknowledged alerts are listed, in
      their input order; with the flag on the list is shown as given. */
  lemma VisibleAlertsSpec(alerts: seq<Alert>, showAcknowledged: bool, a: Alert)
    ensures showAcknowledged ==> VisibleAlerts(alerts, showAcknowledged) == alerts
    ensures !showAcknowledged ==> IsSubsequence(VisibleAlerts(alerts, showAcknowledged), alerts)
    ensures !showAcknowledged ==>
              (a in VisibleAlerts(alerts, showAcknowledged) <==> a in alerts && !a.is_acknowledged)
    ensures (forall i :: 0 <= i < |alerts| ==> !alerts[i].is_acknowledged) ==>
              VisibleAlerts(alerts, showAcknowledged) == alerts
  {
    FilterIsSubsequence(alerts, Unacknowledged);
    FilterMembership(alerts, Unacknowledged, a);
    if forall i :: 0 <= i < |alerts| ==> !alerts[i].is_acknowledged {
      FilterAll(alerts, Unacknowledged);
    }
  }

  /** One rendered alert: the Acknowledge button or the "Acknowledged" badge. */
  datatype AlertItem = AlertItem(alert: Alert, offersAcknowledge: bool, showsAcknowledgedBadge: bool)

  datatype Panel = EmptyMessage(text: string) | Items(items: seq<AlertItem>)

  function EmptyText(showAcknowledged: bool): string {
    if showAcknowledged then "No alerts found." else "No active alerts."
  }

  function RenderItems(s: seq<Alert>): (items: seq<AlertItem>)
    ensures |items| == |s|
    ensures forall i :: 0 <= i < |s| ==> items[i].alert == s[i]
    ensures forall i :: 0 <= i < |s| ==>
              (items[i].offersAcknowledge <==> !s[i].is_acknowledged) &&
              (items[i].showsAcknowledgedBadge <==> s[i].is_acknowledged)
  {
    if s == [] then []
    else [AlertItem(s[0], !s[0].is_acknowledged, s[0].is_acknowledged)] + RenderItems(s[1..])
  }

  /** The panel lists the visible alerts, each offering Acknowledge exactly
      when it is unacknowledged; with nothing visible it shows a message that
      depends on the flag alone. */
  function Render(alerts: seq<Alert>, showAcknowledged: bool): (p: Panel)
    ensures p.EmptyMessage? <==> |VisibleAlerts(alerts, showAcknowledged)| == 0
    ensures p.EmptyMessage? ==> p.text == EmptyText(showAcknowledged)
    ensures p.Items? ==> |p.items| == |VisibleAlerts(alerts, showAcknowledged)|
    ensures p.Items? ==> forall i :: 0 <= i < |p.items| ==>
              p.items[i].alert == VisibleAlerts(alerts, showAcknowledged)[i] &&
              (p.items[i].offersAcknowledge <==> !p.items[i].alert.is_acknowledged)
  {
    var visible := VisibleAlerts(alerts, showAcknowledged);
    if |visible| == 0 then EmptyMessage(EmptyText(showAcknowledged)) else Items(RenderItems(visible))
  }

  /** Without the flag, no listed alert is acknowledged, so every item offers
      Acknowledge; two empty panels with the same flag show the same text. */
  lemma DefaultPanelOffersAcknowledgeEverywhere(alerts: seq<Alert>, other: seq<Alert>, showAcknowledged: bool)
    ensures Render(alerts, DefaultShowAcknowledged).Items? ==>
              forall i :: 0 <= i < |Render(alerts, DefaultShowAcknowledged).items| ==>
                Render(alerts, DefaultShowAcknowledged).items[i].offersAcknowledge
    ensures Render(alerts, showAcknowledged).EmptyMessage? && Render(other, showAcknowledged).EmptyMessage? ==>
              Render(alerts, showAcknowledged) == Render(other, showAcknowledged)
  {
  }
}

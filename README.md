# Flood alert dashboard — a Dafny model

FloodAlertDashboard is a monitoring dashboard for a network of water-level
sensor nodes. A Python backend (FastAPI over SQLAlchemy) keeps four tables:
nodes, sensor readings, alerts and event logs. It serves the system status, the
node list with each node's latest reading, a node's detail with its recent
readings, the newest event logs and the ordered alert list. It also
acknowledges alerts. A React frontend polls these endpoints from four pages
(Dashboard, Nodes, Alerts, Logs). A second, demo shell (`App.tsx` and the views under
`components/`) works on built-in demo records. It has filters, stat cards, a
paginated device table and a hoverable sparkline.

This project models:

- **Backend handlers** (module `Backend`). They are operations on tables held
  as sequences in storage order. Reads are functions. `get_all_nodes` is a
  method with a loop. Seeding and acknowledging are methods of the class
  `Backend.Database`, which changes the tables in place. Every table keeps
  its primary keys unique.
- **Database schema and wire types** (`Models`, `ApiTypes`). These are the
  enumerations, column defaults and primary keys, and the TypeScript
  interfaces. `ApiTypes.EnumValuesAgree` proves that both sides spell every
  enumeration member the same way.
- **The four polling pages** (`AlertsPage`, `DashboardPage`, `NodesPage`,
  `LogsPage`). Each is a class with one method per environment event, applied
  one at a time:
  - mounting;
  - a poll tick;
  - unmounting;
  - the answer to an outstanding request (`Fetch.Response`: ok with a
    body, a non-ok status, or a rejected promise);
  - the Acknowledge and node-select clicks.
  Ghost counters record the requests in flight. The contracts state the whole
  new state of each transition.
- **Alert ordering** (`AlertOrder`, `Sorting`). The Alerts page's comparator
  is a key order, and JavaScript's stable `sort` is a stable insertion sort.
  The sorted list is ordered and is a permutation of the input. Alerts that
  compare equal keep their order. The backend's `ORDER BY` gives the same
  order, so the page's sort leaves the served list unchanged (`Wire`).
- **View derivations** (`NodeFilters`, `AlertFilters`, `LogFilters`,
  `DeviceTable`, `App`, `UiAlertsPanel`, `UiNodeDetailDrawer`). These are
  filters built from an AND of predicates with an `'all'` sentinel, a
  case-insensitive substring search, stat counts, firmware de-duplication,
  `Math.ceil` and `Array.prototype.slice` pagination with the page-button
  clamps, and the demo shell's local acknowledge map.
- **Sparkline projections** (`UiSparkline`, `HoverSparkline`). They are over
  `real`, and the hover index is clamped to the series. `UiSparkline` keeps
  its file's guards as written. `HoverSparkline`'s projection divides its x
  coordinate by the guarded divisor of the finding below, so it is the
  corrected component. `HoverSparkline.ProjectMatchesSource` proves that this
  projection equals the source's formulas for two or more values.

Timestamps are integer instants (ISO strings and `DateTime` columns both map to
them). Floating-point values are `real`. Strings are `seq<char>`.

The model follows what the code does, including these behaviours a reader
might expect the code to avoid but it does not:

- The pages do not skip a poll while a request is in flight.
- Answers that arrive after unmounting are still applied.
- The Nodes page shows whichever detail answer arrives last
  (`NodesPage.LastDetailWinsScenario`).
- A failed, older alerts answer can hide a newer list
  (`AlertsPage.StaleFailureScenario`).
- The Dashboard's `loading` is only set by mounting: no later cycle shows the
  loading pane again (`DashboardPage.FirstCycleFailsScenario`).
- `GET /api/v1/nodes` omits `created_at`. `NodeWithLatestReading` derives from
  `NodeBase`, even though the frontend type expects the field.
- `AlertSchema` omits `reading_id`, so the frontend's optional field is always
  absent (`Wire.DecodeAlert`).

## Model

| member | source | states |
|---|---|---|
| Models.ParseNodeStatus | backend/models.py:10-13 | A stored status string reads back as exactly the member that stores it. Any other string is rejected. |
| Models.ParseLogLevel | backend/models.py:15-18 | A stored level reads back as exactly INFO, WARN or ERROR. Any other string is rejected. |
| Models.ParseAlertSeverity | backend/models.py:20-23 | A stored severity reads back as exactly INFO, Warning or Critical. Any other string is rejected. |
| Models.NewNode | backend/models.py:26-35 | A node inserted without a status is Offline, and a given status is stored. Every other field is stored as given. |
| Models.NewAlert | backend/models.py:53-62 | An alert inserted without severity is a Warning, and without an acknowledgement flag it is unacknowledged. Given values win, and every other field is stored as given. |
| ApiTypes.EnumValuesAgree | frontend/src/types/api.ts:1-17 | The frontend enum strings equal the backend ones. Each value the backend sends decodes to the member it encodes. |
| Fetch.FailureMessage | frontend/src/pages/AlertsPage.tsx:29-30 | A non-ok answer stores the handler's own message. A rejected request stores the rejection's message. |
| Text.ToLower | frontend/src/components/pages/NodesPage.tsx:20 | Lower-casing keeps the length, maps each ASCII capital to lower case and keeps every other character. |
| Text.IncludesIffOccurs | frontend/src/components/pages/LogsPage.tsx:16 | `includes` holds exactly when some window of the haystack equals the needle. |
| Text.IncludesEmpty | frontend/src/components/pages/NodesPage.tsx:20 | Every string includes the empty query. |
| Sorting.SortBySorted | frontend/src/pages/AlertsPage.tsx:21 | The stable sort's output is ordered by the key. |
| Sorting.SortByStable | frontend/src/pages/AlertsPage.tsx:21-26 | For every key, the elements with that key keep their input order. |
| Sorting.SortBySortedIsIdentity | frontend/src/pages/AlertsPage.tsx:21-26 | Sorting an already ordered sequence returns it unchanged. |
| Sorting.TakeSortedIsSmallest | backend/main.py:349-353 | `ORDER BY … LIMIT n` keeps an ordered sub-multiset. No element left out has a smaller key than one kept. |
| AlertOrder.CompareIsKeyOrder | frontend/src/pages/AlertsPage.tsx:21-26 | The comparator is negative, zero or positive exactly when the first alert's key is smaller than, equal to or larger than the second's. |
| AlertOrder.OrderedIffSortedByKey | frontend/src/pages/AlertsPage.tsx:22-25 | "Unacknowledged first, newest first within a group" is exactly "sorted by the key", in both directions. |
| AlertOrder.SortAlertsCorrect | frontend/src/pages/AlertsPage.tsx:21-28 | About `AlertOrder.SortAlerts`: the stored list is ordered and is a permutation of the fetched list. Alerts that tie keep server order. |
| AlertOrder.SortOrderedIsIdentity | frontend/src/pages/AlertsPage.tsx:21-26 | A list already in that order is stored unchanged. |
| AlertsPage.Render | frontend/src/pages/AlertsPage.tsx:58-68 | The loading line shows while loading, else a truthy error, else the panel. The panel lists every alert, acknowledged ones included. The list never shows beside an error. |
| AlertsPage.Page.constructor | frontend/src/pages/AlertsPage.tsx:8-10 | Mounting gives an empty list, loading, no error, a polling interval and one request in flight. |
| AlertsPage.Page.StartCycle | frontend/src/pages/AlertsPage.tsx:14-16 | A cycle clears the error, sets loading and sends one request. The list is unchanged. |
| AlertsPage.Page.Tick | frontend/src/pages/AlertsPage.tsx:38 | Every 30 s tick starts a cycle, whatever is still in flight. |
| AlertsPage.Page.Unmount | frontend/src/pages/AlertsPage.tsx:39 | Teardown stops polling and changes nothing else. Outstanding requests remain. |
| AlertsPage.Page.FetchResponded | frontend/src/pages/AlertsPage.tsx:17-33 | Success stores the sorted list. Failure keeps the list and stores the message. Loading ends false either way, and the list stays ordered. |
| AlertsPage.Page.Acknowledge | frontend/src/pages/AlertsPage.tsx:42-46 | A click sends one POST and changes no visible state. |
| AlertsPage.Page.AckResponded | frontend/src/pages/AlertsPage.tsx:47-52 | Success starts exactly one re-fetch and changes no alert. Failure stores the message and starts none. |
| AlertsPage.ReorderExampleSorts | frontend/src/pages/AlertsPage.tsx:21-26 | An older unacknowledged alert precedes a newer acknowledged one. Once acknowledged, it moves behind. |
| AlertsPage.AcknowledgeReordersScenario | frontend/src/pages/AlertsPage.tsx:42-53 | Acknowledging and re-fetching moves the acknowledged alert behind the others. |
| AlertsPage.StaleFailureScenario | frontend/src/pages/AlertsPage.tsx:36-40 | Overlapping cycles: a late failure hides a fresher list that was already stored. |
| DashboardPage.ActiveAlertsSpec | frontend/src/pages/DashboardPage.tsx:36 | About `DashboardPage.ActiveAlerts`: the stored alerts are exactly the unacknowledged fetched ones, as an order-preserving subsequence, and the panel lists them all. |
| DashboardPage.CycleOutcome | frontend/src/pages/DashboardPage.tsx:20-36 | A cycle yields data exactly when all three answers are ok. A rejection carries its message, and any non-ok status gives the page's message. |
| DashboardPage.KpisOf | frontend/src/pages/DashboardPage.tsx:75-86 | The three cards show the status fields, or `'...'` without a status. |
| DashboardPage.Render | frontend/src/pages/DashboardPage.tsx:64-103 | The loading pane shows exactly while loading with no status, then the error pane while the error is truthy, else the cards, the node table and the panel with its default filter. |
| DashboardPage.Page.constructor | frontend/src/pages/DashboardPage.tsx:10-14 | Mounting gives no status, empty lists, loading, no error and one cycle in flight. |
| DashboardPage.Page.StartCycle | frontend/src/pages/DashboardPage.tsx:18 | A cycle clears only the error. Loading is not set again. |
| DashboardPage.Page.Tick | frontend/src/pages/DashboardPage.tsx:45-49 | Every 30 s tick starts a cycle. |
| DashboardPage.Page.Unmount | frontend/src/pages/DashboardPage.tsx:48 | Teardown stops polling and changes nothing else. |
| DashboardPage.Page.CycleSettled | frontend/src/pages/DashboardPage.tsx:26-42 | Status, nodes and alerts are all replaced, or none is and the error is stored. Loading ends for good, and stored alerts stay unacknowledged. |
| DashboardPage.Page.Acknowledge | frontend/src/pages/DashboardPage.tsx:51-55 | A click sends one POST and changes no visible state. |
| DashboardPage.Page.AckResponded | frontend/src/pages/DashboardPage.tsx:56-61 | Success starts one new cycle. Failure stores the message and starts none. |
| DashboardPage.FirstCycleFailsScenario | frontend/src/pages/DashboardPage.tsx:64-70 | A failed first cycle shows the error pane. A retry shows content with `'...'` cards, not the loading pane. |
| NodesPage.DetailFailedMessage | frontend/src/pages/NodesPage.tsx:47 | The detail error message is the fixed prefix followed by the requested id. |
| NodesPage.Render | frontend/src/pages/NodesPage.tsx:61-83 | The table section shows loading, else a truthy error, else the table with the selected id marked. The drawer is rendered from the selection and its own flag. |
| NodesPage.Page.constructor | frontend/src/pages/NodesPage.tsx:9-13 | Mounting gives no nodes, no selection, a loading list, no detail load and no error. |
| NodesPage.Page.StartCycle | frontend/src/pages/NodesPage.tsx:17-19 | A list cycle clears the error, sets the list flag and sends one request. |
| NodesPage.Page.Tick | frontend/src/pages/NodesPage.tsx:32 | Every 30 s tick starts a list cycle. |
| NodesPage.Page.Unmount | frontend/src/pages/NodesPage.tsx:33 | Teardown stops polling and changes nothing else. |
| NodesPage.Page.FetchResponded | frontend/src/pages/NodesPage.tsx:20-27 | Success replaces the nodes. Failure keeps them and stores the message. The list flag ends false. |
| NodesPage.Page.SelectNode | frontend/src/pages/NodesPage.tsx:36-46 | Clicking the loaded node's id clears the selection and sends nothing. Any other click clears the error and the selection, sets the detail flag and sends one request. |
| NodesPage.Page.DetailResponded | frontend/src/pages/NodesPage.tsx:47-54 | Success selects the fetched detail, whatever was clicked since. Failure stores the message naming the id. The detail flag ends false. |
| NodesPage.Page.CloseDrawer | frontend/src/pages/NodesPage.tsx:57-59 | Closing clears the selection only. |
| NodesPage.LastDetailWinsScenario | frontend/src/pages/NodesPage.tsx:36-55 | Clicks on A then B, answers B then A: the drawer shows A. |
| NodesPage.ReselectWhileLoadingScenario | frontend/src/pages/NodesPage.tsx:37-45 | Re-clicking a node whose detail is pending sends a second request, and its late answer reopens a drawer that was closed. |
| NodesPage.DetailFailureHidesTableScenario | frontend/src/pages/NodesPage.tsx:65-69 | A failed detail request leaves the drawer hidden and replaces the table with the error. |
| LogsPage.Render | frontend/src/pages/LogsPage.tsx:37-43 | The empty-state line shows exactly when not loading, with no truthy error and no logs. Stored logs are always listed, even beside an error. |
| LogsPage.Page.constructor | frontend/src/pages/LogsPage.tsx:8-10 | Mounting gives no logs, loading, no error and one request in flight. |
| LogsPage.Page.Tick | frontend/src/pages/LogsPage.tsx:29 | Every 10 s tick clears the error, sets loading and sends one request. |
| LogsPage.Page.Unmount | frontend/src/pages/LogsPage.tsx:30 | Teardown clears the interval and changes nothing else. |
| LogsPage.Page.FetchResponded | frontend/src/pages/LogsPage.tsx:18-25 | Success replaces the logs. Failure keeps them and stores the message. Loading ends false. |
| LogsPage.FailureKeepsEntriesScenario | frontend/src/pages/LogsPage.tsx:38-43 | A failed refresh lists the earlier entries under the error line. An answer after teardown still replaces them. |
| NodeFilters.FilterNodesSpec | frontend/src/components/pages/NodesPage.tsx:17-22 | About `NodeFilters.FilterNodes`: the result is an order-preserving subsequence. A node is kept iff each select is `'all'` or matches and the lower-cased query occurs in the lower-cased name. Filtering is idempotent. |
| NodeFilters.MatcherIff | frontend/src/components/pages/NodesPage.tsx:17-22 | A node matches iff each select is `'all'` or equals its field and the lower-cased query occurs in the lower-cased name. |
| NodeFilters.FilterNodesIdentity | frontend/src/components/pages/NodesPage.tsx:18-20 | `'all'`, `'all'` and an empty query keep every node. |
| NodeFilters.Distinct | frontend/src/components/pages/NodesPage.tsx:33 | De-duplication keeps exactly the values present. |
| NodeFilters.DistinctSpec | frontend/src/components/pages/NodesPage.tsx:33 | The de-duplicated values have no duplicates and follow first-occurrence order. |
| NodeFilters.UniqueFirmwareVersionsSpec | frontend/src/components/pages/NodesPage.tsx:33 | About `NodeFilters.UniqueFirmwareVersions`: the firmware choices are each node's firmware once, in first-use order. |
| NodeFilters.StatusCountsAddUp | frontend/src/components/pages/NodesPage.tsx:139-142 | The Online, Maintenance and Offline counts add up to at most the total, and to exactly the total when every status is one of the three. |
| NodeFilters.FilterState.constructor | frontend/src/components/pages/NodesPage.tsx:13-15 | The filters start at `'all'`, `'all'` and `''`. |
| NodeFilters.FilterState.SetStatusFilter | frontend/src/components/pages/NodesPage.tsx:98 | Sets the status filter. The other filters are unchanged. |
| NodeFilters.FilterState.SetFirmwareFilter | frontend/src/components/pages/NodesPage.tsx:109 | Sets the firmware filter. The other filters are unchanged. |
| NodeFilters.FilterState.SetSearchQuery | frontend/src/components/pages/NodesPage.tsx:87 | Sets the query. The other filters are unchanged. |
| NodeFilters.FilterState.ClearFilters | frontend/src/components/pages/NodesPage.tsx:120-124 | Clearing restores the identity filter: every node is visible. |
| AlertFilters.FilterAlertsSpec | frontend/src/components/pages/AlertsPage.tsx:17-23 | About `AlertFilters.FilterAlerts`: the result is an order-preserving subsequence. It keeps exactly the matching alerts and is idempotent. |
| AlertFilters.FilterAlertsIdentity | frontend/src/components/pages/AlertsPage.tsx:18-19 | `'all'`/`'all'` keeps every alert. |
| AlertFilters.StatusFilterPartitions | frontend/src/components/pages/AlertsPage.tsx:19-21 | `'acknowledged'` and `'unacknowledged'` select exactly the two groups, which together are the list. Any other status selects nothing. |
| AlertFilters.StatCountsAddUp | frontend/src/components/pages/AlertsPage.tsx:78-81 | The Unacknowledged and Acknowledged cards sum to Total. Critical is at most Total. |
| AlertFilters.FilterState.constructor | frontend/src/components/pages/AlertsPage.tsx:14-15 | Both filters start at `'all'`. |
| AlertFilters.FilterState.SetFilterSeverity | frontend/src/components/pages/AlertsPage.tsx:104 | Sets the severity filter. The status filter is unchanged. |
| AlertFilters.FilterState.SetFilterStatus | frontend/src/components/pages/AlertsPage.tsx:114 | Sets the status filter. The severity filter is unchanged. |
| AlertFilters.FilterState.ClearFilters | frontend/src/components/pages/AlertsPage.tsx:124-127 | Both filters return to `'all'`, and every alert is visible. |
| LogFilters.FilterLogsSpec | frontend/src/components/pages/LogsPage.tsx:14-18 | About `LogFilters.FilterLogs`: the result is an order-preserving subsequence. A log is kept iff its type is selected or the filter is `'all'`, and the lower-cased query occurs in the lower-cased message. Filtering is idempotent. |
| LogFilters.MatcherIff | frontend/src/components/pages/LogsPage.tsx:14-18 | A log matches iff its type is selected or the select is `'all'`, and the lower-cased query occurs in the lower-cased message. |
| LogFilters.FilterLogsIdentity | frontend/src/components/pages/LogsPage.tsx:15-16 | `'all'` with an empty query keeps every log. |
| LogFilters.LevelCountsAddUp | frontend/src/components/pages/LogsPage.tsx:58-61 | The Info, Warnings and Errors cards sum to at most Total Events, and to exactly it when every type is one of the three. |
| LogFilters.FilterState.constructor | frontend/src/components/pages/LogsPage.tsx:11-12 | The filter starts at `'all'` and the query at `''`. |
| LogFilters.FilterState.SetFilterType | frontend/src/components/pages/LogsPage.tsx:98 | Sets the type filter. The query is unchanged. |
| LogFilters.FilterState.SetSearchQuery | frontend/src/components/pages/LogsPage.tsx:89 | Sets the query. The type filter is unchanged. |
| LogFilters.FilterState.ClearFilters | frontend/src/components/pages/LogsPage.tsx:109-112 | The filters return to `'all'` and `''`, and every log is visible. |
| DeviceTable.TotalPages | frontend/src/components/DeviceTable.tsx:30 | The page count is the ceiling of count / 10: the least number of 10-row pages covering the count, and zero exactly for no rows. |
| DeviceTable.SliceIndex | frontend/src/components/DeviceTable.tsx:32 | `slice` counts a negative index from the end and clamps it to [0, length]. |
| DeviceTable.PageWindow | frontend/src/components/DeviceTable.tsx:31-32 | A page holds at most 10 rows, exactly `filtered[startIndex .. startIndex+10)` when that start is in range. It is empty past the end and on page 0. |
| DeviceTable.PagesPrefix | frontend/src/components/DeviceTable.tsx:31-32 | Pages 1 to k together are the first 10·k rows. |
| DeviceTable.PagesCoverList | frontend/src/components/DeviceTable.tsx:30-32 | Pages 1 to `totalPages` together reproduce the filtered list. |
| DeviceTable.Label | frontend/src/components/DeviceTable.tsx:123 | The range label ends at min(startIndex + 10, count). |
| DeviceTable.LabelMatchesPage | frontend/src/components/DeviceTable.tsx:123 | On an in-range page, the label's end is startIndex plus the rows shown. |
| DeviceTable.PrevPage | frontend/src/components/DeviceTable.tsx:127 | Prev never goes below 1, and from page 2 up it moves back one page. |
| DeviceTable.NextPage | frontend/src/components/DeviceTable.tsx:143 | Next never goes above `totalPages`, and below it Next moves forward one page. |
| DeviceTable.Table.constructor | frontend/src/components/DeviceTable.tsx:22-23 | The table starts on page 1 with `'all'`. |
| DeviceTable.Table.SetStatusFilter | frontend/src/components/DeviceTable.tsx:52 | Changing the filter keeps the current page. |
| DeviceTable.Table.Prev | frontend/src/components/DeviceTable.tsx:127-128 | The enabled Prev button clamps as `PrevPage`. |
| DeviceTable.Table.Next | frontend/src/components/DeviceTable.tsx:143-144 | The enabled Next button clamps as `NextPage`. |
| DeviceTable.EmptyListNextScenario | frontend/src/components/DeviceTable.tsx:143-145 | With no rows, Next is enabled on page 1 and moves to page 0, labelled "-9 - 0 of 0". |
| App.AcknowledgeById | frontend/src/App.tsx:81-83 | The local acknowledge keeps the length. |
| App.AcknowledgeByIdPointwise | frontend/src/App.tsx:82 | Only the alerts with the id change, and they become acknowledged. Order and ids are kept. |
| App.AcknowledgeByIdIdempotent | frontend/src/App.tsx:81-83 | Acknowledging twice is acknowledging once. |
| App.OnlineNodes | frontend/src/App.tsx:86 | `onlineNodes` is at most the number of nodes. |
| App.AcknowledgeNeverRaisesActive | frontend/src/App.tsx:80-87 | An acknowledge lowers `activeAlerts` by the number of active alerts carrying the id. |
| App.Shell.constructor | frontend/src/App.tsx:21-22 | No node is selected and the drawer is closed. |
| App.Shell.HandleAcknowledge | frontend/src/App.tsx:80-84 | The alerts become the acknowledged map, and the active count does not rise. |
| App.Shell.HandleNodeClick | frontend/src/App.tsx:75-78 | A click selects the node and opens the drawer. |
| App.Shell.CloseDrawer | frontend/src/App.tsx:235 | Closing only sets the open flag false. The node stays selected. |
| UiAlertsPanel.VisibleAlertsSpec | frontend/src/ui/AlertsPanel.tsx:14 | About `UiAlertsPanel.VisibleAlerts`: with the flag off, exactly the unacknowledged alerts are listed in input order. With it on, the list is shown as given. |
| UiAlertsPanel.RenderItems | frontend/src/ui/AlertsPanel.tsx:39-51 | Each item offers Acknowledge exactly when its alert is unacknowledged, and otherwise shows the badge. |
| UiAlertsPanel.Render | frontend/src/ui/AlertsPanel.tsx:18-21 | The empty message shows exactly when nothing is visible, with text chosen by the flag. Otherwise the visible alerts are listed. |
| UiAlertsPanel.DefaultPanelOffersAcknowledgeEverywhere | frontend/src/ui/AlertsPanel.tsx:9 | With the default flag every listed item offers Acknowledge. Empty panels with the same flag are equal. |
| UiNodeDetailDrawer.WaterLevels | frontend/src/ui/NodeDetailDrawer.tsx:34 | The levels are the readings' water levels, one per reading. |
| UiNodeDetailDrawer.ChartSeriesIsOldestFirst | frontend/src/ui/NodeDetailDrawer.tsx:34 | The chart series is the reversed levels, with the same length. |
| UiNodeDetailDrawer.Render | frontend/src/ui/NodeDetailDrawer.tsx:11-19 | The drawer is hidden iff there is no node and no load. Loading hides the content. The readings keep server order. |
| UiSparkline.Max | frontend/src/ui/Sparkline.tsx:21 | `Math.max` is an element no smaller than any element. |
| UiSparkline.Min | frontend/src/ui/Sparkline.tsx:22 | `Math.min` is an element no larger than any element. |
| UiSparkline.PointXSpan | frontend/src/ui/Sparkline.tsx:31 | x runs from 0 to width and increases strictly when width > 0. |
| UiSparkline.PointYInBox | frontend/src/ui/Sparkline.tsx:25-28 | For a non-flat series, y lies in [0, height], with max at 0 and min at height. |
| UiSparkline.Project | frontend/src/ui/Sparkline.tsx:17-19 | Fewer than two values give the placeholder. Otherwise there are n points. |
| UiSparkline.ProjectX | frontend/src/ui/Sparkline.tsx:30-34 | The first point is at x = 0 and the last at width, strictly left to right when width > 0. |
| UiSparkline.ProjectConstant | frontend/src/ui/Sparkline.tsx:26 | A constant series lies on y = height / 2. |
| UiSparkline.NonConstantRange | frontend/src/ui/Sparkline.tsx:23 | Two distinct values give a positive range. |
| UiSparkline.PointsInBox | frontend/src/ui/Sparkline.tsx:25-34 | With a positive range, every y is in [0, height], with max at the top and min at the bottom. |
| UiSparkline.ProjectNonConstant | frontend/src/ui/Sparkline.tsx:21-34 | A non-constant series fills the height: every y is in [0, height], max at 0, min at height. |
| UiSparkline.DefaultBoxProjection | frontend/src/ui/Sparkline.tsx:11-12 | In the default 200 by 50 box, the points run from x = 0 to x = 200 and every y is in [0, 50]. |
| HoverSparkline.Range | frontend/src/components/Sparkline.tsx:25 | `max - min \|\| 1` is always positive. |
| HoverSparkline.XAsWritten | frontend/src/components/Sparkline.tsx:28 | The x coordinate as written is undefined (NaN) exactly for a one-element series. |
| HoverSparkline.SinglePointHasNoX | frontend/src/components/Sparkline.tsx:28 | The one-point series has no x, and every longer series does. |
| HoverSparkline.XCorrect | frontend/src/components/Sparkline.tsx:28 | The guarded x agrees with the written one where that is defined, puts a single point at 0 and stays in [0, width]. |
| HoverSparkline.XAgrees | frontend/src/components/Sparkline.tsx:28 | For two or more values, the guarded x equals the written `(index / (length - 1)) * width`. |
| HoverSparkline.YInBox | frontend/src/components/Sparkline.tsx:29 | y lies in [0, height], with the extremes of a non-constant series on the edges. |
| HoverSparkline.Project | frontend/src/components/Sparkline.tsx:21 | Only the empty series renders nothing. Otherwise there is one point per value. |
| HoverSparkline.ProjectConstant | frontend/src/components/Sparkline.tsx:25-29 | A constant series uses range 1, so every y equals the height. |
| HoverSparkline.ProjectInBox | frontend/src/components/Sparkline.tsx:23-29 | For the corrected component (`Project`, guarded x): every point is in the box, with the extremes of a non-constant series on the top and bottom edges. For one value the source's x is NaN; see Findings. |
| HoverSparkline.DefaultBoxInBox | frontend/src/components/Sparkline.tsx:13-14 | In the default 80 by 24 box, every point of the corrected projection lies inside the box. |
| HoverSparkline.ProjectMatchesSource | frontend/src/components/Sparkline.tsx:27-31 | With two or more values, each point of `Project` has the source's unguarded x, the source's y and its own value. |
| HoverSparkline.HoverIndex | frontend/src/components/Sparkline.tsx:39-40 | The hover index is clamped to [0, n-1] and equals the rounded position when that is in range. |
| HoverSparkline.HoverIndexEdges | frontend/src/components/Sparkline.tsx:38-40 | The left edge picks the first point and the right edge the last. |
| HoverSparkline.Hover.constructor | frontend/src/components/Sparkline.tsx:18-19 | Nothing is hovered, and the position is (0, 0). |
| HoverSparkline.Hover.MouseMove | frontend/src/components/Sparkline.tsx:35-42 | Without tooltips nothing changes. Otherwise the clamped index is highlighted and the cursor position recorded. |
| HoverSparkline.Hover.MouseLeave | frontend/src/components/Sparkline.tsx:50 | Leaving clears the highlight. The position is kept. |
| HoverSparkline.DefaultIgnoresCursor | frontend/src/components/Sparkline.tsx:16 | With the default `showTooltip = false`, cursor moves leave nothing highlighted and the position at (0, 0). |
| Backend.SystemStatusCounts | backend/main.py:293-298 | About `Backend.GetSystemStatus`: `nodes_online` ≤ `nodes_total` = number of nodes. Active and acknowledged alerts add up to all alerts, and there are no active alerts when every alert is acknowledged. |
| Backend.LatestReadingSpec | backend/main.py:319-322 | About `Backend.LatestReading`: there is no latest reading iff the node has none. Otherwise it is one of the node's readings with the largest timestamp. |
| Backend.FindNode | backend/main.py:343 | The lookup finds a node with the id, or reports that none has it. |
| Backend.RecentReadingsSpec | backend/main.py:349-353 | About `Backend.RecentReadings`: exactly min(count, 20) of the node's own readings, a sub-multiset of them, newest first. None left out is newer than one included. |
| Backend.RecentReadingsCount | backend/main.py:349-353 | `LIMIT 20` keeps min(count, 20) of the node's readings, and only readings drawn from the node's own rows (sub-multiset). |
| Backend.RecentReadingsOwn | backend/main.py:349-351 | Every recent reading is in the table and carries the requested `node_id`. |
| Backend.RecentReadingsOrder | backend/main.py:351-353 | The recent readings are ordered timestamp-descending, and no reading of the node left out by the limit is newer than one kept. |
| Backend.NodeDetailsSpec | backend/main.py:343-361 | About `Backend.GetNodeDetails`: an unknown id is exactly the 404. The found node fails the schema iff it has no last ping. Otherwise the detail is all of that node's fields with its recent readings. Under unique node ids, this holds for the one row carrying the id. |
| Backend.FindNodeUnique | backend/main.py:343 | Under unique node ids, `.filter(node_id == id).first()` finds the one row with that id. |
| Backend.EventLogsSpec | backend/main.py:368-372 | About `Backend.GetEventLogs`: min(count, 50) logs, newest first, all from the table. No log left out is newer than one returned. |
| Backend.ToAlertSchemas | backend/main.py:385 | One schema per row, in row order. |
| Backend.ToAlertSchemasPermutation | backend/main.py:385 | Converting a permutation of the rows gives a permutation of the schemas. |
| Backend.GetAlertsSpec | backend/main.py:382-385 | About `Backend.GetAlerts`: every alert is returned once. Unacknowledged alerts come first, and each group is newest first. |
| Backend.FindAlertIndex | backend/main.py:394 | The lookup returns the first row with the id, or absence exactly when no row has it. |
| Backend.NatToString | backend/main.py:411 | The alert id prints as a non-empty string of decimal digits. |
| Backend.NextLogId | backend/models.py:71 | A new log row's id is larger than every stored id. |
| Backend.WithLatest | backend/main.py:324-332 | An entry carries the node's fields, and the latest reading's level and signal, or neither without a reading. |
| Backend.Database.constructor | backend/models.py:26-75 | The tables start empty, with unique keys. |
| Backend.Database.SeedIfEmpty | backend/main.py:136-139 | Tables that already have a node are left alone, whatever the seed rows. Otherwise the seed rows are added, and keys stay unique. |
| Backend.RestartKeepsSeed | backend/main.py:137-139 | A second startup on a seeded database is accepted and leaves exactly the seed rows. |
| Backend.Database.GetAllNodes | backend/main.py:307-334 | The result is one entry per node in table order, each the node with its latest reading. The handler fails with the schema error iff some node lacks a last ping. |
| Backend.Database.AcknowledgeAlert | backend/main.py:388-416 | An unknown id is a 404 and changes nothing. An acknowledged alert changes nothing and logs nothing. Otherwise exactly that alert becomes acknowledged and exactly one INFO row from "API" with the message is appended. |
| Wire.DecodeAlert | frontend/src/types/api.ts:53-64 | A decoded alert keeps every served field: `alert_id`, `node_id`, `timestamp`, `severity`, `verification_image_url` and `is_acknowledged`. `reading_id` and the node name are absent. |
| Wire.DecodeAlerts | frontend/src/types/api.ts:53-64 | The list decodes one alert per schema, in order. |
| Wire.FrontendSortKeepsServerOrder | backend/main.py:383 | The served list is already in the Alerts page's order, so the page's sort leaves it unchanged. |
| Wire.UnacknowledgedCountDecoded | backend/main.py:295 | Decoding keeps the number of unacknowledged alerts. |
| Wire.DashboardKpiMatchesPanel | frontend/src/pages/DashboardPage.tsx:36 | The Active Alerts KPI equals the number of alerts the dashboard panel lists, when both come from the same tables. |

## Left out

- HTTP, JSON encoding and decoding, `setInterval`/`clearInterval` and React effects are not modelled directly. They appear as events applied one at a time: a tick, an answer (ok with a body, non-ok, rejected), and a click. A body that fails to decode is not modelled, and concurrency is not the point.
- FastAPI, CORS, static files, uvicorn and SQLAlchemy sessions are I/O. The tables are sequences in storage order.
- The literal seed rows and their `strptime` parsing are not modelled. Only the skip guard of `seed_database` is. Its precondition asks, only when the node table is empty, that the seed rows do not clash with stored keys.
- The clock is not modelled. The acknowledge log's timestamp is the parameter `now`, and `created_at` and the `utcnow` defaults are plain values.
- Rows with equal sort keys: SQL leaves their order unspecified, and the model keeps storage order.
- `data.sort` sorts the fetched array in place. It is modelled as the value `AlertOrder.SortAlerts`, on a fresh sequence nothing else aliases.
- Floating-point behaviour is not modelled. The charts use `real`, with `Math.round(v)` as `Floor(v + 1/2)`; NaN appears only as the as-written `None` of the finding below. SVG path strings, `toFixed` and `toLocaleString` are left out.
- `toLowerCase` is modelled only for ASCII letters; Unicode case mapping is left out.
- XLSX export, toasts, recharts, the window-resize listener and the navigation chrome are integration or presentation. So are `Sidebar`, `MobileNav`, `SettingsPage`, both `KPICard`s, both `EventLog`s, `components/NodeDetailDrawer`, `components/AlertsPanel`, `ui/DeviceTable` and `components/pages/DashboardPage`.
- DashboardPage.CycleOutcome: when two of the three requests reject, `Promise.all` reports whichever rejects first in time; the model takes them in argument order.
- HoverSparkline.ProjectInBox: its x bound is proved for the corrected divisor. For a single value the source's x is NaN, as Findings shows. `HoverSparkline.ProjectMatchesSource` ties the projection to the source's formulas for two or more values.
- HoverSparkline.HoverIndex: requires a positive width. With width 0 the source divides by zero, which is floating-point behaviour.
- Several columns are nullable in the tables but non-optional here: `nodes.created_at`, `sensor_readings.node_id`, `sensor_readings.signal_strength_dbm`, `alerts.node_id`, `alerts.is_acknowledged`, `event_logs.source` and `event_logs.log_level`. The response schemas require each of them, so a null value would fail validation, and that failure path is not modelled.
- Backend.NatToString: modelled as Python's decimal formatting of an integer. It proves the result is non-empty and made of digits, not that it parses back.
- Backend.NextLogId: the database's autoincrement is modelled as one more than the largest stored id. The database may pick any unused larger id.
- The `status` column stores strings, but the model keeps it as the enumeration. A stored string outside the enumeration would fail response validation, and that path is not modelled; `Models.ParseNodeStatus` shows which strings are valid.

## Findings

| source | as written | input that shows it | evidently intended | confidence | as-written member | corrected member |
|---|---|---|---|---|---|---|
| frontend/src/components/Sparkline.tsx:28 | `x = (index / (data.length - 1)) * width` is only guarded against the empty series, so one value divides 0 by 0 | `data = [5]`: x is NaN and the path is `M NaN 24` | the divisor guarded like the range, `(length - 1) \|\| 1`, placing a single point at x = 0 inside [0, width] | not executed | HoverSparkline.SinglePointHasNoX | HoverSparkline.XCorrect (x used by the corrected component `HoverSparkline.Project`, whose points `HoverSparkline.ProjectInBox` keeps in the box) |

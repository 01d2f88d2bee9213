# Catering dashboard: a verified model of its list logic

The repository is a React admin dashboard for a catering business. It has pages for menu items,
events, invoices and reports, a home dashboard with statistics, a recent-events list and a
revenue chart. Three data-access services sit in front of a hosted record store. This project
models the logic inside those components and services and proves what it promises:

- the search and facet filters of the Menus, Events and Invoices pages, and the facet toggle;
- the cost calculator of the Menus page: selection by `Id`, quantity changes and the running total;
- the record edits applied after a store call: status change and delete by `Id`;
- the aggregations: the Reports page (date range, revenue per month, events per status,
  item popularity ranking, totals and average), the dashboard counters and their labels, and the
  revenue chart's month buckets;
- the services' request payloads (field whitelists, create defaults) and how they classify the
  store's responses (a failed response or a failed result entry becomes an error).

Module layout, one module per source file plus shared helpers:

| module | file | models |
|---|---|---|
| `Menus` | `menus.dfy` | `src/components/pages/Menus.jsx` |
| `Events` | `events.dfy` | `src/components/pages/Events.jsx` |
| `Invoices` | `invoices.dfy` | `src/components/pages/Invoices.jsx` |
| `Reports` | `reports.dfy` | `src/components/pages/Reports.jsx` |
| `DashboardStats` | `dashboard_stats.dfy` | `src/components/organisms/DashboardStats.jsx` |
| `EventList` | `event_list.dfy` | `src/components/organisms/EventList.jsx` |
| `RevenueChart` | `revenue_chart.dfy` | `src/components/organisms/RevenueChart.jsx` |
| `InvoiceService`, `EventService`, `MenuItemService` | `*_service.dfy` | `src/services/api/*.js` |
| `Store` | `store.dfy` | the store requests and responses the services share |
| `Records` | `records.dfy` | loosely typed records: values, missing keys, JavaScript falsiness |
| `Entities` | `entities.dfy` | the typed menu item, event and invoice that the pages read |
| `Lists`, `Dict`, `Text`, `Wrappers` | | `filter`/`reduce`/`sort`/`slice`, objects used as dictionaries, strings, `Option`/`Result` |

How the model maps the source:

- **Pages are classes.** Each page or panel is a `class` whose fields are its component state.
  Each handler is a method that changes only the fields it names.
- **Effects run inside the handlers.** `useEffect` recomputes derived state: the filtered list,
  and the Menus total cost. Every handler that changes an input re-runs that recomputation
  before it returns. The class invariant `Valid()` says the derived state is up to date.
- **Store calls are inputs.** The store's answer is a parameter. A page handler gets the store
  response and reacts to it through the service model's classification. A load gets the fetch
  outcome, either `Ok(list)` or `Err(message)`.
- **`Array.prototype.sort` is a pure stable insertion sort** (`Lists.SortBy`) on values.
  JavaScript's sort is stable, and the proofs use that for tie order.
- **The `forEach` loops are `while` loops.** These are the loops that build `monthlyRevenue`,
  `eventsByStatus` and `itemPopularity`, and the chart's grouping. Each is proved against a
  specification function (`Dict.SumByKey`, `Dict.Tally`).
- **A JavaScript object used as a dictionary** is an insertion-ordered list of key/value pairs
  (`Dict.Dict`). `Object.entries` and `Object.keys` are taken to report the keys in insertion
  order. JavaScript does that only for keys that are not array indices: integer-like keys such
  as "7" come first, in ascending numeric order. The model does not have that rule. Nor does
  it have the properties every object inherits from `Object.prototype`: a key such as
  "constructor" reads as absent (see "Left out").

## Model

| member | source | states |
|---|---|---|
| `Menus.SortMenu` | src/components/pages/Menus.jsx:52 | the loaded menu is a permutation of the fetched one, ascending by category, and items of one category keep their fetched order |
| `Menus.MenuView` | src/components/pages/Menus.jsx:61-80 | the shown items are an order-preserving subsequence; an item is shown iff it passes the search (lower-cased term in lower-cased name, description or category) and, when facets are active, its category is one of them; no search and no facet shows everything |
| `Menus.MenuViewCounts` | src/components/pages/Menus.jsx:61-80 | an item that passes the filter is shown exactly as often as it is listed, one that fails it never |
| `Menus.MenuViewSorted` | src/components/pages/Menus.jsx:52-77 | filtering a category-sorted menu keeps it sorted |
| `Menus.Deselect` | src/components/pages/Menus.jsx:94 | removing an `Id` leaves no entry with it, keeps every other entry in order, and keeps `Id`s unique |
| `Menus.FilterKeepsUniqueIds` | src/components/pages/Menus.jsx:94 | any filter of a selection with unique `Id`s has unique `Id`s |
| `Menus.SelectItem` | src/components/pages/Menus.jsx:90-98 | a selected `Id` is removed; an unselected one is appended with quantity 1; `Id`s stay unique |
| `Menus.SetQuantity` | src/components/pages/Menus.jsx:104-108 | same length, same items, only the entries with that `Id` get the new quantity |
| `Menus.ChangeQuantity` | src/components/pages/Menus.jsx:100-110 | quantity 0 or less removes the `Id`; a positive quantity changes only that entry's quantity; `Id`s stay unique |
| `Menus.SelectNewCost` | src/components/pages/Menus.jsx:96 | selecting a new item raises the total by its price |
| `Menus.DeselectCost` | src/components/pages/Menus.jsx:94 | deselecting an entry lowers the total by exactly its price times quantity |
| `Menus.SetQuantityCost` | src/components/pages/Menus.jsx:104-108 | setting an entry's quantity changes the total by price times the quantity difference |
| `Menus.MenusPage.constructor` | src/components/pages/Menus.jsx:13-21 | the page starts empty with total 0 |
| `Menus.MenusPage.FilterMenuItems` | src/components/pages/Menus.jsx:61-80 | recomputes the shown list from the menu, search term and facets |
| `Menus.MenusPage.CalculateTotalCost` | src/components/pages/Menus.jsx:112-115 | the total is the sum of price times quantity over the selection |
| `Menus.MenusPage.LoadMenuItems` | src/components/pages/Menus.jsx:47-59 | success stores the category-sorted menu and clears the error; failure keeps the menu and stores the message or "Failed to load menu items"; the shown list follows |
| `Menus.MenusPage.SetSearchTerm` | src/components/pages/Menus.jsx:188 | sets the term, re-filters, nothing else changes |
| `Menus.MenusPage.HandleFilterChange` | src/components/pages/Menus.jsx:82-88 | toggles the facet value, re-filters, nothing else changes |
| `Menus.MenusPage.HandleItemSelect` | src/components/pages/Menus.jsx:90-98 | the selection becomes `SelectItem` of the old one; the total follows; the menu and filters are untouched |
| `Menus.MenusPage.HandleQuantityChange` | src/components/pages/Menus.jsx:100-110 | the selection becomes `ChangeQuantity` of the old one; the total follows |
| `Menus.MenusPage.ClearAll` | src/components/pages/Menus.jsx:207 | the selection is empty and the total 0; nothing else changes |
| `Events.SortEvents` | src/components/pages/Events.jsx:45 | a permutation, newest date first, and events of one date keep their fetched order |
| `Events.EventView` | src/components/pages/Events.jsx:54-73 | an order-preserving subsequence; an event is shown iff the lower-cased term is in its title or location or its notes when present, and, when facets are active, its status is one of them; no criteria shows everything |
| `Events.EventViewCounts` | src/components/pages/Events.jsx:54-73 | an event that passes the filter is shown exactly as often as it is listed, one that fails it never: nothing dropped, no duplicate introduced |
| `Events.EventViewSorted` | src/components/pages/Events.jsx:45-70 | filtering a newest-first list keeps it newest first |
| `Events.WithStatus` | src/components/pages/Events.jsx:86-88 | same length and `Id`s; an event gets the new status iff its `Id` matches; every other field is unchanged |
| `Events.WithStatusLastWins` | src/components/pages/Events.jsx:86-88 | two status changes of one `Id` equal the second alone |
| `Events.WithStatusSorted` | src/components/pages/Events.jsx:45-88 | a status change keeps a newest-first list newest first |
| `Events.RemoveId` | src/components/pages/Events.jsx:100 | an order-preserving subsequence that drops exactly the events with that `Id` and keeps every other event as often as before |
| `Events.StatusPayload` | src/components/pages/Events.jsx:85 | the update payload of a status change is exactly `Id` and `status` |
| `Events.EventsPage.constructor` | src/components/pages/Events.jsx:15-21 | the page starts empty with no search and no facet |
| `Events.EventsPage.FilterEvents` | src/components/pages/Events.jsx:54-73 | recomputes the shown list |
| `Events.EventsPage.LoadEvents` | src/components/pages/Events.jsx:40-52 | success stores the newest-first list; failure keeps the list and stores the message or "Failed to load events" |
| `Events.EventsPage.SetSearchTerm` | src/components/pages/Events.jsx:184 | sets the term and re-filters |
| `Events.EventsPage.HandleFilterChange` | src/components/pages/Events.jsx:75-81 | toggles the facet value and re-filters |
| `Events.EventsPage.HandleStatusChange` | src/components/pages/Events.jsx:83-93 | sends the `Id`+`status` update; the list becomes `WithStatus` iff the store call succeeded, otherwise it is unchanged |
| `Events.EventsPage.HandleDeleteEvent` | src/components/pages/Events.jsx:95-105 | declined: nothing sent, nothing changes; confirmed: sends a delete of that one `Id`, and the list becomes `RemoveId` iff the call succeeded |
| `Invoices.SortInvoices` | src/components/pages/Invoices.jsx:43 | a permutation, newest `dateIssued` first, ties in fetched order |
| `Invoices.InvoiceView` | src/components/pages/Invoices.jsx:52-70 | an order-preserving subsequence; an invoice is shown iff the term is in its lower-cased invoice number or in the decimal string of its event id, and its status is one of the active facets when any are active |
| `Invoices.InvoiceViewCounts` | src/components/pages/Invoices.jsx:52-70 | an invoice that passes the filter is shown exactly as often as it is listed, one that fails it never |
| `Invoices.SearchFindsEvent` | src/components/pages/Invoices.jsx:56-61 | searching for an invoice's event id, as typed, finds that invoice |
| `Invoices.IntToStringLower` | src/components/pages/Invoices.jsx:60 | lower-casing a decimal string leaves it unchanged |
| `Invoices.IntToStringChars` | src/components/pages/Invoices.jsx:60 | a decimal string holds only digits and `-` |
| `Invoices.WithStatus` | src/components/pages/Invoices.jsx:83-85 | same length and `Id`s; new status iff the `Id` matches; other fields unchanged |
| `Invoices.WithStatusTotal` | src/components/pages/Invoices.jsx:83-85 | a status change leaves the sum of totals unchanged |
| `Invoices.StatusPayload` | src/components/pages/Invoices.jsx:82 | the update payload is exactly `Id` and `status` |
| `Invoices.StatusRequest` | src/components/pages/Invoices.jsx:82 | the request the service sends for a status change |
| `Invoices.TotalOutstanding` | src/components/pages/Invoices.jsx:173-176 | the outstanding sum is the pending sum plus the overdue sum |
| `Invoices.PaidTotal` | src/components/pages/Invoices.jsx:182-185 | the filtered sum equals the sum over all shown invoices of each one's total when paid and 0 otherwise |
| `Invoices.PaidAndUnpaid` | src/components/pages/Invoices.jsx:182-185 | the paid sum plus the sum of the invoices not paid is the sum of all shown totals |
| `Invoices.StatusCount` | src/components/pages/Invoices.jsx:191 | a status count is at most the number of shown invoices |
| `Invoices.CountsDisjoint` | src/components/pages/Invoices.jsx:191-197 | the counts of two different statuses (Overdue and Draft) together are at most the number shown |
| `Invoices.AbsentStatusTotal` | src/components/pages/Invoices.jsx:173-197 | a status no shown invoice has sums and counts to 0 |
| `Invoices.InvoicesPage.constructor` | src/components/pages/Invoices.jsx:15-20 | the page starts empty |
| `Invoices.InvoicesPage.FilterInvoices` | src/components/pages/Invoices.jsx:52-70 | recomputes the shown list |
| `Invoices.InvoicesPage.LoadInvoices` | src/components/pages/Invoices.jsx:38-50 | success stores the newest-first list; failure keeps it and stores the message or "Failed to load invoices" |
| `Invoices.InvoicesPage.SetSearchTerm` | src/components/pages/Invoices.jsx:161 | sets the term and re-filters |
| `Invoices.InvoicesPage.HandleFilterChange` | src/components/pages/Invoices.jsx:72-78 | toggles the facet value and re-filters |
| `Invoices.InvoicesPage.HandleStatusChange` | src/components/pages/Invoices.jsx:80-90 | sends the `Id`+`status` update; the list becomes `WithStatus` iff the call succeeded |
| `Reports.MonthsBack` | src/components/pages/Reports.jsx:33 | 6 iff "6months", 12 iff "12months", otherwise 3 |
| `Reports.FindFirst` | src/components/pages/Reports.jsx:62 | the lookup finds nothing iff no menu item has the id, and otherwise the first one that has it |
| `Reports.NamesOfResolve` | src/components/pages/Reports.jsx:60-66 | an event adds at most one name per listed id, exactly one per id when all resolve, each the `Name` of a menu item, and none without menu items |
| `Reports.ResolvedNamesFromItems` | src/components/pages/Reports.jsx:58-68 | every counted name is the `Name` of a menu item; with no menu items nothing is counted |
| `Reports.PopularItems` | src/components/pages/Reports.jsx:70-72 | at most 10 entries, a prefix of the count-descending stable sort, exactly 10 when there are at least 10 names, all of them when fewer |
| `Reports.Average` | src/components/pages/Reports.jsx:80-81 | with events, average times count is the revenue; without events it is 0 |
| `Reports.TallySnoc` | src/components/pages/Reports.jsx:64 | counting one more name adds 1 to that name |
| `Reports.MonthlyRevenue` | src/components/pages/Reports.jsx:45-49 | the loop builds the per-month sums of the in-range invoices, in first-seen month order |
| `Reports.EventsByStatus` | src/components/pages/Reports.jsx:52-55 | the loop builds the per-status counts of the in-range events |
| `Reports.CountItems` | src/components/pages/Reports.jsx:61-66 | the inner loop adds one count per id of the event that resolves to a menu item |
| `Reports.ItemPopularity` | src/components/pages/Reports.jsx:58-68 | the outer loop counts the resolved names of every in-range event |
| `Reports.PopularityStep` | src/components/pages/Reports.jsx:62-65 | an id that resolves adds 1 to that item's name; an unresolved id adds nothing |
| `Reports.NoMenuItemsNoCount` | src/components/pages/Reports.jsx:60 | an event without a `menu_items` array adds nothing |
| `Reports.ComputeReport` | src/components/pages/Reports.jsx:31-82 | the report the loops build equals the report specification |
| `Reports.ReportUsesRangeOnly` | src/components/pages/Reports.jsx:37-42 | only records dated on or after the start date affect the report |
| `Reports.MonthlyRevenueTotal` | src/components/pages/Reports.jsx:45-49 | the month buckets sum to `totalRevenue` |
| `Reports.MonthlyRevenueBucket` | src/components/pages/Reports.jsx:46-48 | each month's bucket is the sum of the in-range invoices of that month |
| `Reports.SumOnes` | src/components/pages/Reports.jsx:54 | adding 1 per event counts the events |
| `Reports.StatusCountsTotal` | src/components/pages/Reports.jsx:52-55 | the per-status counts sum to `totalEvents` |
| `Reports.StatusCount` | src/components/pages/Reports.jsx:52-55 | each status count is the number of in-range events with that status |
| `Reports.PopularItemsTop` | src/components/pages/Reports.jsx:70-72 | the counts are non-increasing, and every name left out has a count no larger than any shown |
| `Reports.PopularTiesInOrder` | src/components/pages/Reports.jsx:70-71 | names with equal counts keep their first-counted order |
| `Reports.EntryIsLookup` | src/components/pages/Reports.jsx:70 | an entry of a dictionary with unique keys is its lookup |
| `Reports.PopularCounts` | src/components/pages/Reports.jsx:58-72 | every popular entry's count is the number of times its name was resolved |
| `Reports.ReportsPage.constructor` | src/components/pages/Reports.jsx:14-16 | starts at "6months" with no data |
| `Reports.ReportsPage.LoadReportData` | src/components/pages/Reports.jsx:22-88 | success stores the report for the range before `now`; failure keeps the old data |
| `Reports.ReportsPage.SetDateRange` | src/components/pages/Reports.jsx:16-20 | changing the range reloads the report for it |
| `DashboardStats.ComputeStats` | src/components/organisms/DashboardStats.jsx:19-31 | revenue is the sum of totals; each counter is at most its list's length and 0 for an empty list |
| `DashboardStats.CancelLowersUpcoming` | src/components/organisms/DashboardStats.jsx:20-22 | cancelling an event never raises the upcoming count, and lowers it when that event was upcoming |
| `DashboardStats.PaidLowersPending` | src/components/organisms/DashboardStats.jsx:23 | marking an invoice paid never raises the pending count |
| `DashboardStats.UpcomingCard` | src/components/organisms/DashboardStats.jsx:60-67 | "High activity"/positive iff more than 5 upcoming, otherwise "Normal activity"/neutral |
| `DashboardStats.PendingCard` | src/components/organisms/DashboardStats.jsx:68-75 | "Requires attention"/negative iff any pending, otherwise "All clear"/positive |
| `DashboardStats.RevenueCard` | src/components/organisms/DashboardStats.jsx:52-59 | shows the revenue (0 without stats), positive |
| `DashboardStats.CompletedCard` | src/components/organisms/DashboardStats.jsx:76-83 | shows the completed count (0 without stats), positive |
| `DashboardStats.NoStatsCards` | src/components/organisms/DashboardStats.jsx:62-74 | before any stats, the cards read 0, "Normal activity" and "All clear" |
| `DashboardStats.StatsPanel.constructor` | src/components/organisms/DashboardStats.jsx:8 | starts with no stats |
| `DashboardStats.StatsPanel.LoadStats` | src/components/organisms/DashboardStats.jsx:12-36 | success stores the computed stats; failure keeps the old ones |
| `EventList.Shown` | src/components/organisms/EventList.jsx:30-32 | a prefix of the newest-first list; all of it without a limit or with 0; min(limit, n) for a positive limit; a negative limit drops that many from the end |
| `EventList.ShownAreNewest` | src/components/organisms/EventList.jsx:30-32 | every shown event is at least as recent as every event cut off |
| `EventList.EventListPanel.constructor` | src/components/organisms/EventList.jsx:14-17 | starts empty with the given limit |
| `EventList.EventListPanel.LoadEvents` | src/components/organisms/EventList.jsx:23-41 | success stores the shown prefix; failure keeps the list and stores the message or "Failed to load events" |
| `EventList.EventListPanel.HandleStatusChange` | src/components/organisms/EventList.jsx:43-53 | sends the `Id`+`status` update; the list becomes `WithStatus` iff the call succeeded |
| `RevenueChart.GroupByMonth` | src/components/organisms/RevenueChart.jsx:21-28 | the loop builds each month's sum of totals |
| `RevenueChart.Categories` | src/components/organisms/RevenueChart.jsx:30 | the month keys, ascending |
| `RevenueChart.ChartCategories` | src/components/organisms/RevenueChart.jsx:30 | the categories have no duplicates, ascend, and hold a month iff some invoice was issued in it |
| `RevenueChart.ChartValues` | src/components/organisms/RevenueChart.jsx:31 | one value per category, the sum of that month's invoices |
| `RevenueChart.ChartTotal` | src/components/organisms/RevenueChart.jsx:22-31 | the values sum to the sum of all invoice totals, so every total lands in exactly one bucket |
| `RevenueChart.ChartEmpty` | src/components/organisms/RevenueChart.jsx:21-31 | no invoices give no categories and no values |
| `RevenueChart.RevenueChartPanel.constructor` | src/components/organisms/RevenueChart.jsx:8-9 | starts with no chart |
| `RevenueChart.RevenueChartPanel.LoadChartData` | src/components/organisms/RevenueChart.jsx:16-94 | success stores the chart of the fetched invoices; failure keeps the old one |
| `Store.FetchAllOutcome` | src/services/api/invoiceService.js:35-40 | a failed response is an error with its message; a successful one yields its data, or `[]` without data |
| `Store.FetchOneOutcome` | src/services/api/invoiceService.js:74-79 | a failed response is an error with its message, otherwise its data |
| `Store.WriteOutcome` | src/services/api/invoiceService.js:114-130 | succeeds iff the response succeeded and no result entry failed; a failed response carries its message, a failed entry the fixed failure message; success yields the first entry's data |
| `Store.DeleteOutcome` | src/services/api/invoiceService.js:198-211 | the same classification; the result is `true` iff the response succeeded with result entries and none failed |
| `Store.CreatePayload` | src/services/api/invoiceService.js:94-108 | exactly the listed fields, each copied, or its default when the input is falsy |
| `Store.UpdatePayload` | src/services/api/invoiceService.js:146-154 | `Id` plus exactly the whitelisted input keys, values unchanged |
| `InvoiceService.GetAll` | src/services/api/invoiceService.js:2-45 | fetches table "invoice"; an error with the message on failure; `data` or `[]` on success |
| `InvoiceService.GetById` | src/services/api/invoiceService.js:47-84 | fetches that id; an error iff the response failed |
| `InvoiceService.CreatePayload` | src/services/api/invoiceService.js:94-108 | the 12 fields; `status` defaults to "pending" and `date_issued` to the current time when falsy |
| `InvoiceService.Create` | src/services/api/invoiceService.js:86-136 | sends the payload; succeeds iff no failure; "Failed to create invoice" when an entry failed |
| `InvoiceService.UpdatePayload` | src/services/api/invoiceService.js:146-154 | `Id` is the numeric id; the other keys are exactly the input keys among the 12, values unchanged |
| `InvoiceService.Update` | src/services/api/invoiceService.js:138-182 | sends the payload; succeeds iff no failure; "Failed to update invoice" when an entry failed |
| `InvoiceService.Delete` | src/services/api/invoiceService.js:184-217 | sends one record id; `true` iff no entry failed; "Failed to delete invoice" when one did |
| `InvoiceService.UpdateKeepsId` | src/services/api/invoiceService.js:146-154 | the payload is the whitelisted part of the input with `Id` set last |
| `EventService.GetAll` | src/services/api/eventService.js:2-44 | fetches table "event"; `data` or `[]` on success |
| `EventService.GetById` | src/services/api/eventService.js:46-82 | fetches that id; an error iff the response failed |
| `EventService.CreatePayload` | src/services/api/eventService.js:93-105 | the 11 fields; `status` defaults to "planning" when falsy |
| `EventService.Create` | src/services/api/eventService.js:84-133 | succeeds iff no failure; "Failed to create event" when an entry failed |
| `EventService.UpdatePayload` | src/services/api/eventService.js:144-151 | `Id` plus exactly the input keys among the 11 |
| `EventService.Update` | src/services/api/eventService.js:135-179 | succeeds iff no failure; "Failed to update event" when an entry failed |
| `EventService.Delete` | src/services/api/eventService.js:181-214 | one record id; `true` iff no entry failed |
| `EventService.UpdateKeepsId` | src/services/api/eventService.js:144-151 | the payload is the whitelisted input with `Id` set |
| `MenuItemService.GetAll` | src/services/api/menuItemService.js:2-41 | fetches table "menu_item"; `data` or `[]` on success |
| `MenuItemService.GetById` | src/services/api/menuItemService.js:43-76 | fetches that id; an error iff the response failed |
| `MenuItemService.CreatePayload` | src/services/api/menuItemService.js:87-96 | exactly the 8 fields, copied with no default |
| `MenuItemService.Create` | src/services/api/menuItemService.js:78-124 | succeeds iff no failure; "Failed to create menu item" when an entry failed |
| `MenuItemService.UpdatePayload` | src/services/api/menuItemService.js:135-142 | `Id` plus exactly the input keys among the 8 |
| `MenuItemService.Update` | src/services/api/menuItemService.js:126-170 | succeeds iff no failure; "Failed to update menu item" when an entry failed |
| `MenuItemService.Delete` | src/services/api/menuItemService.js:172-205 | one record id; `true` iff no entry failed |
| `MenuItemService.UpdateKeepsId` | src/services/api/menuItemService.js:135-142 | the payload is the whitelisted input with `Id` set |
| `Lists.Toggle` | src/components/pages/Menus.jsx:82-88 | the value is in the result iff it was not in the input; an absent value is appended; a present one has every copy removed while every other value keeps its number of occurrences, in order |
| `Lists.ToggleNoDup` | src/components/pages/Events.jsx:75-81 | toggling keeps a duplicate-free facet list duplicate-free |
| `Lists.ToggleTwiceAbsent` | src/components/pages/Menus.jsx:82-88 | toggling an absent value twice restores the list |
| `Lists.ToggleTwicePresent` | src/components/pages/Invoices.jsx:72-78 | toggling a present value twice, on a duplicate-free list, gives a duplicate-free permutation of it |
| `Lists.FilterWhen` | src/components/pages/Menus.jsx:65-77 | a filter step applied only when its criterion is set keeps an order-preserving subsequence |
| `Lists.SortBySorted` | src/components/pages/Events.jsx:45 | the sort's result is ordered by any total preorder |
| `Entities.AtLeastTotalPreorder` | src/components/pages/Reports.jsx:71 | the order of the comparator `b - a` (larger first) is a total preorder |
| `Lists.SortByStable` | src/components/pages/Reports.jsx:71 | the sort keeps the relative order of equal keys |
| `Lists.SlicePrefix` | src/components/organisms/EventList.jsx:32 | `slice(0, end)` keeps the first `end` elements, counting a negative end from the back |
| `Dict.SumByKeyTotal` | src/components/pages/Reports.jsx:45-49 | the buckets of a grouping sum to the sum over everything |
| `Dict.SumByKeyGet` | src/components/organisms/RevenueChart.jsx:27 | a bucket is the sum over the elements of its key, and 0 for an absent key |
| `Dict.TallyCount` | src/components/pages/Reports.jsx:64 | a tally counts each name as often as it occurs |
| `Text.Includes` | src/components/pages/Menus.jsx:68 | `includes` holds iff the term occurs at some position |
| `Text.LowerIdempotent` | src/components/pages/Menus.jsx:66-70 | lower-casing twice is lower-casing once |
| `Text.NatToString` | src/components/pages/Invoices.jsx:60 | the decimal string of a number is a non-empty string of digits with no leading zero |
| `Text.NatToStringValue` | src/components/pages/Invoices.jsx:60 | the digits of the decimal string, read left to right, spell the number |
| `Text.IntToString` | src/components/pages/Invoices.jsx:60 | `toString` of an integer is non-empty, starts with `-` iff the number is negative, is the decimal digits of a non-negative number, and the digits of the magnitude after the sign |
| `Text.IntToStringValue` | src/components/pages/Invoices.jsx:60 | after the minus sign of a negative number, the digits spell its magnitude; a non-negative number's digits spell it |
| `Text.LexLeTotalPreorder` | src/components/organisms/RevenueChart.jsx:30 | character-by-character string order is a total preorder, so the sorts over it are sorted |

## Left out

- Rendering: JSX, animation, styling, chart options, view mode and loading flags carry no logic
  the model needs.
- The record-store client: the remote calls are not visible. Each call's answer is a parameter
  (`Store.FetchResponse`, `Store.WriteResponse`), and an exception thrown by the client itself
  is treated like a failed response.
- The fetch parameters (field lists, ordering, paging) that the services pass to the client.
  The model takes each record to carry the fields its page reads.
- Asynchrony: `useEffect` ordering, `Promise.all` and races between loads. Each handler runs
  atomically with its store outcome given.
- Reading entities out of records. The pages take typed lists (`Entities`). The services work
  on loosely typed records (`Records`).
- Field names the store never fills. The Invoices page reads `dateIssued`, `invoiceNumber` and
  `eventId` (src/components/pages/Invoices.jsx:43, 59-60), and the revenue chart reads
  `dateIssued` (src/components/organisms/RevenueChart.jsx:23). The invoice service fetches only
  `date_issued`, `invoice_number` and `event_id` (src/services/api/invoiceService.js:10-31).
  On store data as fetched, a non-empty invoice search would fail on the missing
  `invoiceNumber`, and the chart would group every invoice under one invalid-date label. The
  model gives `Entities.Invoice` both spellings as independent fields, so the Invoices and
  RevenueChart members describe the code as if the camel-case fields were filled.
- Dates: date parsing, `subMonths`, `format` and `toLocaleString` month labels, and the current
  time. Dates are integers; `now`, `subMonths` and the month label are parameters.
- `Menus.SortMenu`: `localeCompare` is modelled as character-by-character code-point order
  (`Text.LexLe`), not locale collation.
- `RevenueChart.Categories` sorts the month labels by code-point order. That equals the UTF-16
  code-unit order of `sort()` with no comparator on text inside the Basic Multilingual Plane;
  the two differ only when a character above U+FFFF meets one in U+E000 to U+FFFF. Its `Object.keys` input is taken in insertion order; the JavaScript rule that
  puts integer-like keys first is not modelled, as month labels are never integer-like.
- `Text.Lower`: `toLowerCase` is modelled for ASCII letters only.
- Money is an integer amount. Float rounding, `toFixed`, `toLocaleString` and the popularity bar
  width ratio are not modelled. `Reports.Average` is a real number.
- Toasts, `console` output and `window.confirm`; the confirmation is a boolean parameter of
  `Events.EventsPage.HandleDeleteEvent`.
- `parseInt`: ids are integers throughout.
- `handleDownloadInvoice` and `handleSendInvoice` on the Invoices page only show a toast.
- The services' `getById` is modelled but no page calls it.
- `Array.prototype.sort` sorts in place: all sorts are modelled on values (`Lists.SortBy`). The
  arrays the code sorts are fresh fetch results with no other reference, so aliasing does not
  arise.
- `Invoices.PaidTotal`: the card is labelled "Paid This Month", but the source sums every shown
  paid invoice with no month filter; the model does the same.
- The presentation-only files (layout, routes, atoms, molecules, quick actions, dashboard page)
  are not part of this model.
- `Reports.PopularItems`: sorts the popularity entries in first-counted order, which is what
  `Object.entries` reports only when no item name is integer-like. JavaScript lists
  integer-like names such as "7" or "2024" first, in ascending numeric order, and the stable
  sort then starts from that order. The model does not apply that rule. The top-10 bound, the
  descending counts and the counts themselves hold either way; the choice among tied entries
  does not.
- `Reports.PopularTiesInOrder`: the tie order it proves is the first-counted order. For menu
  items with integer-like names the program's tie order is the one `Object.entries` gives
  instead (integer-like names first, ascending), which this model does not describe.
- `Dict.Get0`: reads a key that was never stored as 0. In JavaScript `d[k] || 0` reads inherited
  properties too, so a key that names a property of `Object.prototype` does not read as 0.
  Examples are "constructor", "toString", "valueOf", "hasOwnProperty" and "__proto__".
  Assigning to `d["__proto__"]` also stores nothing. Such keys are not modelled. This affects
  `Dict.AddTo`, `Dict.SumByKey` and `Dict.Tally`, and through them `Reports.ItemPopularity`
  and `Reports.CountItems` (menu item names, Reports.jsx:64), `Reports.EventsByStatus` (event
  statuses, Reports.jsx:54), `Reports.MonthlyRevenue` (Reports.jsx:48) and
  `RevenueChart.GroupByMonth` (RevenueChart.jsx:27). For example, for an item named
  "constructor" the program counts the text of `Object`'s source followed by "1", where the
  model counts 1. Month labels are never such names.

/** The Reports page: from all events, invoices and menu items it keeps those inside the chosen
    date range and derives revenue per month, event counts per status, the ten most requested
    menu items, and three totals. */
module Reports {
  import opened Wrappers
  import opened Lists
  import opened Dict
  import opened Entities

  /** The range selector: "6months" and "12months" go back that many months, anything else
      three. */
  function MonthsBack(dateRange: string): (n: int)
    ensures n == 3 || n == 6 || n == 12
    ensures n == 6 <==> dateRange == "6months"
    ensures n == 12 <==> dateRange == "12months"
  {
    if dateRange == "6months" then 6 else if dateRange == "12months" then 12 else 3
  }

  function InvoiceInRange(startDate: int): Invoice -> bool {
    (inv: Invoice) => inv.date_issued >= startDate
  }

  function EventInRange(startDate: int): Event -> bool {
    (e: Event) => e.date >= startDate
  }

  /** The invoices issued on or after `startDate`, in order. */
  function InRangeInvoices(invoices: seq<Invoice>, startDate: int): seq<Invoice> {
    Filter(invoices, InvoiceInRange(startDate))
  }

  /** The events dated on or after `startDate`, in order. */
  function InRangeEvents(events: seq<Event>, startDate: int): seq<Event> {
    Filter(events, EventInRange(startDate))
  }

  /** The month label of an invoice's issue date; `monthKey` is the date formatter. */
  function MonthOf(monthKey: int -> string): Invoice -> string {
    (inv: Invoice) => monthKey(inv.date_issued)
  }

  function EventStatus(e: Event): string {
    e.status
  }

  function OneEvent(e: Event): int {
    1
  }

  /** `menuItems.find(m => m.Id === id)`. */
  function Find(items: seq<MenuItem>, id: int): Option<MenuItem> {
    if items == [] then None
    else if items[0].Id == id then Some(items[0])
    else Find(items[1..], id)
  }

  /** The lookup finds nothing exactly when no item has the identifier, and otherwise the first
      item that has it. */
  lemma {:induction false} FindFirst(items: seq<MenuItem>, id: int)
    ensures Find(items, id).None? <==> forall i :: 0 <= i < |items| ==> items[i].Id != id
    ensures Find(items, id).Some? ==>
      exists i :: (0 <= i < |items| && items[i] == Find(items, id).value && items[i].Id == id &&
        forall j :: 0 <= j < i ==> items[j].Id != id)
  {
    if items != [] && items[0].Id != id {
      var tail := items[1..];
      FindFirst(tail, id);
      assert forall i :: 1 <= i < |items| ==> items[i] == tail[i - 1];
      if Find(tail, id).Some? {
        var i :| 0 <= i < |tail| && tail[i] == Find(tail, id).value && tail[i].Id == id &&
          forall j :: 0 <= j < i ==> tail[j].Id != id;
        assert items[i + 1] == tail[i];
      }
    }
  }

  /** The name counted for a looked-up item: its `Name`, or nothing when the lookup failed. */
  function ItemName(found: Option<MenuItem>): seq<string> {
    if found.Some? then [found.value.Name] else []
  }

  /** The names of the items an event lists that resolve to a menu item, in order. */
  function NamesOf(ids: seq<int>, items: seq<MenuItem>): seq<string> {
    if ids == [] then []
    else NamesOf(ids[..|ids| - 1], items) + ItemName(Find(items, ids[|ids| - 1]))
  }

  /** An event whose `menu_items` is missing or not an array contributes no name. */
  function EventNames(e: Event, items: seq<MenuItem>): seq<string> {
    if e.menu_items.Some? then NamesOf(e.menu_items.value, items) else []
  }

  /** Every resolved item name of every event, event by event. */
  function ResolvedNames(events: seq<Event>, items: seq<MenuItem>): seq<string> {
    if events == [] then []
    else ResolvedNames(events[..|events| - 1], items) + EventNames(events[|events| - 1], items)
  }

  /** An event adds at most one name per listed id, exactly one per id when every id resolves,
      and each name it adds is the `Name` of a menu item (none without menu items). */
  lemma {:induction false} NamesOfResolve(ids: seq<int>, items: seq<MenuItem>)
    ensures |NamesOf(ids, items)| <= |ids|
    ensures (forall i :: 0 <= i < |ids| ==> Find(items, ids[i]).Some?) ==> |NamesOf(ids, items)| == |ids|
    ensures forall x :: x in NamesOf(ids, items) ==> exists m :: m in items && m.Name == x
    ensures items == [] ==> NamesOf(ids, items) == []
    decreases |ids|
  {
    if ids != [] {
      var init := ids[..|ids| - 1];
      NamesOfResolve(init, items);
      FindFirst(items, ids[|ids| - 1]);
      assert forall i :: 0 <= i < |init| ==> init[i] == ids[i];
    }
  }

  /** Every name the report counts is the `Name` of a menu item, so with no menu items nothing
      is counted. */
  lemma {:induction false} ResolvedNamesFromItems(events: seq<Event>, items: seq<MenuItem>)
    ensures forall x :: x in ResolvedNames(events, items) ==> exists m :: m in items && m.Name == x
    ensures items == [] ==> ResolvedNames(events, items) == []
    decreases |events|
  {
    if events != [] {
      var e := events[|events| - 1];
      ResolvedNamesFromItems(events[..|events| - 1], items);
      if e.menu_items.Some? {
        NamesOfResolve(e.menu_items.value, items);
      }
    }
  }

  /** `Object.entries(itemPopularity).sort(([, a], [, b]) => b - a).slice(0, 10)`. */
  function PopularItems(popularity: Dict): (r: seq<(string, int)>)
    ensures |r| <= 10 && |r| <= |popularity|
    ensures r <= SortBy(popularity, EntryValue, AtLeast)
    ensures |popularity| >= 10 ==> |r| == 10
    ensures |popularity| < 10 ==> multiset(r) == multiset(popularity)
  {
    var sorted := SortBy(popularity, EntryValue, AtLeast);
    var r := SlicePrefix(sorted, 10);
    assert |popularity| < 10 ==> r == sorted;
    r
  }

  /** What the page shows; `averageEventValue` divides the revenue by the number of events. */
  datatype ReportData = ReportData(
    monthlyRevenue: Dict,
    eventsByStatus: Dict,
    popularItems: seq<(string, int)>,
    totalRevenue: int,
    totalEvents: nat,
    averageEventValue: real)

  function Average(total: int, count: nat): (r: real)
    ensures count > 0 ==> r * count as real == total as real
    ensures count == 0 ==> r == 0.0
  {
    if count > 0 then total as real / count as real else 0.0
  }

  /** The report for the data dated on or after `startDate`. */
  function Report(events: seq<Event>, invoices: seq<Invoice>, items: seq<MenuItem>, startDate: int,
                  monthKey: int -> string): ReportData
  {
    var fi := InRangeInvoices(invoices, startDate);
    var fe := InRangeEvents(events, startDate);
    var revenue := Sum(fi, InvoiceTotal);
    ReportData(
      SumByKey(fi, MonthOf(monthKey), InvoiceTotal),
      SumByKey(fe, EventStatus, OneEvent),
      PopularItems(Tally(ResolvedNames(fe, items))),
      revenue,
      |fe|,
      Average(revenue, |fe|))
  }

  lemma TallySnoc(xs: seq<string>, x: string)
    ensures Tally(xs + [x]) == AddTo(Tally(xs), x, 1)
  {
    assert (xs + [x])[..|xs|] == xs;
  }

  /** `filteredInvoices.forEach(invoice => { monthlyRevenue[month] = (monthlyRevenue[month] || 0) + invoice.total })`. */
  method MonthlyRevenue(filteredInvoices: seq<Invoice>, monthKey: int -> string) returns (monthlyRevenue: Dict)
    ensures monthlyRevenue == SumByKey(filteredInvoices, MonthOf(monthKey), InvoiceTotal)
  {
    monthlyRevenue := [];
    var i := 0;
    while i < |filteredInvoices|
      invariant 0 <= i <= |filteredInvoices|
      invariant monthlyRevenue == SumByKey(filteredInvoices[..i], MonthOf(monthKey), InvoiceTotal)
    {
      var invoice := filteredInvoices[i];
      var month := monthKey(invoice.date_issued);
      monthlyRevenue := AddTo(monthlyRevenue, month, invoice.total);
      assert filteredInvoices[..i + 1][..i] == filteredInvoices[..i];
      i := i + 1;
    }
    assert filteredInvoices[..i] == filteredInvoices;
  }

  /** `filteredEvents.forEach(event => { eventsByStatus[event.status] = (eventsByStatus[event.status] || 0) + 1 })`. */
  method EventsByStatus(filteredEvents: seq<Event>) returns (eventsByStatus: Dict)
    ensures eventsByStatus == SumByKey(filteredEvents, EventStatus, OneEvent)
  {
    eventsByStatus := [];
    var i := 0;
    while i < |filteredEvents|
      invariant 0 <= i <= |filteredEvents|
      invariant eventsByStatus == SumByKey(filteredEvents[..i], EventStatus, OneEvent)
    {
      eventsByStatus := AddTo(eventsByStatus, filteredEvents[i].status, 1);
      assert filteredEvents[..i + 1][..i] == filteredEvents[..i];
      i := i + 1;
    }
    assert filteredEvents[..i] == filteredEvents;
  }

  /** The inner `event.menu_items.forEach`: adds one for each identifier that resolves. */
  method CountItems(itemPopularity: Dict, ghost before: seq<string>, ids: seq<int>, items: seq<MenuItem>)
    returns (counted: Dict)
    requires itemPopularity == Tally(before)
    ensures counted == Tally(before + NamesOf(ids, items))
  {
    counted := itemPopularity;
    var k := 0;
    assert ids[..0] == [] && before + [] == before;
    while k < |ids|
      invariant 0 <= k <= |ids|
      invariant counted == Tally(before + NamesOf(ids[..k], items))
    {
      var item := Find(items, ids[k]);
      assert ids[..k + 1] == ids[..k] + [ids[k]];
      PopularityStep(before, ids[..k], ids[k], items);
      if item.Some? {
        counted := AddTo(counted, item.value.Name, 1);
      }
      k := k + 1;
    }
    assert ids[..k] == ids;
  }

  /** The outer `filteredEvents.forEach` that fills `itemPopularity`. */
  method ItemPopularity(filteredEvents: seq<Event>, items: seq<MenuItem>) returns (itemPopularity: Dict)
    ensures itemPopularity == Tally(ResolvedNames(filteredEvents, items))
  {
    itemPopularity := [];
    var i := 0;
    while i < |filteredEvents|
      invariant 0 <= i <= |filteredEvents|
      invariant itemPopularity == Tally(ResolvedNames(filteredEvents[..i], items))
    {
      var event := filteredEvents[i];
      ghost var before := ResolvedNames(filteredEvents[..i], items);
      if event.menu_items.Some? {
        itemPopularity := CountItems(itemPopularity, before, event.menu_items.value, items);
      } else {
        assert before + EventNames(event, items) == before;
      }
      assert filteredEvents[..i + 1][..i] == filteredEvents[..i];
      assert ResolvedNames(filteredEvents[..i + 1], items) == before + EventNames(event, items);
      i := i + 1;
    }
    assert filteredEvents[..i] == filteredEvents;
  }

  /** One more identifier of an event: it adds one to its item's name when it resolves, and
      nothing when it does not. */
  lemma PopularityStep(before: seq<string>, ids: seq<int>, id: int, items: seq<MenuItem>)
    ensures var found := Find(items, id);
      Tally(before + NamesOf(ids + [id], items)) ==
        if found.Some? then AddTo(Tally(before + NamesOf(ids, items)), found.value.Name, 1)
        else Tally(before + NamesOf(ids, items))
  {
    var found := Find(items, id);
    var sofar := before + NamesOf(ids, items);
    assert (ids + [id])[..|ids|] == ids;
    assert before + NamesOf(ids + [id], items) == sofar + ItemName(found);
    if found.Some? {
      TallySnoc(sofar, found.value.Name);
    } else {
      assert sofar + ItemName(found) == sofar;
    }
  }

  /** An event without a `menu_items` array contributes nothing to the counts. */
  lemma NoMenuItemsNoCount(events: seq<Event>, e: Event, items: seq<MenuItem>)
    requires e.menu_items.None?
    ensures ResolvedNames(events + [e], items) == ResolvedNames(events, items)
  {
    assert (events + [e])[..|events|] == events;
    assert ResolvedNames(events, items) + [] == ResolvedNames(events, items);
  }

  /** The body of `loadReportData` that turns the fetched data into the report. */
  method ComputeReport(events: seq<Event>, invoices: seq<Invoice>, items: seq<MenuItem>, startDate: int,
                       monthKey: int -> string) returns (data: ReportData)
    ensures data == Report(events, invoices, items, startDate, monthKey)
  {
    var filteredInvoices := Filter(invoices, InvoiceInRange(startDate));
    var filteredEvents := Filter(events, EventInRange(startDate));
    var monthlyRevenue := MonthlyRevenue(filteredInvoices, monthKey);
    var eventsByStatus := EventsByStatus(filteredEvents);
    var itemPopularity := ItemPopularity(filteredEvents, items);
    var popularItems := PopularItems(itemPopularity);
    var totalRevenue := Sum(filteredInvoices, InvoiceTotal);
    data := ReportData(monthlyRevenue, eventsByStatus, popularItems, totalRevenue, |filteredEvents|,
                       Average(totalRevenue, |filteredEvents|));
  }

  // ---------------------------------------------------------------------------------------------
  // What the report means

  /** Only data inside the range counts: dropping what lies before `startDate` changes nothing. */
  lemma ReportUsesRangeOnly(events: seq<Event>, invoices: seq<Invoice>, items: seq<MenuItem>, startDate: int,
                            monthKey: int -> string)
    ensures Report(InRangeEvents(events, startDate), InRangeInvoices(invoices, startDate), items, startDate, monthKey) ==
      Report(events, invoices, items, startDate, monthKey)
  {
    FilterIdempotent(events, EventInRange(startDate));
    FilterIdempotent(invoices, InvoiceInRange(startDate));
  }

  /** The monthly buckets add up to the total revenue. */
  lemma MonthlyRevenueTotal(events: seq<Event>, invoices: seq<Invoice>, items: seq<MenuItem>, startDate: int,
                            monthKey: int -> string)
    ensures SumValues(Report(events, invoices, items, startDate, monthKey).monthlyRevenue) ==
      Report(events, invoices, items, startDate, monthKey).totalRevenue
  {
    SumByKeyTotal(InRangeInvoices(invoices, startDate), MonthOf(monthKey), InvoiceTotal);
  }

  function InMonth(monthKey: int -> string, month: string): Invoice -> bool {
    (inv: Invoice) => monthKey(inv.date_issued) == month
  }

  /** The bucket of a month holds the totals of the in-range invoices issued in that month. */
  lemma MonthlyRevenueBucket(events: seq<Event>, invoices: seq<Invoice>, items: seq<MenuItem>, startDate: int,
                             monthKey: int -> string, month: string)
    ensures Get0(Report(events, invoices, items, startDate, monthKey).monthlyRevenue, month) ==
      Sum(Filter(InRangeInvoices(invoices, startDate), InMonth(monthKey, month)), InvoiceTotal)
  {
    SumByKeyGet(InRangeInvoices(invoices, startDate), MonthOf(monthKey), InvoiceTotal, month, InMonth(monthKey, month));
  }

  lemma {:induction false} SumOnes(s: seq<Event>)
    ensures Sum(s, OneEvent) == |s|
  {
    if s != [] {
      SumOnes(s[1..]);
    }
  }

  /** The status counts add up to the number of events in range. */
  lemma StatusCountsTotal(events: seq<Event>, invoices: seq<Invoice>, items: seq<MenuItem>, startDate: int,
                          monthKey: int -> string)
    ensures SumValues(Report(events, invoices, items, startDate, monthKey).eventsByStatus) ==
      Report(events, invoices, items, startDate, monthKey).totalEvents
  {
    var fe := InRangeEvents(events, startDate);
    SumByKeyTotal(fe, EventStatus, OneEvent);
    SumOnes(fe);
  }

  function WithStatus(status: string): Event -> bool {
    (e: Event) => e.status == status
  }

  /** The count of a status is the number of in-range events with that status. */
  lemma StatusCount(events: seq<Event>, invoices: seq<Invoice>, items: seq<MenuItem>, startDate: int,
                    monthKey: int -> string, status: string)
    ensures Get0(Report(events, invoices, items, startDate, monthKey).eventsByStatus, status) ==
      |Filter(InRangeEvents(events, startDate), WithStatus(status))|
  {
    var fe := InRangeEvents(events, startDate);
    SumByKeyGet(fe, EventStatus, OneEvent, status, WithStatus(status));
    SumOnes(Filter(fe, WithStatus(status)));
  }

  /** The popular items come most requested first, and an entry left out has a count no larger
      than any entry shown. */
  lemma PopularItemsTop(popularity: Dict)
    ensures var r := PopularItems(popularity);
      (forall i, j :: 0 <= i < j < |r| ==> r[i].1 >= r[j].1) &&
      forall e :: e in popularity && e !in r ==> forall i :: 0 <= i < |r| ==> r[i].1 >= e.1
  {
    var sorted := SortBy(popularity, EntryValue, AtLeast);
    var r := PopularItems(popularity);
    AtLeastTotalPreorder();
    SortBySorted(popularity, EntryValue, AtLeast);
    assert forall k :: 0 <= k < |r| ==> r[k] == sorted[k];
    forall e | e in popularity && e !in r
      ensures forall i :: 0 <= i < |r| ==> r[i].1 >= e.1
    {
      assert e in multiset(sorted);
      var j :| 0 <= j < |sorted| && sorted[j] == e;
      assert j >= |r|;
    }
  }

  /** Entries with the same count keep the order in which their names were first counted. */
  lemma PopularTiesInOrder(popularity: Dict, count: int)
    ensures PopularItems(popularity) <= SortBy(popularity, EntryValue, AtLeast)
    ensures WithKey(SortBy(popularity, EntryValue, AtLeast), EntryValue, count) == WithKey(popularity, EntryValue, count)
  {
    AtLeastTotalPreorder();
    TotalPreorderReflexive(AtLeast);
    SortByStable(popularity, EntryValue, AtLeast, count);
  }

  /** In an object with unique keys, an entry's value is what a lookup of its key gives. */
  lemma {:induction false} EntryIsLookup(d: Dict, e: (string, int))
    requires KeysUnique(d) && e in d
    ensures Get0(d, e.0) == e.1
  {
    if d[0] != e {
      var ks := Keys(d);
      assert KeysUnique(d[1..]) by {
        var kr := Keys(d[1..]);
        forall i, j | 0 <= i < j < |kr| ensures kr[i] != kr[j] {
          assert kr[i] == ks[i + 1] && kr[j] == ks[j + 1];
        }
      }
      var k :| 0 <= k < |d| && d[k] == e;
      assert k > 0;
      assert ks[0] != ks[k];
      assert d[1..][k - 1] == e;
      EntryIsLookup(d[1..], e);
    }
  }

  /** Each popular item's count is how many times its name was resolved from an in-range
      event's `menu_items`. */
  lemma PopularCounts(events: seq<Event>, invoices: seq<Invoice>, items: seq<MenuItem>, startDate: int,
                      monthKey: int -> string)
    ensures var r := Report(events, invoices, items, startDate, monthKey).popularItems;
      forall i :: 0 <= i < |r| ==>
        r[i].1 == multiset(ResolvedNames(InRangeEvents(events, startDate), items))[r[i].0]
  {
    var names := ResolvedNames(InRangeEvents(events, startDate), items);
    var pop := Tally(names);
    var r := PopularItems(pop);
    SumByKeyUnique(names, Self, One);
    forall i | 0 <= i < |r| ensures r[i].1 == multiset(names)[r[i].0] {
      assert r[i] in SortBy(pop, EntryValue, AtLeast);
      assert r[i] in multiset(pop);
      EntryIsLookup(pop, r[i]);
      TallyCount(names, r[i].0);
    }
  }

  /** The fetched data: the three `getAll` results of `Promise.all`. */
  datatype Fetched = Fetched(events: seq<Event>, invoices: seq<Invoice>, menuItems: seq<MenuItem>)

  class ReportsPage {
    var dateRange: string
    var data: Option<ReportData>

    constructor ()
      ensures dateRange == "6months" && data == None
    {
      dateRange, data := "6months", None;
    }

    /** `loadReportData`. `now` is the current instant, `subMonths` the date library's month
        subtraction and `monthKey` its `'MMM yyyy'` formatter. A failed fetch is only logged:
        the previous report stays. */
    method LoadReportData(fetched: Result<Fetched>, now: int, subMonths: (int, int) -> int, monthKey: int -> string)
      modifies this`data
      ensures fetched.Ok? ==> data == Some(Report(fetched.value.events, fetched.value.invoices,
        fetched.value.menuItems, subMonths(now, MonthsBack(dateRange)), monthKey))
      ensures fetched.Err? ==> data == old(data)
    {
      if fetched.Ok? {
        var monthsBack := MonthsBack(dateRange);
        var startDate := subMonths(now, monthsBack);
        var report := ComputeReport(fetched.value.events, fetched.value.invoices, fetched.value.menuItems,
                                    startDate, monthKey);
        data := Some(report);
      }
    }

    /** Choosing a range re-runs the load. */
    method SetDateRange(range: string, fetched: Result<Fetched>, now: int, subMonths: (int, int) -> int,
                        monthKey: int -> string)
      modifies this`dateRange, this`data
      ensures dateRange == range
      ensures fetched.Ok? ==> data == Some(Report(fetched.value.events, fetched.value.invoices,
        fetched.value.menuItems, subMonths(now, MonthsBack(range)), monthKey))
      ensures fetched.Err? ==> data == old(data)
    {
      dateRange := range;
      LoadReportData(fetched, now, subMonths, monthKey);
    }
  }
}

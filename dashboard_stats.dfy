/** The dashboard's four stat cards: revenue over all invoices, upcoming events, pending
    invoices and completed events, each card with its activity label. */
module DashboardStats {
  import opened Wrappers
  import opened Lists
  import opened Entities
  import Events
  import Invoices

  datatype Stats = Stats(totalRevenue: int, upcomingEvents: nat, pendingInvoices: nat, completedEvents: nat)

  /** An event is upcoming when it is dated now or later and not cancelled. */
  function Upcoming(now: int): Event -> bool {
    (e: Event) => e.date >= now && e.status != "cancelled"
  }

  function Completed(e: Event): bool {
    e.status == "completed"
  }

  function Pending(i: Invoice): bool {
    i.status == "pending"
  }

  /** The counters of `loadStats`; `now` is the current instant. */
  function ComputeStats(events: seq<Event>, invoices: seq<Invoice>, now: int): (s: Stats)
    ensures s.totalRevenue == Sum(invoices, InvoiceTotal)
    ensures invoices == [] ==> s.totalRevenue == 0 && s.pendingInvoices == 0
    ensures events == [] ==> s.upcomingEvents == 0 && s.completedEvents == 0
    ensures s.upcomingEvents <= |events| && s.completedEvents <= |events|
    ensures s.pendingInvoices <= |invoices|
    ensures s.upcomingEvents == |Filter(events, Upcoming(now))|
    ensures s.pendingInvoices == |Filter(invoices, Pending)|
    ensures s.completedEvents == |Filter(events, Completed)|
  {
    Stats(Sum(invoices, InvoiceTotal), |Filter(events, Upcoming(now))|,
          |Filter(invoices, Pending)|, |Filter(events, Completed)|)
  }

  /** Cancelling an event never raises the upcoming count, and lowers it when the event was
      upcoming. */
  lemma {:induction false} CancelLowersUpcoming(events: seq<Event>, id: int, now: int)
    ensures |Filter(Events.WithStatus(events, id, "cancelled"), Upcoming(now))| <= |Filter(events, Upcoming(now))|
    ensures (exists i :: 0 <= i < |events| && events[i].Id == id && Upcoming(now)(events[i])) ==>
      |Filter(Events.WithStatus(events, id, "cancelled"), Upcoming(now))| < |Filter(events, Upcoming(now))|
  {
    if events != [] {
      var r := Events.WithStatus(events, id, "cancelled");
      assert r[1..] == Events.WithStatus(events[1..], id, "cancelled");
      CancelLowersUpcoming(events[1..], id, now);
      if exists i :: 0 <= i < |events| && events[i].Id == id && Upcoming(now)(events[i]) {
        var i :| 0 <= i < |events| && events[i].Id == id && Upcoming(now)(events[i]);
        if i > 0 {
          assert events[1..][i - 1] == events[i];
        }
      }
    }
  }

  /** Marking an invoice paid never raises the pending count. */
  lemma {:induction false} PaidLowersPending(invoices: seq<Invoice>, id: int)
    ensures |Filter(Invoices.WithStatus(invoices, id, "paid"), Pending)| <= |Filter(invoices, Pending)|
  {
    if invoices != [] {
      var r := Invoices.WithStatus(invoices, id, "paid");
      assert r[1..] == Invoices.WithStatus(invoices[1..], id, "paid");
      PaidLowersPending(invoices[1..], id);
    }
  }

  /** What a card shows: its value, the activity line and its tone. */
  datatype Card = Card(value: int, change: string, changeType: string)

  /** `stats?.x || 0`: before the stats arrive (or when loading failed) every value is 0. */
  function UpcomingShown(stats: Option<Stats>): int {
    if stats.Some? then stats.value.upcomingEvents else 0
  }

  function PendingShown(stats: Option<Stats>): int {
    if stats.Some? then stats.value.pendingInvoices else 0
  }

  function CompletedShown(stats: Option<Stats>): int {
    if stats.Some? then stats.value.completedEvents else 0
  }

  function RevenueShown(stats: Option<Stats>): int {
    if stats.Some? then stats.value.totalRevenue else 0
  }

  /** "Upcoming Events": 'High activity' and positive above five, else 'Normal activity'. */
  function UpcomingCard(stats: Option<Stats>): (c: Card)
    ensures c.value == UpcomingShown(stats)
    ensures c.change == "High activity" <==> c.value > 5
    ensures c.changeType == "positive" <==> c.value > 5
    ensures c.value <= 5 ==> c.change == "Normal activity" && c.changeType == "neutral"
  {
    var n := UpcomingShown(stats);
    Card(n, (if n > 5 then "High" else "Normal") + " activity", if n > 5 then "positive" else "neutral")
  }

  /** "Pending Invoices": 'Requires attention' and negative when any is pending, else 'All clear'. */
  function PendingCard(stats: Option<Stats>): (c: Card)
    ensures c.value == PendingShown(stats)
    ensures c.change == "Requires attention" <==> c.value > 0
    ensures c.changeType == "negative" <==> c.value > 0
    ensures c.value <= 0 ==> c.change == "All clear" && c.changeType == "positive"
  {
    var n := PendingShown(stats);
    if n > 0 then Card(n, "Requires attention", "negative") else Card(n, "All clear", "positive")
  }

  /** "Total Revenue" and "Completed Events" carry fixed activity lines. */
  function RevenueCard(stats: Option<Stats>): (c: Card)
    ensures c.value == RevenueShown(stats) && c.changeType == "positive"
  {
    Card(RevenueShown(stats), "+12.5% from last month", "positive")
  }

  function CompletedCard(stats: Option<Stats>): (c: Card)
    ensures c.value == CompletedShown(stats) && c.changeType == "positive"
  {
    Card(CompletedShown(stats), "+8 this month", "positive")
  }

  /** Before the stats arrive the cards read 0, 'Normal activity' and 'All clear'. */
  lemma NoStatsCards()
    ensures UpcomingCard(None) == Card(0, "Normal activity", "neutral")
    ensures PendingCard(None) == Card(0, "All clear", "positive")
  {
  }

  /** The component's state: `stats` is empty until `loadStats` succeeds. */
  class StatsPanel {
    var stats: Option<Stats>

    constructor ()
      ensures stats == None
    {
      stats := None;
    }

    /** `loadStats`, given the two `getAll` results; a failure is only logged. */
    method LoadStats(fetched: Result<(seq<Event>, seq<Invoice>)>, now: int)
      modifies this
      ensures fetched.Ok? ==> stats == Some(ComputeStats(fetched.value.0, fetched.value.1, now))
      ensures fetched.Err? ==> stats == old(stats)
    {
      if fetched.Ok? {
        stats := Some(ComputeStats(fetched.value.0, fetched.value.1, now));
      }
    }
  }
}

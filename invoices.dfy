/** The Invoices page: the invoice list, most recently issued first, with a search over the
    invoice number and the event identifier, status facets, a status-change handler, and four
    summary cards computed over what is shown. */
module Invoices {
  import opened Wrappers
  import opened Text
  import opened Lists
  import opened Records
  import opened Entities
  import Store
  import InvoiceService

  /** `result.sort((a, b) => new Date(b.dateIssued) - new Date(a.dateIssued))`: a permutation,
      most recently issued first, invoices of one issue date in the store's order. */
  function SortInvoices(invoices: seq<Invoice>): (r: seq<Invoice>)
    ensures multiset(r) == multiset(invoices)
    ensures forall i, j :: 0 <= i < j < |r| ==> r[i].dateIssued >= r[j].dateIssued
    ensures forall d :: WithKey(r, InvoiceDateIssued, d) == WithKey(invoices, InvoiceDateIssued, d)
  {
    AtLeastTotalPreorder();
    SortBySorted(invoices, InvoiceDateIssued, AtLeast);
    TotalPreorderReflexive(AtLeast);
    forall d ensures WithKey(SortBy(invoices, InvoiceDateIssued, AtLeast), InvoiceDateIssued, d) ==
      WithKey(invoices, InvoiceDateIssued, d) {
      SortByStable(invoices, InvoiceDateIssued, AtLeast, d);
    }
    SortBy(invoices, InvoiceDateIssued, AtLeast)
  }

  /** The search test for an already lower-cased `term`: the lower-cased invoice number, or the
      event identifier written in decimal. */
  predicate MatchesSearch(inv: Invoice, term: string) {
    Includes(Lower(inv.invoiceNumber), term) || Includes(IntToString(inv.eventId), term)
  }

  function SearchTest(term: string): Invoice -> bool {
    (inv: Invoice) => MatchesSearch(inv, term)
  }

  function FacetTest(activeFilters: seq<string>): Invoice -> bool {
    (inv: Invoice) => inv.status in activeFilters
  }

  predicate Shows(inv: Invoice, searchTerm: string, activeFilters: seq<string>) {
    (searchTerm != "" ==> MatchesSearch(inv, Lower(searchTerm))) &&
    (activeFilters != [] ==> inv.status in activeFilters)
  }

  /** What `filterInvoices` shows. */
  function InvoiceView(invoices: seq<Invoice>, searchTerm: string, activeFilters: seq<string>): (r: seq<Invoice>)
    ensures IsSubsequence(r, invoices)
    ensures forall i :: 0 <= i < |r| ==>
      r[i] in invoices && Shows(r[i], searchTerm, activeFilters)
    ensures forall i :: 0 <= i < |invoices| && Shows(invoices[i], searchTerm, activeFilters) ==>
      invoices[i] in r
    ensures searchTerm == "" && activeFilters == [] ==> r == invoices
  {
    var searched := FilterWhen(searchTerm != "", invoices, SearchTest(Lower(searchTerm)));
    var r := FilterWhen(activeFilters != [], searched, FacetTest(activeFilters));
    SubsequenceTransitive(r, searched, invoices);
    r
  }

  /** The filter keeps every copy of an invoice that passes it and no copy of one that does not. */
  lemma InvoiceViewCounts(invoices: seq<Invoice>, searchTerm: string, activeFilters: seq<string>, x: Invoice)
    ensures multiset(InvoiceView(invoices, searchTerm, activeFilters))[x] ==
      if Shows(x, searchTerm, activeFilters) then multiset(invoices)[x] else 0
  {
    var searched := FilterWhen(searchTerm != "", invoices, SearchTest(Lower(searchTerm)));
    FilterWhenMultiplicity(searchTerm != "", invoices, SearchTest(Lower(searchTerm)), x);
    FilterWhenMultiplicity(activeFilters != [], searched, FacetTest(activeFilters), x);
  }

  /** A search for an event's identifier finds every invoice of that event. */
  lemma SearchFindsEvent(inv: Invoice)
    ensures MatchesSearch(inv, Lower(IntToString(inv.eventId)))
  {
    IntToStringLower(inv.eventId);
    IncludesSelf(IntToString(inv.eventId));
  }

  /** Decimal digits and the minus sign are unchanged by lower-casing. */
  lemma IntToStringLower(n: int)
    ensures Lower(IntToString(n)) == IntToString(n)
  {
    var s := IntToString(n);
    forall i | 0 <= i < |s| ensures Lower(s)[i] == s[i] {
      IntToStringChars(n, i);
    }
  }

  lemma IntToStringChars(n: int, i: int)
    requires 0 <= i < |IntToString(n)|
    ensures IntToString(n)[i] == '-' || '0' <= IntToString(n)[i] <= '9'
  {
    if n < 0 && i > 0 {
      assert IntToString(n)[i] == NatToString(-n)[i - 1];
    }
  }

  /** `invoices.map(invoice => invoice.Id === invoiceId ? { ...invoice, status: newStatus } : invoice)`. */
  function WithStatus(invoices: seq<Invoice>, id: int, status: string): (r: seq<Invoice>)
    ensures |r| == |invoices|
    ensures forall i :: 0 <= i < |invoices| ==> r[i].Id == invoices[i].Id
    ensures forall i :: 0 <= i < |invoices| ==>
      r[i].status == (if invoices[i].Id == id then status else invoices[i].status)
    ensures forall i :: 0 <= i < |invoices| ==> r[i].(status := invoices[i].status) == invoices[i]
  {
    if invoices == [] then []
    else
      var head := if invoices[0].Id == id then invoices[0].(status := status) else invoices[0];
      [head] + WithStatus(invoices[1..], id, status)
  }

  /** A status change leaves every amount where it was: the grand total is unchanged. */
  lemma {:induction false} WithStatusTotal(invoices: seq<Invoice>, id: int, status: string)
    ensures Sum(WithStatus(invoices, id, status), InvoiceTotal) == Sum(invoices, InvoiceTotal)
  {
    if invoices != [] {
      WithStatusTotal(invoices[1..], id, status);
    }
  }

  /** The payload a status change sends: the identifier and the new status, nothing else. */
  lemma StatusPayload(id: int, status: string)
    ensures InvoiceService.UpdatePayload(id, map["status" := Str(status)]) ==
      map["Id" := Num(id), "status" := Str(status)]
  {
    assert "status" in InvoiceService.Updateable;
    assert Pick(map["status" := Str(status)], InvoiceService.Updateable) == map["status" := Str(status)];
  }

  lemma StatusRequest(id: int, status: string, resp: Store.WriteResponse)
    ensures InvoiceService.Update(id, map["status" := Str(status)], resp).request ==
      Store.UpdateRecord("invoice", [map["Id" := Num(id), "status" := Str(status)]])
  {
    StatusPayload(id, status);
  }

  // ---------------------------------------------------------------------------------------------
  // The summary cards, over the shown invoices

  function HasStatus(status: string): Invoice -> bool {
    (inv: Invoice) => inv.status == status
  }

  function IsOutstanding(inv: Invoice): bool {
    inv.status == "pending" || inv.status == "overdue"
  }

  /** The amount due on the invoices with status `status`. */
  function StatusTotal(shown: seq<Invoice>, status: string): int {
    Sum(Filter(shown, HasStatus(status)), InvoiceTotal)
  }

  /** "Total Outstanding": the totals of the pending and the overdue invoices. */
  function TotalOutstanding(shown: seq<Invoice>): (r: int)
    ensures r == StatusTotal(shown, "pending") + StatusTotal(shown, "overdue")
  {
    SumDisjointUnion(shown, InvoiceTotal, HasStatus("pending"), HasStatus("overdue"), IsOutstanding);
    Sum(Filter(shown, IsOutstanding), InvoiceTotal)
  }

  /** What an invoice contributes to the paid card: its total when it is paid, nothing otherwise. */
  function PaidAmount(inv: Invoice): int {
    if inv.status == "paid" then inv.total else 0
  }

  function NotPaid(inv: Invoice): bool {
    inv.status != "paid"
  }

  /** "Paid This Month": the totals of the paid invoices (whatever their date). */
  function PaidTotal(shown: seq<Invoice>): (r: int)
    ensures r == StatusTotal(shown, "paid")
    ensures r == Sum(shown, PaidAmount)
  {
    SumFilter(shown, HasStatus("paid"), InvoiceTotal, PaidAmount);
    Sum(Filter(shown, HasStatus("paid")), InvoiceTotal)
  }

  /** The paid card and the invoices not paid together account for every shown total. */
  lemma PaidAndUnpaid(shown: seq<Invoice>)
    ensures PaidTotal(shown) + Sum(Filter(shown, NotPaid), InvoiceTotal) == Sum(shown, InvoiceTotal)
  {
    SumSplit(shown, InvoiceTotal, HasStatus("paid"), NotPaid);
  }

  /** "Overdue" and "Draft": how many invoices have each status. */
  function StatusCount(shown: seq<Invoice>, status: string): (n: nat)
    ensures n <= |shown|
  {
    |Filter(shown, HasStatus(status))|
  }

  /** Invoices are counted under one status at most. */
  lemma CountsDisjoint(shown: seq<Invoice>, a: string, b: string)
    requires a != b
    ensures StatusCount(shown, a) + StatusCount(shown, b) <= |shown|
  {
    FilterDisjointLength(shown, HasStatus(a), HasStatus(b));
  }

  /** When no invoice of a status is shown, its card shows nothing. */
  lemma {:induction false} AbsentStatusTotal(shown: seq<Invoice>, status: string)
    requires forall i :: 0 <= i < |shown| ==> shown[i].status != status
    ensures StatusTotal(shown, status) == 0 && StatusCount(shown, status) == 0
  {
    if shown != [] {
      AbsentStatusTotal(shown[1..], status);
    }
  }

  class InvoicesPage {
    var invoices: seq<Invoice>
    var filteredInvoices: seq<Invoice>
    var error: Option<string>
    var searchTerm: string
    var activeFilters: seq<string>

    ghost predicate Valid()
      reads this
    {
      filteredInvoices == InvoiceView(invoices, searchTerm, activeFilters)
    }

    constructor ()
      ensures Valid()
      ensures invoices == [] && filteredInvoices == [] && error == None
      ensures searchTerm == "" && activeFilters == []
    {
      invoices, filteredInvoices, error := [], [], None;
      searchTerm, activeFilters := "", [];
    }

    /** The `filterInvoices` effect. */
    method FilterInvoices()
      modifies this`filteredInvoices
      ensures filteredInvoices == InvoiceView(invoices, searchTerm, activeFilters)
    {
      var filtered := invoices;
      if searchTerm != "" {
        var term := Lower(searchTerm);
        filtered := Filter(filtered, SearchTest(term));
      }
      if |activeFilters| > 0 {
        filtered := Filter(filtered, FacetTest(activeFilters));
      }
      filteredInvoices := filtered;
    }

    /** `loadInvoices`, given what `invoiceService.getAll` returned or threw. */
    method LoadInvoices(fetched: Result<seq<Invoice>>)
      requires Valid()
      modifies this`invoices, this`error, this`filteredInvoices
      ensures Valid()
      ensures fetched.Ok? ==> invoices == SortInvoices(fetched.value) && error == None
      ensures fetched.Err? ==> invoices == old(invoices)
      ensures fetched.Err? ==> error == Some(if fetched.message == "" then "Failed to load invoices" else fetched.message)
      ensures searchTerm == old(searchTerm) && activeFilters == old(activeFilters)
    {
      if fetched.Ok? {
        invoices, error := SortInvoices(fetched.value), None;
      } else {
        error := Some(if fetched.message == "" then "Failed to load invoices" else fetched.message);
      }
      FilterInvoices();
    }

    method SetSearchTerm(term: string)
      requires Valid()
      modifies this`searchTerm, this`filteredInvoices
      ensures Valid()
      ensures searchTerm == term
      ensures invoices == old(invoices) && activeFilters == old(activeFilters) && error == old(error)
    {
      searchTerm := term;
      FilterInvoices();
    }

    /** `handleFilterChange`. */
    method HandleFilterChange(filterValue: string)
      requires Valid()
      modifies this`activeFilters, this`filteredInvoices
      ensures Valid()
      ensures activeFilters == Toggle(old(activeFilters), filterValue)
      ensures invoices == old(invoices) && searchTerm == old(searchTerm) && error == old(error)
    {
      activeFilters := Toggle(activeFilters, filterValue);
      FilterInvoices();
    }

    /** `handleStatusChange`: sends `{ status: newStatus }` for the invoice and, only when the
        service does not throw, changes that invoice's status in the list. */
    method HandleStatusChange(invoiceId: int, newStatus: string, resp: Store.WriteResponse) returns (sent: Store.Request)
      requires Valid()
      modifies this`invoices, this`filteredInvoices
      ensures Valid()
      ensures sent == Store.UpdateRecord("invoice", [map["Id" := Num(invoiceId), "status" := Str(newStatus)]])
      ensures Store.WriteSucceeded(resp) ==> invoices == WithStatus(old(invoices), invoiceId, newStatus)
      ensures !Store.WriteSucceeded(resp) ==> invoices == old(invoices)
      ensures searchTerm == old(searchTerm) && activeFilters == old(activeFilters) && error == old(error)
    {
      var exchange := InvoiceService.Update(invoiceId, map["status" := Str(newStatus)], resp);
      sent := exchange.request;
      assert sent == Store.UpdateRecord("invoice", [map["Id" := Num(invoiceId), "status" := Str(newStatus)]]) by {
        StatusRequest(invoiceId, newStatus, resp);
      }
      if exchange.outcome.Ok? {
        invoices := WithStatus(invoices, invoiceId, newStatus);
      }
      FilterInvoices();
    }
  }
}

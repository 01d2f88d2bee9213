/** The dashboard's revenue chart: all invoices grouped by the month of their issue date, the
    month labels in string order, and one revenue value per label. */
module RevenueChart {
  import opened Wrappers
  import opened Text
  import opened Lists
  import opened Dict
  import opened Entities

  /** The month label of an invoice; `monthKey` is `toLocaleString` with short month and year. */
  function MonthOfIssue(monthKey: int -> string): Invoice -> string {
    (inv: Invoice) => monthKey(inv.dateIssued)
  }

  function InIssueMonth(monthKey: int -> string, month: string): Invoice -> bool {
    (inv: Invoice) => monthKey(inv.dateIssued) == month
  }

  /** The `invoices.forEach` that fills `monthlyRevenue`. */
  method GroupByMonth(invoices: seq<Invoice>, monthKey: int -> string) returns (monthlyRevenue: Dict)
    ensures monthlyRevenue == SumByKey(invoices, MonthOfIssue(monthKey), InvoiceTotal)
  {
    monthlyRevenue := [];
    var i := 0;
    while i < |invoices|
      invariant 0 <= i <= |invoices|
      invariant monthlyRevenue == SumByKey(invoices[..i], MonthOfIssue(monthKey), InvoiceTotal)
    {
      var invoice := invoices[i];
      var month := monthKey(invoice.dateIssued);
      monthlyRevenue := AddTo(monthlyRevenue, month, invoice.total);
      assert invoices[..i + 1][..i] == invoices[..i];
      i := i + 1;
    }
    assert invoices[..i] == invoices;
  }

  /** `Object.keys(monthlyRevenue).sort()`: the labels in string order. */
  function Categories(monthlyRevenue: Dict): (r: seq<string>)
    ensures multiset(r) == multiset(Keys(monthlyRevenue))
    ensures SortedBy(r, Self, LexLe)
  {
    LexLeTotalPreorder();
    SortBySorted(Keys(monthlyRevenue), Self, LexLe);
    SortBy(Keys(monthlyRevenue), Self, LexLe)
  }

  datatype ChartData = ChartData(categories: seq<string>, data: seq<int>)

  /** The series and the axis labels drawn for `invoices`. */
  function Chart(invoices: seq<Invoice>, monthKey: int -> string): ChartData {
    var monthlyRevenue := SumByKey(invoices, MonthOfIssue(monthKey), InvoiceTotal);
    var categories := Categories(monthlyRevenue);
    ChartData(categories, ValuesAt(monthlyRevenue, categories))
  }

  /** The labels are the distinct months of the invoices, each once, in string order. */
  lemma ChartCategories(invoices: seq<Invoice>, monthKey: int -> string)
    ensures var c := Chart(invoices, monthKey).categories;
      NoDup(c) && SortedBy(c, Self, LexLe) &&
      forall m :: m in c <==> exists i :: 0 <= i < |invoices| && monthKey(invoices[i].dateIssued) == m
  {
    var d := SumByKey(invoices, MonthOfIssue(monthKey), InvoiceTotal);
    var c := Categories(d);
    SumByKeyUnique(invoices, MonthOfIssue(monthKey), InvoiceTotal);
    PermutationNoDup(Keys(d), c);
    SumByKeyKeys(invoices, MonthOfIssue(monthKey), InvoiceTotal);
    forall m ensures m in c <==> m in Keys(d) {
      assert m in c <==> m in multiset(c);
    }
  }

  /** One value per label: the revenue of the invoices issued in that label's month. */
  lemma ChartValues(invoices: seq<Invoice>, monthKey: int -> string)
    ensures var chart := Chart(invoices, monthKey);
      |chart.data| == |chart.categories| &&
      forall i :: 0 <= i < |chart.data| ==>
        chart.data[i] == Sum(Filter(invoices, InIssueMonth(monthKey, chart.categories[i])), InvoiceTotal)
  {
    var chart := Chart(invoices, monthKey);
    forall i | 0 <= i < |chart.data|
      ensures chart.data[i] == Sum(Filter(invoices, InIssueMonth(monthKey, chart.categories[i])), InvoiceTotal)
    {
      SumByKeyGet(invoices, MonthOfIssue(monthKey), InvoiceTotal, chart.categories[i],
                  InIssueMonth(monthKey, chart.categories[i]));
    }
  }

  /** The chart's values add up to the total of all invoices. */
  lemma ChartTotal(invoices: seq<Invoice>, monthKey: int -> string)
    ensures Total(Chart(invoices, monthKey).data) == Sum(invoices, InvoiceTotal)
  {
    var d := SumByKey(invoices, MonthOfIssue(monthKey), InvoiceTotal);
    var c := Categories(d);
    TotalValuesAt(d, c);
    SumPermutation(c, Keys(d), At(d));
    SumByKeyUnique(invoices, MonthOfIssue(monthKey), InvoiceTotal);
    SumOverKeys(d);
    SumByKeyTotal(invoices, MonthOfIssue(monthKey), InvoiceTotal);
  }

  /** No invoices draw an empty chart. */
  lemma ChartEmpty(monthKey: int -> string)
    ensures Chart([], monthKey) == ChartData([], [])
  {
    assert Keys([]) == [];
  }

  class RevenueChartPanel {
    var chartData: Option<ChartData>

    constructor ()
      ensures chartData == None
    {
      chartData := None;
    }

    /** `loadChartData`, given what `invoiceService.getAll` returned or threw; a failure is only
        logged. */
    method LoadChartData(fetched: Result<seq<Invoice>>, monthKey: int -> string)
      modifies this
      ensures fetched.Ok? ==> chartData == Some(Chart(fetched.value, monthKey))
      ensures fetched.Err? ==> chartData == old(chartData)
    {
      if fetched.Ok? {
        var monthlyRevenue := GroupByMonth(fetched.value, monthKey);
        var categories := Categories(monthlyRevenue);
        var data := ValuesAt(monthlyRevenue, categories);
        chartData := Some(ChartData(categories, data));
      }
    }
  }
}

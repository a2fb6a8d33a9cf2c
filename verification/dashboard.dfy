/**
  The dashboard page's logic: the selected year, the lookup of its data set
  with the fallback to 2024, the growth rule and the year-comparison panels.
 */
module Dashboard {
  import opened SalesData
  import opened SalesChart

  datatype Option<T> = None | Some(value: T)

  /** Some entry of the collection carries `year`. */
  predicate HasYear(all: seq<YearlySales>, year: int) {
    exists i :: 0 <= i < |all| && all[i].year == year
  }

  /** The position of the first entry for `year`, if there is one. */
  function FindIndex(all: seq<YearlySales>, year: int): (r: Option<nat>)
    ensures r.None? <==> !HasYear(all, year)
    ensures r.Some? ==>
      && r.value < |all|
      && all[r.value].year == year
      && forall j :: 0 <= j < r.value ==> all[j].year != year
    decreases |all|
  {
    if |all| == 0 then None
    else if all[0].year == year then Some(0)
    else
      match FindIndex(all[1..], year)
      case None => None
      case Some(k) => Some(k + 1)
  }

  /** The lookup of a year in the collection: the first entry for `year`, if there is one. */
  function Find(all: seq<YearlySales>, year: int): (r: Option<YearlySales>)
    ensures r.None? <==> !HasYear(all, year)
    ensures r.Some? ==> r.value.year == year && r.value in all
    ensures r.Some? ==>
      exists i :: 0 <= i < |all| && all[i] == r.value && forall j :: 0 <= j < i ==> all[j].year != year
  {
    match FindIndex(all, year)
    case None => None
    case Some(i) => Some(all[i])
  }

  /** The data set the page shows: the selected year's, or the fallback when it is missing. */
  function CurrentYearData(all: seq<YearlySales>, selectedYear: int, fallback: YearlySales): (r: YearlySales)
    ensures HasYear(all, selectedYear) ==> r.year == selectedYear && r in all
    ensures HasYear(all, selectedYear) ==> Find(all, selectedYear) == Some(r)
    ensures HasYear(all, selectedYear) ==>
      exists i :: 0 <= i < |all| && all[i] == r && forall j :: 0 <= j < i ==> all[j].year != selectedYear
    ensures !HasYear(all, selectedYear) ==> r == fallback
  {
    match Find(all, selectedYear)
    case Some(y) => y
    case None => fallback
  }

  /** The fixed growth figure the page reports for 2022, in percent. */
  const Growth2022: real := 12.5

  /**
    The growth badge. `Unbounded` is the division by a zero previous total,
    which yields an infinite or not-a-number percentage; only the sign of the
    sales difference is kept.
   */
  datatype Growth =
    | Placeholder(percent: real)
    | NotAvailable
    | Change(percent: real)
    | Unbounded(difference: int)

  /** Whether the badge text starts with '+'. */
  predicate PlusPrefix(g: Growth) {
    match g
    case Placeholder(p) => true
    case NotAvailable => false
    case Change(p) => p > 0.0
    case Unbounded(d) => d > 0
  }

  /** The growth rule: the percentage change in total sales against the entry for `year - 1`. */
  function CalculateGrowth(all: seq<YearlySales>, year: int): (g: Growth)
    ensures year == 2022 ==> g == Placeholder(Growth2022)
    ensures g.Placeholder? <==> year == 2022
    ensures year != 2022 ==>
      (g.NotAvailable? <==> !HasYear(all, year) || !HasYear(all, year - 1))
    ensures g.Change? || g.Unbounded? ==> year != 2022 && HasYear(all, year) && HasYear(all, year - 1)
  {
    if year == 2022 then Placeholder(Growth2022)
    else
      match (Find(all, year), Find(all, year - 1))
      case (Some(current), Some(previous)) =>
        var difference := current.totalSales - previous.totalSales;
        if previous.totalSales == 0 then Unbounded(difference)
        else Change((difference as real / previous.totalSales as real) * 100.0)
      case _ => NotAvailable
  }

  /**
    When both years are present and the previous total is positive, the growth
    is a computed percentage that is positive exactly when sales rose and
    negative exactly when they fell; the '+' prefix marks exactly a rise.
   */
  lemma GrowthSign(all: seq<YearlySales>, year: int)
    requires year != 2022
    requires HasYear(all, year) && HasYear(all, year - 1)
    requires Find(all, year - 1).value.totalSales > 0
    ensures CalculateGrowth(all, year).Change?
    ensures CalculateGrowth(all, year).percent > 0.0 <==>
      Find(all, year).value.totalSales > Find(all, year - 1).value.totalSales
    ensures CalculateGrowth(all, year).percent < 0.0 <==>
      Find(all, year).value.totalSales < Find(all, year - 1).value.totalSales
    ensures PlusPrefix(CalculateGrowth(all, year)) <==>
      Find(all, year).value.totalSales > Find(all, year - 1).value.totalSales
  {
  }

  /**
    When both years are present and the previous total is zero, the division
    gives no finite percentage; the '+' prefix appears exactly when the current
    total is positive (an infinite rise), and not for a fall or for zero over zero.
   */
  lemma ZeroPreviousGrowth(all: seq<YearlySales>, year: int)
    requires year != 2022
    requires HasYear(all, year) && HasYear(all, year - 1)
    requires Find(all, year - 1).value.totalSales == 0
    ensures CalculateGrowth(all, year) == Unbounded(Find(all, year).value.totalSales)
    ensures PlusPrefix(CalculateGrowth(all, year)) <==> Find(all, year).value.totalSales > 0
  {
  }

  /** The 2022 figure depends on nothing in the data. */
  lemma Growth2022IgnoresData(a: seq<YearlySales>, b: seq<YearlySales>)
    ensures CalculateGrowth(a, 2022) == CalculateGrowth(b, 2022) == Placeholder(Growth2022)
    ensures PlusPrefix(CalculateGrowth(a, 2022))
  {
  }

  /** One year-comparison panel: the year's totals and whether it is highlighted. */
  datatype Panel = Panel(year: int, totalSales: int, totalProfit: int, totalOrders: int, highlighted: bool)

  /** The year-comparison panels: one per entry, in collection order. */
  function ComparisonPanels(all: seq<YearlySales>, selectedYear: int): (ps: seq<Panel>)
    ensures |ps| == |all|
    ensures forall i :: 0 <= i < |ps| ==>
      && ps[i].year == all[i].year
      && ps[i].totalSales == all[i].totalSales
      && ps[i].totalProfit == all[i].totalProfit
      && ps[i].totalOrders == all[i].totalOrders
      && (ps[i].highlighted <==> all[i].year == selectedYear)
    decreases |all|
  {
    if |all| == 0 then []
    else
      var y := all[0];
      [Panel(y.year, y.totalSales, y.totalProfit, y.totalOrders, y.year == selectedYear)]
        + ComparisonPanels(all[1..], selectedYear)
  }

  /** No two entries of the collection share a year. */
  predicate UniqueYears(all: seq<YearlySales>) {
    forall i, j :: 0 <= i < j < |all| ==> all[i].year != all[j].year
  }

  /**
    With unique years, a present selection highlights exactly one panel, the
    one for the data set the page shows; a missing selection highlights none
    while the page shows the fallback.
   */
  lemma HighlightMatchesCurrentYear(all: seq<YearlySales>, selectedYear: int, fallback: YearlySales)
    requires UniqueYears(all)
    ensures HasYear(all, selectedYear) ==>
      exists i :: 0 <= i < |all|
        && ComparisonPanels(all, selectedYear)[i].highlighted
        && all[i] == CurrentYearData(all, selectedYear, fallback)
        && forall j :: 0 <= j < |all| && j != i ==> !ComparisonPanels(all, selectedYear)[j].highlighted
    ensures !HasYear(all, selectedYear) ==>
      (forall j :: 0 <= j < |all| ==> !ComparisonPanels(all, selectedYear)[j].highlighted)
      && CurrentYearData(all, selectedYear, fallback) == fallback
  {
  }

  /** The dashboard's view state: the selected year and the chart's local state. */
  datatype DashboardState = DashboardState(selectedYear: int, chart: ChartState)

  /** The page opens on 2024 with the chart's initial state. */
  const InitialDashboardState: DashboardState := DashboardState(2024, InitialChartState)

  /** The user's inputs: the year selector, the chart-type buttons and the threshold field. */
  datatype Event =
    | SelectYear(year: int)
    | ChooseChartType(chartType: ChartType)
    | EnterThreshold(value: real)

  /** One input event; each changes only the state it belongs to. */
  function Step(s: DashboardState, e: Event): (r: DashboardState)
    ensures e.SelectYear? ==> r.selectedYear == e.year && r.chart == s.chart
    ensures e.ChooseChartType? ==>
      r.selectedYear == s.selectedYear && r.chart.chartType == e.chartType
      && r.chart.threshold == s.chart.threshold
    ensures e.EnterThreshold? ==>
      r.selectedYear == s.selectedYear && r.chart.threshold == e.value
      && r.chart.chartType == s.chart.chartType
  {
    match e
    case SelectYear(y) => s.(selectedYear := y)
    case ChooseChartType(t) => s.(chart := SetChartType(s.chart, t))
    case EnterThreshold(v) => s.(chart := SetThreshold(s.chart, v))
  }

  /**
    The page opens on 2024 with a bar chart; for a year without negative
    sales, that first chart draws every month of the year, in order.
   */
  lemma InitialRender(yearData: YearlySales)
    requires forall i :: 0 <= i < |yearData.data| ==> yearData.data[i].sales >= 0
    ensures InitialDashboardState.selectedYear == 2024
    ensures RenderChart(InitialDashboardState.chart, yearData) == BarView(yearData.data)
  {
    FilterKeepsAll(yearData.data, InitialDashboardState.chart.threshold);
  }

  /** Switching from bar to pie and back restores the state exactly. */
  lemma BarPieBarRoundTrip(s: DashboardState)
    requires s.chart.chartType == Bar
    ensures Step(Step(s, ChooseChartType(Pie)), ChooseChartType(Bar)) == s
  {
  }

  /**
    Over the generated collection: years are unique; 2024 and 2023 get a
    computed growth whose '+' marks a rise over the year before; 2022 gets the
    placeholder; every other year is not available; and the initial state
    shows the 2024 data set.
   */
  lemma ReferenceCollection(d2024: seq<MonthDraws>, d2023: seq<MonthDraws>, d2022: seq<MonthDraws>)
    requires ValidYearDraws(d2024) && ValidYearDraws(d2023) && ValidYearDraws(d2022)
    ensures var all := AllYearsData(d2024, d2023, d2022);
      && UniqueYears(all)
      && CalculateGrowth(all, 2024).Change?
      && (PlusPrefix(CalculateGrowth(all, 2024)) <==> all[0].totalSales > all[1].totalSales)
      && CalculateGrowth(all, 2023).Change?
      && (PlusPrefix(CalculateGrowth(all, 2023)) <==> all[1].totalSales > all[2].totalSales)
      && CalculateGrowth(all, 2022) == Placeholder(Growth2022)
      && (forall y :: y != 2022 && y != 2023 && y != 2024 ==> CalculateGrowth(all, y).NotAvailable?)
      && CurrentYearData(all, InitialDashboardState.selectedYear, SalesData2024(d2024)) == all[0]
  {
    var all := AllYearsData(d2024, d2023, d2022);
    AllYearsWellFormed(d2024, d2023, d2022);
    assert all[1].totalSales > 0 && all[2].totalSales > 0;
    assert Find(all, 2024) == Some(all[0]);
    assert Find(all, 2023) == Some(all[1]);
    assert Find(all, 2022) == Some(all[2]);
    GrowthSign(all, 2024);
    GrowthSign(all, 2023);
    forall y | y != 2022 && y != 2023 && y != 2024
      ensures CalculateGrowth(all, y).NotAvailable?
    {
      assert !HasYear(all, y);
    }
  }

  /** Selecting a year outside the collection falls back to 2024 without failing. */
  lemma MissingYearFallsBackTo2024(d2024: seq<MonthDraws>, d2023: seq<MonthDraws>, d2022: seq<MonthDraws>, year: int)
    requires ValidYearDraws(d2024) && ValidYearDraws(d2023) && ValidYearDraws(d2022)
    requires year != 2022 && year != 2023 && year != 2024
    ensures CurrentYearData(AllYearsData(d2024, d2023, d2022), year, SalesData2024(d2024))
         == AllYearsData(d2024, d2023, d2022)[0]
    ensures CurrentYearData(AllYearsData(d2024, d2023, d2022), year, SalesData2024(d2024)).year == 2024
  {
  }
}

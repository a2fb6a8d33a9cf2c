/**
  The sales chart's view logic: the chart-type choice, the threshold filter,
  the pie projection, the pie cell colours and the three-way render dispatch.
 */
module SalesChart {
  import opened SalesData

  /** The closed set of chart kinds the selector offers. */
  datatype ChartType = Bar | Line | Pie

  /** The chart's local state: the selected kind and the sales threshold. */
  datatype ChartState = ChartState(chartType: ChartType, threshold: real)

  /** The chart opens as a bar chart with threshold 0. */
  const InitialChartState: ChartState := ChartState(Bar, 0.0)

  /** Any chart kind can be selected from any state; the threshold is kept. */
  function SetChartType(s: ChartState, t: ChartType): (r: ChartState)
    ensures r.chartType == t && r.threshold == s.threshold
  {
    s.(chartType := t)
  }

  /** Any threshold is accepted as entered, without validation or clamping. */
  function SetThreshold(s: ChartState, v: real): (r: ChartState)
    ensures r.threshold == v && r.chartType == s.chartType
  {
    s.(threshold := v)
  }

  /** The filter predicate: a month is shown when its sales reach the threshold. */
  predicate Keeps(r: SalesRecord, threshold: real) {
    r.sales as real >= threshold
  }

  /** `a` is obtained from `b` by deleting elements, keeping the order of the rest. */
  predicate IsSubsequence<T(==)>(a: seq<T>, b: seq<T>)
    decreases |b|
  {
    if |a| == 0 then true
    else if |b| == 0 then false
    else (a[0] == b[0] && IsSubsequence(a[1..], b[1..])) || IsSubsequence(a, b[1..])
  }

  /** The threshold filter: the records whose sales reach the threshold, in their original order. */
  function Filter(data: seq<SalesRecord>, threshold: real): (r: seq<SalesRecord>)
    ensures |r| <= |data|
    ensures forall x :: x in r <==> x in data && Keeps(x, threshold)
    decreases |data|
  {
    if |data| == 0 then []
    else if Keeps(data[0], threshold) then [data[0]] + Filter(data[1..], threshold)
    else Filter(data[1..], threshold)
  }

  /** The filtered months are a subsequence of the year's months, in their original order. */
  lemma {:induction false} FilterIsSubsequence(data: seq<SalesRecord>, threshold: real)
    ensures IsSubsequence(Filter(data, threshold), data)
    decreases |data|
  {
    if |data| != 0 {
      FilterIsSubsequence(data[1..], threshold);
      var rest := Filter(data[1..], threshold);
      if Keeps(data[0], threshold) {
        assert Filter(data, threshold) == [data[0]] + rest;
        assert ([data[0]] + rest)[1..] == rest;
      } else {
        assert Filter(data, threshold) == rest;
        if |rest| != 0 {
          assert IsSubsequence(rest, data[1..]);
        }
      }
    }
  }

  /** Filtering distributes over concatenation, so it decides month by month. */
  lemma {:induction false} FilterAppend(a: seq<SalesRecord>, b: seq<SalesRecord>, threshold: real)
    ensures Filter(a + b, threshold) == Filter(a, threshold) + Filter(b, threshold)
    decreases |a|
  {
    if |a| == 0 {
      assert a + b == b;
    } else {
      assert (a + b)[0] == a[0];
      assert (a + b)[1..] == a[1..] + b;
      FilterAppend(a[1..], b, threshold);
    }
  }

  /** When every month reaches the threshold, nothing is filtered out. */
  lemma {:induction false} FilterKeepsAll(data: seq<SalesRecord>, threshold: real)
    requires forall i :: 0 <= i < |data| ==> Keeps(data[i], threshold)
    ensures Filter(data, threshold) == data
    decreases |data|
  {
    if |data| != 0 {
      assert Keeps(data[0], threshold);
      FilterKeepsAll(data[1..], threshold);
      assert [data[0]] + data[1..] == data;
    }
  }

  /** When no month reaches the threshold, nothing is shown. */
  lemma {:induction false} FilterDropsAll(data: seq<SalesRecord>, threshold: real)
    requires forall i :: 0 <= i < |data| ==> !Keeps(data[i], threshold)
    ensures Filter(data, threshold) == []
    decreases |data|
  {
    if |data| != 0 {
      assert !Keeps(data[0], threshold);
      FilterDropsAll(data[1..], threshold);
    }
  }

  /** Filtering twice with the same threshold is filtering once. */
  lemma FilterIdempotent(data: seq<SalesRecord>, threshold: real)
    ensures Filter(Filter(data, threshold), threshold) == Filter(data, threshold)
  {
  }

  /**
    Raising the threshold only removes months: the result for the higher
    threshold is the lower threshold's result filtered again, hence a
    subsequence of it and no longer.
   */
  lemma {:induction false} FilterMonotone(data: seq<SalesRecord>, t1: real, t2: real)
    requires t1 <= t2
    ensures Filter(data, t2) == Filter(Filter(data, t1), t2)
    ensures IsSubsequence(Filter(data, t2), Filter(data, t1))
    ensures |Filter(data, t2)| <= |Filter(data, t1)|
    decreases |data|
  {
    if |data| != 0 {
      FilterMonotone(data[1..], t1, t2);
      if Keeps(data[0], t1) {
        var rest := Filter(data[1..], t1);
        assert Filter(data, t1) == [data[0]] + rest;
        assert ([data[0]] + rest)[0] == data[0];
        assert ([data[0]] + rest)[1..] == rest;
      }
    }
    FilterIsSubsequence(Filter(data, t1), t2);
  }

  /** With the initial threshold 0, a generated year shows all twelve months. */
  lemma InitialThresholdShowsAllMonths(year: int, baseAmount: real, draws: seq<MonthDraws>)
    requires baseAmount >= 0.0
    requires ValidYearDraws(draws)
    ensures Filter(GenerateSalesData(year, baseAmount, draws), InitialChartState.threshold)
         == GenerateSalesData(year, baseAmount, draws)
    ensures |Filter(GenerateSalesData(year, baseAmount, draws), InitialChartState.threshold)| == 12
  {
    var data := GenerateSalesData(year, baseAmount, draws);
    GeneratedRecordsWellFormed(year, baseAmount, draws);
    FilterKeepsAll(data, InitialChartState.threshold);
  }

  /** Three months with sales 100, 50 and 200 under threshold 75 show January and March. */
  lemma FilterExample()
    ensures Filter([SalesRecord("Jan", 100, 0, 0), SalesRecord("Feb", 50, 0, 0), SalesRecord("Mar", 200, 0, 0)], 75.0)
         == [SalesRecord("Jan", 100, 0, 0), SalesRecord("Mar", 200, 0, 0)]
  {
  }

  /** One pie slice: a month's name and its sales. */
  datatype PieSlice = PieSlice(name: string, value: int)

  /** The pie projection: one slice per record, named after its month and sized by its sales. */
  function PieData(records: seq<SalesRecord>): (r: seq<PieSlice>)
    ensures |r| == |records|
    ensures forall i :: 0 <= i < |r| ==> r[i].name == records[i].month && r[i].value == records[i].sales
    decreases |records|
  {
    if |records| == 0 then []
    else [PieSlice(records[0].month, records[0].sales)] + PieData(records[1..])
  }

  /** The total a pie's percentages are taken against. */
  function PieTotal(slices: seq<PieSlice>): int
    decreases |slices|
  {
    if |slices| == 0 then 0 else slices[0].value + PieTotal(slices[1..])
  }

  /** The pie's whole is exactly the filtered months' total sales. */
  lemma {:induction false} PieTotalIsSalesTotal(records: seq<SalesRecord>)
    ensures PieTotal(PieData(records)) == Sum(records, SalesField)
    decreases |records|
  {
    if |records| != 0 {
      PieTotalIsSalesTotal(records[1..]);
      assert PieData(records)[1..] == PieData(records[1..]);
    }
  }

  /** The five chart colours the pie cells cycle through. */
  const Colors: seq<string> :=
    ["hsl(var(--chart-1))", "hsl(var(--chart-2))", "hsl(var(--chart-3))",
     "hsl(var(--chart-4))", "hsl(var(--chart-5))"]

  /** The colour of the pie cell at `index`: the colours are used in turn, starting again after the last. */
  function CellColorIndex(index: nat): (c: nat)
    ensures c < |Colors| == 5
    ensures (index - c) % |Colors| == 0
  {
    index % |Colors|
  }

  /**
    The colours repeat every five cells, and any five consecutive cells get
    five different colours.
   */
  lemma ColorsCycle(i: nat, j: nat)
    ensures CellColorIndex(i + |Colors|) == CellColorIndex(i)
    ensures i < j < i + |Colors| ==> CellColorIndex(i) != CellColorIndex(j)
  {
  }

  /** What the chart area draws: the kind and the data it consumes. */
  datatype ChartView =
    | BarView(records: seq<SalesRecord>)
    | LineView(records: seq<SalesRecord>)
    | PieView(slices: seq<PieSlice>)

  /** The records under the current threshold. */
  function FilteredData(s: ChartState, yearData: YearlySales): seq<SalesRecord> {
    Filter(yearData.data, s.threshold)
  }

  /** The number of months the chart header reports as shown. */
  function MonthsShown(s: ChartState, yearData: YearlySales): nat {
    |FilteredData(s, yearData)|
  }

  /** The number of data points a view draws. */
  function ViewSize(v: ChartView): nat {
    match v
    case BarView(rs) => |rs|
    case LineView(rs) => |rs|
    case PieView(ps) => |ps|
  }

  /** The exhaustive render dispatch over the chart kind. */
  function RenderChart(s: ChartState, yearData: YearlySales): (v: ChartView)
    ensures v.BarView? <==> s.chartType == Bar
    ensures v.LineView? <==> s.chartType == Line
    ensures v.PieView? <==> s.chartType == Pie
    ensures v.BarView? || v.LineView? ==> v.records == FilteredData(s, yearData)
    ensures v.PieView? ==> v.slices == PieData(FilteredData(s, yearData))
  {
    match s.chartType
    case Bar => BarView(FilteredData(s, yearData))
    case Line => LineView(FilteredData(s, yearData))
    case Pie => PieView(PieData(FilteredData(s, yearData)))
  }

  /**
    Every kind of chart draws exactly the months the header counts, each in
    calendar order: bar and line draw the filtered records themselves, the pie
    draws one slice per filtered record.
   */
  lemma RenderShowsFilteredMonths(s: ChartState, yearData: YearlySales)
    ensures ViewSize(RenderChart(s, yearData)) == MonthsShown(s, yearData)
    ensures !RenderChart(s, yearData).PieView? ==>
      IsSubsequence(RenderChart(s, yearData).records, yearData.data)
    ensures RenderChart(s, yearData).PieView? ==>
      forall i :: 0 <= i < MonthsShown(s, yearData) ==>
        RenderChart(s, yearData).slices[i].name == FilteredData(s, yearData)[i].month
  {
    FilterIsSubsequence(yearData.data, s.threshold);
  }

  /** Switching the chart kind never changes which months are shown. */
  lemma ChartTypeKeepsMonths(s: ChartState, t: ChartType, yearData: YearlySales)
    ensures FilteredData(SetChartType(s, t), yearData) == FilteredData(s, yearData)
    ensures SetChartType(SetChartType(s, t), s.chartType) == s
  {
  }
}

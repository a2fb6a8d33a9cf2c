/**
  The synthetic yearly sales data: monthly records, the seasonal generator
  (with the random draws passed in as parameters), the yearly totals and the
  fixed three-year collection.
 */
module SalesData {

  /** One calendar month's figures. */
  datatype SalesRecord = SalesRecord(month: string, sales: int, profit: int, orders: int)

  /** One year's data set together with its yearly aggregates. */
  datatype YearlySales = YearlySales(
    year: int,
    data: seq<SalesRecord>,
    totalSales: int,
    totalProfit: int,
    totalOrders: int)

  const Months: seq<string> :=
    ["Jan", "Feb", "Mar", "Apr", "May", "Jun",
     "Jul", "Aug", "Sep", "Oct", "Nov", "Dec"]

  /** The seasonal curve, one multiplier per month. */
  const SeasonalMultipliers: seq<real> :=
    [0.8, 0.75, 0.9, 0.95, 1.0, 1.05, 1.1, 1.08, 1.0, 1.15, 1.25, 1.4]

  const BaseAmount2024: real := 285000.0
  const BaseAmount2023: real := 245000.0
  const BaseAmount2022: real := 198000.0

  /** `Math.round`: the nearest integer, halves rounded towards +infinity. */
  function Round(x: real): (r: int)
    ensures r as real - 0.5 <= x < r as real + 0.5
  {
    (x + 0.5).Floor
  }

  /** Rounding never moves a value past an integer bound it respects. */
  lemma RoundWithin(x: real, lo: int, hi: int)
    requires lo as real <= x <= hi as real
    ensures lo <= Round(x) <= hi
  {
  }

  /** The product of two non-negative reals is non-negative. */
  lemma MulNonNegative(a: real, b: real)
    requires 0.0 <= a && 0.0 <= b
    ensures 0.0 <= a * b
  {
  }

  /**
    The three `Math.random()` values one month consumes, in the order the
    generator draws them: the sales variation, the profit margin and the
    average order size.
   */
  datatype MonthDraws = MonthDraws(variation: real, margin: real, orderSize: real)

  /** `Math.random()` returns a value in [0, 1). */
  predicate IsUnitDraw(x: real) {
    0.0 <= x < 1.0
  }

  predicate ValidDraws(d: MonthDraws) {
    IsUnitDraw(d.variation) && IsUnitDraw(d.margin) && IsUnitDraw(d.orderSize)
  }

  /** A year's worth of draws: one triple per month. */
  predicate ValidYearDraws(draws: seq<MonthDraws>) {
    |draws| == |Months| && forall i :: 0 <= i < |draws| ==> ValidDraws(draws[i])
  }

  /** The random sales factor, in [0.9, 1.1). */
  function VariationFactor(d: MonthDraws): real {
    0.9 + d.variation * 0.2
  }

  /** The random profit rate, in [0.15, 0.25). */
  function ProfitRate(d: MonthDraws): real {
    0.15 + d.margin * 0.1
  }

  /** The random average order size, in [80, 120). */
  function AverageOrderSize(d: MonthDraws): real {
    80.0 + d.orderSize * 40.0
  }

  lemma DrawRanges(d: MonthDraws)
    requires ValidDraws(d)
    ensures 0.9 <= VariationFactor(d) < 1.1
    ensures 0.15 <= ProfitRate(d) < 0.25
    ensures 80.0 <= AverageOrderSize(d) < 120.0
  {
  }

  /** One month's record from its seasonal multiplier and its draws. */
  function GenerateRecord(month: string, baseAmount: real, seasonal: real, d: MonthDraws): (r: SalesRecord)
    requires ValidDraws(d)
    ensures r.month == month
    ensures r.sales as real - 0.5 <= baseAmount * seasonal * VariationFactor(d) < r.sales as real + 0.5
    ensures r.profit as real - 0.5 <= r.sales as real * ProfitRate(d) < r.profit as real + 0.5
    ensures r.orders as real - 0.5 <= r.sales as real / AverageOrderSize(d) < r.orders as real + 0.5
  {
    var sales := Round(baseAmount * seasonal * VariationFactor(d));
    var profit := Round(sales as real * ProfitRate(d));
    var orders := Round(sales as real / AverageOrderSize(d));
    SalesRecord(month, sales, profit, orders)
  }

  /**
    The generator: twelve records in calendar order. The year is only a label
    and takes no part in the computation.
   */
  function GenerateSalesData(year: int, baseAmount: real, draws: seq<MonthDraws>): (r: seq<SalesRecord>)
    requires ValidYearDraws(draws)
    ensures |r| == |Months| == 12
    ensures forall i :: 0 <= i < |r| ==> r[i].month == Months[i]
    ensures forall i :: 0 <= i < |r| ==>
      r[i] == GenerateRecord(Months[i], baseAmount, SeasonalMultipliers[i], draws[i])
  {
    seq(|Months|, i requires 0 <= i < |Months| =>
      GenerateRecord(Months[i], baseAmount, SeasonalMultipliers[i], draws[i]))
  }

  lemma SeasonalMultipliersInRange()
    ensures |SeasonalMultipliers| == |Months|
    ensures forall i :: 0 <= i < |SeasonalMultipliers| ==> 0.75 <= SeasonalMultipliers[i] <= 1.4
  {
  }

  /** For a non-negative sales figure, the rounded profit lies in [0, sales]. */
  lemma ProfitWithinSales(sales: int, rate: real)
    requires sales >= 0
    requires 0.15 <= rate <= 0.25
    ensures 0 <= Round(sales as real * rate) <= sales
  {
  }

  /** For a non-negative sales figure, the rounded order count lies in [0, sales]. */
  lemma OrdersWithinSales(sales: int, size: real)
    requires sales >= 0
    requires 80.0 <= size < 120.0
    ensures 0 <= Round(sales as real / size) <= sales
  {
    var s := sales as real;
    var q := s / size;
    assert q * size == s;
    MulNonNegative(s, 1.0 / size);
    assert q == s * (1.0 / size);
    MulNonNegative(q, size - 1.0);
    RoundWithin(q, 0, sales);
  }

  /** A non-negative base amount never produces a negative sales figure. */
  lemma SalesNonNegative(baseAmount: real, seasonal: real, d: MonthDraws)
    requires baseAmount >= 0.0
    requires 0.75 <= seasonal <= 1.4
    requires ValidDraws(d)
    ensures Round(baseAmount * seasonal * VariationFactor(d)) >= 0
  {
  }

  /** A base amount of at least one makes every month sell something. */
  lemma SalesPositive(baseAmount: real, seasonal: real, d: MonthDraws)
    requires baseAmount >= 1.0
    requires 0.75 <= seasonal <= 1.4
    requires ValidDraws(d)
    ensures Round(baseAmount * seasonal * VariationFactor(d)) >= 1
  {
  }

  /** The construction invariant of a record: profit and orders lie in [0, sales]. */
  predicate WellFormedRecord(r: SalesRecord) {
    0 <= r.profit <= r.sales && 0 <= r.orders <= r.sales
  }

  /** Every generated record is well formed when the base amount is non-negative. */
  lemma GeneratedRecordsWellFormed(year: int, baseAmount: real, draws: seq<MonthDraws>)
    requires baseAmount >= 0.0
    requires ValidYearDraws(draws)
    ensures forall i :: 0 <= i < |Months| ==>
      WellFormedRecord(GenerateSalesData(year, baseAmount, draws)[i])
  {
    var data := GenerateSalesData(year, baseAmount, draws);
    SeasonalMultipliersInRange();
    forall i | 0 <= i < |Months|
      ensures WellFormedRecord(data[i])
    {
      var d := draws[i];
      SalesNonNegative(baseAmount, SeasonalMultipliers[i], d);
      DrawRanges(d);
      ProfitWithinSales(data[i].sales, ProfitRate(d));
      OrdersWithinSales(data[i].sales, AverageOrderSize(d));
    }
  }

  /** Every generated month sells at least one unit when the base amount is at least one. */
  lemma GeneratedSalesPositive(year: int, baseAmount: real, draws: seq<MonthDraws>)
    requires baseAmount >= 1.0
    requires ValidYearDraws(draws)
    ensures forall i :: 0 <= i < |Months| ==> GenerateSalesData(year, baseAmount, draws)[i].sales >= 1
  {
  }

  /** The three numeric fields a yearly total is taken over. */
  datatype Field = SalesField | ProfitField | OrdersField

  function FieldOf(r: SalesRecord, f: Field): int {
    match f
    case SalesField => r.sales
    case ProfitField => r.profit
    case OrdersField => r.orders
  }

  /** The sum of one field over a sequence of records. */
  function Sum(data: seq<SalesRecord>, f: Field): int
    decreases |data|
  {
    if |data| == 0 then 0 else FieldOf(data[0], f) + Sum(data[1..], f)
  }

  /** Adding one record at the end adds its field to the sum. */
  lemma {:induction false} SumSnoc(data: seq<SalesRecord>, r: SalesRecord, f: Field)
    ensures Sum(data + [r], f) == Sum(data, f) + FieldOf(r, f)
    decreases |data|
  {
    if |data| == 0 {
      assert data + [r] == [r];
    } else {
      assert (data + [r])[1..] == data[1..] + [r];
      SumSnoc(data[1..], r, f);
    }
  }

  /**
    The reduction the totals pass runs: a loop that starts from zero and adds
    the field of each record in turn, which computes the sum of the field.
   */
  method ReduceSum(data: seq<SalesRecord>, f: Field) returns (total: int)
    ensures total == Sum(data, f)
  {
    total := 0;
    var i := 0;
    while i < |data|
      invariant 0 <= i <= |data|
      invariant total == Sum(data[..i], f)
    {
      assert data[..i + 1] == data[..i] + [data[i]];
      SumSnoc(data[..i], data[i], f);
      total := total + FieldOf(data[i], f);
      i := i + 1;
    }
    assert data[..i] == data;
  }

  /** A left fold that adds the field of each record, in order, to an accumulator. */
  function FoldSum(data: seq<SalesRecord>, f: Field, acc: int): int
    decreases |data|
  {
    if |data| == 0 then acc else FoldSum(data[1..], f, acc + FieldOf(data[0], f))
  }

  /** The left fold from an accumulator adds the sum of the field to it. */
  lemma {:induction false} FoldSumIsSum(data: seq<SalesRecord>, f: Field, acc: int)
    ensures FoldSum(data, f, acc) == acc + Sum(data, f)
    decreases |data|
  {
    if |data| != 0 {
      FoldSumIsSum(data[1..], f, acc + FieldOf(data[0], f));
    }
  }

  /** The yearly aggregates agree with the live sums over the monthly data. */
  predicate TotalsConsistent(y: YearlySales) {
    && y.totalSales == Sum(y.data, SalesField)
    && y.totalProfit == Sum(y.data, ProfitField)
    && y.totalOrders == Sum(y.data, OrdersField)
  }

  /**
    The totals pass: each of the three reductions runs once per year. Its
    result is the year as `WithTotals` builds it for the collection.
   */
  method ComputeTotals(y: YearlySales) returns (r: YearlySales)
    ensures r.year == y.year && r.data == y.data
    ensures TotalsConsistent(r)
    ensures r == WithTotals(y.year, y.data)
  {
    var sales := ReduceSum(y.data, SalesField);
    var profit := ReduceSum(y.data, ProfitField);
    var orders := ReduceSum(y.data, OrdersField);
    r := y.(totalSales := sales, totalProfit := profit, totalOrders := orders);
  }

  /**
    A year with its totals filled in by three left folds from zero, as the
    totals pass leaves it; the totals equal the sums over the data.
   */
  function WithTotals(year: int, data: seq<SalesRecord>): (r: YearlySales)
    ensures r.year == year && r.data == data
    ensures TotalsConsistent(r)
  {
    FoldSumIsSum(data, SalesField, 0);
    FoldSumIsSum(data, ProfitField, 0);
    FoldSumIsSum(data, OrdersField, 0);
    YearlySales(year, data, FoldSum(data, SalesField, 0), FoldSum(data, ProfitField, 0), FoldSum(data, OrdersField, 0))
  }

  /** Over well-formed records, total profit and total orders lie in [0, total sales]. */
  lemma {:induction false} TotalsBoundedBySales(data: seq<SalesRecord>)
    requires forall i :: 0 <= i < |data| ==> WellFormedRecord(data[i])
    ensures 0 <= Sum(data, ProfitField) <= Sum(data, SalesField)
    ensures 0 <= Sum(data, OrdersField) <= Sum(data, SalesField)
    decreases |data|
  {
    if |data| != 0 {
      assert WellFormedRecord(data[0]);
      TotalsBoundedBySales(data[1..]);
    }
  }

  /** When every month sells at least one unit, total sales are at least the month count. */
  lemma {:induction false} TotalSalesAtLeastLength(data: seq<SalesRecord>)
    requires forall i :: 0 <= i < |data| ==> data[i].sales >= 1
    ensures Sum(data, SalesField) >= |data|
    decreases |data|
  {
    if |data| != 0 {
      assert data[0].sales >= 1;
      TotalSalesAtLeastLength(data[1..]);
    }
  }

  /** The 2024 data set, which the page also uses as its fallback. */
  function SalesData2024(draws: seq<MonthDraws>): YearlySales
    requires ValidYearDraws(draws)
  {
    WithTotals(2024, GenerateSalesData(2024, BaseAmount2024, draws))
  }

  /** The fixed collection: 2024, 2023, 2022, most recent first. */
  function AllYearsData(d2024: seq<MonthDraws>, d2023: seq<MonthDraws>, d2022: seq<MonthDraws>): (r: seq<YearlySales>)
    requires ValidYearDraws(d2024) && ValidYearDraws(d2023) && ValidYearDraws(d2022)
    ensures |r| == 3
    ensures r[0].year == 2024 && r[1].year == 2023 && r[2].year == 2022
    ensures r[0] == SalesData2024(d2024)
    ensures r[0].data == GenerateSalesData(2024, BaseAmount2024, d2024)
    ensures r[1].data == GenerateSalesData(2023, BaseAmount2023, d2023)
    ensures r[2].data == GenerateSalesData(2022, BaseAmount2022, d2022)
    ensures forall i :: 0 <= i < |r| ==> TotalsConsistent(r[i]) && |r[i].data| == 12
  {
    [SalesData2024(d2024),
     WithTotals(2023, GenerateSalesData(2023, BaseAmount2023, d2023)),
     WithTotals(2022, GenerateSalesData(2022, BaseAmount2022, d2022))]
  }

  /** Every year of the collection is well formed and has positive total sales. */
  lemma AllYearsWellFormed(d2024: seq<MonthDraws>, d2023: seq<MonthDraws>, d2022: seq<MonthDraws>)
    requires ValidYearDraws(d2024) && ValidYearDraws(d2023) && ValidYearDraws(d2022)
    ensures forall i :: 0 <= i < 3 ==>
      var y := AllYearsData(d2024, d2023, d2022)[i];
      && (forall j :: 0 <= j < |y.data| ==> WellFormedRecord(y.data[j]))
      && y.totalSales >= 12
      && 0 <= y.totalProfit <= y.totalSales
      && 0 <= y.totalOrders <= y.totalSales
  {
    var all := AllYearsData(d2024, d2023, d2022);
    var draws := [d2024, d2023, d2022];
    var bases := [BaseAmount2024, BaseAmount2023, BaseAmount2022];
    forall i | 0 <= i < 3
      ensures var y := all[i];
        && (forall j :: 0 <= j < |y.data| ==> WellFormedRecord(y.data[j]))
        && y.totalSales >= 12
        && 0 <= y.totalProfit <= y.totalSales
        && 0 <= y.totalOrders <= y.totalSales
    {
      var y := all[i];
      assert y.data == GenerateSalesData(y.year, bases[i], draws[i]);
      GeneratedRecordsWellFormed(y.year, bases[i], draws[i]);
      GeneratedSalesPositive(y.year, bases[i], draws[i]);
      TotalsBoundedBySales(y.data);
      TotalSalesAtLeastLength(y.data);
    }
  }
}

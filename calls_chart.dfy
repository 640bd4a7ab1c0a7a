/** The call-analytics card: a fixed sample series per time range, the
    received, dialed and overall totals of the selected series, and two
    exclusive toggle groups. */
module CallsChart {
  import opened Wrappers
  import opened JsValues

  datatype ChartPoint = ChartPoint(time: string, received: int, dialed: int)

  const DayData: seq<ChartPoint> := [
    ChartPoint("9 AM", 12, 8), ChartPoint("10 AM", 19, 11), ChartPoint("11 AM", 15, 14),
    ChartPoint("12 PM", 8, 10), ChartPoint("1 PM", 10, 7), ChartPoint("2 PM", 14, 12),
    ChartPoint("3 PM", 18, 15), ChartPoint("4 PM", 21, 13), ChartPoint("5 PM", 16, 9)
  ]

  const WeekData: seq<ChartPoint> := [
    ChartPoint("Mon", 85, 65), ChartPoint("Tue", 92, 78), ChartPoint("Wed", 104, 82),
    ChartPoint("Thu", 98, 76), ChartPoint("Fri", 110, 90), ChartPoint("Sat", 45, 30),
    ChartPoint("Sun", 30, 25)
  ]

  const MonthData: seq<ChartPoint> := [
    ChartPoint("Week 1", 564, 482), ChartPoint("Week 2", 612, 530),
    ChartPoint("Week 3", 587, 498), ChartPoint("Week 4", 635, 545)
  ]

  /** `timeRange === "day" ? dayData : timeRange === "week" ? weekData : monthData` */
  function ChartData(timeRange: string): (data: seq<ChartPoint>)
    ensures timeRange == "day" ==> data == DayData
    ensures timeRange == "week" ==> data == WeekData
    ensures timeRange != "day" && timeRange != "week" ==> data == MonthData
  {
    if timeRange == "day" then DayData
    else if timeRange == "week" then WeekData
    else MonthData
  }

  function Received(p: ChartPoint): int { p.received }

  function Dialed(p: ChartPoint): int { p.dialed }

  /** `data.reduce((sum, item) => sum + field(item), acc)`: a left fold. */
  function Reduce(data: seq<ChartPoint>, field: ChartPoint -> int, acc: int): int
  {
    if data == [] then acc else Reduce(data[1..], field, acc + field(data[0]))
  }

  /** The sum of a field over the series, the reference the fold is checked
      against. */
  function Sum(data: seq<ChartPoint>, field: ChartPoint -> int): int
  {
    if data == [] then 0 else field(data[0]) + Sum(data[1..], field)
  }

  lemma {:induction false} ReduceIsSum(data: seq<ChartPoint>, field: ChartPoint -> int, acc: int)
    ensures Reduce(data, field, acc) == acc + Sum(data, field)
    decreases |data|
  {
    if data != [] {
      ReduceIsSum(data[1..], field, acc + field(data[0]));
    }
  }

  lemma {:induction false} SumAppend(a: seq<ChartPoint>, b: seq<ChartPoint>, field: ChartPoint -> int)
    ensures Sum(a + b, field) == Sum(a, field) + Sum(b, field)
    decreases |a|
  {
    if a == [] {
      assert a + b == b;
    } else {
      assert (a + b)[1..] == a[1..] + b;
      SumAppend(a[1..], b, field);
    }
  }

  datatype Totals = Totals(received: int, dialed: int, calls: int)

  /** `totalReceived`, `totalDialed` and `totalCalls` of a series. */
  function TotalsOf(data: seq<ChartPoint>): (t: Totals)
    ensures t.received == Sum(data, Received) && t.dialed == Sum(data, Dialed)
    ensures t.calls == t.received + t.dialed
  {
    ReduceIsSum(data, Received, 0);
    ReduceIsSum(data, Dialed, 0);
    var received := Reduce(data, Received, 0);
    var dialed := Reduce(data, Dialed, 0);
    Totals(received, dialed, received + dialed)
  }

  /** The totals of two joined series add up. */
  lemma TotalsAppend(a: seq<ChartPoint>, b: seq<ChartPoint>)
    ensures TotalsOf(a + b).received == TotalsOf(a).received + TotalsOf(b).received
    ensures TotalsOf(a + b).dialed == TotalsOf(a).dialed + TotalsOf(b).dialed
    ensures TotalsOf(a + b).calls == TotalsOf(a).calls + TotalsOf(b).calls
  {
    SumAppend(a, b, Received);
    SumAppend(a, b, Dialed);
  }

  /** One step of the totals of a suffix of a series. */
  lemma TotalsStep(d: seq<ChartPoint>, k: nat)
    requires k < |d|
    ensures TotalsOf(d[k..]).received == d[k].received + TotalsOf(d[k + 1..]).received
    ensures TotalsOf(d[k..]).dialed == d[k].dialed + TotalsOf(d[k + 1..]).dialed
  {
    assert d[k..][0] == d[k] && d[k..][1..] == d[k + 1..];
  }

  lemma TwoPointTotals()
    ensures TotalsOf([ChartPoint("a", 10, 5), ChartPoint("b", 3, 2)]) == Totals(13, 7, 20)
  {
  }

  /** The end of the week series, from Friday on. */
  lemma WeekEndTotals()
    ensures TotalsOf(WeekData[4..]).received == 185 && TotalsOf(WeekData[4..]).dialed == 145
  {
    var d := WeekData;
    assert d[7..] == [];
    assert TotalsOf(d[6..]).received == 30 && TotalsOf(d[6..]).dialed == 25 by { TotalsStep(d, 6); }
    assert TotalsOf(d[5..]).received == 75 && TotalsOf(d[5..]).dialed == 55 by { TotalsStep(d, 5); }
    assert TotalsOf(d[4..]).received == 185 && TotalsOf(d[4..]).dialed == 145 by { TotalsStep(d, 4); }
  }

  lemma WeekTotals()
    ensures TotalsOf(ChartData("week")) == Totals(564, 446, 1010)
  {
    var d := WeekData;
    WeekEndTotals();
    assert TotalsOf(d[3..]).received == 283 && TotalsOf(d[3..]).dialed == 221 by { TotalsStep(d, 3); }
    assert TotalsOf(d[2..]).received == 387 && TotalsOf(d[2..]).dialed == 303 by { TotalsStep(d, 2); }
    assert TotalsOf(d[1..]).received == 479 && TotalsOf(d[1..]).dialed == 381 by { TotalsStep(d, 1); }
    assert TotalsOf(d[0..]).received == 564 && TotalsOf(d[0..]).dialed == 446 by { TotalsStep(d, 0); }
    assert d[0..] == d;
  }

  /** The afternoon half of the day series, from 1 PM on. */
  lemma DayAfternoonTotals()
    ensures TotalsOf(DayData[4..]).received == 79 && TotalsOf(DayData[4..]).dialed == 56
  {
    var d := DayData;
    assert d[9..] == [];
    assert TotalsOf(d[8..]).received == 16 && TotalsOf(d[8..]).dialed == 9 by { TotalsStep(d, 8); }
    assert TotalsOf(d[7..]).received == 37 && TotalsOf(d[7..]).dialed == 22 by { TotalsStep(d, 7); }
    assert TotalsOf(d[6..]).received == 55 && TotalsOf(d[6..]).dialed == 37 by { TotalsStep(d, 6); }
    assert TotalsOf(d[5..]).received == 69 && TotalsOf(d[5..]).dialed == 49 by { TotalsStep(d, 5); }
    assert TotalsOf(d[4..]).received == 79 && TotalsOf(d[4..]).dialed == 56 by { TotalsStep(d, 4); }
  }

  lemma DayTotals()
    ensures TotalsOf(ChartData("day")) == Totals(133, 99, 232)
  {
    var d := DayData;
    DayAfternoonTotals();
    assert TotalsOf(d[3..]).received == 87 && TotalsOf(d[3..]).dialed == 66 by { TotalsStep(d, 3); }
    assert TotalsOf(d[2..]).received == 102 && TotalsOf(d[2..]).dialed == 80 by { TotalsStep(d, 2); }
    assert TotalsOf(d[1..]).received == 121 && TotalsOf(d[1..]).dialed == 91 by { TotalsStep(d, 1); }
    assert TotalsOf(d[0..]).received == 133 && TotalsOf(d[0..]).dialed == 99 by { TotalsStep(d, 0); }
    assert d[0..] == d;
  }

  lemma MonthTotals(timeRange: string)
    requires timeRange != "day" && timeRange != "week"
    ensures TotalsOf(ChartData(timeRange)) == Totals(2398, 2055, 4453)
  {
    var d := MonthData;
    assert d[4..] == [];
    assert TotalsOf(d[3..]).received == 635 && TotalsOf(d[3..]).dialed == 545 by { TotalsStep(d, 3); }
    assert TotalsOf(d[2..]).received == 1222 && TotalsOf(d[2..]).dialed == 1043 by { TotalsStep(d, 2); }
    assert TotalsOf(d[1..]).received == 1834 && TotalsOf(d[1..]).dialed == 1573 by { TotalsStep(d, 1); }
    assert TotalsOf(d[0..]).received == 2398 && TotalsOf(d[0..]).dialed == 2055 by { TotalsStep(d, 0); }
    assert d[0..] == d;
  }

  class ChartCard {
    var chartType: string
    var timeRange: string

    constructor ()
      ensures chartType == "line" && timeRange == "week"
    {
      chartType := "line";
      timeRange := "week";
    }

    function CurrentTotals(): (t: Totals)
      reads this
      ensures t == TotalsOf(ChartData(timeRange))
    {
      TotalsOf(ChartData(timeRange))
    }

    /** The chart-type toggle: `null` (the selected button clicked again)
        leaves the state as it was. */
    method HandleChartTypeChange(newChartType: Option<string>)
      modifies this`chartType
      ensures newChartType.None? ==> chartType == old(chartType)
      ensures newChartType.Some? ==> chartType == newChartType.value
      ensures CurrentTotals() == old(CurrentTotals())
    {
      if newChartType.Some? {
        chartType := newChartType.value;
      }
    }

    /** The time-range toggle: `null` leaves the state as it was. */
    method HandleTimeRangeChange(newTimeRange: Option<string>)
      modifies this`timeRange
      ensures newTimeRange.None? ==> timeRange == old(timeRange) && CurrentTotals() == old(CurrentTotals())
      ensures newTimeRange.Some? ==> timeRange == newTimeRange.value
    {
      if newTimeRange.Some? {
        timeRange := newTimeRange.value;
      }
    }
  }

  /** A freshly mounted card shows the week series: 1010 calls, 564
      received and 446 dialed. */
  method DefaultTotals() returns (t: Totals)
    ensures t == Totals(564, 446, 1010)
  {
    var card := new ChartCard();
    WeekTotals();
    t := card.CurrentTotals();
  }
}

/** The data behind the dashboard's D3 charts: the random walks of the
    sparklines and of the revenue time series, the 7 x 24 activity
    heatmap, the scatter plot's points, and the two label rules (pie
    slices and heatmap hour ticks). Scales, axes and drawing are not
    modelled; `Math.random` draws and today's date are parameters. */
module ChartData {
  import opened Common
  import opened Text

  predicate IsDraw(r: real) {
    0.0 <= r < 1.0
  }

  predicate AllDraws(draws: seq<real>) {
    forall k :: 0 <= k < |draws| ==> IsDraw(draws[k])
  }

  /** The walk's parameters: its start value, the width of one random
      step, and the band every value is clamped to. */
  datatype Walk = Walk(start: real, amplitude: real, lo: real, hi: real)

  const Sparkline := Walk(50.0, 10.0, 10.0, 90.0)
  const Revenue := Walk(50000.0, 5000.0, 30000.0, 80000.0)

  /** One step of a walk from v with the draw r. */
  function Step(w: Walk, v: real, r: real): (next: real)
    requires w.lo <= w.hi
    ensures w.lo <= next <= w.hi
    ensures w.lo <= v + (r - 0.5) * w.amplitude <= w.hi ==> next == v + (r - 0.5) * w.amplitude
  {
    Clamp(v + (r - 0.5) * w.amplitude, w.lo, w.hi)
  }

  /** The values a walk produces from the draws, one per draw. */
  function Values(w: Walk, draws: seq<real>): (vs: seq<real>)
    requires w.lo <= w.hi
    ensures |vs| == |draws|
    ensures forall i :: 0 <= i < |vs| ==> w.lo <= vs[i] <= w.hi
    decreases |draws|
  {
    if draws == [] then []
    else
      var prev := Values(w, draws[..|draws| - 1]);
      prev + [Step(w, if prev == [] then w.start else prev[|prev| - 1], draws[|draws| - 1])]
  }

  /** The value before step i: the start value for the first step. */
  function Before(w: Walk, vs: seq<real>, i: nat): real
    requires i <= |vs|
  {
    if i == 0 then w.start else vs[i - 1]
  }

  /** Each value is the clamped step from the one before it. */
  lemma {:induction false} ValuesStep(w: Walk, draws: seq<real>, i: nat)
    requires w.lo <= w.hi && i < |draws|
    ensures Values(w, draws)[i] == Step(w, Before(w, Values(w, draws), i), draws[i])
    decreases |draws|
  {
    var prev := Values(w, draws[..|draws| - 1]);
    if i < |draws| - 1 {
      ValuesStep(w, draws[..|draws| - 1], i);
      assert Values(w, draws)[..|draws| - 1] == prev;
    }
  }

  /** One step of either walk from a value inside its band moves it by at
      most half the step width. */
  lemma StepMoves(w: Walk, v: real, r: real)
    requires w == Sparkline || w == Revenue
    requires w.lo <= v <= w.hi && IsDraw(r)
    ensures Abs(Step(w, v, r) - v) <= w.amplitude / 2.0
  {
    if w == Sparkline {
      var d := (r - 0.5) * 10.0;
      assert Step(w, v, r) == Clamp(v + d, 10.0, 90.0);
      ClampMoves(v, d, 10.0, 90.0);
    } else {
      var d := (r - 0.5) * 5000.0;
      assert Step(w, v, r) == Clamp(v + d, 30000.0, 80000.0);
      ClampMoves(v, d, 30000.0, 80000.0);
    }
  }

  /** Both walks start inside their band, so neither moves by more than
      half its step width between two consecutive values (5 for the
      sparklines, 2500 for the revenue series). */
  lemma StepBound(w: Walk, draws: seq<real>, i: nat)
    requires w == Sparkline || w == Revenue
    requires AllDraws(draws) && i < |draws|
    ensures Abs(Values(w, draws)[i] - Before(w, Values(w, draws), i)) <= w.amplitude / 2.0
  {
    var vs := Values(w, draws);
    var v := Before(w, vs, i);
    assert w.lo <= v <= w.hi by {
      if i > 0 {
        assert w.lo <= vs[i - 1] <= w.hi;
      }
    }
    ValuesStep(w, draws, i);
    assert IsDraw(draws[i]);
    StepMoves(w, v, draws[i]);
  }

  lemma ClampMoves(v: real, d: real, lo: real, hi: real)
    requires lo <= v <= hi
    ensures Abs(Clamp(v + d, lo, hi) - v) <= Abs(d)
  {
  }

  /** `generateSparklineData(count)`: `count` values of the sparkline walk. */
  method GenerateSparklineData(count: nat, draws: seq<real>) returns (data: seq<real>)
    requires |draws| == count
    ensures data == Values(Sparkline, draws)
  {
    data := [];
    var value := 50.0;
    for i := 0 to count
      invariant data == Values(Sparkline, draws[..i])
      invariant value == Before(Sparkline, data, i)
    {
      value := value + (draws[i] - 0.5) * 10.0;
      value := Clamp(value, 10.0, 90.0);
      assert draws[..i + 1][..i] == draws[..i];
      data := data + [value];
    }
    assert draws[..count] == draws;
  }

  /** Every sparkline value lies in [10, 90], and there is one per draw. */
  lemma SparklineRange(draws: seq<real>)
    ensures |Values(Sparkline, draws)| == |draws|
    ensures forall i :: 0 <= i < |draws| ==> 10.0 <= Values(Sparkline, draws)[i] <= 90.0
  {
  }

  /** A point of the revenue time series: its day number and value. */
  datatype DatedValue = DatedValue(day: int, value: real)

  /** The series for `days`: the point for step k is dated `days - k`
      days before today. */
  function TimeSeries(days: nat, today: int, draws: seq<real>): (ps: seq<DatedValue>)
    requires |draws| == days + 1
    ensures |ps| == days + 1
  {
    var vs := Values(Revenue, draws);
    seq(days + 1, k requires 0 <= k < days + 1 => DatedValue(today - (days - k), vs[k]))
  }

  /** `generateTimeSeriesData(days)`: one point per day from `days` days ago
      through today (`today` is a day number, so month ends are no concern). */
  method GenerateTimeSeriesData(days: nat, today: int, draws: seq<real>) returns (data: seq<DatedValue>)
    requires |draws| == days + 1
    ensures data == TimeSeries(days, today, draws)
  {
    data := [];
    var value := 50000.0;
    var i: int := days;
    ghost var vs := Values(Revenue, draws);
    while i >= 0
      invariant -1 <= i <= days
      invariant |data| == days - i
      invariant forall k :: 0 <= k < |data| ==> data[k] == DatedValue(today - (days - k), vs[k])
      invariant value == Before(Revenue, vs, days - i)
    {
      var k := days - i;
      var date := today - i;
      value := value + (draws[k] - 0.5) * 5000.0;
      value := Clamp(value, 30000.0, 80000.0);
      ValuesStep(Revenue, draws, k);
      data := data + [DatedValue(date, value)];
      i := i - 1;
    }
  }

  /** The series has days + 1 points, values in [30000, 80000], dates one
      day apart and strictly increasing, the last being today. */
  lemma TimeSeriesShape(days: nat, today: int, draws: seq<real>)
    requires |draws| == days + 1
    ensures var ps := TimeSeries(days, today, draws);
      && |ps| == days + 1
      && (forall k :: 0 <= k < |ps| ==> 30000.0 <= ps[k].value <= 80000.0)
      && (forall k :: 0 < k < |ps| ==> ps[k].day == ps[k - 1].day + 1)
      && ps[days].day == today
  {
  }

  /** The day names of the heatmap's rows, Monday first. */
  const Days: seq<string> := ["Mon", "Tue", "Wed", "Thu", "Fri", "Sat", "Sun"]
  const HoursPerDay: nat := 24

  datatype Cell = Cell(day: string, hour: nat, value: real)

  /** The cell of day d and hour h, from its draw. */
  function HeatCell(draws: seq<real>, d: nat, h: nat): (c: Cell)
    requires d < |Days| && h < HoursPerDay && |draws| == |Days| * HoursPerDay
    ensures c.day == Days[d] && c.hour == h
    ensures IsDraw(draws[d * HoursPerDay + h]) ==> 0.0 <= c.value < 100.0
  {
    Cell(Days[d], h, draws[d * HoursPerDay + h] * 100.0)
  }

  /** The heatmap data: for each day, for each hour, one cell. */
  method HeatmapData(draws: seq<real>) returns (cells: seq<Cell>)
    requires |draws| == |Days| * HoursPerDay
    ensures |cells| == |Days| * HoursPerDay
    ensures forall d, h :: 0 <= d < |Days| && 0 <= h < HoursPerDay ==>
      cells[d * HoursPerDay + h] == HeatCell(draws, d, h)
  {
    cells := [];
    for d := 0 to |Days|
      invariant |cells| == d * HoursPerDay
      invariant forall e, h :: 0 <= e < d && 0 <= h < HoursPerDay ==>
        cells[e * HoursPerDay + h] == HeatCell(draws, e, h)
    {
      for h := 0 to HoursPerDay
        invariant |cells| == d * HoursPerDay + h
        invariant forall e, g :: 0 <= e < d && 0 <= g < HoursPerDay ==>
          cells[e * HoursPerDay + g] == HeatCell(draws, e, g)
        invariant forall g :: 0 <= g < h ==> cells[d * HoursPerDay + g] == HeatCell(draws, d, g)
      {
        cells := cells + [Cell(Days[d], h, draws[d * HoursPerDay + h] * 100.0)];
      }
    }
  }

  /** Laid out day-major, every (day, hour) pair has exactly one cell: the
      cell at index k belongs to day k / 24 and hour k % 24. */
  lemma HeatmapCovers(cells: seq<Cell>, draws: seq<real>, d: nat, h: nat)
    requires |draws| == |Days| * HoursPerDay && |cells| == |Days| * HoursPerDay
    requires forall e, g :: 0 <= e < |Days| && 0 <= g < HoursPerDay ==>
      cells[e * HoursPerDay + g] == HeatCell(draws, e, g)
    requires d < |Days| && h < HoursPerDay
    ensures forall k :: 0 <= k < |cells| ==>
      (cells[k].day == Days[d] && cells[k].hour == h <==> k == d * HoursPerDay + h)
  {
    forall k | 0 <= k < |cells|
      ensures cells[k].day == Days[d] && cells[k].hour == h <==> k == d * HoursPerDay + h
    {
      var e, g := k / HoursPerDay, k % HoursPerDay;
      assert k == e * HoursPerDay + g;
      assert cells[k] == HeatCell(draws, e, g);
      if cells[k].day == Days[d] {
        DayNamesDistinct(e, d);
      }
    }
  }

  lemma DayNamesDistinct(a: nat, b: nat)
    requires a < |Days| && b < |Days| && Days[a] == Days[b]
    ensures a == b
  {
  }

  datatype ScatterPoint = ScatterPoint(x: real, y: real, size: real, category: int)

  /** The scatter point made from draws 4i .. 4i+3, in x, y, size,
      category order. */
  function ScatterAt(draws: seq<real>, i: nat): (p: ScatterPoint)
    requires 4 * i + 4 <= |draws|
    ensures (forall k :: 4 * i <= k < 4 * i + 4 ==> IsDraw(draws[k])) ==>
      0.0 <= p.x < 100.0 && 0.0 <= p.y < 100.0 && 5.0 <= p.size < 25.0 && 0 <= p.category <= 2
  {
    ScatterPoint(draws[4 * i] * 100.0, draws[4 * i + 1] * 100.0,
                 draws[4 * i + 2] * 20.0 + 5.0, (draws[4 * i + 3] * 3.0).Floor)
  }

  /** The scatter plot's 50 points. */
  function ScatterData(draws: seq<real>): (ps: seq<ScatterPoint>)
    requires |draws| == 200
    ensures |ps| == 50
  {
    seq(50, i requires 0 <= i < 50 => ScatterAt(draws, i))
  }

  /** Every scatter point has x and y in [0, 100), size in [5, 25) and a
      category of 0, 1 or 2. */
  lemma ScatterRanges(draws: seq<real>)
    requires |draws| == 200 && AllDraws(draws)
    ensures forall i :: 0 <= i < 50 ==>
      var p := ScatterData(draws)[i];
      0.0 <= p.x < 100.0 && 0.0 <= p.y < 100.0 && 5.0 <= p.size < 25.0 && 0 <= p.category <= 2
  {
    forall i | 0 <= i < 50
      ensures var p := ScatterData(draws)[i];
        0.0 <= p.x < 100.0 && 0.0 <= p.y < 100.0 && 5.0 <= p.size < 25.0 && 0 <= p.category <= 2
    {
      assert IsDraw(draws[4 * i]) && IsDraw(draws[4 * i + 1]);
      assert IsDraw(draws[4 * i + 2]) && IsDraw(draws[4 * i + 3]);
    }
  }

  /** A pie slice's label. */
  function PieLabel(value: int): (s: string)
    ensures s != "" <==> value > 5
    ensures value > 5 ==> s == IntToDecimal(value) + "%"
  {
    if value > 5 then IntToDecimal(value) + "%" else ""
  }

  /** Of the traffic sources (35, 30, 20, 10, 5) all but the last are labelled. */
  lemma TrafficLabels()
    ensures PieLabel(35) == "35%" && PieLabel(10) == "10%" && PieLabel(5) == ""
  {
    assert NatToDecimal(35) == "35";
    assert NatToDecimal(10) == "10";
  }

  /** A heatmap hour tick's label. */
  function HourTick(d: int): (s: string)
    ensures s != "" <==> d % 6 == 0
    ensures d % 6 == 0 ==> s == IntToDecimal(d) + "h"
  {
    if d % 6 == 0 then IntToDecimal(d) + "h" else ""
  }

  /** Of the 24 hours exactly 0, 6, 12 and 18 get a tick label. */
  lemma FourHourTicks()
    ensures forall d :: 0 <= d < HoursPerDay ==> (HourTick(d) != "" <==> d in {0, 6, 12, 18})
  {
  }
}

/** The weekly bar chart (src/components/BarChart.tsx): two series padded to the seven
    day labels, a common scale, and bar heights with a visible minimum. */
module BarChart {
  const Days := ["Pn", "Wt", "Śr", "Cz", "Pt", "Sb", "Nd"]
  const ChartHeight := 160.0
  const MinBarHeight := 16.0

  /** `DAYS.map((_, i) => series[i] ?? 0)`: one entry per day label; missing days are 0
      and entries past the seventh are dropped. */
  function Normalised(series: seq<real>): (r: seq<real>)
    ensures |r| == |Days|
    ensures forall i :: 0 <= i < |r| && i < |series| ==> r[i] == series[i]
    ensures forall i :: |series| <= i < |r| ==> r[i] == 0.0
  {
    seq(|Days|, i requires 0 <= i < |Days| => if i < |series| then series[i] else 0.0)
  }

  function Max(a: real, b: real): real {
    if a < b then b else a
  }

  /** `Math.max(...s, floor)` */
  function MaxOf(s: seq<real>, floor: real): (m: real)
    ensures m >= floor
    ensures forall i :: 0 <= i < |s| ==> s[i] <= m
    ensures m == floor || exists i :: 0 <= i < |s| && s[i] == m
  {
    if s == [] then floor
    else
      var rest := MaxOf(s[1..], floor);
      if s[0] > rest then s[0]
      else
        assert rest == floor || exists i :: 0 <= i < |s| && s[i] == rest by {
          if rest != floor {
            var k :| 0 <= k < |s[1..]| && s[1..][k] == rest;
            assert s[k + 1] == rest;
          }
        }
        rest
  }

  /** `maxValue`: `Math.max(...safeA, ...safeB, 1)`. */
  function MaxValue(seriesA: seq<real>, seriesB: seq<real>): (m: real)
    ensures m >= 1.0
  {
    MaxOf(Normalised(seriesA) + Normalised(seriesB), 1.0)
  }

  /** The scale is at least every entry of both normalised series, and it is one of them
      or 1. */
  lemma MaxValueIsMax(seriesA: seq<real>, seriesB: seq<real>)
    ensures var m, a, b := MaxValue(seriesA, seriesB), Normalised(seriesA), Normalised(seriesB);
            && (forall i :: 0 <= i < |Days| ==> a[i] <= m && b[i] <= m)
            && (m == 1.0 || (exists i :: 0 <= i < |Days| && a[i] == m)
                         || (exists i :: 0 <= i < |Days| && b[i] == m))
  {
    var a, b := Normalised(seriesA), Normalised(seriesB);
    var m := MaxValue(seriesA, seriesB);
    forall i | 0 <= i < |Days| ensures a[i] <= m && b[i] <= m {
      assert (a + b)[i] == a[i] && (a + b)[|a| + i] == b[i];
    }
    if m != 1.0 {
      var k :| 0 <= k < |a + b| && (a + b)[k] == m;
      if k < |a| {
        assert a[k] == m;
      } else {
        assert b[k - |a|] == m;
      }
    }
  }

  /** `Math.max((value / maxValue) * CHART_HEIGHT, MIN_BAR_HEIGHT)` */
  function BarHeight(value: real, maxValue: real): real
    requires maxValue >= 1.0
  {
    Max(value / maxValue * ChartHeight, MinBarHeight)
  }

  /** A bar is never lower than the minimum, and a non-negative value no larger than the
      scale never rises above the chart. */
  lemma BarHeightBounds(value: real, maxValue: real)
    requires maxValue >= 1.0
    ensures BarHeight(value, maxValue) >= MinBarHeight
    ensures 0.0 <= value <= maxValue ==> BarHeight(value, maxValue) <= ChartHeight
  {
    if 0.0 <= value <= maxValue {
      assert value / maxValue <= 1.0;
    }
  }

  /** The seven target heights of one series against the common scale. */
  function Heights(series: seq<real>, maxValue: real): (h: seq<real>)
    requires maxValue >= 1.0
    ensures |h| == |Days|
    ensures forall i :: 0 <= i < |Days| ==> h[i] == BarHeight(Normalised(series)[i], maxValue)
  {
    var n := Normalised(series);
    seq(|Days|, i requires 0 <= i < |Days| => BarHeight(n[i], maxValue))
  }

  /** Every height lies between the minimum bar and the chart height. */
  predicate WithinChart(h: seq<real>) {
    forall i :: 0 <= i < |h| ==> MinBarHeight <= h[i] <= ChartHeight
  }

  /** Against a scale no smaller than any of its non-negative entries, every bar of a
      series lies within the chart. */
  lemma SeriesBounds(series: seq<real>, m: real)
    requires m >= 1.0
    requires forall i :: 0 <= i < |series| ==> series[i] >= 0.0
    requires forall i :: 0 <= i < |Days| ==> Normalised(series)[i] <= m
    ensures WithinChart(Heights(series, m))
  {
    var n := Normalised(series);
    forall i | 0 <= i < |Days| ensures MinBarHeight <= BarHeight(n[i], m) <= ChartHeight {
      BarHeightBounds(n[i], m);
    }
  }

  /** With no negative values, every bar of both series lies between the minimum height
      and the chart height. */
  lemma ChartBounds(seriesA: seq<real>, seriesB: seq<real>)
    requires forall i :: 0 <= i < |seriesA| ==> seriesA[i] >= 0.0
    requires forall i :: 0 <= i < |seriesB| ==> seriesB[i] >= 0.0
    ensures WithinChart(Heights(seriesA, MaxValue(seriesA, seriesB)))
    ensures WithinChart(Heights(seriesB, MaxValue(seriesA, seriesB)))
  {
    MaxValueIsMax(seriesA, seriesB);
    SeriesBounds(seriesA, MaxValue(seriesA, seriesB));
    SeriesBounds(seriesB, MaxValue(seriesA, seriesB));
  }
}

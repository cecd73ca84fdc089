/**
  The angular partition behind the dashboard's proportion chart (the
  `PieChart` component of src/pages/Index.tsx).

  A chart is an ordered sequence of entries. Their values are summed into a
  total; a cursor starts at -90 degrees (twelve o'clock in SVG coordinates,
  where y grows downwards; the page's extra `-rotate-90` transform, which is
  presentation and not modelled, turns it to nine o'clock on screen) and
  each entry, in input order, takes a wedge of
  `value / total * 360` degrees starting where the previous wedge ended.
  The same total is the denominator of the legend's percentages.

  All arithmetic is exact: the component's total, percentages, angles and
  running `currentAngle` are IEEE doubles, whose rounding is not modelled;
  a share within rounding of one half may get the other large-arc flag on
  the page.
 */
module PieChart {
  import opened Wrappers

  /** One labelled contribution to the chart; `color` is an opaque token. */
  datatype Entry = Entry(name: string, value: real, color: string)

  /** One wedge: the angular interval [start, end] in degrees, the SVG
      large-arc flag (1 or 0) and the fill colour. */
  datatype Slice = Slice(start: real, end: real, largeArc: int, color: string)

  /** One legend row: the entry's name, value and swatch colour, and its
      share of the total in percent (before one-decimal formatting). */
  datatype LegendRow = LegendRow(name: string, value: real, color: string, percentage: real)

  /** What the component draws: the centre total, the wedges, the legend. */
  datatype Chart = Chart(total: real, slices: seq<Slice>, legend: seq<LegendRow>)

  /** Non-empty data whose values add up to zero: the component would divide
      by zero when computing the percentages. */
  datatype ChartError = ZeroTotal

  /** The cursor's initial angle, in degrees. */
  const StartAngle: real := -90.0

  predicate NonNegative(es: seq<Entry>)
  {
    forall i :: 0 <= i < |es| ==> es[i].value >= 0.0
  }

  predicate AllZero(es: seq<Entry>)
  {
    forall i :: 0 <= i < |es| ==> es[i].value == 0.0
  }

  /** The sum of the entry values, accumulated left to right as `reduce`
      starting from 0 does. */
  function Total(es: seq<Entry>): (t: real)
    ensures NonNegative(es) ==> t >= 0.0
    ensures NonNegative(es) ==> (t == 0.0 <==> AllZero(es))
    decreases |es|
  {
    if |es| == 0 then 0.0 else Total(es[..|es| - 1]) + es[|es| - 1].value
  }

  /** An entry's share of the total, in percent. */
  function Percentage(value: real, total: real): real
    requires total != 0.0
  {
    value / total * 100.0
  }

  /** The angle, in degrees, that a percentage of the circle covers. */
  function SpanOf(percentage: real): (angle: real)
    ensures angle > 180.0 <==> percentage > 50.0
    ensures angle == 360.0 <==> percentage == 100.0
    ensures 0.0 <= percentage <= 100.0 ==> 0.0 <= angle <= 360.0
  {
    percentage / 100.0 * 360.0
  }

  /** The angle an entry of the given value covers, computed in the
      component's two steps: first the percentage, then the angle. */
  function Share(value: real, total: real): real
    requires total != 0.0
  {
    SpanOf(Percentage(value, total))
  }

  /** One wedge starting at `startAngle` covering `percentage` percent of
      the circle; its end angle is the cursor for the next wedge. */
  function CreateSlice(percentage: real, color: string, startAngle: real): (s: Slice)
    ensures s.start == startAngle && s.color == color
    ensures s.end - s.start == SpanOf(percentage)
    ensures s.largeArc == 0 || s.largeArc == 1
    ensures s.largeArc == 1 <==> s.end - s.start > 180.0
    ensures s.largeArc == 1 <==> percentage > 50.0
    ensures 0.0 <= percentage <= 100.0 ==> startAngle <= s.end <= startAngle + 360.0
  {
    var angle := SpanOf(percentage);
    var endAngle := startAngle + angle;
    var largeArc := if angle > 180.0 then 1 else 0;
    Slice(startAngle, endAngle, largeArc, color)
  }

  /** Each wedge after the first starts where the previous one ends. The
      second bound variable `j` (always `i + 1`) gives the quantifier a
      trigger that does not feed itself. */
  ghost predicate Chained(ss: seq<Slice>)
  {
    forall i, j :: 0 <= i < j < |ss| && j == i + 1 ==> ss[j].start == ss[i].end
  }

  /** A wedge ending where a chained sequence starts can be put in front. */
  lemma ChainedCons(s: Slice, rest: seq<Slice>)
    requires Chained(rest) && (|rest| > 0 ==> rest[0].start == s.end)
    ensures Chained([s] + rest)
  {
    var ss := [s] + rest;
    forall i, j | 0 <= i < j < |ss| && j == i + 1
      ensures ss[j].start == ss[i].end
    {
      if i > 0 {
        assert ss[i] == rest[i - 1] && ss[j] == rest[j - 1];
      }
    }
  }

  /** The fold over the entries that replaces the component's mutable
      `currentAngle`: each entry yields a wedge beginning at the cursor,
      and the wedge's end becomes the cursor for the rest. */
  function Sweep(es: seq<Entry>, total: real, cursor: real): (r: seq<Slice>)
    requires total != 0.0
    ensures |r| == |es|
    ensures forall i :: 0 <= i < |r| ==> r[i].color == es[i].color
    ensures forall i :: 0 <= i < |r| ==> r[i].end - r[i].start == Share(es[i].value, total)
    ensures forall i :: 0 <= i < |r| ==> (r[i].largeArc == 1 <==> r[i].end - r[i].start > 180.0)
    ensures forall i :: 0 <= i < |r| ==> (r[i].largeArc == 0 <==> r[i].end - r[i].start <= 180.0)
    ensures |r| > 0 ==> r[0].start == cursor
    ensures Chained(r)
    decreases |es|
  {
    if |es| == 0 then []
    else
      var s := CreateSlice(Percentage(es[0].value, total), es[0].color, cursor);
      var rest := Sweep(es[1..], total, s.end);
      ChainedCons(s, rest);
      [s] + rest
  }

  /** The legend rows, one per entry in input order, sharing the chart's
      total as the denominator. */
  function Legend(es: seq<Entry>, total: real): (rows: seq<LegendRow>)
    requires total != 0.0
    ensures |rows| == |es|
    ensures forall i :: 0 <= i < |rows| ==>
      rows[i].name == es[i].name && rows[i].value == es[i].value && rows[i].color == es[i].color
    ensures forall i :: 0 <= i < |rows| ==> rows[i].percentage * total == es[i].value * 100.0
  {
    seq(|es|, i requires 0 <= i < |es| =>
      LegendRow(es[i].name, es[i].value, es[i].color, Percentage(es[i].value, total)))
  }

  /** The whole component: centre total, wedges and legend. Empty data
      draws an empty chart with total 0 (the component never divides then);
      non-empty data adding up to zero is reported as `ZeroTotal`. */
  function Draw(es: seq<Entry>): (r: Result<Chart, ChartError>)
    ensures r.Failure? <==> |es| > 0 && Total(es) == 0.0
    ensures NonNegative(es) ==> (r.Failure? <==> |es| > 0 && AllZero(es))
    ensures r.Success? ==>
      && r.value.total == Total(es)
      && |r.value.slices| == |es|
      && |r.value.legend| == |es|
    ensures r.Success? ==> forall i :: 0 <= i < |r.value.slices| ==>
      && r.value.slices[i].color == es[i].color
      && r.value.legend[i].color == es[i].color
      && r.value.legend[i].name == es[i].name
      && r.value.legend[i].value == es[i].value
    ensures r.Success? ==> forall i :: 0 <= i < |r.value.slices| ==>
      r.value.slices[i].end - r.value.slices[i].start == SpanOf(r.value.legend[i].percentage)
    ensures r.Success? && |es| > 0 ==>
      r.value.slices[0].start == StartAngle && r.value.slices[|es| - 1].end == StartAngle + 360.0
  {
    var total := Total(es);
    if |es| == 0 then Success(Chart(total, [], []))
    else if total == 0.0 then Failure(ZeroTotal)
    else
      FullCircle(es, StartAngle);
      Success(Chart(total, Sweep(es, total, StartAngle), Legend(es, total)))
  }

  /** The `reduce` of the component: the values summed left to right from 0. */
  method SumValues(es: seq<Entry>) returns (total: real)
    ensures total == Total(es)
  {
    total := 0.0;
    var k := 0;
    while k < |es|
      invariant 0 <= k <= |es|
      invariant total == Total(es[..k])
    {
      TotalSnoc(es, k);
      total := total + es[k].value;
      k := k + 1;
    }
    assert es[..|es|] == es;
  }

  /** The component's pass over the data: each wedge starts at
      `currentAngle`, which is then reassigned to the wedge's end. */
  method SweepLoop(es: seq<Entry>, total: real) returns (slices: seq<Slice>)
    requires total != 0.0
    ensures slices == Sweep(es, total, StartAngle)
  {
    ghost var full := Sweep(es, total, StartAngle);
    var currentAngle := StartAngle;
    slices := [];
    var i := 0;
    while i < |es|
      invariant 0 <= i <= |es|
      invariant slices == full[..i]
      invariant currentAngle == if i == 0 then StartAngle else full[i - 1].end
    {
      var percentage := Percentage(es[i].value, total);
      var slice := CreateSlice(percentage, es[i].color, currentAngle);
      SweepStep(es, total, i);
      PrefixSnoc(full, i);
      slices := slices + [slice];
      currentAngle := slice.end;
      i := i + 1;
    }
    assert full[..|es|] == full;
  }

  /** Wedge i of the chart's fold is `CreateSlice` of entry i at the angle
      where wedge i - 1 ended, or at the start angle for the first wedge:
      one step of the component's loop. */
  lemma SweepStep(es: seq<Entry>, total: real, i: int)
    requires total != 0.0 && 0 <= i < |es|
    ensures Sweep(es, total, StartAngle)[i] ==
      CreateSlice(Percentage(es[i].value, total), es[i].color,
                  if i == 0 then StartAngle else Sweep(es, total, StartAngle)[i - 1].end)
  {
    var r := Sweep(es, total, StartAngle);
    SweepElement(es, total, StartAngle, i);
    if i > 0 {
      SweepLink(r, i);
    }
  }

  /** In a chained sequence, wedge i starts where wedge i - 1 ends. */
  lemma SweepLink(ss: seq<Slice>, i: int)
    requires Chained(ss) && 0 < i < |ss|
    ensures ss[i].start == ss[i - 1].end
  {
    var h := i - 1;
    assert h + 1 == i;
  }

  /** Extending a prefix by one element. */
  lemma PrefixSnoc(ss: seq<Slice>, i: int)
    requires 0 <= i < |ss|
    ensures ss[..i + 1] == ss[..i] + [ss[i]]
  {
  }

  /** Every wedge of the fold is the one `CreateSlice` builds for its entry
      at the wedge's own start angle. */
  lemma SweepElement(es: seq<Entry>, total: real, cursor: real, i: int)
    requires total != 0.0 && 0 <= i < |es|
    ensures var r := Sweep(es, total, cursor);
      r[i] == CreateSlice(Percentage(es[i].value, total), es[i].color, r[i].start)
  {
  }

  /** The component's evaluation order, with the `ZeroTotal` guard added:
      the total first, then the wedges and the legend against that same
      total. */
  method Render(es: seq<Entry>) returns (r: Result<Chart, ChartError>)
    ensures r == Draw(es)
  {
    var total := SumValues(es);
    if |es| == 0 {
      return Success(Chart(total, [], []));
    }
    if total == 0.0 {
      return Failure(ZeroTotal);
    }
    var slices := SweepLoop(es, total);
    r := Success(Chart(total, slices, Legend(es, total)));
  }

  /** The sum of the angular spans of a sequence of wedges. */
  function SpanSum(ss: seq<Slice>): real
  {
    if |ss| == 0 then 0.0 else (ss[0].end - ss[0].start) + SpanSum(ss[1..])
  }

  /** The spans of chained wedges add up to the distance from the first
      start to the last end. */
  lemma {:induction false} Telescope(ss: seq<Slice>)
    requires |ss| > 0 && Chained(ss)
    ensures SpanSum(ss) == ss[|ss| - 1].end - ss[0].start
    decreases |ss|
  {
    if |ss| > 1 {
      var rest := ss[1..];
      assert Chained(rest) by {
        forall i, j | 0 <= i < j < |rest| && j == i + 1
          ensures rest[j].start == rest[i].end
        {
          assert rest[i] == ss[i + 1] && rest[j] == ss[j + 1];
        }
      }
      Telescope(rest);
    }
  }

  /** The sum of the legend percentages. */
  function PercentSum(rows: seq<LegendRow>): real
  {
    if |rows| == 0 then 0.0 else rows[0].percentage + PercentSum(rows[1..])
  }

  // Arithmetic of shares, kept in small lemmas so that the division stays
  // out of the larger proofs.

  /** The percentage undoes the division by the total. */
  lemma PercentageScales(value: real, total: real)
    requires total != 0.0
    ensures Percentage(value, total) * total == value * 100.0
  {
  }

  /** An entry's angle undoes the division by the total. */
  lemma ShareScales(value: real, total: real)
    requires total != 0.0
    ensures Share(value, total) * total == value * 360.0
  {
  }

  lemma ShareAdd(a: real, b: real, total: real)
    requires total != 0.0
    ensures Share(a, total) + Share(b, total) == Share(a + b, total)
  {
    ShareScales(a, total);
    ShareScales(b, total);
    ShareScales(a + b, total);
    assert (Share(a, total) + Share(b, total)) * total == (a + b) * 360.0;
  }

  lemma ShareOfZero(total: real)
    requires total != 0.0
    ensures Share(0.0, total) == 0.0
  {
    ShareScales(0.0, total);
  }

  lemma ShareOfTotal(total: real)
    requires total != 0.0
    ensures Share(total, total) == 360.0
    ensures Share(0.0, total) == 0.0
  {
    ShareScales(total, total);
    ShareScales(0.0, total);
  }

  lemma ShareMono(a: real, b: real, total: real)
    requires total > 0.0 && a <= b
    ensures Share(a, total) <= Share(b, total)
  {
    ShareAdd(a, b - a, total);
    ShareScales(b - a, total);
  }

  lemma PercentageAdd(a: real, b: real, total: real)
    requires total != 0.0
    ensures Percentage(a, total) + Percentage(b, total) == Percentage(a + b, total)
  {
    PercentageScales(a, total);
    PercentageScales(b, total);
    PercentageScales(a + b, total);
    assert (Percentage(a, total) + Percentage(b, total)) * total == (a + b) * 100.0;
  }

  lemma PercentageOfTotal(total: real)
    requires total != 0.0
    ensures Percentage(total, total) == 100.0
    ensures Percentage(0.0, total) == 0.0
  {
    PercentageScales(total, total);
    PercentageScales(0.0, total);
  }

  /** The left-to-right total also splits off its first entry. */
  lemma {:induction false} TotalCons(es: seq<Entry>)
    requires |es| > 0
    ensures Total(es) == es[0].value + Total(es[1..])
    decreases |es|
  {
    var n := |es|;
    if n > 1 {
      TotalCons(es[..n - 1]);
      assert es[..n - 1][1..] == es[1..][..n - 2];
      assert es[..n - 1][0] == es[0];
    }
  }

  /** Extending a prefix by one entry adds that entry's value. */
  lemma TotalStep(es: seq<Entry>, i: int)
    requires 0 < i <= |es|
    ensures Total(es[..i]) == Total(es[..i - 1]) + es[i - 1].value
  {
    assert es[..i][..i - 1] == es[..i - 1];
  }

  /** The same step, stated from prefix i to prefix i + 1. */
  lemma TotalSnoc(es: seq<Entry>, i: int)
    requires 0 <= i < |es|
    ensures Total(es[..i + 1]) == Total(es[..i]) + es[i].value
  {
    assert es[..i + 1][..i] == es[..i];
  }

  /** With non-negative values the prefix totals grow along the sequence. */
  lemma {:induction false} TotalPrefixMono(es: seq<Entry>, i: int, j: int)
    requires NonNegative(es) && 0 <= i <= j <= |es|
    ensures Total(es[..i]) <= Total(es[..j])
    decreases j - i
  {
    if i < j {
      var k := j - 1;
      TotalPrefixMono(es, i, k);
      TotalSnoc(es, k);
      assert k + 1 == j;
    }
  }

  /** The sum of the first i values, written without slicing. */
  function Partial(es: seq<Entry>, i: int): real
    requires 0 <= i <= |es|
    decreases i
  {
    if i == 0 then 0.0 else Partial(es, i - 1) + es[i - 1].value
  }

  /** The slice-free prefix sum is the total of the prefix. */
  lemma {:induction false} PartialIsTotal(es: seq<Entry>, i: int)
    requires 0 <= i <= |es|
    ensures Partial(es, i) == Total(es[..i])
    decreases i
  {
    if i == 0 {
      assert es[..0] == [];
    } else {
      PartialIsTotal(es, i - 1);
      TotalStep(es, i);
    }
  }

  /** The total of five entries, one addition at a time. */
  lemma TotalOfFive(es: seq<Entry>)
    requires |es| == 5
    ensures Total(es) == es[0].value + es[1].value + es[2].value + es[3].value + es[4].value
  {
    assert Partial(es, 1) == es[0].value;
    assert Partial(es, 2) == Partial(es, 1) + es[1].value;
    assert Partial(es, 3) == Partial(es, 2) + es[2].value;
    assert Partial(es, 4) == Partial(es, 3) + es[3].value;
    assert Partial(es, 5) == Partial(es, 4) + es[4].value;
    PartialIsTotal(es, 5);
    assert es[..5] == es;
  }

  /** The angles of the first i entries, added one at a time. */
  function SharePrefix(es: seq<Entry>, total: real, i: int): real
    requires total != 0.0 && 0 <= i <= |es|
    decreases i
  {
    if i == 0 then 0.0 else SharePrefix(es, total, i - 1) + Share(es[i - 1].value, total)
  }

  /** Adding the entries' angles one at a time gives the angle of their sum. */
  lemma {:induction false} SharePrefixSum(es: seq<Entry>, total: real, i: int)
    requires total != 0.0 && 0 <= i <= |es|
    ensures SharePrefix(es, total, i) == Share(Partial(es, i), total)
    decreases i
  {
    if i == 0 {
      ShareOfZero(total);
    } else {
      SharePrefixSum(es, total, i - 1);
      ShareAdd(Partial(es, i - 1), es[i - 1].value, total);
    }
  }

  /** In a chained sequence whose wedge k spans entry k's angle, wedge i
      starts at the first start advanced by the angles of the first i
      entries. */
  lemma {:induction false} ChainStart(ss: seq<Slice>, es: seq<Entry>, total: real, i: int)
    requires total != 0.0 && |ss| == |es| && 0 <= i < |ss| && Chained(ss)
    requires forall k :: 0 <= k < |ss| ==> ss[k].end - ss[k].start == Share(es[k].value, total)
    ensures ss[i].start == ss[0].start + SharePrefix(es, total, i)
    decreases i
  {
    if i > 0 {
      ChainStart(ss, es, total, i - 1);
      SweepLink(ss, i);
    }
  }

  /** Wedge i begins at the cursor advanced by the angle of the first i
      values. */
  lemma StartAt(es: seq<Entry>, total: real, cursor: real, i: int)
    requires total != 0.0 && 0 <= i < |es|
    ensures Sweep(es, total, cursor)[i].start == cursor + Share(Partial(es, i), total)
  {
    ChainStart(Sweep(es, total, cursor), es, total, i);
    SharePrefixSum(es, total, i);
  }

  /** Wedge i begins at the cursor advanced by the angle of all entries
      before it. */
  lemma StartPosition(es: seq<Entry>, total: real, cursor: real, i: int)
    requires total != 0.0 && 0 <= i < |es|
    ensures Sweep(es, total, cursor)[i].start == cursor + Share(Total(es[..i]), total)
  {
    StartAt(es, total, cursor, i);
    PartialIsTotal(es, i);
  }

  /** Wedge i ends at the cursor advanced by the angle of the entries up
      to and including it. */
  lemma EndPosition(es: seq<Entry>, total: real, cursor: real, i: int)
    requires total != 0.0 && 0 <= i < |es|
    ensures Sweep(es, total, cursor)[i].end == cursor + Share(Total(es[..i + 1]), total)
  {
    var r := Sweep(es, total, cursor);
    StartPosition(es, total, cursor, i);
    var a, v := Total(es[..i]), es[i].value;
    assert r[i].end == r[i].start + Share(v, total);
    TotalSnoc(es, i);
    var b := Total(es[..i + 1]);
    assert b == a + v;
    ShareAdd(a, v, total);
    assert Share(b, total) == Share(a, total) + Share(v, total);
  }

  /** The position of every wedge, as a closed form of the fold: wedge i
      spans from the angle of the entries before it to the angle of the
      entries up to and including it. */
  lemma SweepPositions(es: seq<Entry>, total: real, cursor: real)
    requires total != 0.0
    ensures forall i :: 0 <= i < |es| ==>
      Sweep(es, total, cursor)[i].start == cursor + Share(Total(es[..i]), total)
    ensures forall i :: 0 <= i < |es| ==>
      Sweep(es, total, cursor)[i].end == cursor + Share(Total(es[..i + 1]), total)
  {
    forall i | 0 <= i < |es|
      ensures Sweep(es, total, cursor)[i].start == cursor + Share(Total(es[..i]), total)
      ensures Sweep(es, total, cursor)[i].end == cursor + Share(Total(es[..i + 1]), total)
    {
      StartPosition(es, total, cursor, i);
      EndPosition(es, total, cursor, i);
    }
  }

  /** The spans of the wedges add up to the angle of the entries' total. */
  lemma SweepSpanSum(es: seq<Entry>, total: real, cursor: real)
    requires total != 0.0
    ensures SpanSum(Sweep(es, total, cursor)) == Share(Total(es), total)
  {
    var r := Sweep(es, total, cursor);
    if |es| == 0 {
      ShareOfTotal(total);
    } else {
      var j := |es| - 1;
      Telescope(r);
      EndPosition(es, total, cursor, j);
      assert es[..j + 1] == es;
    }
  }

  /** With the entries' own total as denominator the wedges partition the
      full circle: their spans add up to 360 degrees and the last wedge
      ends 360 degrees after the first one starts. */
  lemma FullCircle(es: seq<Entry>, cursor: real)
    requires Total(es) != 0.0
    ensures SpanSum(Sweep(es, Total(es), cursor)) == 360.0
    ensures |es| > 0 ==> Sweep(es, Total(es), cursor)[|es| - 1].end == cursor + 360.0
  {
    var t := Total(es);
    SweepSpanSum(es, t, cursor);
    ShareOfTotal(t);
    if |es| > 0 {
      var j := |es| - 1;
      EndPosition(es, t, cursor, j);
      assert es[..j + 1] == es;
    }
  }

  /** With non-negative values wedge i has a non-negative span and lies
      within the one turn that starts at the cursor. */
  lemma WedgeInTurn(es: seq<Entry>, cursor: real, i: int)
    requires NonNegative(es) && Total(es) > 0.0 && 0 <= i < |es|
    ensures cursor <= Sweep(es, Total(es), cursor)[i].start
    ensures Sweep(es, Total(es), cursor)[i].start <= Sweep(es, Total(es), cursor)[i].end
    ensures Sweep(es, Total(es), cursor)[i].end <= cursor + 360.0
  {
    var t := Total(es);
    var r := Sweep(es, t, cursor);
    StartPosition(es, t, cursor, i);
    EndPosition(es, t, cursor, i);
    ShareOfTotal(t);
    TotalPrefixMono(es, 0, i);
    assert es[..0] == [];
    ShareMono(0.0, Total(es[..i]), t);
    ShareMono(0.0, es[i].value, t);
    TotalPrefixMono(es, i + 1, |es|);
    assert es[..|es|] == es;
    ShareMono(Total(es[..i + 1]), t, t);
  }

  /** With non-negative values every wedge has a non-negative span, wedges
      never move backwards, and all of them lie within the one turn that
      starts at the cursor. */
  lemma SweepOrdered(es: seq<Entry>, cursor: real)
    requires NonNegative(es) && Total(es) > 0.0
    ensures forall i :: 0 <= i < |es| ==>
      cursor <= Sweep(es, Total(es), cursor)[i].start <= Sweep(es, Total(es), cursor)[i].end <= cursor + 360.0
    ensures forall i, j :: 0 <= i <= j < |es| ==>
      Sweep(es, Total(es), cursor)[i].start <= Sweep(es, Total(es), cursor)[j].start
  {
    var t := Total(es);
    var r := Sweep(es, t, cursor);
    forall i | 0 <= i < |es|
      ensures cursor <= r[i].start <= r[i].end <= cursor + 360.0
    {
      WedgeInTurn(es, cursor, i);
    }
    forall i, j | 0 <= i <= j < |es|
      ensures r[i].start <= r[j].start
    {
      StartPosition(es, t, cursor, i);
      StartPosition(es, t, cursor, j);
      TotalPrefixMono(es, i, j);
      ShareMono(Total(es[..i]), Total(es[..j]), t);
    }
  }

  /** Every wedge runs forwards: its end is not before its start. */
  predicate Forward(ss: seq<Slice>)
  {
    forall i :: 0 <= i < |ss| ==> ss[i].start <= ss[i].end
  }

  /** Every wedge's large-arc flag is 1 exactly when its span exceeds 180,
      and 0 otherwise. */
  predicate FlagsMatchSpans(ss: seq<Slice>)
  {
    forall i :: 0 <= i < |ss| ==>
      && (ss[i].largeArc == 1 <==> ss[i].end - ss[i].start > 180.0)
      && (ss[i].largeArc == 0 <==> ss[i].end - ss[i].start <= 180.0)
  }

  /** Along chained forward wedges, starts and ends never decrease. */
  lemma {:induction false} ChainMonotone(ss: seq<Slice>, i: int, j: int)
    requires Chained(ss) && Forward(ss) && 0 <= i <= j < |ss|
    ensures ss[i].start <= ss[j].start && ss[i].end <= ss[j].end
    decreases j - i
  {
    if i < j {
      ChainMonotone(ss, i, j - 1);
      assert ss[j].start == ss[j - 1].end;
    }
  }

  /** Chained forward wedges that together sweep at most one turn contain
      at most one wedge wider than a half turn. */
  lemma OneLargeArcPerTurn(ss: seq<Slice>)
    requires Chained(ss) && Forward(ss) && FlagsMatchSpans(ss)
    requires |ss| > 0 && ss[|ss| - 1].end - ss[0].start <= 360.0
    ensures forall i, j :: 0 <= i < j < |ss| && ss[i].largeArc == 1 ==> ss[j].largeArc == 0
  {
    forall i, j | 0 <= i < j < |ss| && ss[i].largeArc == 1
      ensures ss[j].largeArc == 0
    {
      ChainMonotone(ss, 0, i);
      ChainMonotone(ss, i + 1, j);
      ChainMonotone(ss, j, |ss| - 1);
      assert ss[i + 1].start == ss[i].end;
    }
  }

  /** Because the spans are non-negative and add up to 360 degrees, at most
      one wedge of a chart can carry the large-arc flag. */
  lemma AtMostOneLargeArc(es: seq<Entry>, cursor: real)
    requires NonNegative(es) && Total(es) > 0.0
    ensures forall i, j :: 0 <= i < j < |es| && Sweep(es, Total(es), cursor)[i].largeArc == 1 ==>
      Sweep(es, Total(es), cursor)[j].largeArc == 0
  {
    var r := Sweep(es, Total(es), cursor);
    if |es| > 0 {
      SweepForward(es, cursor);
      SweepFlags(es, Total(es), cursor);
      FullCircle(es, cursor);
      OneLargeArcPerTurn(r);
    }
  }

  /** With non-negative values every wedge of a chart runs forwards. */
  lemma SweepForward(es: seq<Entry>, cursor: real)
    requires NonNegative(es) && Total(es) > 0.0
    ensures Forward(Sweep(es, Total(es), cursor))
  {
    SweepOrdered(es, cursor);
  }

  /** Every wedge of the fold carries the flag its span calls for. */
  lemma SweepFlags(es: seq<Entry>, total: real, cursor: real)
    requires total != 0.0
    ensures FlagsMatchSpans(Sweep(es, total, cursor))
  {
  }

  /** A zero-valued entry yields an empty wedge without the large-arc flag
      that leaves the cursor where it was for the next wedge, yet keeps its
      place among the wedges and in the legend, at 0 percent. */
  lemma ZeroEntryKeepsCursor(es: seq<Entry>, total: real, cursor: real, i: int)
    requires total != 0.0 && 0 <= i < |es| && es[i].value == 0.0
    ensures Sweep(es, total, cursor)[i].start == Sweep(es, total, cursor)[i].end
    ensures Sweep(es, total, cursor)[i].largeArc == 0
    ensures Sweep(es, total, cursor)[i].color == es[i].color
    ensures i + 1 < |es| ==> Sweep(es, total, cursor)[i + 1].start == Sweep(es, total, cursor)[i].start
    ensures Legend(es, total)[i].name == es[i].name
    ensures Legend(es, total)[i].percentage == 0.0
  {
    var r := Sweep(es, total, cursor);
    ShareOfTotal(total);
    PercentageOfTotal(total);
    if i + 1 < |es| {
      assert r[i + 1].start == r[i].end;
    }
  }

  /** The legend percentages add up to the percentage of the entries' total. */
  lemma {:induction false} LegendPercentSum(es: seq<Entry>, total: real)
    requires total != 0.0
    ensures PercentSum(Legend(es, total)) == Percentage(Total(es), total)
    decreases |es|
  {
    if |es| == 0 {
      PercentageOfTotal(total);
    } else {
      var rows := Legend(es, total);
      assert rows[1..] == Legend(es[1..], total);
      LegendPercentSum(es[1..], total);
      var v, b := es[0].value, Total(es[1..]);
      assert PercentSum(rows) == Percentage(v, total) + Percentage(b, total);
      TotalCons(es);
      PercentageAdd(v, b, total);
    }
  }

  /** Against the entries' own total, the legend accounts for exactly
      100 percent. */
  lemma LegendIsWhole(es: seq<Entry>)
    requires Total(es) != 0.0
    ensures PercentSum(Legend(es, Total(es))) == 100.0
  {
    var t := Total(es);
    LegendPercentSum(es, t);
    PercentageOfTotal(t);
  }

  /** A single non-zero entry covers the whole circle in one large arc. */
  lemma SingleEntry(e: Entry)
    requires e.value != 0.0
    ensures Draw([e]) == Success(Chart(e.value, [Slice(-90.0, 270.0, 1, e.color)],
                                       [LegendRow(e.name, e.value, e.color, 100.0)]))
  {
    var es := [e];
    assert es[..0] == [];
    assert Total(es) == e.value;
    PercentageOfTotal(e.value);
    assert Sweep(es, e.value, StartAngle) == [Slice(-90.0, 270.0, 1, e.color)];
    assert Legend(es, e.value) == [LegendRow(e.name, e.value, e.color, 100.0)];
  }
}

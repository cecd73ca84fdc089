/**
  Concrete checks of the model. The delay-reason chart, the supplier table
  and the KPI tiles use the page's own data sets from src/pages/Index.tsx;
  `TwoHalves` and `AllZeroIsReported` use small made-up entries (`X`, `Y`)
  to exercise the half-circle boundary and the zero-total case.
 */
module DashboardData {
  import opened Wrappers
  import opened PieChart
  import SupplierRating
  import KpiTrend

  /** The delay-reason chart's entries: five causes, each a positive
      percent share of idle time, together the whole of it. */
  function DelayReasons(): (es: seq<Entry>)
    ensures |es| == 5
    ensures forall i :: 0 <= i < |es| ==> es[i].value > 0.0
    ensures Total(es) == 100.0
  {
    var es :=
      [ Entry("Waiting for documents", 45.0, "#2563EB"),
        Entry("Docks occupied", 30.0, "#8B5CF6"),
        Entry("Waiting for acceptance", 15.0, "#F59E0B"),
        Entry("Technical faults", 7.0, "#EF4444"),
        Entry("Other", 3.0, "#64748B") ];
    TotalOfFive(es);
    es
  }

  /** The delay-reason chart sums to 100 and sweeps 162, 108, 54, 25.2 and
      10.8 degrees from -90, ending at 270. */
  lemma DelayReasonsChart()
    ensures Draw(DelayReasons()).Success?
    ensures Draw(DelayReasons()).value.total == 100.0
    ensures Draw(DelayReasons()).value.slices ==
      [ Slice(-90.0, 72.0, 0, "#2563EB"),
        Slice(72.0, 180.0, 0, "#8B5CF6"),
        Slice(180.0, 234.0, 0, "#F59E0B"),
        Slice(234.0, 259.2, 0, "#EF4444"),
        Slice(259.2, 270.0, 0, "#64748B") ]
  {
    DelayReasonsWedges();
  }

  /** The fold over the delay reasons, assembled from its five wedges. */
  lemma DelayReasonsWedges()
    ensures Sweep(DelayReasons(), 100.0, StartAngle) ==
      [ Slice(-90.0, 72.0, 0, "#2563EB"),
        Slice(72.0, 180.0, 0, "#8B5CF6"),
        Slice(180.0, 234.0, 0, "#F59E0B"),
        Slice(234.0, 259.2, 0, "#EF4444"),
        Slice(259.2, 270.0, 0, "#64748B") ]
  {
    DelayWedge4();
  }

  /** The first delay-reason wedge, from where the previous one ends. */
  lemma DelayWedge0()
    ensures Sweep(DelayReasons(), 100.0, StartAngle)[0] == Slice(-90.0, 72.0, 0, "#2563EB")
  {
    SweepStep(DelayReasons(), 100.0, 0);
  }

  /** The second delay-reason wedge, from where the previous one ends. */
  lemma DelayWedge1()
    ensures Sweep(DelayReasons(), 100.0, StartAngle)[0] == Slice(-90.0, 72.0, 0, "#2563EB")
    ensures Sweep(DelayReasons(), 100.0, StartAngle)[1] == Slice(72.0, 180.0, 0, "#8B5CF6")
  {
    DelayWedge0();
    SweepStep(DelayReasons(), 100.0, 1);
  }

  /** The third delay-reason wedge, from where the previous one ends. */
  lemma DelayWedge2()
    ensures Sweep(DelayReasons(), 100.0, StartAngle)[0] == Slice(-90.0, 72.0, 0, "#2563EB")
    ensures Sweep(DelayReasons(), 100.0, StartAngle)[1] == Slice(72.0, 180.0, 0, "#8B5CF6")
    ensures Sweep(DelayReasons(), 100.0, StartAngle)[2] == Slice(180.0, 234.0, 0, "#F59E0B")
  {
    DelayWedge1();
    SweepStep(DelayReasons(), 100.0, 2);
  }

  /** The fourth delay-reason wedge, from where the previous one ends. */
  lemma DelayWedge3()
    ensures Sweep(DelayReasons(), 100.0, StartAngle)[0] == Slice(-90.0, 72.0, 0, "#2563EB")
    ensures Sweep(DelayReasons(), 100.0, StartAngle)[1] == Slice(72.0, 180.0, 0, "#8B5CF6")
    ensures Sweep(DelayReasons(), 100.0, StartAngle)[2] == Slice(180.0, 234.0, 0, "#F59E0B")
    ensures Sweep(DelayReasons(), 100.0, StartAngle)[3] == Slice(234.0, 259.2, 0, "#EF4444")
  {
    DelayWedge2();
    SweepStep(DelayReasons(), 100.0, 3);
  }

  /** The fifth delay-reason wedge, from where the previous one ends. */
  lemma DelayWedge4()
    ensures Sweep(DelayReasons(), 100.0, StartAngle)[0] == Slice(-90.0, 72.0, 0, "#2563EB")
    ensures Sweep(DelayReasons(), 100.0, StartAngle)[1] == Slice(72.0, 180.0, 0, "#8B5CF6")
    ensures Sweep(DelayReasons(), 100.0, StartAngle)[2] == Slice(180.0, 234.0, 0, "#F59E0B")
    ensures Sweep(DelayReasons(), 100.0, StartAngle)[3] == Slice(234.0, 259.2, 0, "#EF4444")
    ensures Sweep(DelayReasons(), 100.0, StartAngle)[4] == Slice(259.2, 270.0, 0, "#64748B")
  {
    DelayWedge3();
    SweepStep(DelayReasons(), 100.0, 4);
  }

  /** Two equal entries split the circle into two half-circles; a span of
      exactly 180 degrees does not set the large-arc flag. */
  lemma TwoHalves()
    ensures Draw([Entry("X", 1.0, "a"), Entry("Y", 1.0, "b")]) ==
      Success(Chart(2.0,
        [Slice(-90.0, 90.0, 0, "a"), Slice(90.0, 270.0, 0, "b")],
        [LegendRow("X", 1.0, "a", 50.0), LegendRow("Y", 1.0, "b", 50.0)]))
  {
    var es := [Entry("X", 1.0, "a"), Entry("Y", 1.0, "b")];
    assert es[..0] == [];
    TotalSnoc(es, 0);
    TotalSnoc(es, 1);
    assert es[..2] == es;
    assert Total(es) == 2.0;
    var r := Sweep(es, 2.0, StartAngle);
    assert r[0] == Slice(-90.0, 90.0, 0, "a");
    assert r[1] == Slice(90.0, 270.0, 0, "b");
    assert r == [Slice(-90.0, 90.0, 0, "a"), Slice(90.0, 270.0, 0, "b")];
    assert Legend(es, 2.0) == [LegendRow("X", 1.0, "a", 50.0), LegendRow("Y", 1.0, "b", 50.0)];
    assert Draw(es) == Success(Chart(2.0, r, Legend(es, 2.0)));
  }

  /** Non-empty data whose values are all zero is reported, not divided. */
  lemma AllZeroIsReported()
    ensures Draw([Entry("X", 0.0, "a"), Entry("Y", 0.0, "b")]) == Failure(ZeroTotal)
  {
    var es := [Entry("X", 0.0, "a"), Entry("Y", 0.0, "b")];
    assert es[..1] == [es[0]] && es[..2] == es;
  }

  /** The supplier table's error rates (8.5, 6.2, 4.8, 3.9, 2.1 percent)
      fall into red, red, amber, green, green. */
  lemma SupplierTiers()
    ensures SupplierRating.Classify(8.5) == SupplierRating.Red
    ensures SupplierRating.Classify(6.2) == SupplierRating.Red
    ensures SupplierRating.Classify(4.8) == SupplierRating.Amber
    ensures SupplierRating.Classify(3.9) == SupplierRating.Green
    ensures SupplierRating.Classify(2.1) == SupplierRating.Green
  {
  }

  /** The unloading-time tile's trend of -5 shows a red falling icon with 5. */
  lemma UnloadingTrend()
    ensures KpiTrend.TrendView(Some(-5.0)) ==
      Some(KpiTrend.TrendBadge(KpiTrend.FallingIcon, KpiTrend.RedText, KpiTrend.RedText, 5.0))
  {
  }
}

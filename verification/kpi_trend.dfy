/**
  The week-over-week trend line of a KPI tile (`KPICard` in
  src/pages/Index.tsx). The trend is optional; when present, a positive
  trend shows a rising icon in green and any other trend, zero included,
  a falling icon in red, next to the trend's magnitude.
 */
module KpiTrend {
  import opened Wrappers

  const RisingIcon: string := "TrendingUp"
  const FallingIcon: string := "TrendingDown"
  const GreenText: string := "text-[#10B981]"
  const RedText: string := "text-[#EF4444]"

  /** What the tile shows for a trend: the icon, the icon's colour class,
      the text's colour class and the magnitude printed as a percentage. */
  datatype TrendBadge = TrendBadge(icon: string, iconColor: string, textColor: string, magnitude: real)

  function Abs(x: real): (a: real)
    ensures a >= 0.0 && (a == x || a == -x)
  {
    if x < 0.0 then -x else x
  }

  /** The trend line of a tile; absent when the tile has no trend. Icon,
      icon colour and text colour each test the sign on their own, as the
      tile does. */
  function TrendView(trend: Option<real>): (v: Option<TrendBadge>)
    ensures v.Some? <==> trend.Some?
    ensures trend.Some? ==> v.value.magnitude >= 0.0
    ensures trend.Some? ==> v.value.magnitude == trend.value || v.value.magnitude == -trend.value
    ensures trend.Some? ==> (v.value.icon == RisingIcon <==> trend.value > 0.0)
    ensures trend.Some? ==> (v.value.icon == FallingIcon <==> trend.value <= 0.0)
    ensures trend.Some? ==> (v.value.iconColor == GreenText <==> trend.value > 0.0)
    ensures trend.Some? ==> (v.value.textColor == RedText <==> trend.value <= 0.0)
    ensures trend.Some? ==> v.value.iconColor == v.value.textColor
  {
    match trend
    case None => None
    case Some(t) =>
      Some(TrendBadge(
        if t > 0.0 then RisingIcon else FallingIcon,
        if t > 0.0 then GreenText else RedText,
        if t > 0.0 then GreenText else RedText,
        Abs(t)))
  }

  /** Opposite non-zero trends show the same magnitude with opposite icons
      and colours. */
  lemma OppositeTrends(t: real)
    requires t != 0.0
    ensures TrendView(Some(-t)).value.magnitude == TrendView(Some(t)).value.magnitude
    ensures TrendView(Some(-t)).value.icon != TrendView(Some(t)).value.icon
    ensures TrendView(Some(-t)).value.textColor != TrendView(Some(t)).value.textColor
  {
  }

  /** A flat trend counts as falling: red, with magnitude 0. */
  lemma FlatTrendIsFalling()
    ensures TrendView(Some(0.0)) == Some(TrendBadge(FallingIcon, RedText, RedText, 0.0))
  {
  }
}

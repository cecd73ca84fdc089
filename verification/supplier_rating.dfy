/**
  The severity tiers of the supplier quality table (src/pages/Index.tsx).
  A supplier's error percentage picks one of three colours; the rank badge
  and the percentage text each test the thresholds on their own, and the
  model shows they always land in the same tier.
 */
module SupplierRating {

  /** Red above 6 percent errors, amber above 4, green otherwise. */
  datatype Tier = Red | Amber | Green

  /** The hex colour the page uses for a tier. */
  function Hex(t: Tier): string
  {
    match t
    case Red => "#EF4444"
    case Amber => "#F59E0B"
    case Green => "#10B981"
  }

  /** How bad a tier is: green < amber < red. */
  function Severity(t: Tier): nat
  {
    match t
    case Green => 0
    case Amber => 1
    case Red => 2
  }

  /** The tier of an error percentage, as intervals of the percentage. */
  function Classify(errors: real): (t: Tier)
    ensures t == Red <==> 6.0 < errors
    ensures t == Amber <==> 4.0 < errors <= 6.0
    ensures t == Green <==> errors <= 4.0
  {
    if errors > 6.0 then Red else if errors > 4.0 then Amber else Green
  }

  /** The class string of a percentage text in a given tier: the text in
      the tier's colour (`text-[#EF4444]` for red). */
  function TextStyle(t: Tier): (s: string)
    ensures |s| == 14 && s[..6] == "text-[" && s[6..13] == Hex(t) && s[13] == ']'
  {
    var front := "text-[" + Hex(t);
    assert (front + "]")[..|front|] == front;
    front + "]"
  }

  /** The class string of a rank badge in a given tier: a background tinted
      with the tier's colour, then the tier's text style
      (`bg-[#EF4444]/10 text-[#EF4444]` for red). */
  function BadgeStyle(t: Tier): (s: string)
    ensures |s| == 30 && s[..4] == "bg-[" && s[4..11] == Hex(t) && s[16..] == TextStyle(t)
  {
    var front := "bg-[" + Hex(t) + "]/10 ";
    assert (front + TextStyle(t))[..|front|] == front;
    front + TextStyle(t)
  }

  /** The rank badge's classes, with the thresholds tested as the badge does. */
  function BadgeClass(errors: real): (c: string)
    ensures c == BadgeStyle(Classify(errors))
  {
    if errors > 6.0 then BadgeStyle(Red)
    else if errors > 4.0 then BadgeStyle(Amber)
    else BadgeStyle(Green)
  }

  /** The percentage text's classes, with the thresholds tested again. */
  function PercentClass(errors: real): (c: string)
    ensures c == TextStyle(Classify(errors))
  {
    if errors > 6.0 then TextStyle(Red)
    else if errors > 4.0 then TextStyle(Amber)
    else TextStyle(Green)
  }

  /** More errors never give a milder tier. */
  lemma ClassifyMonotone(a: real, b: real)
    requires a <= b
    ensures Severity(Classify(a)) <= Severity(Classify(b))
  {
  }

  /** Different tiers are drawn in different colours, so the colour a row
      shows identifies its tier. */
  lemma StylesDistinguishTiers(t: Tier, u: Tier)
    requires t != u
    ensures TextStyle(t) != TextStyle(u)
    ensures BadgeStyle(t) != BadgeStyle(u)
  {
    var ht, hu := Hex(t), Hex(u);
    assert ht[1] != hu[1];
    var st, su := TextStyle(t), TextStyle(u);
    assert st[6..13][1] == st[7] && su[6..13][1] == su[7];
    var bt, bu := BadgeStyle(t), BadgeStyle(u);
    assert bt[4..11][1] == bt[5] && bu[4..11][1] == bu[5];
  }

  /** The badge and the percentage text of one row always show the same
      tier: whatever tier the badge's colour names, the text's colour names
      it too. */
  lemma BadgeAndPercentAgree(errors: real, t: Tier)
    ensures BadgeClass(errors) == BadgeStyle(t) <==> PercentClass(errors) == TextStyle(t)
  {
    var c := Classify(errors);
    if c != t {
      StylesDistinguishTiers(c, t);
    }
  }
}

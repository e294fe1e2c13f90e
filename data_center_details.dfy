/** The facility detail page: the tabs, the star row of the reviews, the
    PUE bar; badges and the capacity bar reuse the card's rules. */
module DataCenterDetails {
  import opened DataCenterCard

  datatype Tab = Overview | Monitoring | Sustainability

  const InitialTab := Overview

  datatype Panel = OverviewPanel | MonitoringPanel | SustainabilityPanel

  /** What the page body shows for the active tab. */
  function ShownPanel(tab: Tab): Panel {
    if tab == Monitoring then MonitoringPanel
    else if tab == Sustainability then SustainabilityPanel
    else OverviewPanel
  }

  /** Each tab shows its own panel, and the page opens on the overview. */
  lemma ShownPanelSpec(a: Tab, b: Tab)
    ensures a != b ==> ShownPanel(a) != ShownPanel(b)
    ensures ShownPanel(InitialTab) == OverviewPanel
  {
  }

  const StarCount := 5

  /** Star `i` is lit iff `i < Math.floor(rating)`. */
  function Stars(rating: real): (stars: seq<bool>)
    ensures |stars| == StarCount
  {
    seq(StarCount, i => i < rating.Floor)
  }

  function CountLit(stars: seq<bool>): nat {
    if stars == [] then 0 else (if stars[0] then 1 else 0) + CountLit(stars[1..])
  }

  function Clamp(n: int, lo: int, hi: int): int {
    if n < lo then lo else if n > hi then hi else n
  }

  lemma {:induction false} CountLitPrefix(stars: seq<bool>, k: int)
    requires forall i :: 0 <= i < |stars| ==> (stars[i] <==> i < k)
    ensures CountLit(stars) == Clamp(k, 0, |stars|)
  {
    if stars != [] {
      forall i | 0 <= i < |stars| - 1 ensures stars[1..][i] <==> i < k - 1 { }
      CountLitPrefix(stars[1..], k - 1);
    }
  }

  /** The lit stars come first and number floor(rating), clamped to 0..5. */
  lemma StarsSpec(rating: real)
    ensures CountLit(Stars(rating)) == Clamp(rating.Floor, 0, StarCount)
    ensures forall i, j :: 0 <= i < j < StarCount && Stars(rating)[j] ==> Stars(rating)[i]
  {
    CountLitPrefix(Stars(rating), rating.Floor);
  }

  /** `Math.max(0, (2 - pue) / 1 * 100)`, a width in percent. */
  function PueBarWidth(pue: real): real {
    var w := (2.0 - pue) / 1.0 * 100.0;
    if w > 0.0 then w else 0.0
  }

  /** The bar is never negative, is empty from a PUE of 2 up, overflows
      its track below a PUE of 1, and shrinks as the PUE grows. */
  lemma PueBarWidthSpec(pue: real, other: real)
    ensures PueBarWidth(pue) >= 0.0
    ensures PueBarWidth(pue) == 0.0 <==> pue >= 2.0
    ensures PueBarWidth(pue) > 100.0 <==> pue < 1.0
    ensures pue <= other ==> PueBarWidth(other) <= PueBarWidth(pue)
  {
  }
}

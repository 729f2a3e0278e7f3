/** `frontend/src/components/common/Badges.jsx`: the viral-label badge with its style and icon
    lookup tables, and the rank-change arrow. Class names are reduced to their colour. */
module Badges {
  import opened Wrappers
  import opened Format
  import Growth

  /** The colour of a badge's class list. */
  datatype Tone = Red | Orange | Green | Blue | Gray | Yellow

  /** The lucide icons the badges use. */
  datatype Icon = Flame | TrendingUp | Minus | TrendingDown

  datatype BadgeView = BadgeView(tone: Tone, icon: Option<Icon>, text: string)

  /** The `styles` table: the four labels this component knows. */
  function StyleOf(name: string): (r: Option<Tone>)
    ensures r.Some? <==> name in {"Exploding", "Rising", "Stable", "Slowing"}
  {
    if name == "Exploding" then Some(Red)
    else if name == "Rising" then Some(Orange)
    else if name == "Stable" then Some(Blue)
    else if name == "Slowing" then Some(Gray)
    else None
  }

  /** The `icons` table, over the same four labels. */
  function IconOf(name: string): (r: Option<Icon>)
    ensures r.Some? <==> StyleOf(name).Some?
  {
    if name == "Exploding" || name == "Rising" then Some(TrendingUp)
    else if name == "Stable" then Some(Minus)
    else if name == "Slowing" then Some(TrendingDown)
    else None
  }

  /** `ViralBadge`: nothing for a falsy label; otherwise the label's own style, or the Stable
      style for a label outside the table, with the label as text. */
  function ViralBadge(viralLabel: Option<string>): (r: Option<BadgeView>)
    ensures r.None? <==> FalsyText(viralLabel)
    ensures r.Some? ==> r.value.text == viralLabel.value
    ensures r.Some? ==> r.value.tone == StyleOf(viralLabel.value).GetOr(Blue)
    ensures r.Some? && StyleOf(viralLabel.value).None? ==> r.value.tone == Blue && r.value.icon.None?
  {
    if FalsyText(viralLabel) then None
    else Some(BadgeView(StyleOf(viralLabel.value).GetOr(Blue), IconOf(viralLabel.value), viralLabel.value))
  }

  /** Of the labels the growth analyzer produces, only "Exploding", "Stable" and "Slowing"
      are styled as themselves: "Rising Fast" (and "Unknown") fall back to the Stable style
      without an icon. */
  lemma BackendLabelsStyled(l: Growth.Label)
    ensures var b := ViralBadge(Some(l.Name()));
      b.Some? && b.value.text == l.Name()
      && (b.value.icon.Some? <==> l in {Growth.Exploding, Growth.Stable, Growth.Slowing})
    ensures l == Growth.RisingFast ==> ViralBadge(Some(l.Name())) == Some(BadgeView(Blue, None, "Rising Fast"))
  {
  }

  datatype Arrow = Up | Down

  /** What `RankChange` renders: an arrow and `Math.abs(current - previous)`, which is NaN
      (`None`) when `current` is not a number. */
  datatype RankView = RankView(arrow: Arrow, magnitude: Option<nat>)

  /** JavaScript's `===` on these values: NaN equals nothing. */
  predicate StrictEquals(a: JsNumber, b: JsNumber)
  {
    a == b && !a.NaN?
  }

  /** `RankChange`: nothing when `previous` is falsy or equal to `current`; otherwise up iff
      `current < previous` (a smaller rank is better), with the distance between the two.
      For numeric ranks with a non-zero previous rank a change is rendered iff they differ,
      with a positive magnitude. */
  function RankChange(current: JsNumber, previous: JsNumber): (r: Option<RankView>)
    ensures Falsy(previous) ==> r.None?
    ensures current.Num? && previous.Num? && previous.n != 0 ==>
      && (r.Some? <==> current.n != previous.n)
      && (r.Some? ==> (r.value.arrow == Up <==> current.n < previous.n))
      && (r.Some? ==> r.value.magnitude.Some? && r.value.magnitude.value > 0
                      && r.value.magnitude.value as int == Abs(current.n - previous.n))
    ensures r.Some? && (current.Undefined? || current.NaN?) ==> r.value.arrow == Down && r.value.magnitude.None?
  {
    if Falsy(previous) || StrictEquals(current, previous) then None
    else
      var c := ToNumber(current);
      var p := previous.n;
      Some(RankView(if c.Some? && c.value < p then Up else Down,
                    if c.Some? then Some(Abs(c.value - p)) else None))
  }

  function Abs(x: int): nat { if x < 0 then -x else x }
}

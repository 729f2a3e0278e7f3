/** `frontend/src/utils/format.js` (and the identical copies at the top of `App.js`):
    `formatNumber`'s tier selection and the empty-input rule of the two date formatters.
    `toFixed` and `toLocaleDateString` are not rendered: a tier result records the scaled
    value, the number of decimals and the suffix, and a date result records its input. */
module Format {
  import opened Wrappers
  import opened Text

  /** A JavaScript value where a number is expected. Counts are whole numbers. */
  datatype JsNumber = Undefined | Null | NaN | Num(n: int)

  /** `!num`: undefined, null, NaN and 0 are falsy. */
  predicate Falsy(v: JsNumber) { !v.Num? || v.n == 0 }

  /** JavaScript's `Number(v)` on these values; `None` is NaN. */
  function ToNumber(v: JsNumber): (r: Option<int>)
    ensures r.None? <==> v.Undefined? || v.NaN?
  {
    match v
    case Undefined => None
    case Null => Some(0)
    case NaN => None
    case Num(n) => Some(n)
  }

  /** What `formatNumber` shows: `(value).toFixed(decimals) + suffix`, or a literal string. */
  datatype Shown = Scaled(value: real, decimals: nat, suffix: string) | Literal(text: string)

  const Billion: int := 1_000_000_000
  const Million: int := 1_000_000
  const Thousand: int := 1_000

  /** `formatNumber`: "0" for a falsy value; otherwise exactly one tier applies, with inclusive
      lower bounds, and a scaled value times its unit gives back the number. */
  function FormatNumber(v: JsNumber): (r: Shown)
    ensures Falsy(v) ==> r == Literal("0")
    ensures !Falsy(v) ==>
      && (r.Scaled? && r.suffix == "B" && r.decimals == 2 <==> v.n >= Billion)
      && (r.Scaled? && r.suffix == "M" && r.decimals == 2 <==> Million <= v.n < Billion)
      && (r.Scaled? && r.suffix == "K" && r.decimals == 1 <==> Thousand <= v.n < Million)
      && (r.Literal? <==> v.n < Thousand)
    ensures r.Scaled? && r.suffix == "B" ==> r.value * Billion as real == v.n as real && r.value >= 1.0
    ensures r.Scaled? && r.suffix == "M" ==> r.value * Million as real == v.n as real && 1.0 <= r.value < 1000.0
    ensures r.Scaled? && r.suffix == "K" ==> r.value * Thousand as real == v.n as real && 1.0 <= r.value < 1000.0
  {
    if Falsy(v) then Literal("0")
    else if v.n >= Billion then Scaled(v.n as real / Billion as real, 2, "B")
    else if v.n >= Million then Scaled(v.n as real / Million as real, 2, "M")
    else if v.n >= Thousand then Scaled(v.n as real / Thousand as real, 1, "K")
    else Literal(IntToString(v.n))
  }

  /** Below the K tier a positive number is shown as its own decimal text, which reads back
      as the number; every negative number, however large, is shown unscaled with a '-'. */
  lemma FormatNumberUnscaled(n: int)
    requires n != 0 && n < Thousand
    ensures FormatNumber(Num(n)) == Literal(IntToString(n))
    ensures n > 0 ==> AllDigits(FormatNumber(Num(n)).text) && ParseDigits(FormatNumber(Num(n)).text) == n
    ensures n < 0 ==> FormatNumber(Num(n)).text[0] == '-'
  {
    if n > 0 {
      ParseNatToString(n);
    }
  }

  /** What a date formatter shows: nothing, or the localized date of its input. */
  datatype DateText = Blank | Localized(source: string, withYear: bool)

  /** A missing or empty date string is falsy. */
  predicate FalsyText(s: Option<string>) { s.None? || s.value == "" }

  /** `formatDate`: month, day and year of the parsed date, or "" for falsy input. */
  function FormatDate(s: Option<string>): (r: DateText)
    ensures r.Blank? <==> FalsyText(s)
    ensures r.Localized? ==> r.source == s.value && r.withYear
  {
    if FalsyText(s) then Blank else Localized(s.value, true)
  }

  /** `formatShortDate`: month and day only, or "" for falsy input. */
  function FormatShortDate(s: Option<string>): (r: DateText)
    ensures r.Blank? <==> FalsyText(s)
    ensures r.Localized? ==> r.source == s.value && !r.withYear
  {
    if FalsyText(s) then Blank else Localized(s.value, false)
  }
}

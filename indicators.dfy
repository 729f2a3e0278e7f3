/** `frontend/src/components/common/Indicators.jsx`: the "Updated … ago" text and the animated
    counter. The age of the timestamp is the parameter `diffMs` (now minus the timestamp);
    the interval timer is a loop over its twenty ticks, and numbers are exact reals. */
module Indicators {
  import opened Wrappers
  import opened Text
  import opened Numeric
  import opened Format

  const MinuteMs: int := 60_000
  const HourMs: int := 3_600_000
  const DayMs: int := 86_400_000

  /** Flooring twice is flooring once by the product: Dafny's `/` floors for positive
      divisors, like `Math.floor(x / d)`. */
  lemma NestedDiv(d: int, a: int, b: int)
    requires a in {MinuteMs, HourMs} && b in {60, 24}
    ensures (d / a) / b == d / (a * b)
  {
    var q, r := d / a, d % a;
    var q2, r2 := q / b, q % b;
    assert d == a * q2 * b + (a * r2 + r);
    assert 0 <= a * r2 + r < a * b;
  }

  /** `updateTimeAgo`: "" without a timestamp; otherwise whole minutes, hours or days ago, each
      bucket starting where the previous ends, and a future timestamp is "Just now". */
  function TimeAgo(timestamp: Option<string>, diffMs: int): (r: string)
    ensures FalsyText(timestamp) ==> r == ""
    ensures !FalsyText(timestamp) ==>
      && (diffMs < MinuteMs ==> r == "Just now")
      && (MinuteMs <= diffMs < HourMs ==> r == IntToString(diffMs / MinuteMs) + "m ago")
      && (HourMs <= diffMs < DayMs ==> r == IntToString(diffMs / HourMs) + "h ago")
      && (DayMs <= diffMs ==> r == IntToString(diffMs / DayMs) + "d ago")
    ensures !FalsyText(timestamp) && diffMs == HourMs ==> r == "1h ago"
  {
    if FalsyText(timestamp) then ""
    else
      var mins := diffMs / MinuteMs;
      var hours := mins / 60;
      var days := hours / 24;
      NestedDiv(diffMs, MinuteMs, 60);
      NestedDiv(diffMs, HourMs, 24);
      if mins < 1 then "Just now"
      else if mins < 60 then IntToString(mins) + "m ago"
      else if hours < 24 then IntToString(hours) + "h ago"
      else IntToString(days) + "d ago"
  }

  /** `LastUpdatedIndicator` renders nothing for empty text, else "Updated " and the text. */
  function Indicator(timestamp: Option<string>, diffMs: int): (r: Option<string>)
    ensures r.None? <==> FalsyText(timestamp)
  {
    var text := TimeAgo(timestamp, diffMs);
    if text == "" then None
    else Some("Updated " + text)
  }

  const Steps: int := 20

  /** The value shown after tick `k` (1..20) of an animation from `start` to `target`. */
  function Frame(start: int, target: int, k: nat): int
  {
    if k >= Steps then target
    else JsRound(start as real + k as real * ((target - start) as real / Steps as real))
  }

  /** `Math.round` keeps a value between two integers between them. */
  lemma RoundBetween(x: real, lo: int, hi: int)
    requires lo as real <= x <= hi as real
    ensures lo <= JsRound(x) <= hi
  {
  }

  /** A fraction `t` of `d` lies between 0 and `d`. */
  lemma ScaledBetween(t: real, d: real)
    requires 0.0 <= t <= 1.0
    ensures d >= 0.0 ==> 0.0 <= t * d <= d
    ensures d <= 0.0 ==> d <= t * d <= 0.0
  {
    assert d - t * d == (1.0 - t) * d;
  }

  /** Every frame lies between the start and the target. */
  lemma FrameBetween(start: int, target: int, k: nat)
    requires 1 <= k
    ensures start <= target ==> start <= Frame(start, target, k) <= target
    ensures target <= start ==> target <= Frame(start, target, k) <= start
  {
    if k < Steps {
      var d := (target - start) as real;
      var t := k as real / Steps as real;
      assert k as real * (d / Steps as real) == t * d;
      assert 0.0 <= t <= 1.0;
      ScaledBetween(t, d);
      if d >= 0.0 {
        RoundBetween(start as real + t * d, start, target);
      } else {
        RoundBetween(start as real + t * d, target, start);
      }
    }
  }

  /** `AnimatedCounter`'s displayed value and its `previousValue` ref. */
  class AnimatedCounter {
    var display: int
    var previous: int

    constructor (value: int)
      ensures display == value && previous == value
    {
      display := value;
      previous := value;
    }

    /** The effect on a new `value`: nothing when it equals the previous value; otherwise the
        ref takes the new value at once and twenty ticks show rounded intermediate values,
        the last one exactly the target. Returns the values shown, tick by tick. */
    method Animate(value: int) returns (frames: seq<int>)
      modifies this
      ensures value == old(previous) ==> frames == [] && display == old(display) && previous == old(previous)
      ensures value != old(previous) ==>
        && |frames| == Steps && previous == value
        && (forall k :: 0 <= k < Steps ==> frames[k] == Frame(old(previous), value, k + 1))
        && frames[Steps - 1] == value && display == value
    {
      frames := [];
      if value == previous {
        return;
      }
      var start := previous;
      var stepValue := (value - start) as real / Steps as real;
      var current := start as real;
      var step := 0;
      previous := value;
      while step < Steps
        invariant 0 <= step <= Steps && |frames| == step && previous == value
        invariant step < Steps ==> current == start as real + step as real * stepValue
        invariant forall k :: 0 <= k < step ==> frames[k] == Frame(start, value, k + 1)
        invariant step == Steps ==> display == value
      {
        step := step + 1;
        current := current + stepValue;
        if step >= Steps {
          current := value as real;
        }
        display := JsRound(current);
        frames := frames + [display];
      }
    }
  }
}

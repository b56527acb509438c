/**
 * The two small display rules of components/UIComponents.tsx: the avatar
 * tier chosen from the user level, and the progress bar's percentage.
 */
module Display {

  /** The avatar icons, from the default one up. */
  datatype AvatarTier = Default | Shield | Zap | Crown

  /** The avatar for a user level: three levels per tier from level 3, the crown from 9 on. */
  function Avatar(level: int): (t: AvatarTier)
    ensures t == Default <==> level < 3
    ensures t == Shield <==> 3 <= level < 6
    ensures t == Zap <==> 6 <= level < 9
    ensures t == Crown <==> level >= 9
  {
    if level >= 3 && level < 6 then Shield
    else if level >= 6 && level < 9 then Zap
    else if level >= 9 then Crown
    else Default
  }

  function TierOrder(t: AvatarTier): nat {
    match t
    case Default => 0
    case Shield => 1
    case Zap => 2
    case Crown => 3
  }

  /** A higher level never shows a lower tier. */
  lemma AvatarMonotone(a: int, b: int)
    requires a <= b
    ensures TierOrder(Avatar(a)) <= TierOrder(Avatar(b))
  {
  }

  /** A percentage as the browser computes it: a number, or NaN. */
  datatype Percent = Pct(value: real) | NaN

  /**
   * `Math.min(100, Math.max(0, (value / max) * 100))`. A zero `max` makes the
   * quotient an infinity, which clamps to an end, or NaN for `0 / 0`, which
   * both `Math.max` and `Math.min` pass through.
   */
  function ProgressPercent(value: real, max: real): (r: Percent)
    ensures r.NaN? <==> value == 0.0 && max == 0.0
    ensures r.Pct? ==> 0.0 <= r.value <= 100.0
  {
    if max == 0.0 then
      if value > 0.0 then Pct(100.0)
      else if value < 0.0 then Pct(0.0)
      else NaN
    else
      var p := (value / max) * 100.0;
      Pct(if p > 100.0 then 100.0 else if p < 0.0 then 0.0 else p)
  }

  /** Within range the bar shows the exact share; below it empty, beyond it full. */
  lemma ProgressInRange(value: real, max: real)
    requires max > 0.0
    ensures 0.0 <= value <= max ==> ProgressPercent(value, max) == Pct(value / max * 100.0)
    ensures value <= 0.0 ==> ProgressPercent(value, max) == Pct(0.0)
    ensures value >= max ==> ProgressPercent(value, max) == Pct(100.0)
  {
    if 0.0 <= value <= max {
      assert value / max <= max / max == 1.0;
    }
    if value >= max {
      assert value / max >= max / max == 1.0;
    }
  }

  /** With a positive maximum, more progress never shows a shorter bar. */
  lemma ProgressMonotone(v1: real, v2: real, max: real)
    requires max > 0.0 && v1 <= v2
    ensures ProgressPercent(v1, max).value <= ProgressPercent(v2, max).value
  {
    assert v1 / max <= v2 / max;
  }
}

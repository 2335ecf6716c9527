/**
 * The level curve of the SQLite bot: `calculate_level(xp)` is
 * `int((xp / 100) ** 0.5)`, the whole part of the square root of xp/100.
 * In integers this is the unique `l` with `100*l*l <= xp < 100*(l+1)*(l+1)`;
 * the rank card's `xp_for_current` and `xp_for_next` are those two bounds.
 */
module SqrtCurve {

  /** `int((l ** 2) * 100)`: the XP at which level `l` starts. */
  function Threshold(l: nat): nat { 100 * l * l }

  /** `xp_for_next` of the rank card and of the level-up message. */
  function XpForNext(l: nat): nat { Threshold(l + 1) }

  lemma ThresholdMonotone(a: nat, b: nat)
    requires a <= b
    ensures Threshold(a) <= Threshold(b)
  {
    assert a * a <= a * b <= b * b;
  }

  lemma ThresholdStrict(a: nat, b: nat)
    requires a < b
    ensures Threshold(a) < Threshold(b)
  {
    assert a * a <= a * b < b * b;
  }

  /** The search `calculate_level` amounts to, counting up from level `l`. */
  function LevelFrom(xp: int, l: nat): (r: nat)
    requires Threshold(l) <= xp
    ensures l <= r && Threshold(r) <= xp < Threshold(r + 1)
    decreases xp - Threshold(l)
  {
    ThresholdStrict(l, l + 1);
    if xp < Threshold(l + 1) then l else LevelFrom(xp, l + 1)
  }

  /**
   * `calculate_level(xp)`. A negative xp makes Python raise (the power is
   * complex), so the source only ever calls it on the non-negative column.
   */
  function CalculateLevel(xp: int): (l: nat)
    requires xp >= 0
    ensures Threshold(l) <= xp < XpForNext(l)
  {
    LevelFrom(xp, 0)
  }

  /** The two rank-card bounds pin the level down: there is exactly one such `l`. */
  lemma CalculateLevelUnique(xp: int, l: nat)
    requires xp >= 0
    ensures Threshold(l) <= xp < XpForNext(l) <==> CalculateLevel(xp) == l
  {
    var c := CalculateLevel(xp);
    if Threshold(l) <= xp < XpForNext(l) && c != l {
      if c < l {
        ThresholdMonotone(c + 1, l);
      } else {
        ThresholdMonotone(l + 1, c);
      }
    }
  }

  /** The level is the largest one whose threshold xp has reached. */
  lemma CalculateLevelIsLargest(xp: int, l: nat)
    requires xp >= 0
    ensures Threshold(l) <= xp <==> l <= CalculateLevel(xp)
  {
    var c := CalculateLevel(xp);
    if l <= c {
      ThresholdMonotone(l, c);
    } else {
      ThresholdMonotone(c + 1, l);
    }
  }

  /** More XP never means a lower level. */
  lemma CalculateLevelMonotone(x1: int, x2: int)
    requires 0 <= x1 <= x2
    ensures CalculateLevel(x1) <= CalculateLevel(x2)
  {
    CalculateLevelIsLargest(x2, CalculateLevel(x1));
  }

  /** A fresh row (xp 0, stored level 1) is not promoted until it reaches 400 XP. */
  lemma FirstPromotion(xp: int)
    requires xp >= 0
    ensures CalculateLevel(xp) > 1 <==> xp >= 400
  {
    CalculateLevelIsLargest(xp, 2);
  }
}

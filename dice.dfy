/**
 * The `NdM` dice notation shared by `roll` (imbulichka/bot/cogs/games.py)
 * and `diceroll` (imbulichka/bot/cogs/fun.py): `map(int, dice.split("d"))`
 * must yield exactly two integers, and each die is `random.randint(1, sides)`.
 */
module Dice {
  import opened Wrappers
  import Text

  /** `num, sides = map(int, dice.split("d"))`; None where Python raises `ValueError`. */
  function ParseDice(dice: string): (r: Option<(int, int)>)
    ensures r.Some? ==> Text.Occurrences(dice, 'd') == 1
  {
    var parts := Text.Split(dice, 'd');
    if |parts| != 2 then None
    else
      match (Text.ParseInt(parts[0]), Text.ParseInt(parts[1]))
      case (Some(n), Some(m)) => Some((n, m))
      case _ => None
  }

  /** Dice written the way `str` writes integers parse back to those integers. */
  lemma ParseDiceOfNotation(n: int, m: int)
    ensures ParseDice(Text.IntToString(n) + "d" + Text.IntToString(m)) == Some((n, m))
  {
    var a := Text.IntToString(n);
    var b := Text.IntToString(m);
    Text.NotInNumber(n, 'd');
    Text.NotInNumber(m, 'd');
    Text.SplitAfter(a, b, 'd');
    Text.SplitWithout(b, 'd');
    assert a + "d" + b == a + ['d'] + b;
    Text.ParseIntOfIntToString(n);
    Text.ParseIntOfIntToString(m);
  }

  /**
   * `[random.randint(1, sides) for _ in range(num)]`, where `draws[i]` is the
   * i-th random number and the die shows `1 + draws[i] % sides`.
   */
  function Rolls(draws: seq<nat>, sides: int, num: int): (rolls: seq<int>)
    requires num <= |draws| && (num >= 1 ==> sides >= 1)
    ensures |rolls| == if num <= 0 then 0 else num
    ensures forall i :: 0 <= i < |rolls| ==> 1 <= rolls[i] <= sides
  {
    if num <= 0 then [] else seq(num, i requires 0 <= i < num => 1 + draws[i] % sides)
  }

  /** Every outcome of the dice is one some draws produce. */
  lemma RollsReachEveryOutcome(rolls: seq<int>, sides: int)
    requires sides >= 1 && forall i :: 0 <= i < |rolls| ==> 1 <= rolls[i] <= sides
    ensures var draws := seq(|rolls|, i requires 0 <= i < |rolls| => (rolls[i] - 1) as nat);
      Rolls(draws, sides, |rolls|) == rolls
  {
  }

  /** `sum(rolls)`. */
  function Sum(s: seq<int>): int {
    if s == [] then 0 else Sum(s[..|s| - 1]) + s[|s| - 1]
  }

  /** Dice of at most `sides` pips add up to `|rolls| * sides` exactly when every one shows `sides`. */
  lemma {:induction false} SumIsMaxIffAllMax(rolls: seq<int>, sides: int)
    requires forall i :: 0 <= i < |rolls| ==> rolls[i] <= sides
    ensures Sum(rolls) <= |rolls| * sides
    ensures Sum(rolls) == |rolls| * sides <==> forall i :: 0 <= i < |rolls| ==> rolls[i] == sides
    decreases |rolls|
  {
    if rolls != [] {
      var front := rolls[..|rolls| - 1];
      SumIsMaxIffAllMax(front, sides);
      assert |rolls| * sides == |front| * sides + sides;
      if Sum(rolls) == |rolls| * sides {
        forall i | 0 <= i < |rolls| ensures rolls[i] == sides {
          if i < |front| {
            assert front[i] == rolls[i];
          }
        }
      }
      if forall i :: 0 <= i < |rolls| ==> rolls[i] == sides {
        assert forall i :: 0 <= i < |front| ==> front[i] == sides by {
          forall i | 0 <= i < |front| ensures front[i] == sides {
            assert front[i] == rolls[i];
          }
        }
      }
    }
  }
}

/**
 * `diceroll` of the fun cog (imbulichka/bot/cogs/fun.py): unlike `roll` it
 * refuses more than 20 dice or more than 100 sides instead of capping them,
 * and any failure, including `randint` on a die with no sides, gives the
 * format message.
 */
module FunDice {
  import opened Wrappers
  import Dice
  import Text

  datatype DiceRollOutcome = FormatMessage | TooLarge | Rolled(rolls: seq<int>, total: int)

  /** `dice_roll_fun` with `draws` as the random numbers. */
  function DiceRoll(dice: string, draws: seq<nat>): (o: DiceRollOutcome)
    requires |draws| >= 20
  {
    match Dice.ParseDice(dice)
    case None => FormatMessage
    case Some((num, sides)) =>
      if num > 20 || sides > 100 then TooLarge
      else if num >= 1 && sides < 1 then FormatMessage
      else
        var rolls := Dice.Rolls(draws, sides, num);
        Rolled(rolls, Dice.Sum(rolls))
  }

  /**
   * The outcome is decided by the parse alone, the limits are refused rather
   * than capped, and a roll throws exactly `num` dice (none for a
   * non-positive count), each between 1 and `sides`, and totals them.
   */
  lemma DiceRollSpec(dice: string, draws: seq<nat>)
    requires |draws| >= 20
    ensures Dice.ParseDice(dice).None? ==> DiceRoll(dice, draws) == FormatMessage
    ensures Dice.ParseDice(dice).Some? ==>
      var (num, sides) := Dice.ParseDice(dice).value;
      (DiceRoll(dice, draws) == TooLarge <==> num > 20 || sides > 100)
      && (DiceRoll(dice, draws) == FormatMessage <==> num <= 20 && 1 <= num && sides < 1)
    ensures DiceRoll(dice, draws).Rolled? ==>
      var (num, sides) := Dice.ParseDice(dice).value;
      var o := DiceRoll(dice, draws);
      num <= 20 && sides <= 100
      && |o.rolls| == (if num <= 0 then 0 else num)
      && (forall i :: 0 <= i < |o.rolls| ==> 1 <= o.rolls[i] <= sides)
      && o.total == Dice.Sum(o.rolls)
      && (num >= 1 ==> num <= o.total <= num * sides)
  {
    var o := DiceRoll(dice, draws);
    if o.Rolled? {
      var (num, sides) := Dice.ParseDice(dice).value;
      if num >= 1 {
        Dice.SumIsMaxIffAllMax(o.rolls, sides);
        SumAtLeastCount(o.rolls);
      }
    }
  }

  /** Dice that each show at least 1 total at least their number. */
  lemma {:induction false} SumAtLeastCount(rolls: seq<int>)
    requires forall i :: 0 <= i < |rolls| ==> 1 <= rolls[i]
    ensures Dice.Sum(rolls) >= |rolls|
    decreases |rolls|
  {
    if rolls != [] {
      var front := rolls[..|rolls| - 1];
      assert forall i :: 0 <= i < |front| ==> front[i] == rolls[i];
      SumAtLeastCount(front);
    }
  }

  /** "21d6" is refused, where `roll` would throw ten dice. */
  lemma TooManyDiceRefused(draws: seq<nat>)
    requires |draws| >= 20
    ensures DiceRoll("21d6", draws) == TooLarge
  {
    Dice.ParseDiceOfNotation(21, 6);
    assert Text.IntToString(21) + "d" + Text.IntToString(6) == "21d6";
  }
}

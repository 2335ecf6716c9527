/**
 * The games cog of the SQLite bot (imbulichka/bot/cogs/games.py): the
 * rock-paper-scissors outcome, the `NdM` dice roll with its clamps, and the
 * slot machine with its payout table and its effect on the stored balance.
 */
module Games {
  import opened Wrappers
  import opened UserTable
  import Dice
  import Text

  // ---------------------------------------------------------------- rps

  datatype Hand = Rock | Paper | Scissors
  datatype RpsOutcome = InvalidChoice | Tie | PlayerWins | BotWins

  /**
   * `str.lower` on one character: ASCII capitals and KELVIN SIGN (which
   * lowers to 'k'). Every other character that lowers into "rock", "paper"
   * or "scissors" is one of these, so membership in the three choices is
   * decided exactly.
   */
  function LowerChar(c: char): (l: char)
    ensures 'A' <= c <= 'Z' ==> l as int == c as int + 32
    ensures !('A' <= c <= 'Z') && c != '\U{212A}' ==> l == c
    ensures c == '\U{212A}' ==> l == 'k'
  {
    if 'A' <= c <= 'Z' then (c as int + 32) as char
    else if c == '\U{212A}' then 'k'
    else c
  }

  function Lower(s: string): (l: string)
    ensures |l| == |s| && forall i :: 0 <= i < |s| ==> l[i] == LowerChar(s[i])
  {
    seq(|s|, i requires 0 <= i < |s| => LowerChar(s[i]))
  }

  function HandName(h: Hand): string {
    match h
    case Rock => "rock"
    case Paper => "paper"
    case Scissors => "scissors"
  }

  /** `choice not in choices` after lowering. */
  function HandOf(s: string): (h: Option<Hand>)
    ensures h.Some? <==> s in {"rock", "paper", "scissors"}
    ensures h.Some? ==> HandName(h.value) == s
  {
    if s == "rock" then Some(Rock)
    else if s == "paper" then Some(Paper)
    else if s == "scissors" then Some(Scissors)
    else None
  }

  /** The three winning pairs of the player. */
  predicate Beats(a: Hand, b: Hand) {
    (a == Rock && b == Scissors) || (a == Paper && b == Rock) || (a == Scissors && b == Paper)
  }

  /** `rps_command` with the bot's `random.choice` as `botHand`. */
  function Rps(choice: string, botHand: Hand): (o: RpsOutcome)
    ensures o == InvalidChoice <==> HandOf(Lower(choice)).None?
  {
    match HandOf(Lower(choice))
    case None => InvalidChoice
    case Some(h) =>
      if h == botHand then Tie
      else if Beats(h, botHand) then PlayerWins
      else BotWins
  }

  /**
   * The outcome of a valid choice: a tie exactly on equal hands, and the
   * game is antisymmetric: whoever wins with the roles swapped loses.
   */
  lemma RpsSpec(choice: string, botHand: Hand)
    requires HandOf(Lower(choice)).Some?
    ensures var h := HandOf(Lower(choice)).value;
      (Rps(choice, botHand) == Tie <==> h == botHand)
      && (Rps(choice, botHand) == PlayerWins <==> Rps(HandName(botHand), h) == BotWins)
      && (Rps(choice, botHand) == BotWins <==> Rps(HandName(botHand), h) == PlayerWins)
  {
    var h := HandOf(Lower(choice)).value;
    assert Lower(HandName(botHand)) == HandName(botHand);
  }

  /** Every hand beats exactly one hand and loses to exactly one other. */
  lemma BeatsExactlyOne(a: Hand)
    ensures exists b :: Beats(a, b) && forall c :: Beats(a, c) ==> c == b
    ensures exists b :: Beats(b, a) && forall c :: Beats(c, a) ==> c == b
    ensures !Beats(a, a)
  {
    match a
    case Rock => assert Beats(Rock, Scissors) && Beats(Paper, Rock);
    case Paper => assert Beats(Paper, Rock) && Beats(Scissors, Paper);
    case Scissors => assert Beats(Scissors, Paper) && Beats(Rock, Scissors);
  }

  /** Lowering twice is lowering once. */
  lemma LowerIdempotent(s: string)
    ensures Lower(Lower(s)) == Lower(s)
  {
    forall i | 0 <= i < |s|
      ensures Lower(Lower(s))[i] == Lower(s)[i]
    {
      var c := s[i];
      if 'A' <= c <= 'Z' {
        assert !('A' <= LowerChar(c) <= 'Z') && LowerChar(c) != '\U{212A}';
      }
    }
  }

  /** Capitals are accepted: any choice plays as its lowered form. */
  lemma RpsIgnoresCase(choice: string, botHand: Hand)
    ensures Rps(choice, botHand) == Rps(Lower(choice), botHand)
  {
    LowerIdempotent(choice);
  }

  // ---------------------------------------------------------------- roll

  datatype RollOutcome =
    | FormatHint
    | InvalidFormat
    | Rolled(num: int, sides: int, rolls: seq<int>, total: int, critical: bool)

  function Min(a: int, b: int): int { if a <= b then a else b }

  /**
   * `roll_command` with `draws` as the random numbers. A missing 'd' gives
   * the format hint; a split that is not two integers, and a positive number
   * of dice with fewer than one side (`randint` raises), give the error
   * message. Otherwise num is capped at 10 and sides at 100.
   */
  function Roll(dice: string, draws: seq<nat>): (o: RollOutcome)
    requires |draws| >= 10
  {
    if 'd' !in dice then FormatHint
    else match Dice.ParseDice(dice)
      case None => InvalidFormat
      case Some((n, s)) =>
        var num := Min(n, 10);
        var sides := Min(s, 100);
        if num >= 1 && sides < 1 then InvalidFormat
        else
          var rolls := Dice.Rolls(draws, sides, num);
          var total := Dice.Sum(rolls);
          Rolled(num, sides, rolls, total, total == num * sides)
  }

  /**
   * A roll happens exactly when the text parses and the dice can be thrown;
   * it throws at most 10 dice of at most 100 sides, each in range, and is
   * critical exactly when every die shows its maximum. With no dice the
   * total is 0, so "0d6" is critical and "-1d6" is not.
   */
  lemma RollSpec(dice: string, draws: seq<nat>)
    requires |draws| >= 10
    ensures Roll(dice, draws) == FormatHint <==> 'd' !in dice
    ensures Roll(dice, draws).Rolled? <==>
      'd' in dice && Dice.ParseDice(dice).Some?
      && !(Dice.ParseDice(dice).value.0 >= 1 && Dice.ParseDice(dice).value.1 < 1)
    ensures Roll(dice, draws).Rolled? ==>
      var o := Roll(dice, draws);
      var (n, s) := Dice.ParseDice(dice).value;
      o.num == Min(n, 10) && o.sides == Min(s, 100)
      && |o.rolls| == (if o.num <= 0 then 0 else o.num)
      && (forall i :: 0 <= i < |o.rolls| ==> 1 <= o.rolls[i] <= o.sides)
      && o.total == Dice.Sum(o.rolls)
      && (o.num >= 1 ==> (o.critical <==> forall i :: 0 <= i < |o.rolls| ==> o.rolls[i] == o.sides))
      && (o.num <= 0 ==> (o.critical <==> o.num == 0 || o.sides == 0))
  {
    if 'd' in dice && Dice.ParseDice(dice).Some? {
      var (n, s) := Dice.ParseDice(dice).value;
      var num := Min(n, 10);
      var sides := Min(s, 100);
      if !(num >= 1 && sides < 1) {
        var rolls := Dice.Rolls(draws, sides, num);
        assert Roll(dice, draws) == Rolled(num, sides, rolls, Dice.Sum(rolls), Dice.Sum(rolls) == num * sides);
        if num >= 1 {
          Dice.SumIsMaxIffAllMax(rolls, sides);
        } else {
          assert rolls == [];
        }
      }
    }
  }

  /** The dice are capped: "20d200" throws ten hundred-sided dice. */
  lemma RollCaps(draws: seq<nat>)
    requires |draws| >= 10
    ensures Roll("20d200", draws).Rolled? && Roll("20d200", draws).num == 10 && Roll("20d200", draws).sides == 100
  {
    Dice.ParseDiceOfNotation(20, 200);
    assert Text.IntToString(20) + "d" + Text.IntToString(200) == "20d200" by {
      Text.NatToStringDigits(20);
    }
  }

  // ---------------------------------------------------------------- slots

  /** The eight reel symbols, 💎 last. */
  const Symbols: seq<string> := [
    "\U{1F352}", "\U{1F34B}", "\U{1F34A}", "\U{1F347}",
    "\U{2B50}", "7\U{FE0F}\U{20E3}", "\U{1F514}", "\U{1F48E}"]
  const Diamond: string := "\U{1F48E}"
  const SpinCost := 10

  /** The winnings of three reels. */
  function Payout(s0: string, s1: string, s2: string): (w: int)
    ensures w in {0, 25, 100, 500}
    ensures w == 500 <==> s0 == s1 == s2 == Diamond
    ensures w == 100 <==> s0 == s1 == s2 != Diamond
    ensures w == 25 <==> !(s0 == s1 == s2) && (s0 == s1 || s1 == s2)
  {
    if s0 == s1 == s2 then (if s0 == Diamond then 500 else 100)
    else if s0 == s1 || s1 == s2 then 25
    else 0
  }

  /**
   * Only adjacent reels count: matching first and third reels around a
   * different middle reel pay nothing, so the spin loses its cost.
   */
  lemma OuterPairPaysNothing()
    ensures Payout(Symbols[0], Symbols[1], Symbols[0]) == 0
    ensures Payout(Symbols[0], Symbols[1], Symbols[0]) - SpinCost == -10
  {
  }

  /** The net result of a spin is one of four amounts, and only a match profits. */
  lemma NetSpec(s0: string, s1: string, s2: string)
    ensures Payout(s0, s1, s2) - SpinCost in {-10, 15, 90, 490}
    ensures Payout(s0, s1, s2) - SpinCost > 0 <==> s0 == s1 || s1 == s2
  {
  }

  /**
   * The two statements of a paid spin, the cost taken and the winnings (if
   * any) added, move the balance by the net and keep the table good.
   */
  lemma SpinMovesBalance(t: map<Key, UserRow>, k: Key, w: int)
    requires k in t && t[k].coins >= SpinCost && w >= 0
    ensures var charged := Update(t, k, AddCoins(-SpinCost));
      var t' := if w > 0 then Update(charged, k, AddCoins(w)) else charged;
      t' == t[k := t[k].(coins := t[k].coins + (w - SpinCost))]
      && (AllGood(t) ==> AllGood(t'))
  {
    var charged := Update(t, k, AddCoins(-SpinCost));
    ChargeKeepsGood(t, k, SpinCost);
    UpdateGrowsKeepsGood(charged, k, AddCoins(w));
  }

  datatype SlotsOutcome = NeedCoins | Spun(reels: seq<string>, winnings: int, net: int)

  class GamesCog {
    const db: Database

    constructor (db: Database)
      ensures this.db == db
    {
      this.db := db;
    }

    /**
     * `slots_command` with the three `random.choice` picks as indices. A
     * member without a row or with fewer than 10 coins is refused and
     * nothing changes; otherwise the cost is taken and the winnings, if
     * any, are added, so the balance moves by exactly the net.
     */
    method Slots(userId: int, guildId: int, pick0: nat, pick1: nat, pick2: nat) returns (o: SlotsOutcome)
      requires pick0 < |Symbols| && pick1 < |Symbols| && pick2 < |Symbols|
      modifies db
      ensures db.cards == old(db.cards)
      ensures old(db.Valid()) ==> db.Valid()
      ensures var k := Key(userId, guildId);
        o == NeedCoins <==> k !in old(db.users) || old(db.users)[k].coins < SpinCost
      ensures o == NeedCoins ==> db.users == old(db.users)
      ensures o.Spun? ==>
        var k := Key(userId, guildId);
        o.reels == [Symbols[pick0], Symbols[pick1], Symbols[pick2]]
        && o.winnings == Payout(Symbols[pick0], Symbols[pick1], Symbols[pick2])
        && o.net == o.winnings - SpinCost
        && db.users == old(db.users)[k := old(db.users)[k].(coins := old(db.users)[k].coins + o.net)]
    {
      var k := Key(userId, guildId);
      var result := db.GetUser(k);
      if result.None? || result.value.coins < SpinCost {
        return NeedCoins;
      }
      var reels := [Symbols[pick0], Symbols[pick1], Symbols[pick2]];
      var winnings := Payout(reels[0], reels[1], reels[2]);
      SpinMovesBalance(db.users, k, winnings);
      db.Execute(k, AddCoins(-SpinCost));
      if winnings > 0 {
        db.Execute(k, AddCoins(winnings));
      }
      o := Spun(reels, winnings, winnings - SpinCost);
    }
  }
}

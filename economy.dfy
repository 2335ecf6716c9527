/**
 * The economy cog of the SQLite bot (imbulichka/bot/cogs/economy.py): `work`
 * and `daily` pay a random amount behind a per-user cooldown (keyed by user
 * id alone), `balance` creates a missing row, and `give` moves coins between
 * two members of a guild after three checks.
 */
module Economy {
  import opened UserTable
  import Clock

  /** `timedelta(minutes=5)` and `timedelta(hours=24)` in seconds. */
  const WorkPeriod := 300
  const DailyPeriod := 86400

  datatype WorkOutcome = WorkWait(minutes: int, seconds: int) | Worked(earnings: int)
  datatype DailyOutcome = DailyWait(hours: int, minutes: int) | DailyClaimed(reward: int)
  datatype GiveOutcome = NotPositive | SelfTransfer | NotEnoughCoins | Transferred

  /** The table after the two UPDATEs of `give`: debit the sender, then credit the receiver. */
  function Transfer(t: map<Key, UserRow>, sender: Key, receiver: Key, amount: int): map<Key, UserRow> {
    Update(Update(t, sender, AddCoins(-amount)), receiver, AddCoins(amount))
  }

  /**
   * Between two distinct rows the amount changes hands and nothing else
   * changes: the pair's total is conserved, every other row is untouched,
   * and a debit the sender can cover keeps the table good.
   */
  lemma TransferSpec(t: map<Key, UserRow>, sender: Key, receiver: Key, amount: int)
    requires sender in t && receiver in t && sender != receiver
    ensures Transfer(t, sender, receiver, amount).Keys == t.Keys
    ensures Transfer(t, sender, receiver, amount)[sender] == t[sender].(coins := t[sender].coins - amount)
    ensures Transfer(t, sender, receiver, amount)[receiver] == t[receiver].(coins := t[receiver].coins + amount)
    ensures Transfer(t, sender, receiver, amount)[sender].coins + Transfer(t, sender, receiver, amount)[receiver].coins
         == t[sender].coins + t[receiver].coins
    ensures forall k :: k in t && k != sender && k != receiver ==> Transfer(t, sender, receiver, amount)[k] == t[k]
    ensures AllGood(t) && 0 <= amount <= t[sender].coins ==> AllGood(Transfer(t, sender, receiver, amount))
  {
    if AllGood(t) && 0 <= amount <= t[sender].coins {
      DebitKeepsGood(t[sender], amount);
      var t1 := Update(t, sender, AddCoins(-amount));
      UpdateKeepsGood(t, sender, AddCoins(-amount));
      GrowsKeepsGood(t1[receiver], AddCoins(amount));
      UpdateKeepsGood(t1, receiver, AddCoins(amount));
    }
  }

  class EconomyCog {
    /** `self.cooldowns` (work) and `self.daily_cooldowns`: user id to the second of the last payment. */
    var cooldowns: map<int, int>
    var dailyCooldowns: map<int, int>
    const db: Database

    constructor (db: Database)
      ensures this.db == db && cooldowns == map[] && dailyCooldowns == map[]
    {
      this.db := db;
      cooldowns := map[];
      dailyCooldowns := map[];
    }

    /**
     * `work_command` with the drawn `earnings`. Within five minutes of the
     * last payment it only reports the time left; otherwise it adds the
     * earnings (to an existing row only) and records now.
     */
    method Work(userId: int, guildId: int, now: int, earnings: int) returns (o: WorkOutcome)
      requires 50 <= earnings <= 200
      modifies this, db
      ensures dailyCooldowns == old(dailyCooldowns) && db.cards == old(db.cards)
      ensures old(db.Valid()) ==> db.Valid()
      ensures Clock.Cooling(old(cooldowns), userId, now, WorkPeriod) ==>
        o.WorkWait? && cooldowns == old(cooldowns) && db.users == old(db.users)
        && 60 * o.minutes + o.seconds == WorkPeriod - (now - old(cooldowns)[userId])
        && 0 <= o.seconds < 60
      ensures !Clock.Cooling(old(cooldowns), userId, now, WorkPeriod) ==>
        o == Worked(earnings) && cooldowns == old(cooldowns)[userId := now]
        && db.users == Update(old(db.users), Key(userId, guildId), AddCoins(earnings))
    {
      if userId in cooldowns {
        var passed := now - cooldowns[userId];
        if passed < WorkPeriod {
          var (minutes, seconds) := Clock.Split60(WorkPeriod - passed);
          return WorkWait(minutes, seconds);
        }
      }
      UpdateGrowsKeepsGood(db.users, Key(userId, guildId), AddCoins(earnings));
      db.Execute(Key(userId, guildId), AddCoins(earnings));
      cooldowns := cooldowns[userId := now];
      o := Worked(earnings);
    }

    /** `daily_reward` with the drawn `reward`: the same shape with a 24-hour cooldown. */
    method Daily(userId: int, guildId: int, now: int, reward: int) returns (o: DailyOutcome)
      requires 100 <= reward <= 500
      modifies this, db
      ensures cooldowns == old(cooldowns) && db.cards == old(db.cards)
      ensures old(db.Valid()) ==> db.Valid()
      ensures Clock.Cooling(old(dailyCooldowns), userId, now, DailyPeriod) ==>
        o.DailyWait? && dailyCooldowns == old(dailyCooldowns) && db.users == old(db.users)
        && 0 <= o.minutes < 60
        && 3600 * o.hours + 60 * o.minutes <= DailyPeriod - (now - old(dailyCooldowns)[userId])
           < 3600 * o.hours + 60 * o.minutes + 60
      ensures !Clock.Cooling(old(dailyCooldowns), userId, now, DailyPeriod) ==>
        o == DailyClaimed(reward) && dailyCooldowns == old(dailyCooldowns)[userId := now]
        && db.users == Update(old(db.users), Key(userId, guildId), AddCoins(reward))
    {
      if userId in dailyCooldowns {
        var passed := now - dailyCooldowns[userId];
        if passed < DailyPeriod {
          var (hours, minutes) := Clock.HoursMinutes(DailyPeriod - passed);
          return DailyWait(hours, minutes);
        }
      }
      UpdateGrowsKeepsGood(db.users, Key(userId, guildId), AddCoins(reward));
      db.Execute(Key(userId, guildId), AddCoins(reward));
      dailyCooldowns := dailyCooldowns[userId := now];
      o := DailyClaimed(reward);
    }

    /** `check_balance`: creates a missing row, so a new member shows 1000 coins. */
    method Balance(memberId: int, guildId: int) returns (coins: int)
      modifies db
      ensures db.users == InsertOrIgnore(old(db.users), Key(memberId, guildId)) && db.cards == old(db.cards)
      ensures old(db.Valid()) ==> db.Valid()
      ensures coins == db.users[Key(memberId, guildId)].coins
      ensures Key(memberId, guildId) !in old(db.users) ==> coins == 1000
    {
      var k := Key(memberId, guildId);
      var userData := db.GetUser(k);
      if userData.None? {
        db.CreateUser(k);
        userData := db.GetUser(k);
      }
      coins := userData.value.coins;
    }

    /**
     * `give_coins`: refuses a non-positive amount, a gift to oneself, and a
     * sender without a row or without enough coins, changing nothing in each
     * case; otherwise creates a missing receiver row and moves the coins.
     */
    method Give(authorId: int, memberId: int, guildId: int, amount: int) returns (o: GiveOutcome)
      modifies db
      ensures db.cards == old(db.cards)
      ensures old(db.Valid()) ==> db.Valid()
      ensures o == NotPositive <==> amount <= 0
      ensures o == SelfTransfer <==> amount > 0 && memberId == authorId
      ensures o == NotEnoughCoins <==>
        amount > 0 && memberId != authorId
        && (Key(authorId, guildId) !in old(db.users) || old(db.users)[Key(authorId, guildId)].coins < amount)
      ensures o != Transferred ==> db.users == old(db.users)
      ensures o == Transferred ==>
        db.users == Transfer(InsertOrIgnore(old(db.users), Key(memberId, guildId)),
                             Key(authorId, guildId), Key(memberId, guildId), amount)
    {
      if amount <= 0 {
        return NotPositive;
      }
      if memberId == authorId {
        return SelfTransfer;
      }
      var sender := Key(authorId, guildId);
      var receiver := Key(memberId, guildId);
      var senderData := db.GetUser(sender);
      if senderData.None? || senderData.value.coins < amount {
        return NotEnoughCoins;
      }
      var receiverData := db.GetUser(receiver);
      if receiverData.None? {
        db.CreateUser(receiver);
      }
      TransferSpec(db.users, sender, receiver, amount);
      db.Execute(sender, AddCoins(-amount));
      db.Execute(receiver, AddCoins(amount));
      o := Transferred;
    }
  }
}

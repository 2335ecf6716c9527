/**
 * The message listener of the SQLite bot (imbulichka/bot/events/on_message.py).
 * It keeps its own cooldown map, keyed by user id alone (so a message in one
 * guild starts the cooldown in every guild), and awards a message with one
 * combined UPDATE of xp and messages followed by the same promotion rule as
 * the leveling cog.
 */
module MessageEvent {
  import opened Wrappers
  import opened UserTable
  import Clock
  import Leveling
  import SqrtCurve

  class OnMessageCog {
    /** `self.cooldowns`: user id to the second of the last counted message. */
    var cooldowns: map<int, int>
    const db: Database
    /** `Config.XP_PER_MESSAGE` and `Config.COOLDOWN_SECONDS`, never defined: parameters. */
    const xpPerMessage: int
    const cooldownSeconds: int

    constructor (db: Database, xpPerMessage: int, cooldownSeconds: int)
      ensures this.db == db && this.xpPerMessage == xpPerMessage
      ensures this.cooldownSeconds == cooldownSeconds && cooldowns == map[]
    {
      this.db := db;
      this.xpPerMessage := xpPerMessage;
      this.cooldownSeconds := cooldownSeconds;
      cooldowns := map[];
    }

    /**
     * `on_message`. Bots, direct messages and messages within the cooldown
     * change nothing, not even the recorded time. Otherwise the time is
     * recorded first, the author's row is created if missing, and the row
     * is awarded the message.
     */
    method OnMessage(authorIsBot: bool, guild: Option<int>, authorId: int, now: int)
      returns (promoted: Option<nat>)
      requires xpPerMessage > 0 && db.Valid()
      modifies this, db
      ensures db.Valid() && db.cards == old(db.cards)
      ensures authorIsBot || guild.None? || Clock.Cooling(old(cooldowns), authorId, now, cooldownSeconds) ==>
        cooldowns == old(cooldowns) && db.users == old(db.users) && promoted.None?
      ensures !(authorIsBot || guild.None? || Clock.Cooling(old(cooldowns), authorId, now, cooldownSeconds)) ==>
        var k := Key(authorId, guild.value);
        var t := InsertOrIgnore(old(db.users), k);
        cooldowns == old(cooldowns)[authorId := now]
        && db.users == t[k := Leveling.AwardMessage(t[k], xpPerMessage).0]
        && promoted == Leveling.AwardMessage(t[k], xpPerMessage).1
    {
      if authorIsBot || guild.None? {
        return None;
      }
      if authorId in cooldowns && now - cooldowns[authorId] < cooldownSeconds {
        return None;
      }
      cooldowns := cooldowns[authorId := now];
      var k := Key(authorId, guild.value);
      var userData := db.GetUser(k);
      if userData.None? {
        db.CreateUser(k);
        userData := db.GetUser(k);
      }
      promoted := AwardAuthor(k, userData.value.level);
    }

    /**
     * The single `xp = xp + ?, messages = messages + 1` update, the re-read of
     * xp, and `update_level` when the curve's level beats `levelBefore`, the
     * level read before the update.
     */
    method AwardAuthor(k: Key, levelBefore: int) returns (promoted: Option<nat>)
      requires xpPerMessage > 0 && db.Valid() && k in db.users && levelBefore == db.users[k].level
      modifies db
      ensures db.Valid() && db.cards == old(db.cards)
      ensures db.users == old(db.users)[k := Leveling.AwardMessage(old(db.users)[k], xpPerMessage).0]
      ensures promoted == Leveling.AwardMessage(old(db.users)[k], xpPerMessage).1
    {
      ghost var t := db.users;
      Leveling.AwardKeepsGood(t, k, xpPerMessage);
      db.Execute(k, AddXpAndMessage(xpPerMessage));
      assert db.users == t[k := Apply(t[k], AddXpAndMessage(xpPerMessage))];
      var row := db.GetUser(k);
      var newXp := row.value.xp;
      var newLevel := SqrtCurve.CalculateLevel(newXp);
      promoted := None;
      if newLevel > levelBefore {
        db.Execute(k, SetLevel(newLevel));
        promoted := Some(newLevel);
      }
      assert db.users == t[k := Leveling.AwardMessage(t[k], xpPerMessage).0];
    }
  }
}

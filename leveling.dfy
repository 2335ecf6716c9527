/**
 * The leveling cog of the SQLite bot (imbulichka/bot/cogs/leveling.py): each
 * message of a human in a guild adds `XP_PER_MESSAGE` xp and one message to
 * the author's row, and the stored level is raised to `calculate_level(xp)`
 * when that is higher. `AwardMessage` is that row update; the message
 * listener of imbulichka/bot/events/on_message.py applies the same one.
 */
module Leveling {
  import opened Wrappers
  import opened UserTable
  import SqrtCurve

  /**
   * One counted message on the author's row: xp + gain and messages + 1, then
   * the promotion to `calculate_level(xp)` if it exceeds the level read before
   * (the update does not touch the level, so that is also the level after).
   * Returns the new row and the level announced, if any.
   */
  function AwardMessage(r: UserRow, gain: int): (res: (UserRow, Option<nat>))
    requires r.xp + gain >= 0
  {
    var r1 := r.(xp := r.xp + gain, messages := r.messages + 1);
    var l := SqrtCurve.CalculateLevel(r1.xp);
    if l > r.level then (r1.(level := l), Some(l)) else (r1, None)
  }

  /**
   * The message adds exactly the gain and one message, leaves voice time and
   * coins alone, and the level becomes the larger of the old level and the
   * curve's: it never decreases, and a level-up is announced exactly when it
   * rises. A good row stays good.
   */
  lemma AwardMessageSpec(r: UserRow, gain: int)
    requires r.xp + gain >= 0
    ensures AwardMessage(r, gain).0.xp == r.xp + gain
    ensures AwardMessage(r, gain).0.messages == r.messages + 1
    ensures AwardMessage(r, gain).0.voiceTime == r.voiceTime
    ensures AwardMessage(r, gain).0.coins == r.coins
    ensures AwardMessage(r, gain).0.level == Max(r.level, SqrtCurve.CalculateLevel(r.xp + gain))
    ensures AwardMessage(r, gain).0.level >= r.level
    ensures AwardMessage(r, gain).1.Some? <==> AwardMessage(r, gain).0.level > r.level
    ensures AwardMessage(r, gain).1.Some? ==> AwardMessage(r, gain).1.value == AwardMessage(r, gain).0.level
    ensures GoodRow(r) && gain >= 0 ==> GoodRow(AwardMessage(r, gain).0)
  {
    var r1 := r.(xp := r.xp + gain, messages := r.messages + 1);
    if GoodRow(r) && gain >= 0 {
      GrowsKeepsGood(r, AddXpAndMessage(gain));
      PromoteKeepsGood(r1);
    }
  }

  /**
   * The announced level is the one whose band the new xp lies in: the
   * level-up message's "xp / xp_for_next" has xp below xp_for_next.
   */
  lemma AnnouncedLevelBand(r: UserRow, gain: int)
    requires r.xp + gain >= 0
    requires AwardMessage(r, gain).1.Some?
    ensures var l := AwardMessage(r, gain).1.value;
      SqrtCurve.Threshold(l) <= r.xp + gain < SqrtCurve.XpForNext(l)
  {
  }

  /** A fresh row (level 1) is first announced at level 2, once it holds 400 xp. */
  lemma FirstAnnouncement(gain: int)
    requires gain >= 0
    ensures AwardMessage(DefaultRow, gain).1.Some? <==> gain >= 400
  {
    SqrtCurve.FirstPromotion(gain);
  }

  /** Awarding a message on a good table keeps it good. */
  lemma AwardKeepsGood(t: map<Key, UserRow>, k: Key, gain: int)
    requires AllGood(t) && k in t && gain >= 0
    ensures t[k].xp + gain >= 0
    ensures AllGood(t[k := AwardMessage(t[k], gain).0])
  {
    AwardMessageSpec(t[k], gain);
    StoreKeepsGood(t, k, AwardMessage(t[k], gain).0);
  }

  class LevelingCog {
    const db: Database
    /** `Config.XP_PER_MESSAGE`, which the configuration never defines: a parameter. */
    const xpPerMessage: int

    constructor (db: Database, xpPerMessage: int)
      ensures this.db == db && this.xpPerMessage == xpPerMessage
    {
      this.db := db;
      this.xpPerMessage := xpPerMessage;
    }

    /**
     * `on_message`: bots and direct messages change nothing; otherwise the
     * author's row is created if missing and then awarded the message.
     */
    method OnMessage(authorIsBot: bool, guild: Option<int>, authorId: int) returns (promoted: Option<nat>)
      requires xpPerMessage > 0 && db.Valid()
      modifies db
      ensures db.Valid() && db.cards == old(db.cards)
      ensures authorIsBot || guild.None? ==> db.users == old(db.users) && promoted.None?
      ensures !authorIsBot && guild.Some? ==>
        var k := Key(authorId, guild.value);
        var t := InsertOrIgnore(old(db.users), k);
        db.users == t[k := AwardMessage(t[k], xpPerMessage).0]
        && promoted == AwardMessage(t[k], xpPerMessage).1
    {
      if authorIsBot || guild.None? {
        return None;
      }
      var k := Key(authorId, guild.value);
      var userData := db.GetUser(k);
      if userData.None? {
        db.CreateUser(k);
      }
      promoted := AwardAuthor(k);
    }

    /** The two updates, the re-read and the conditional `update_level` on an existing row. */
    method AwardAuthor(k: Key) returns (promoted: Option<nat>)
      requires xpPerMessage > 0 && db.Valid() && k in db.users
      modifies db
      ensures db.Valid() && db.cards == old(db.cards)
      ensures db.users == old(db.users)[k := AwardMessage(old(db.users)[k], xpPerMessage).0]
      ensures promoted == AwardMessage(old(db.users)[k], xpPerMessage).1
    {
      ghost var t := db.users;
      AwardKeepsGood(t, k, xpPerMessage);
      ghost var r1 := t[k].(xp := t[k].xp + xpPerMessage, messages := t[k].messages + 1);
      db.UpdateXp(k, xpPerMessage);
      db.UpdateMessages(k);
      assert db.users == t[k := r1];
      var userData := db.GetUser(k);
      var newXp := userData.value.xp;
      var newLevel := SqrtCurve.CalculateLevel(newXp);
      promoted := None;
      if newLevel > userData.value.level {
        db.UpdateLevel(k, newLevel);
        promoted := Some(newLevel);
      }
      assert db.users == t[k := AwardMessage(t[k], xpPerMessage).0];
    }

    /**
     * `rank_command`: creates a missing row, then shows the level computed
     * from xp (not the stored one) and the xp of the next level, which xp
     * has not reached.
     */
    method Rank(memberId: int, guildId: int) returns (level: nat, xp: int, xpForNext: int)
      requires db.Valid()
      modifies db
      ensures db.Valid() && db.cards == old(db.cards)
      ensures db.users == InsertOrIgnore(old(db.users), Key(memberId, guildId))
      ensures xp == db.users[Key(memberId, guildId)].xp
      ensures level == SqrtCurve.CalculateLevel(xp)
      ensures SqrtCurve.Threshold(level) <= xp < xpForNext == SqrtCurve.XpForNext(level)
    {
      var k := Key(memberId, guildId);
      var userData := db.GetUser(k);
      if userData.None? {
        db.CreateUser(k);
        userData := db.GetUser(k);
      }
      xp := userData.value.xp;
      level := SqrtCurve.CalculateLevel(xp);
      xpForNext := SqrtCurve.XpForNext(level);
    }
  }
}

/**
 * The voice listener of the SQLite bot (imbulichka/bot/events/on_voice_state.py).
 * A join records the time in `voice_times` (keyed by member id); a leave of a
 * tracked member awards the whole minutes spent and always forgets the
 * entry. Moves between channels and mute changes do nothing, and the award
 * never creates a row: for a member without one the UPDATE matches nothing.
 */
module VoiceEvent {
  import opened Wrappers
  import opened UserTable

  /** `int(time_spent / 60)`: `int()` truncates toward zero. */
  function WholeMinutes(spent: int): (m: int)
    ensures spent >= 0 ==> m >= 0 && 60 * m <= spent < 60 * m + 60
    ensures spent < 0 ==> m <= 0 && spent <= 60 * m < spent + 60
  {
    if spent >= 0 then spent / 60 else -((-spent) / 60)
  }

  /** A session earns something exactly when it lasted at least a minute. */
  lemma WholeMinutesPositive(spent: int)
    ensures WholeMinutes(spent) >= 1 <==> spent >= 60
  {
  }

  class OnVoiceStateCog {
    /** `self.voice_times`: member id to the second of the join. */
    var voiceTimes: map<int, int>
    const db: Database
    /** `Config.XP_PER_MINUTE_VOICE`, never defined: a parameter. */
    const xpPerMinuteVoice: int

    constructor (db: Database, xpPerMinuteVoice: int)
      ensures this.db == db && this.xpPerMinuteVoice == xpPerMinuteVoice && voiceTimes == map[]
    {
      this.db := db;
      this.xpPerMinuteVoice := xpPerMinuteVoice;
      voiceTimes := map[];
    }

    /**
     * `on_voice_state_update` with the channel before and after (None when
     * not in voice). Returns the minutes awarded (0 when nothing was).
     */
    method OnVoiceStateUpdate(memberIsBot: bool, memberId: int, guildId: int,
                              before: Option<int>, after: Option<int>, now: int)
      returns (minutes: int)
      requires xpPerMinuteVoice > 0
      modifies this, db
      ensures db.cards == old(db.cards)
      ensures old(db.Valid()) ==> db.Valid()
      ensures minutes >= 0
      ensures !memberIsBot && before.None? && after.Some? ==>
        voiceTimes == old(voiceTimes)[memberId := now] && db.users == old(db.users) && minutes == 0
      ensures !memberIsBot && before.Some? && after.None? && memberId in old(voiceTimes) ==>
        var m := WholeMinutes(now - old(voiceTimes)[memberId]);
        voiceTimes == old(voiceTimes) - {memberId}
        && minutes == (if m >= 1 then m else 0)
        && db.users == (if m >= 1
                        then Update(old(db.users), Key(memberId, guildId),
                                    AddXpAndVoiceTime(m * xpPerMinuteVoice, m))
                        else old(db.users))
      ensures memberIsBot || before.None? == after.None? || (after.None? && memberId !in old(voiceTimes)) ==>
        voiceTimes == old(voiceTimes) && db.users == old(db.users) && minutes == 0
    {
      minutes := 0;
      if memberIsBot {
        return;
      }
      if before.None? && after.Some? {
        voiceTimes := voiceTimes[memberId := now];
      } else if before.Some? && after.None? {
        if memberId in voiceTimes {
          var spent := now - voiceTimes[memberId];
          var m := WholeMinutes(spent);
          if m >= 1 {
            var xpToAdd := m * xpPerMinuteVoice;
            UpdateGrowsKeepsGood(db.users, Key(memberId, guildId), AddXpAndVoiceTime(xpToAdd, m));
            db.Execute(Key(memberId, guildId), AddXpAndVoiceTime(xpToAdd, m));
            minutes := m;
          }
          voiceTimes := voiceTimes - {memberId};
        }
      }
    }
  }
}

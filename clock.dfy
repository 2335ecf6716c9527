/**
 * Time arithmetic shared by the SQLite bot's cogs: the per-user cooldown
 * maps (user id to the integer second of the last accepted use) and the
 * splitting of a number of seconds or minutes into display units.
 */
module Clock {

  /**
   * `uid in cooldowns and now - cooldowns[uid] < period`: the command is
   * refused. A user never seen before is never cooling down.
   */
  predicate Cooling(cooldowns: map<int, int>, uid: int, now: int, period: int) {
    uid in cooldowns && now - cooldowns[uid] < period
  }

  /** After a use recorded at `t`, the same user is refused exactly until `t + period`. */
  lemma CoolingAfterRecord(cooldowns: map<int, int>, uid: int, t: int, now: int, period: int)
    ensures Cooling(cooldowns[uid := t], uid, now, period) <==> now < t + period
  {
  }

  /** Recording one user's use leaves every other user's cooldown as it was. */
  lemma CoolingOthers(cooldowns: map<int, int>, uid: int, t: int, other: int, now: int, period: int)
    requires other != uid
    ensures Cooling(cooldowns[uid := t], other, now, period) == Cooling(cooldowns, other, now, period)
  {
  }

  /**
   * `t // 60, t % 60`: minutes as hours and minutes (or seconds as minutes
   * and seconds). Python's floor division agrees with Dafny's for a positive
   * divisor.
   */
  function Split60(t: int): (r: (int, int))
    ensures 60 * r.0 + r.1 == t && 0 <= r.1 < 60
  {
    (t / 60, t % 60)
  }

  /** The two parts are determined by their defining equation. */
  lemma Split60Unique(t: int, a: int, b: int)
    requires 60 * a + b == t && 0 <= b < 60
    ensures Split60(t) == (a, b)
  {
    var r := Split60(t);
    assert 60 * (r.0 - a) == b - r.1;
  }

  /** `rem // 3600` hours and `(rem % 3600) // 60` minutes; the seconds are dropped. */
  function HoursMinutes(rem: int): (r: (int, int))
    ensures 0 <= r.1 < 60
    ensures 3600 * r.0 + 60 * r.1 <= rem < 3600 * r.0 + 60 * r.1 + 60
  {
    (rem / 3600, (rem % 3600) / 60)
  }
}

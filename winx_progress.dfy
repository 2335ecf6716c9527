/**
 * The progression engine of the JSON-backed bot (main.py): per-user records
 * created on first sight, XP with a cumulative-triangular level curve capped
 * at 100, fairy titles, the daily-claim streak, the warn log, achievements,
 * quests, voice sessions and the midnight reset.
 *
 * The module-level dictionaries `data["users"]`, `data["warns"]` and
 * `voice_users` become the fields of one `WinxBot` object; every
 * `UserManager` static method and event handler becomes a method of it.
 * User ids are the strings `str(user_id)` the source keys its dictionaries
 * with; times are integer seconds and dates integer day numbers.
 */
module WinxProgress {
  import opened Wrappers

  /** The numeric settings of `load_config` that the core reads. */
  datatype Config = Config(
    xpPerMessage: int,
    xpCooldown: int,
    xpPerMinuteVoice: int,
    levelMultiplier: int,
    dailyBonus: int,
    streakBonus: int)

  /** The defaults `load_config` falls back to. */
  const DefaultConfig := Config(5, 60, 2, 100, 50, 25)

  /**
   * The setting the code loops on: the `while True` of `calculate_level` only
   * terminates for a positive multiplier. The voice rate may be anything: the
   * voice handlers pay nothing unless it is positive.
   */
  predicate ConfigOk(cfg: Config) {
    cfg.levelMultiplier > 0
  }

  /**
   * `add_xp(.., "voice")` divides by the voice rate; the bot only makes that
   * call with a positive rate.
   */
  predicate SourceOk(cfg: Config, source: string) {
    source == "voice" ==> cfg.xpPerMinuteVoice > 0
  }

  function Max(a: int, b: int): int { if a < b then b else a }
  function Min(a: int, b: int): int { if a < b then a else b }

  // ---------------------------------------------------------------------
  // The level curve of `calculate_level`.

  /** Cumulative XP the loop of `calculate_level` has to pass to reach `level`. */
  function Needed(m: int, level: int): int
    decreases level
  {
    if level <= 1 then 0 else Needed(m, level - 1) + (level - 1) * m
  }

  /** The level the loop stops at, starting from `level` with `needed` already counted. */
  function Climb(m: int, total: int, level: nat, needed: int): nat
    requires m > 0 && level >= 1
    decreases total - needed
  {
    var next := needed + level * m;
    if total >= next then Climb(m, total, level + 1, next) else level
  }

  /** The level `calculate_level` reaches before applying the cap. */
  function UncappedLevel(m: int, total: int): nat
    requires m > 0
  {
    Climb(m, total, 1, 0)
  }

  /** `calculate_level(total_xp)` with `level_multiplier == m`. */
  function TriangularLevel(m: int, total: int): int
    requires m > 0
  {
    Min(UncappedLevel(m, total), 100)
  }

  lemma {:induction false} NeededClosedForm(m: int, level: nat)
    ensures 2 * Needed(m, level) == m * level * (level - 1)
    decreases level
  {
    if level > 1 {
      NeededClosedForm(m, level - 1);
      calc {
        2 * Needed(m, level);
        2 * Needed(m, level - 1) + 2 * (level - 1) * m;
        m * (level - 1) * (level - 2) + 2 * (level - 1) * m;
        { assert (level - 1) * (level - 2) + 2 * (level - 1) == level * (level - 1); }
        m * level * (level - 1);
      }
    }
  }

  lemma {:induction false} NeededMonotone(m: int, a: int, b: int)
    requires m > 0 && 1 <= a <= b
    ensures Needed(m, a) <= Needed(m, b)
    decreases b - a
  {
    if a < b {
      NeededMonotone(m, a, b - 1);
    }
  }

  lemma {:induction false} ClimbIsLargest(m: int, total: int, level: nat, needed: int)
    requires m > 0 && level >= 1
    requires needed == Needed(m, level)
    requires level == 1 || needed <= total
    ensures var l := Climb(m, total, level, needed);
      && l >= level
      && (l == 1 || Needed(m, l) <= total)
      && total < Needed(m, l + 1)
    decreases total - needed
  {
    var next := needed + level * m;
    assert Needed(m, level + 1) == next;
    if total >= next {
      ClimbIsLargest(m, total, level + 1, next);
    }
  }

  /**
   * The uncapped level is the largest L with m * L * (L - 1) / 2 <= total
   * (or 1 when even level 2 is out of reach).
   */
  lemma UncappedLevelIsLargest(m: int, total: int)
    requires m > 0
    ensures var l := UncappedLevel(m, total);
      && l >= 1
      && (l == 1 || m * l * (l - 1) <= 2 * total)
      && 2 * total < m * (l + 1) * l
  {
    var l := UncappedLevel(m, total);
    ClimbIsLargest(m, total, 1, 0);
    NeededClosedForm(m, l);
    NeededClosedForm(m, l + 1);
  }

  /** More total XP never means a lower level. */
  lemma TriangularLevelMonotone(m: int, t1: int, t2: int)
    requires m > 0 && t1 <= t2
    ensures 1 <= TriangularLevel(m, t1) <= TriangularLevel(m, t2) <= 100
  {
    var l1, l2 := UncappedLevel(m, t1), UncappedLevel(m, t2);
    ClimbIsLargest(m, t1, 1, 0);
    ClimbIsLargest(m, t2, 1, 0);
    if l1 > l2 {
      NeededMonotone(m, l2 + 1, l1);
      assert false;
    }
  }

  // ---------------------------------------------------------------------
  // Fairy titles.

  datatype WinxTier = WinxTier(minLevel: int, name: string, xpRequired: int)

  /** `WINX_LEVELS`, in the ascending key order it is declared in. */
  const WinxLevels: seq<WinxTier> := [
    WinxTier(1, "😇 Обычная фея", 0),
    WinxTier(5, "🌟 Фея Чармикс", 500),
    WinxTier(10, "💫 Фея Энчантикс", 1500),
    WinxTier(15, "✨ Фея Белэвикс", 3000),
    WinxTier(20, "🌸 Фея Созикс", 5000),
    WinxTier(25, "🌙 Фея Хармоникс", 8000),
    WinxTier(30, "👑 Королева фей", 12000),
    WinxTier(35, "💖 Хранительница Дракона", 17000),
    WinxTier(40, "🦋 Фея Баттерфликс", 23000),
    WinxTier(50, "🌌 Легендарная фея", 35000)
  ]

  /**
   * `get_winx_level`: scan the keys from the largest down and return the
   * first tier whose key the level reaches; the level-1 tier otherwise.
   */
  method GetWinxLevel(level: int) returns (tier: WinxTier)
    ensures tier in WinxLevels
    ensures level >= 1 ==> tier.minLevel <= level
    ensures forall j :: 0 <= j < |WinxLevels| && WinxLevels[j].minLevel <= level ==>
      WinxLevels[j].minLevel <= tier.minLevel
    ensures level < 1 ==> tier == WinxLevels[0]
  {
    ghost var keys := seq(|WinxLevels|, j requires 0 <= j < |WinxLevels| => WinxLevels[j].minLevel);
    assert keys == [1, 5, 10, 15, 20, 25, 30, 35, 40, 50];
    var i := |WinxLevels|;
    while i > 0
      invariant 0 <= i <= |WinxLevels|
      invariant forall j :: i <= j < |WinxLevels| ==> level < WinxLevels[j].minLevel
    {
      i := i - 1;
      if level >= WinxLevels[i].minLevel {
        return WinxLevels[i];
      }
    }
    return WinxLevels[0];
  }

  // ---------------------------------------------------------------------
  // Quests.

  datatype Quest = Quest(id: string, goal: int, reward: int, kind: string)

  /** `QUESTS`, in declaration order. */
  const Quests: seq<Quest> := [
    Quest("daily_messages", 10, 100, "messages"),
    Quest("voice_explorer", 30, 150, "voice_minutes"),
    Quest("active_member", 5, 200, "streak"),
    Quest("helper", 3, 120, "help")
  ]

  /** The `source` strings the bot ever passes to `add_xp`. */
  const BotSources: set<string> := {"message", "voice", "daily", "quest", "moderator"}

  datatype QuestProgress = QuestProgress(progress: int, completed: bool)

  ghost predicate IsQuestKind(s: string) {
    exists j :: 0 <= j < |Quests| && Quests[j].kind == s
  }

  ghost function QuestRank(s: string): nat {
    if IsQuestKind(s) then 1 else 0
  }

  datatype QuestScan = QuestScan(quests: map<string, QuestProgress>, completed: Option<Quest>)

  /**
   * The loop of `check_quests` from quest `i` on: every quest of the given
   * type gets an entry, an unfinished one advances by one, and the first one
   * to reach its goal is marked completed and ends the scan.
   */
  function ScanQuests(qs: map<string, QuestProgress>, kind: string, i: nat): (r: QuestScan)
    ensures r.completed.Some? ==> r.completed.value in Quests && r.completed.value.kind == kind && IsQuestKind(kind)
    decreases |Quests| - i
  {
    if i >= |Quests| then QuestScan(qs, None)
    else
      var q := Quests[i];
      if q.kind != kind then ScanQuests(qs, kind, i + 1)
      else
        var p := if q.id in qs then qs[q.id] else QuestProgress(0, false);
        if p.completed then ScanQuests(qs[q.id := p], kind, i + 1)
        else
          var p' := QuestProgress(p.progress + 1, p.progress + 1 >= q.goal);
          if p'.completed then QuestScan(qs[q.id := p'], Some(q))
          else ScanQuests(qs[q.id := p'], kind, i + 1)
  }

  lemma {:induction false} ScanOfOtherKind(qs: map<string, QuestProgress>, kind: string, i: nat)
    requires !IsQuestKind(kind)
    ensures ScanQuests(qs, kind, i) == QuestScan(qs, None)
    decreases |Quests| - i
  {
    if i < |Quests| {
      assert Quests[i].kind != kind;
      ScanOfOtherKind(qs, kind, i + 1);
    }
  }

  /** The scan passes over a quest of another type, or one already completed. */
  lemma ScanSkip(qs: map<string, QuestProgress>, kind: string, i: nat)
    requires i < |Quests|
    requires Quests[i].kind != kind || (Quests[i].id in qs && qs[Quests[i].id].completed)
    ensures ScanQuests(qs, kind, i) == ScanQuests(qs, kind, i + 1)
  {
    var q := Quests[i];
    if q.kind == kind {
      assert qs[q.id := qs[q.id]] == qs;
    }
  }

  /** The scan advances an unfinished quest of the type by one. */
  lemma ScanAdvance(qs: map<string, QuestProgress>, kind: string, i: nat, p: QuestProgress)
    requires i < |Quests| && Quests[i].kind == kind
    requires p == (if Quests[i].id in qs then qs[Quests[i].id] else QuestProgress(0, false))
    requires !p.completed
    ensures p.progress + 1 < Quests[i].goal ==>
      ScanQuests(qs, kind, i) == ScanQuests(qs[Quests[i].id := QuestProgress(p.progress + 1, false)], kind, i + 1)
    ensures p.progress + 1 >= Quests[i].goal ==>
      ScanQuests(qs, kind, i) == QuestScan(qs[Quests[i].id := QuestProgress(p.progress + 1, true)], Some(Quests[i]))
  {
  }

  /**
   * The loop of `check_quests` over `QUESTS`: returns the updated progress
   * map and the quest it completed, if any.
   */
  method AdvanceQuests(qs0: map<string, QuestProgress>, kind: string)
    returns (qs: map<string, QuestProgress>, completed: Option<Quest>)
    ensures QuestScan(qs, completed) == ScanQuests(qs0, kind, 0)
  {
    qs := qs0;
    var i := 0;
    while i < |Quests|
      invariant 0 <= i <= |Quests|
      invariant ScanQuests(qs, kind, i) == ScanQuests(qs0, kind, 0)
    {
      var q := Quests[i];
      if q.kind == kind {
        var p := if q.id in qs then qs[q.id] else QuestProgress(0, false);
        if !p.completed {
          ScanAdvance(qs, kind, i, p);
          if p.progress + 1 >= q.goal {
            qs := qs[q.id := QuestProgress(p.progress + 1, true)];
            return qs, Some(q);
          }
          qs := qs[q.id := QuestProgress(p.progress + 1, false)];
        } else {
          ScanSkip(qs, kind, i);
        }
      } else {
        ScanSkip(qs, kind, i);
      }
      i := i + 1;
    }
    return qs, None;
  }

  /** No quest type equals a source the bot passes to `add_xp`. */
  lemma NoBotSourceIsQuestKind(s: string)
    requires s in BotSources
    ensures !IsQuestKind(s)
  {
  }

  // ---------------------------------------------------------------------
  // User records.

  datatype UserRecord = UserRecord(
    xp: int,
    level: int,
    messages: int,
    voiceMinutes: int,
    lastMessage: int,
    lastDaily: Option<int>,
    dailyStreak: int,
    quests: map<string, QuestProgress>,
    achievements: seq<string>,
    totalXp: int,
    joinDate: int,
    warns: int,
    todayMessages: int,
    todayVoice: int,
    helpCounter: int)

  /** The record `get_user_data` creates for an unknown id at time `now`. */
  function NewUser(now: int): (u: UserRecord)
  {
    UserRecord(0, 1, 0, 0, 0, None, 0, map[], [], 0, now, 0, 0, 0, 0)
  }

  /** `get_user_data` on a snapshot of `data["users"]`. */
  function Lookup(users: map<string, UserRecord>, uid: string, now: int): UserRecord
  {
    if uid in users then users[uid] else NewUser(now)
  }

  datatype LevelChange = Unchanged | LeveledUp(oldLevel: int, newLevel: int)

  /**
   * The first half of `add_xp`: the amount goes to `xp` and `total_xp`, a
   * message counts towards `today_messages`, voice XP is turned back into
   * seconds for `today_voice`.
   */
  function CountXp(cfg: Config, u: UserRecord, amount: int, source: string): UserRecord
    requires SourceOk(cfg, source)
  {
    u.(xp := u.xp + amount, totalXp := u.totalXp + amount,
       todayMessages := if source == "message" then u.todayMessages + 1 else u.todayMessages,
       todayVoice := if source == "voice" then u.todayVoice + amount * 60 / cfg.xpPerMinuteVoice else u.todayVoice)
  }

  /**
   * `add_xp` on one record: add the amount to `xp` and `total_xp`, count a
   * message, run the quests, and raise the level to the curve when it is
   * above the stored one. A completed quest pays its reward through a nested
   * `add_xp(.., "quest")`.
   */
  function AddXpRecord(cfg: Config, u: UserRecord, amount: int, source: string): (UserRecord, LevelChange)
    requires ConfigOk(cfg) && SourceOk(cfg, source)
    decreases QuestRank(source), 1
  {
    var u1 := CountXp(cfg, u, amount, source);
    var u2 := CheckQuestsRecord(cfg, u1, source).0;
    var newLevel := TriangularLevel(cfg.levelMultiplier, u2.totalXp);
    if newLevel > u2.level then (u2.(level := newLevel), LeveledUp(u2.level, newLevel))
    else (u2, Unchanged)
  }

  /** `AddXpRecord` in terms of the record the quests leave. */
  lemma AddXpRecordOfQuests(cfg: Config, u: UserRecord, amount: int, source: string, u2: UserRecord)
    requires ConfigOk(cfg) && SourceOk(cfg, source)
    requires u2 == CheckQuestsRecord(cfg, CountXp(cfg, u, amount, source), source).0
    ensures var newLevel := TriangularLevel(cfg.levelMultiplier, u2.totalXp);
      AddXpRecord(cfg, u, amount, source)
      == if newLevel > u2.level then (u2.(level := newLevel), LeveledUp(u2.level, newLevel)) else (u2, Unchanged)
  {
  }

  /** The three steps of `add_xp` on the table: count the XP, run the quests, raise the level. */
  lemma AddXpOfSteps(cfg: Config, t0: map<string, UserRecord>, uid: string, now: int, amount: int, source: string,
                     t1: map<string, UserRecord>, t2: map<string, UserRecord>, t3: map<string, UserRecord>,
                     change: LevelChange)
    requires ConfigOk(cfg) && SourceOk(cfg, source)
    requires t1 == t0[uid := CountXp(cfg, Lookup(t0, uid, now), amount, source)]
    requires t2 == t1[uid := CheckQuestsRecord(cfg, Lookup(t1, uid, now), source).0]
    requires var u := t2[uid];
      var l := TriangularLevel(cfg.levelMultiplier, u.totalXp);
      t3 == t2[uid := if l > u.level then u.(level := l) else u]
      && change == (if l > u.level then LeveledUp(u.level, l) else Unchanged)
    ensures t3 == t0[uid := AddXpRecord(cfg, Lookup(t0, uid, now), amount, source).0]
    ensures change == AddXpRecord(cfg, Lookup(t0, uid, now), amount, source).1
  {
    var u1 := CountXp(cfg, Lookup(t0, uid, now), amount, source);
    assert Lookup(t1, uid, now) == u1;
    var u2 := CheckQuestsRecord(cfg, u1, source).0;
    assert t2[uid] == u2;
    AddXpRecordOfQuests(cfg, Lookup(t0, uid, now), amount, source, u2);
  }

  /** The two steps of `check_quests` on the table: store the scan, pay a completed quest. */
  lemma CheckQuestsOfSteps(cfg: Config, t0: map<string, UserRecord>, uid: string, now: int, kind: string,
                           t1: map<string, UserRecord>, completed: Option<Quest>, t2: map<string, UserRecord>)
    requires ConfigOk(cfg)
    requires var u := Lookup(t0, uid, now);
      var scan := ScanQuests(u.quests, kind, 0);
      t1 == t0[uid := u.(quests := scan.quests)] && completed == scan.completed
    requires completed.None? ==> t2 == t1
    requires completed.Some? ==>
      t2 == t1[uid := AddXpRecord(cfg, Lookup(t1, uid, now), completed.value.reward, "quest").0]
    ensures t2 == t0[uid := CheckQuestsRecord(cfg, Lookup(t0, uid, now), kind).0]
    ensures completed == CheckQuestsRecord(cfg, Lookup(t0, uid, now), kind).1
  {
    var u := Lookup(t0, uid, now);
    var scan := ScanQuests(u.quests, kind, 0);
    CheckQuestsRecordOfScan(cfg, u, kind, scan.quests, completed);
    assert Lookup(t1, uid, now) == u.(quests := scan.quests);
  }

  /** `check_quests` on one record; returns the completed quest, if any. */
  function CheckQuestsRecord(cfg: Config, u: UserRecord, kind: string): (UserRecord, Option<Quest>)
    requires ConfigOk(cfg)
    decreases QuestRank(kind), 0
  {
    var scan := ScanQuests(u.quests, kind, 0);
    var u1 := u.(quests := scan.quests);
    match scan.completed
    case None => (u1, None)
    case Some(q) =>
      NoBotSourceIsQuestKind("quest");
      (AddXpRecord(cfg, u1, q.reward, "quest").0, Some(q))
  }

  /** `CheckQuestsRecord` in terms of the result of the scan. */
  lemma CheckQuestsRecordOfScan(cfg: Config, u: UserRecord, kind: string,
                                qs: map<string, QuestProgress>, completed: Option<Quest>)
    requires ConfigOk(cfg)
    requires QuestScan(qs, completed) == ScanQuests(u.quests, kind, 0)
    ensures completed.None? ==> CheckQuestsRecord(cfg, u, kind) == (u.(quests := qs), None)
    ensures completed.Some? ==> !IsQuestKind("quest")
    ensures completed.Some? ==>
      CheckQuestsRecord(cfg, u, kind) == (AddXpRecord(cfg, u.(quests := qs), completed.value.reward, "quest").0, completed)
  {
    NoBotSourceIsQuestKind("quest");
  }

  /** Quests never move for the sources the bot uses. */
  lemma QuestsIdleForBotSources(cfg: Config, u: UserRecord, s: string)
    requires ConfigOk(cfg) && s in BotSources
    ensures CheckQuestsRecord(cfg, u, s) == (u, None)
  {
    NoBotSourceIsQuestKind(s);
    ScanOfOtherKind(u.quests, s, 0);
    assert u.(quests := u.quests) == u;
  }

  /** The record invariant every operation keeps. */
  ghost predicate GoodRecord(m: int, u: UserRecord)
    requires m > 0
  {
    TriangularLevel(m, u.totalXp) <= u.level <= 100
  }

  /**
   * What `add_xp` promises: `xp` and `total_xp` move together, by the amount
   * plus any quest reward; nothing is added from quests for the bot's own
   * sources; the stored level is the larger of the old level and the curve,
   * so it never drops, even for a negative moderator amount; `leveled_up`
   * reports exactly a rise; the warn count is untouched.
   */
  lemma {:induction false} AddXpRecordSpec(cfg: Config, u: UserRecord, amount: int, source: string)
    requires ConfigOk(cfg) && SourceOk(cfg, source)
    ensures var (r, change) := AddXpRecord(cfg, u, amount, source);
      && r.xp - u.xp == r.totalXp - u.totalXp >= amount
      && (source in BotSources ==> r.totalXp == u.totalXp + amount && r.quests == u.quests)
      && r.level == Max(u.level, TriangularLevel(cfg.levelMultiplier, r.totalXp))
      && r == u.(xp := r.xp, totalXp := r.totalXp, todayMessages := r.todayMessages,
                 todayVoice := r.todayVoice, quests := r.quests, level := r.level)
      && (GoodRecord(cfg.levelMultiplier, u) ==> GoodRecord(cfg.levelMultiplier, r))
      && (change.LeveledUp? ==> change.oldLevel < change.newLevel == r.level)
      && (source in BotSources ==> (change.LeveledUp? <==> r.level > u.level))
      && (source in BotSources && change.LeveledUp? ==> change.oldLevel == u.level)
    decreases QuestRank(source), 1
  {
    var m := cfg.levelMultiplier;
    var u1 := CountXp(cfg, u, amount, source);
    var scan := ScanQuests(u1.quests, source, 0);
    var u1q := u1.(quests := scan.quests);
    var u2 := CheckQuestsRecord(cfg, u1, source).0;
    if source in BotSources {
      QuestsIdleForBotSources(cfg, u1, source);
    }
    match scan.completed {
      case None =>
        assert u2 == u1q;
      case Some(q) =>
        NoBotSourceIsQuestKind("quest");
        assert u2 == AddXpRecord(cfg, u1q, q.reward, "quest").0;
        AddXpRecordSpec(cfg, u1q, q.reward, "quest");
    }
  }

  // ---------------------------------------------------------------------
  // Daily claim, voice minutes, achievements, the message rule, the reset.

  datatype DailyResult = AlreadyClaimed | Claimed(reward: int)

  /** `claim_daily` on one record, with `today` as a day number. */
  function ClaimDailyRecord(cfg: Config, u: UserRecord, today: int): (UserRecord, DailyResult)
    requires ConfigOk(cfg)
  {
    if u.lastDaily == Some(today) then (u, AlreadyClaimed)
    else
      var u1 := StartClaim(u, today);
      (AddXpRecord(cfg, u1, DailyReward(cfg, u1.dailyStreak), "daily").0, Claimed(DailyReward(cfg, u1.dailyStreak)))
  }

  /** The streak bookkeeping of a claim: extend after yesterday's claim, else restart. */
  function StartClaim(u: UserRecord, today: int): UserRecord
  {
    u.(dailyStreak := if u.lastDaily == Some(today - 1) then u.dailyStreak + 1 else 1,
       lastDaily := Some(today))
  }

  /** The base bonus plus the streak bonus for every day after the first. */
  function DailyReward(cfg: Config, streak: int): int
  {
    cfg.dailyBonus + (streak - 1) * cfg.streakBonus
  }

  /** A successful claim, step by step. */
  lemma ClaimDailyClaimed(cfg: Config, u: UserRecord, today: int)
    requires ConfigOk(cfg) && u.lastDaily != Some(today)
    ensures var u1 := StartClaim(u, today);
      ClaimDailyRecord(cfg, u, today)
        == (AddXpRecord(cfg, u1, DailyReward(cfg, u1.dailyStreak), "daily").0, Claimed(DailyReward(cfg, u1.dailyStreak)))
    ensures KeepsGood(cfg, u, StartClaim(u, today))
  {
  }

  /**
   * A claim on the day already claimed is refused and changes nothing; a
   * claim the day after the last one extends the streak, any other resets it
   * to 1; the reward grows by `streak_bonus` per day of streak and is added
   * to the total XP.
   */
  lemma ClaimDailySpec(cfg: Config, u: UserRecord, today: int)
    requires ConfigOk(cfg)
    ensures var (r, res) := ClaimDailyRecord(cfg, u, today);
      && (res == AlreadyClaimed <==> u.lastDaily == Some(today))
      && (res == AlreadyClaimed ==> r == u)
      && (res.Claimed? ==>
            && r.lastDaily == Some(today)
            && r.dailyStreak == (if u.lastDaily == Some(today - 1) then u.dailyStreak + 1 else 1)
            && res.reward == cfg.dailyBonus + (r.dailyStreak - 1) * cfg.streakBonus
            && r.totalXp == u.totalXp + res.reward
            && r.level >= u.level)
  {
    if u.lastDaily != Some(today) {
      var u1 := StartClaim(u, today);
      AddXpRecordSpec(cfg, u1, DailyReward(cfg, u1.dailyStreak), "daily");
    }
  }

  /** Claiming twice on one day: the second claim is refused and changes nothing. */
  lemma ClaimDailyOncePerDay(cfg: Config, u: UserRecord, today: int)
    requires ConfigOk(cfg)
    ensures var r := ClaimDailyRecord(cfg, u, today).0;
      ClaimDailyRecord(cfg, r, today) == (r, AlreadyClaimed)
  {
    ClaimDailySpec(cfg, u, today);
  }

  /** `update_voice_time` on one record. */
  function VoiceTimeRecord(u: UserRecord, minutes: int): UserRecord
  {
    u.(voiceMinutes := u.voiceMinutes + minutes, todayVoice := u.todayVoice + minutes * 60)
  }

  predicate NoDuplicates(s: seq<string>) {
    forall i, j :: 0 <= i < j < |s| ==> s[i] != s[j]
  }

  /** `add_achievement` on one record: append when absent, report whether it did. */
  function AddAchievementRecord(u: UserRecord, achievement: string): (r: (UserRecord, bool))
    ensures r.1 <==> achievement !in u.achievements
    ensures achievement in r.0.achievements
    ensures r.0 == u.(achievements := r.0.achievements)
    ensures !r.1 ==> r.0 == u
    ensures r.1 ==> r.0.achievements == u.achievements + [achievement]
    ensures NoDuplicates(u.achievements) ==> NoDuplicates(r.0.achievements)
  {
    if achievement in u.achievements then (u, false)
    else (u.(achievements := u.achievements + [achievement]), true)
  }

  /** Adding an achievement twice is the same as adding it once. */
  lemma AddAchievementIdempotent(u: UserRecord, achievement: string)
    ensures var r := AddAchievementRecord(u, achievement).0;
      AddAchievementRecord(r, achievement) == (r, false)
  {
  }

  /** Messages that start with the command prefix `!` are commands, not chat. */
  predicate IsCommand(content: string) {
    |content| > 0 && content[0] == '!'
  }

  /** XP for one chat message: the random draw plus `len / 50` for a long message. */
  function MessageXp(content: string, roll: int): int
  {
    roll + (if |content| > 100 then |content| / 50 else 0)
  }

  /** The bookkeeping of `on_message` on the author's record. */
  function OnMessageRecord(cfg: Config, u: UserRecord, content: string, now: int, roll: int): (UserRecord, LevelChange)
    requires ConfigOk(cfg)
  {
    if now - u.lastMessage > cfg.xpCooldown then
      var (r, change) := AddXpRecord(cfg, u, MessageXp(content, roll), "message");
      (r.(lastMessage := now), change)
    else (u, Unchanged)
  }

  /**
   * XP is awarded only when strictly more than `xp_cooldown` seconds have
   * passed since the last awarded message; the gain is the draw in
   * [1, xp_per_message] plus `len / 50` for a text over 100 characters, and
   * the time of the award is recorded.
   */
  lemma OnMessageSpec(cfg: Config, u: UserRecord, content: string, now: int, roll: int)
    requires ConfigOk(cfg) && 1 <= roll <= cfg.xpPerMessage
    ensures var (r, change) := OnMessageRecord(cfg, u, content, now, roll);
      && (now - u.lastMessage <= cfg.xpCooldown ==> r == u && change == Unchanged)
      && (now - u.lastMessage > cfg.xpCooldown ==>
            && r.lastMessage == now
            && r.todayMessages == u.todayMessages + 1
            && r.totalXp - u.totalXp == roll + (if |content| > 100 then |content| / 50 else 0)
            && r.xp - u.xp == r.totalXp - u.totalXp
            && (|content| <= 100 ==> 1 <= r.totalXp - u.totalXp <= cfg.xpPerMessage)
            && (|content| > 100 ==> roll + 2 <= r.totalXp - u.totalXp <= cfg.xpPerMessage + |content| / 50)
            && r.level == Max(u.level, TriangularLevel(cfg.levelMultiplier, r.totalXp))
            && (change.LeveledUp? <==> r.level > u.level))
  {
    if now - u.lastMessage > cfg.xpCooldown {
      AddXpRecordSpec(cfg, u, MessageXp(content, roll), "message");
    }
  }

  /** What a voice session of `session` seconds earns: whole minutes times the rate. */
  function VoiceSessionMinutes(session: int): int
  {
    if session >= 60 then session / 60 else 0
  }

  /**
   * A voice award of `minutes` whole minutes: `add_xp(.., "voice")` with the
   * minute rate, then `update_voice_time`.
   */
  function VoiceAwardRecord(cfg: Config, u: UserRecord, minutes: int): (UserRecord, LevelChange)
    requires ConfigOk(cfg) && cfg.xpPerMinuteVoice > 0
  {
    var (r, change) := AddXpRecord(cfg, u, minutes * cfg.xpPerMinuteVoice, "voice");
    (VoiceTimeRecord(r, minutes), change)
  }

  /**
   * A voice award adds exactly `minutes * xp_per_minute_voice` XP and
   * `minutes` voice minutes; `today_voice` advances by 120 seconds per
   * minute, because `add_xp` and `update_voice_time` each add the minute's
   * 60 seconds.
   */
  lemma VoiceAwardSpec(cfg: Config, u: UserRecord, minutes: int)
    requires ConfigOk(cfg) && cfg.xpPerMinuteVoice > 0
    ensures var (r, _) := VoiceAwardRecord(cfg, u, minutes);
      && r.totalXp == u.totalXp + minutes * cfg.xpPerMinuteVoice
      && r.xp == u.xp + minutes * cfg.xpPerMinuteVoice
      && r.voiceMinutes == u.voiceMinutes + minutes
      && r.todayVoice == u.todayVoice + 120 * minutes
      && r.todayMessages == u.todayMessages
      && KeepsGood(cfg, u, r)
  {
    var amount := minutes * cfg.xpPerMinuteVoice;
    AddXpRecordSpec(cfg, u, amount, "voice");
    ExactDivision(minutes * 60, cfg.xpPerMinuteVoice, amount * 60);
  }

  /** A whole number of minutes, at least one, earns something only at a positive rate. */
  lemma PositiveRate(minutes: int, rate: int)
    requires minutes >= 1 && minutes * rate > 0
    ensures rate > 0
  {
  }

  lemma MulBounds(k: int, d: int)
    requires d > 0 && -d < k * d <= 0
    ensures k == 0
  {
  }

  lemma ExactDivision(q: int, d: int, n: int)
    requires d > 0 && n == q * d
    ensures n / d == q
  {
    var r, m := n / d, n % d;
    assert n == r * d + m && 0 <= m < d;
    assert (r - q) * d == -m;
    MulBounds(r - q, d);
  }

  /** The quest ids whose progress the midnight reset clears. */
  const DailyQuestIds: set<string> := {"daily_messages", "voice_explorer"}

  /** `reset_daily_counters` on one record. */
  function ResetRecord(u: UserRecord): UserRecord
  {
    u.(todayMessages := 0, todayVoice := 0,
       quests := map q | q in u.quests :: if q in DailyQuestIds then QuestProgress(0, false) else u.quests[q])
  }

  /** The reset clears the daily counters and quests and keeps everything else. */
  lemma ResetRecordSpec(u: UserRecord)
    ensures var r := ResetRecord(u);
      && r.todayMessages == 0 && r.todayVoice == 0
      && r.quests.Keys == u.quests.Keys
      && (forall q :: q in r.quests && q in DailyQuestIds ==> r.quests[q] == QuestProgress(0, false))
      && (forall q :: q in r.quests && q !in DailyQuestIds ==> r.quests[q] == u.quests[q])
      && r == u.(todayMessages := 0, todayVoice := 0, quests := r.quests)
  {
  }

  // ---------------------------------------------------------------------
  // Warns.

  datatype Warn = Warn(moderator: int, reason: string, timestamp: int, warnId: int)

  /** `get_warns` on a snapshot of `data["warns"]`. */
  function WarnsOf(warns: map<string, seq<Warn>>, uid: string): seq<Warn>
  {
    if uid in warns then warns[uid] else []
  }

  /** Warn ids of one user are 1, 2, ..., n in order. */
  ghost predicate SequentialIds(ws: seq<Warn>) {
    forall i :: 0 <= i < |ws| ==> ws[i].warnId == i + 1
  }

  // ---------------------------------------------------------------------
  // Voice events.

  datatype VoiceState = VoiceState(inChannel: bool, selfDeaf: bool, selfMute: bool)

  /** A tracked voice session (`voice_users[user_id]`). */
  datatype VoiceSession = VoiceSession(startTime: int, lastXp: int)

  /** What the periodic voice task skips: bots, AFK, self-deafened or self-muted members. */
  datatype VoiceMember = VoiceMember(isBot: bool, afk: bool, selfDeaf: bool, selfMute: bool)

  predicate EarnsVoiceXp(m: VoiceMember) {
    !(m.isBot || m.afk || m.selfDeaf || m.selfMute)
  }

  predicate IsJoin(before: VoiceState, after: VoiceState) {
    !before.inChannel && after.inChannel
  }

  /** The second branch of `on_voice_state_update`: leaving, or muting/deafening while in a channel. */
  predicate IsLeaveOrSilence(before: VoiceState, after: VoiceState) {
    (before.inChannel && !after.inChannel) || (after.inChannel && (after.selfDeaf || after.selfMute))
  }

  // ---------------------------------------------------------------------
  // The bot's state.

  /**
   * What holds between operations: every stored level lies between the
   * curve's level for its total XP and the cap, the warn log only holds known
   * users, each user's `warns` count is the length of their log, and warn ids
   * run 1, 2, ..., n.
   */
  ghost predicate ValidOf(cfg: Config, users: map<string, UserRecord>, warns: map<string, seq<Warn>>)
  {
    && ConfigOk(cfg)
    && (forall uid :: uid in users ==> 1 <= users[uid].level && GoodRecord(cfg.levelMultiplier, users[uid]))
    && warns.Keys <= users.Keys
    && (forall uid :: uid in users ==> users[uid].warns == |WarnsOf(warns, uid)|)
    && (forall uid :: uid in warns ==> SequentialIds(warns[uid]))
  }

  /** Storing a good record with the right warn count keeps `ValidOf`. */
  lemma ValidOfUpdate(cfg: Config, users: map<string, UserRecord>, warns: map<string, seq<Warn>>, uid: string, r: UserRecord)
    requires ValidOf(cfg, users, warns)
    requires 1 <= r.level && GoodRecord(cfg.levelMultiplier, r) && r.warns == |WarnsOf(warns, uid)|
    ensures ValidOf(cfg, users[uid := r], warns)
  {
  }

  /** The record `get_user_data` returns is good and carries the right warn count. */
  lemma LookupGood(cfg: Config, users: map<string, UserRecord>, warns: map<string, seq<Warn>>, uid: string, now: int)
    requires ValidOf(cfg, users, warns)
    ensures var u := Lookup(users, uid, now);
      1 <= u.level && GoodRecord(cfg.levelMultiplier, u) && u.warns == |WarnsOf(warns, uid)|
  {
    if uid !in users {
      assert uid !in warns;
      assert UncappedLevel(cfg.levelMultiplier, 0) == 1;
    }
  }

  /** A record transition that keeps a good record good and leaves the warn count alone. */
  ghost predicate KeepsGood(cfg: Config, u: UserRecord, r: UserRecord)
    requires ConfigOk(cfg)
  {
    && (1 <= u.level && GoodRecord(cfg.levelMultiplier, u) ==> 1 <= r.level && GoodRecord(cfg.levelMultiplier, r))
    && r.warns == u.warns
  }

  /** Storing the result of such a transition on the looked-up record keeps `ValidOf`. */
  lemma StoreKeepsValid(cfg: Config, users: map<string, UserRecord>, warns: map<string, seq<Warn>>,
                        uid: string, now: int, r: UserRecord)
    requires ConfigOk(cfg)
    requires KeepsGood(cfg, Lookup(users, uid, now), r)
    ensures ValidOf(cfg, users, warns) ==> ValidOf(cfg, users[uid := r], warns)
  {
    if ValidOf(cfg, users, warns) {
      LookupGood(cfg, users, warns, uid, now);
      ValidOfUpdate(cfg, users, warns, uid, r);
    }
  }

  lemma AddXpKeepsGood(cfg: Config, u: UserRecord, amount: int, source: string)
    requires ConfigOk(cfg) && SourceOk(cfg, source)
    ensures KeepsGood(cfg, u, AddXpRecord(cfg, u, amount, source).0)
  {
    AddXpRecordSpec(cfg, u, amount, source);
  }

  /** `add_warn` keeps `ValidOf`: the new warn is numbered one past the log. */
  lemma AddWarnKeepsValid(cfg: Config, users: map<string, UserRecord>, warns: map<string, seq<Warn>>,
                          uid: string, now: int, w: Warn)
    requires w.warnId == |WarnsOf(warns, uid)| + 1
    ensures var ws := WarnsOf(warns, uid) + [w];
      ValidOf(cfg, users, warns) ==>
      ValidOf(cfg, users[uid := Lookup(users, uid, now).(warns := |ws|)], warns[uid := ws])
  {
    if ValidOf(cfg, users, warns) {
      LookupGood(cfg, users, warns, uid, now);
      var ws := WarnsOf(warns, uid) + [w];
      var users' := users[uid := Lookup(users, uid, now).(warns := |ws|)];
      var warns' := warns[uid := ws];
      forall v | v in users'
        ensures users'[v].warns == |WarnsOf(warns', v)|
      {
      }
    }
  }

  /** The midnight reset keeps `ValidOf`. */
  lemma ResetKeepsValid(cfg: Config, users: map<string, UserRecord>, warns: map<string, seq<Warn>>)
    ensures ValidOf(cfg, users, warns) ==>
      ValidOf(cfg, map uid | uid in users :: ResetRecord(users[uid]), warns)
  {
  }

  class WinxBot {
    const config: Config
    /** `data["users"]` */
    var users: map<string, UserRecord>
    /** `data["warns"]` */
    var warns: map<string, seq<Warn>>
    /** `voice_users` */
    var voiceUsers: map<string, VoiceSession>

    ghost predicate Valid()
      reads this
    {
      ValidOf(config, users, warns)
    }

    constructor (cfg: Config)
      requires ConfigOk(cfg)
      ensures Valid() && config == cfg
      ensures users == map[] && warns == map[] && voiceUsers == map[]
    {
      config := cfg;
      users := map[];
      warns := map[];
      voiceUsers := map[];
    }

    /** `get_warns`: the warn log of a user; its length is the user's `warns` count. */
    function GetWarns(uid: string): (ws: seq<Warn>)
      reads this
      ensures Valid() && uid in users ==> |ws| == users[uid].warns
      ensures Valid() ==> forall i :: 0 <= i < |ws| ==> ws[i].warnId == i + 1
    {
      WarnsOf(warns, uid)
    }

    /** `get_user_data`: create the default record for an unknown id, return the record. */
    method GetUserData(uid: string, now: int) returns (u: UserRecord)
      modifies this
      ensures users == old(users)[uid := Lookup(old(users), uid, now)]
      ensures u == users[uid]
      ensures warns == old(warns) && voiceUsers == old(voiceUsers)
      ensures old(Valid()) ==> Valid()
    {
      if uid !in users {
        if Valid() {
          LookupGood(config, users, warns, uid, now);
          ValidOfUpdate(config, users, warns, uid, NewUser(now));
        }
        users := users[uid := NewUser(now)];
      } else {
        assert users == users[uid := users[uid]];
      }
      u := users[uid];
    }

    /** `calculate_level`: the source's loop, proved to compute `TriangularLevel`. */
    method CalculateLevel(totalXp: int) returns (level: int)
      requires ConfigOk(config)
      ensures level == TriangularLevel(config.levelMultiplier, totalXp)
      ensures 1 <= level <= 100
    {
      var m := config.levelMultiplier;
      level := 1;
      var xpNeeded := 0;
      while true
        invariant level >= 1
        invariant Climb(m, totalXp, level, xpNeeded) == UncappedLevel(m, totalXp)
        decreases totalXp - xpNeeded
      {
        xpNeeded := xpNeeded + level * m;
        if totalXp >= xpNeeded {
          level := level + 1;
        } else {
          break;
        }
      }
      level := Min(level, 100);
    }

    /** `add_xp`. */
    method AddXp(uid: string, amount: int, source: string, now: int) returns (change: LevelChange)
      requires ConfigOk(config) && SourceOk(config, source)
      modifies this
      ensures users == old(users)[uid := AddXpRecord(config, Lookup(old(users), uid, now), amount, source).0]
      ensures change == AddXpRecord(config, Lookup(old(users), uid, now), amount, source).1
      ensures warns == old(warns) && voiceUsers == old(voiceUsers)
      decreases QuestRank(source), 1
    {
      ghost var t0 := users;
      StoreCount(uid, amount, source, now);
      ghost var t1 := users;
      var _ := CheckQuests(uid, source, now);
      ghost var t2 := users;
      change := Promote(uid);
      AddXpOfSteps(config, t0, uid, now, amount, source, t1, t2, users, change);
    }

    /** The start of `add_xp`: the record, created if missing, counts the XP. */
    method StoreCount(uid: string, amount: int, source: string, now: int)
      requires SourceOk(config, source)
      modifies this
      ensures users == old(users)[uid := CountXp(config, Lookup(old(users), uid, now), amount, source)]
      ensures warns == old(warns) && voiceUsers == old(voiceUsers)
    {
      var u := GetUserData(uid, now);
      users := users[uid := CountXp(config, u, amount, source)];
    }

    /** The end of `add_xp`: the stored level is raised to the curve's when that is higher. */
    method Promote(uid: string) returns (change: LevelChange)
      requires ConfigOk(config) && uid in users
      modifies this
      ensures var u := old(users)[uid];
        var l := TriangularLevel(config.levelMultiplier, u.totalXp);
        users == old(users)[uid := if l > u.level then u.(level := l) else u]
        && change == (if l > u.level then LeveledUp(u.level, l) else Unchanged)
      ensures warns == old(warns) && voiceUsers == old(voiceUsers)
    {
      var u := users[uid];
      var oldLevel := u.level;
      var newLevel := CalculateLevel(u.totalXp);
      if newLevel > oldLevel {
        users := users[uid := u.(level := newLevel)];
        change := LeveledUp(oldLevel, newLevel);
      } else {
        change := Unchanged;
      }
    }

    /** `check_quests`: the scan updates the record, a completed quest pays its reward. */
    method CheckQuests(uid: string, kind: string, now: int) returns (completed: Option<Quest>)
      requires ConfigOk(config)
      modifies this
      ensures users == old(users)[uid := CheckQuestsRecord(config, Lookup(old(users), uid, now), kind).0]
      ensures completed == CheckQuestsRecord(config, Lookup(old(users), uid, now), kind).1
      ensures warns == old(warns) && voiceUsers == old(voiceUsers)
      decreases QuestRank(kind), 0
    {
      ghost var t0 := users;
      completed := StoreScan(uid, kind, now);
      ghost var t1 := users;
      if completed.Some? {
        var _ := AddXp(uid, completed.value.reward, "quest", now);
      }
      CheckQuestsOfSteps(config, t0, uid, now, kind, t1, completed, users);
    }

    /** The scan of `check_quests`, stored in the (created if missing) record. */
    method StoreScan(uid: string, kind: string, now: int) returns (completed: Option<Quest>)
      modifies this
      ensures var u := Lookup(old(users), uid, now);
        var scan := ScanQuests(u.quests, kind, 0);
        users == old(users)[uid := u.(quests := scan.quests)] && completed == scan.completed
      ensures warns == old(warns) && voiceUsers == old(voiceUsers)
    {
      var u0 := GetUserData(uid, now);
      var qs;
      qs, completed := AdvanceQuests(u0.quests, kind);
      users := users[uid := u0.(quests := qs)];
    }
  
    /** `claim_daily`, with `today` the current day number. */
    method ClaimDaily(uid: string, today: int, now: int) returns (result: DailyResult)
      requires ConfigOk(config)
      modifies this
      ensures users == old(users)[uid := ClaimDailyRecord(config, Lookup(old(users), uid, now), today).0]
      ensures result == ClaimDailyRecord(config, Lookup(old(users), uid, now), today).1
      ensures warns == old(warns) && voiceUsers == old(voiceUsers)
      ensures old(Valid()) ==> Valid()
    {
      var u := GetUserData(uid, now);
      if u.lastDaily == Some(today) {
        return AlreadyClaimed;
      }
      var streak := if u.lastDaily == Some(today - 1) then u.dailyStreak + 1 else 1;
      var u1 := u.(dailyStreak := streak, lastDaily := Some(today));
      ClaimDailyClaimed(config, u, today);
      assert u1 == StartClaim(u, today);
      var reward := config.dailyBonus + (streak - 1) * config.streakBonus;
      PayClaim(uid, u1, reward, now);
      result := Claimed(reward);
    }

    /** Stores the started claim `u1` and pays `reward` through `add_xp`. */
    method PayClaim(uid: string, u1: UserRecord, reward: int, now: int)
      requires ConfigOk(config) && KeepsGood(config, Lookup(users, uid, now), u1)
      modifies this
      ensures users == old(users)[uid := AddXpRecord(config, u1, reward, "daily").0]
      ensures warns == old(warns) && voiceUsers == old(voiceUsers)
      ensures old(Valid()) ==> Valid()
    {
      StoreKeepsValid(config, users, warns, uid, now, u1);
      users := users[uid := u1];
      ghost var mid := users;
      var _ := AddXp(uid, reward, "daily", now);
      assert Lookup(mid, uid, now) == u1;
      AddXpKeepsGood(config, u1, reward, "daily");
      StoreKeepsValid(config, mid, warns, uid, now, users[uid]);
    }

    /** `update_voice_time`. */
    method UpdateVoiceTime(uid: string, minutes: int, now: int)
      modifies this
      ensures users == old(users)[uid := VoiceTimeRecord(Lookup(old(users), uid, now), minutes)]
      ensures warns == old(warns) && voiceUsers == old(voiceUsers)
      ensures old(Valid()) ==> Valid()
    {
      var u := GetUserData(uid, now);
      if ConfigOk(config) {
        StoreKeepsValid(config, old(users), warns, uid, now, VoiceTimeRecord(u, minutes));
      }
      users := users[uid := VoiceTimeRecord(u, minutes)];
    }

    /**
     * `add_warn`: append a warn numbered one past the user's log and store
     * the new log length as the user's `warns` count.
     */
    method AddWarn(uid: string, moderator: int, reason: string, now: int) returns (w: Warn)
      modifies this
      ensures w == Warn(moderator, reason, now, |WarnsOf(old(warns), uid)| + 1)
      ensures warns == old(warns)[uid := WarnsOf(old(warns), uid) + [w]]
      ensures users == old(users)[uid := Lookup(old(users), uid, now).(warns := |WarnsOf(old(warns), uid)| + 1)]
      ensures voiceUsers == old(voiceUsers)
      ensures old(Valid()) ==> Valid()
    {
      if uid !in warns {
        warns := warns[uid := []];
      }
      w := Warn(moderator, reason, now, |warns[uid]| + 1);
      warns := warns[uid := warns[uid] + [w]];
      var u := GetUserData(uid, now);
      users := users[uid := u.(warns := |warns[uid]|)];
      AddWarnKeepsValid(config, old(users), old(warns), uid, now, w);
    }

    /** `add_achievement`. */
    method AddAchievement(uid: string, achievement: string, now: int) returns (added: bool)
      modifies this
      ensures users == old(users)[uid := AddAchievementRecord(Lookup(old(users), uid, now), achievement).0]
      ensures added == AddAchievementRecord(Lookup(old(users), uid, now), achievement).1
      ensures warns == old(warns) && voiceUsers == old(voiceUsers)
      ensures old(Valid()) ==> Valid()
    {
      var u := GetUserData(uid, now);
      if achievement !in u.achievements {
        if ConfigOk(config) {
          StoreKeepsValid(config, old(users), warns, uid, now, u.(achievements := u.achievements + [achievement]));
        }
        users := users[uid := u.(achievements := u.achievements + [achievement])];
        return true;
      }
      return false;
    }

    /**
     * `on_message`: bots and commands earn nothing; otherwise the author's
     * record is created if needed and the message rule applies, with `roll`
     * the value `randint(1, xp_per_message)` drew.
     */
    method OnMessage(uid: string, isBot: bool, content: string, now: int, roll: int) returns (change: LevelChange)
      requires ConfigOk(config)
      modifies this
      ensures isBot || IsCommand(content) ==> users == old(users) && change == Unchanged
      ensures !isBot && !IsCommand(content) ==>
        users == old(users)[uid := OnMessageRecord(config, Lookup(old(users), uid, now), content, now, roll).0]
        && change == OnMessageRecord(config, Lookup(old(users), uid, now), content, now, roll).1
      ensures warns == old(warns) && voiceUsers == old(voiceUsers)
      ensures old(Valid()) ==> Valid()
    {
      if isBot || IsCommand(content) {
        return Unchanged;
      }
      var u := GetUserData(uid, now);
      if now - u.lastMessage > config.xpCooldown {
        var gained := MessageXp(content, roll);
        ghost var mid := users;
        change := AddXp(uid, gained, "message", now);
        assert Lookup(mid, uid, now) == u;
        var r := users[uid];
        AddXpRecordSpec(config, u, gained, "message");
        StoreKeepsValid(config, old(users), warns, uid, now, r.(lastMessage := now));
        users := users[uid := r.(lastMessage := now)];
      } else {
        change := Unchanged;
      }
    }
  
    /**
     * `on_voice_state_update`. Joining a channel unmuted starts a session;
     * leaving, or muting or deafening while in a channel, ends a tracked
     * session and pays its whole minutes when the session lasted a minute.
     */
    method OnVoiceStateUpdate(uid: string, isBot: bool, before: VoiceState, after: VoiceState, now: int)
      returns (change: LevelChange)
      requires ConfigOk(config)
      modifies this
      ensures isBot || (!IsJoin(before, after) && !(IsLeaveOrSilence(before, after) && uid in old(voiceUsers))) ==>
        users == old(users) && voiceUsers == old(voiceUsers) && change == Unchanged
      ensures !isBot && IsJoin(before, after) ==>
        && users == old(users) && change == Unchanged
        && voiceUsers == if after.selfDeaf || after.selfMute then old(voiceUsers)
                         else old(voiceUsers)[uid := VoiceSession(now, now)]
      ensures !isBot && !IsJoin(before, after) && IsLeaveOrSilence(before, after) && uid in old(voiceUsers) ==>
        var minutes := VoiceSessionMinutes(now - old(voiceUsers)[uid].startTime);
        && voiceUsers == old(voiceUsers) - {uid}
        && (minutes * config.xpPerMinuteVoice > 0 ==>
              users == old(users)[uid := VoiceAwardRecord(config, Lookup(old(users), uid, now), minutes).0]
              && change == VoiceAwardRecord(config, Lookup(old(users), uid, now), minutes).1)
        && (minutes * config.xpPerMinuteVoice <= 0 ==> users == old(users) && change == Unchanged)
      ensures warns == old(warns)
      ensures old(Valid()) ==> Valid()
    {
      change := Unchanged;
      if isBot {
        return;
      }
      if IsJoin(before, after) {
        if !(after.selfDeaf || after.selfMute) {
          voiceUsers := voiceUsers[uid := VoiceSession(now, now)];
        }
      } else if IsLeaveOrSilence(before, after) {
        if uid in voiceUsers {
          var session := now - voiceUsers[uid].startTime;
          if session >= 60 {
            var minutes := session / 60;
            var xp := minutes * config.xpPerMinuteVoice;
            if xp > 0 {
              PositiveRate(minutes, config.xpPerMinuteVoice);
              change := AwardVoice(uid, minutes, now);
            }
          }
          voiceUsers := voiceUsers - {uid};
        }
      }
    }

    /**
     * One member's turn in `voice_xp_task`: skip bots, AFK, deafened and
     * muted members; start tracking an untracked member; pay the whole
     * minutes since the last payment once a minute has passed.
     */
    method VoiceXpTick(uid: string, member: VoiceMember, now: int) returns (change: LevelChange)
      requires ConfigOk(config)
      modifies this
      ensures !EarnsVoiceXp(member) ==>
        users == old(users) && voiceUsers == old(voiceUsers) && change == Unchanged
      ensures EarnsVoiceXp(member) ==>
        var s := if uid in old(voiceUsers) then old(voiceUsers)[uid] else VoiceSession(now, now);
        var minutes := VoiceSessionMinutes(now - s.lastXp);
        && (minutes * config.xpPerMinuteVoice > 0 ==>
              && users == old(users)[uid := VoiceAwardRecord(config, Lookup(old(users), uid, now), minutes).0]
              && change == VoiceAwardRecord(config, Lookup(old(users), uid, now), minutes).1
              && voiceUsers == old(voiceUsers)[uid := s.(lastXp := now)])
        && (minutes * config.xpPerMinuteVoice <= 0 ==>
              users == old(users) && change == Unchanged && voiceUsers == old(voiceUsers)[uid := s])
      ensures warns == old(warns)
      ensures old(Valid()) ==> Valid()
    {
      change := Unchanged;
      if !EarnsVoiceXp(member) {
        return;
      }
      if uid !in voiceUsers {
        voiceUsers := voiceUsers[uid := VoiceSession(now, now)];
      }
      if now - voiceUsers[uid].lastXp >= 60 {
        var minutes := (now - voiceUsers[uid].lastXp) / 60;
        var xp := minutes * config.xpPerMinuteVoice;
        if xp > 0 {
          PositiveRate(minutes, config.xpPerMinuteVoice);
          change := AwardVoice(uid, minutes, now);
          voiceUsers := voiceUsers[uid := voiceUsers[uid].(lastXp := now)];
        }
      }
    }

    /** The award both voice paths share: `add_xp(.., "voice")`, then `update_voice_time`. */
    method AwardVoice(uid: string, minutes: int, now: int) returns (change: LevelChange)
      requires ConfigOk(config) && config.xpPerMinuteVoice > 0
      modifies this
      ensures users == old(users)[uid := VoiceAwardRecord(config, Lookup(old(users), uid, now), minutes).0]
      ensures change == VoiceAwardRecord(config, Lookup(old(users), uid, now), minutes).1
      ensures warns == old(warns) && voiceUsers == old(voiceUsers)
      ensures old(Valid()) ==> Valid()
    {
      var u := Lookup(users, uid, now);
      var xp := minutes * config.xpPerMinuteVoice;
      change := AddXp(uid, xp, "voice", now);
      ghost var mid := users;
      AddXpKeepsGood(config, u, xp, "voice");
      StoreKeepsValid(config, old(users), warns, uid, now, mid[uid]);
      UpdateVoiceTime(uid, minutes, now);
      assert Lookup(mid, uid, now) == mid[uid];
    }

    /**
     * `reset_daily_counters`: at midnight (`hour == 0`) every record's daily
     * counters and daily quests are cleared.
     */
    method ResetDailyCounters(hour: int)
      modifies this
      ensures hour != 0 ==> users == old(users)
      ensures hour == 0 ==> users == map uid | uid in old(users) :: ResetRecord(old(users)[uid])
      ensures warns == old(warns) && voiceUsers == old(voiceUsers)
      ensures old(Valid()) ==> Valid()
    {
      if hour != 0 {
        return;
      }
      var pending := users.Keys;
      while pending != {}
        invariant pending <= old(users).Keys && users.Keys == old(users).Keys
        invariant forall uid :: uid in users ==>
          users[uid] == if uid in pending then old(users)[uid] else ResetRecord(old(users)[uid])
        invariant warns == old(warns) && voiceUsers == old(voiceUsers)
        decreases pending
      {
        var uid :| uid in pending;
        users := users[uid := ResetRecord(users[uid])];
        pending := pending - {uid};
      }
      ResetKeepsValid(config, old(users), warns);
    }
  }
}

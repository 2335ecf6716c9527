# Winx / SQLite Discord bots — a verified model

This project models the logic of two Discord bots from one repository.

- **The JSON-backed Winx bot** (`main.py`). `UserManager` keeps one record per user: XP with a triangular level curve capped at 100, fairy tiers, quests, a daily-claim streak, warns and achievements. The event handlers award XP for chat and voice, and a midnight task resets the daily counters. As written, quests never advance. `check_quests` is only called from `add_xp` (main.py:158), with the `add_xp` source as the quest type. The bot's sources are "message", "voice", "daily", "quest" and "moderator", and the quest types are "messages", "voice_minutes", "streak" and "help" (main.py:94-115), so none ever matches. `WinxProgress.QuestsIdleForBotSources` proves this. The model keeps `check_quests` general rather than correcting the types. The dictionaries `data["users"]`, `data["warns"]` and `voice_users` are the fields of one `WinxBot` object. Each `UserManager` method and event handler is a method on it, proved against a function on one record.
- **The SQLite bot** (`imbulichka/bot`).
  - Its `users` table is a map keyed by `(user_id, guild_id)`, and `user_cards` is a sequence of rows, both held by a `Database` object.
  - The leveling, economy and cards cogs, and the message and voice listeners, are classes that run the same statements on that object.
  - The games cog's slot machine is a class that charges and credits the same `Database` object.
  - The rest of the games cog and the fun, ai_chat and utilities cogs are pure functions: the dice notation, rock-paper-scissors, the slot payouts, the translation and summary texts, leaderboard limits, ranks, achievements, the uptime text and the member counts.

Random numbers, clocks and Discord state are parameters. Most random draws are parameters whose `requires` clause restricts them to the range the library call produces. The dice are the exception: `Dice.Rolls` takes any natural numbers and maps each into [1, sides], and `Dice.RollsReachEveryOutcome` shows that every outcome can still occur. The constants the SQLite bot reads from a `Config` class that its configuration never defines (`XP_PER_MESSAGE`, `COOLDOWN_SECONDS`, `XP_PER_MINUTE_VOICE`, `CARD_PACK_PRICE`) are constructor parameters too.

Files:

- `wrappers.dfy`: Option.
- `text.dfy`: `str(n)`, `int(s)`, `split` and `join`.
- `winx_progress.dfy`: `main.py`.
- `sqrt_curve.dfy`, `user_table.dfy`, `clock.dfy`: the SQLite bot's level curve, tables and cooldowns.
- One file per cog or listener: `leveling.dfy`, `message_event.dfy`, `voice_event.dfy`, `economy.dfy`, `cards.dfy`, `games.dfy`, `fun_dice.dfy`, `ai_chat.dfy`, `utilities.dfy`.
- `dice.dfy`: the `NdM` notation that the games and fun cogs share.

## Model

| member | source | states |
|---|---|---|
| WinxProgress.NeededClosedForm | main.py:176-177 | the XP the `calculate_level` loop must pass to reach level L is m·L·(L−1)/2 |
| WinxProgress.ClimbIsLargest | main.py:173-181 | the loop stops at a level whose threshold the total has reached and the next one's it has not |
| WinxProgress.UncappedLevelIsLargest | main.py:172-183 | before the cap, the level is the largest L with m·L·(L−1)/2 ≤ total, or 1 |
| WinxProgress.TriangularLevelMonotone | main.py:172-183 | the capped level lies in [1, 100] and never drops when total XP grows |
| WinxProgress.WinxBot.CalculateLevel | main.py:172-183 | the source's `while True` loop returns exactly the triangular level, which lies in [1, 100] |
| WinxProgress.GetWinxLevel | main.py:207-211 | the scan from the highest key down returns a tier of `WINX_LEVELS`: the highest tier whose key the level reaches, and the level-1 tier below level 1 |
| WinxProgress.ScanQuests | main.py:218-231 | a quest the scan completes is a quest of `QUESTS` of the requested type |
| WinxProgress.ScanOfOtherKind | main.py:218-219 | a type that no quest has leaves the progress map untouched and completes nothing |
| WinxProgress.ScanSkip | main.py:219-223 | a quest of another type, or one already completed, is passed over |
| WinxProgress.ScanAdvance | main.py:220-230 | an unfinished quest of the type gets an entry, advances by one, and ends the scan when it reaches its goal |
| WinxProgress.AdvanceQuests | main.py:218-231 | the loop over `QUESTS` computes exactly the scan: the new progress map and the completed quest |
| WinxProgress.NoBotSourceIsQuestKind | main.py:152-158 | none of the five sources the bot passes to `add_xp` ("message", "voice", "daily", "quest", and "moderator" from the moderator command at main.py:1040) is a quest type |
| WinxProgress.QuestsIdleForBotSources | main.py:214-231 | `check_quests` with a bot source changes nothing and completes nothing |
| WinxProgress.CheckQuestsRecordOfScan | main.py:214-231 | `check_quests` stores the scanned progress and pays a completed quest through a nested `add_xp(.., "quest")` |
| WinxProgress.AddXpRecordSpec | main.py:146-169 | `xp` and `total_xp` grow together by the amount plus any quest reward. For the bot's sources they grow by exactly the amount and quests do not move. Only the XP fields, daily counters, quests and level change. The level becomes max(old, curve), a good record stays good, and a level-up is reported exactly on a rise, with the old and new levels |
| WinxProgress.AddXpRecordOfQuests | main.py:158-169 | the end of `add_xp`: the level is raised to the curve's after the quests ran |
| WinxProgress.AddXpOfSteps | main.py:146-169 | counting, the quest check and the promotion, applied to the table in turn, give `add_xp` on the looked-up record |
| WinxProgress.CheckQuestsOfSteps | main.py:214-231 | storing the scan and then paying the completed quest, applied to the table, give `check_quests` on the looked-up record |
| WinxProgress.WinxBot.GetUserData | main.py:121-143 | an unknown id gets the default record; an existing record is returned unchanged; nothing else changes and the invariant is kept |
| WinxProgress.WinxBot.AddXp | main.py:146-169 | the stored record becomes `add_xp` of the looked-up record, and the level change is returned |
| WinxProgress.WinxBot.StoreCount | main.py:147-155 | the record (created if missing) counts the XP and the message or voice time |
| WinxProgress.WinxBot.Promote | main.py:160-169 | the stored level is raised to the curve's exactly when that is higher, and the rise is reported |
| WinxProgress.WinxBot.CheckQuests | main.py:214-231 | the stored record becomes `check_quests` of the looked-up record, and the completed quest is returned |
| WinxProgress.WinxBot.StoreScan | main.py:215-227 | the scanned progress map is stored in the (created if missing) record |
| WinxProgress.ClaimDailyClaimed | main.py:241-251 | a claim on a new day starts the streak and pays the base plus the streak bonus through `add_xp(.., "daily")` |
| WinxProgress.ClaimDailySpec | main.py:234-254 | refused exactly when today was already claimed, changing nothing then. Otherwise the streak goes up by one after yesterday's claim and resets to 1 after any other day; the reward is daily_bonus + (streak−1)·streak_bonus and is added to total XP; the level never drops |
| WinxProgress.ClaimDailyOncePerDay | main.py:238-239 | a second claim on the same day is refused and leaves the record as it is |
| WinxProgress.WinxBot.ClaimDaily | main.py:234-254 | the stored record and result are `claim_daily` of the looked-up record, and the invariant is kept |
| WinxProgress.WinxBot.PayClaim | main.py:247-253 | the started claim is stored and paid through `add_xp`, keeping the invariant |
| WinxProgress.WinxBot.UpdateVoiceTime | main.py:257-261 | voice minutes grow by the minutes and `today_voice` by 60 seconds per minute |
| WinxProgress.WinxBot.GetWarns | main.py:264-266 | a user's warn log is as long as their `warns` count, with ids 1..n |
| WinxProgress.AddWarnKeepsValid | main.py:269-287 | appending a warn numbered one past the log keeps the warn count equal to the log length and the ids sequential |
| WinxProgress.WinxBot.AddWarn | main.py:269-287 | the new warn is numbered one past the log and appended; the user's `warns` becomes the new log length |
| WinxProgress.AddAchievementRecord | main.py:290-296 | appends exactly when absent and reports whether it did; nothing else changes; no duplicates are created |
| WinxProgress.AddAchievementIdempotent | main.py:290-296 | adding the same achievement again changes nothing and reports false |
| WinxProgress.WinxBot.AddAchievement | main.py:290-296 | the stored record becomes the achievement update of the looked-up record |
| WinxProgress.OnMessageSpec | main.py:511-531 | XP only after strictly more than `xp_cooldown` seconds, otherwise no change. The gain is exactly the draw plus len/50 for a message over 100 characters, so it lies in 1..xp_per_message for a short message and is at least the draw plus 2 for a long one. The message is counted, the time is recorded, and a level-up is reported exactly when the level rises |
| WinxProgress.WinxBot.OnMessage | main.py:503-533 | bots and `!` commands change nothing; otherwise the record is created and the message rule applied |
| WinxProgress.VoiceAwardSpec | main.py:319-323 | a voice award adds minutes·rate XP and the minutes; `today_voice` grows by 120 s per minute, because both `add_xp` and `update_voice_time` add 60 |
| WinxProgress.WinxBot.AwardVoice | main.py:557-559 | the shared voice award: `add_xp(.., "voice")` then `update_voice_time` |
| WinxProgress.WinxBot.OnVoiceStateUpdate | main.py:536-564 | an unmuted join starts a session. A leave or mute of a tracked member pays the whole minutes of a session of at least a minute, pays nothing when the voice rate is not positive, and always ends the session. Everything else changes nothing |
| WinxProgress.WinxBot.VoiceXpTick | main.py:302-328 | bots, AFK, deafened and muted members are skipped; an untracked member starts being tracked; after a minute the whole minutes are paid and `last_xp` is moved, unless the voice rate is not positive, when nothing is paid or moved |
| WinxProgress.ResetRecordSpec | main.py:568-582 | the reset zeroes the daily counters, clears the two daily quests, and keeps every other field and quest |
| WinxProgress.ResetKeepsValid | main.py:568-582 | the midnight reset keeps the bot's invariant |
| WinxProgress.WinxBot.ResetDailyCounters | main.py:568-582 | at hour 0 every record is reset; at any other hour nothing changes |
| WinxProgress.WinxBot.constructor | main.py:46-51 | a first run, when `load_data` finds no data file: no users and no warns, and no voice sessions (`voice_users` at main.py:299 always starts empty) |
| SqrtCurve.CalculateLevel | imbulichka/bot/cogs/leveling.py:11-12 | `int((xp/100)**0.5)` is the level l with 100·l² ≤ xp < 100·(l+1)² |
| SqrtCurve.CalculateLevelUnique | imbulichka/bot/cogs/leveling.py:57-60 | the rank card's two bounds determine the level: exactly one l fits |
| SqrtCurve.CalculateLevelIsLargest | imbulichka/bot/cogs/leveling.py:11-12 | a level's threshold is reached exactly when that level is at most the computed one |
| SqrtCurve.CalculateLevelMonotone | imbulichka/bot/cogs/leveling.py:11-12 | more XP never means a lower level |
| SqrtCurve.FirstPromotion | imbulichka/bot/cogs/leveling.py:31-34 | a fresh level-1 row is first promoted at 400 XP |
| UserTable.Update | imbulichka/bot/database.py:79-121 | an UPDATE on one key rewrites that row only, and matches nothing when the key is absent |
| UserTable.InsertOrIgnore | imbulichka/bot/database.py:68-77 | INSERT OR IGNORE adds the default row (1000 coins) only for a missing key |
| UserTable.UpdateAbsent | imbulichka/bot/database.py:79-88 | an UPDATE on a key that has no row changes nothing |
| UserTable.InsertOrIgnoreIdempotent | imbulichka/bot/database.py:68-77 | creating a user twice equals creating it once |
| UserTable.CreateThenGet | imbulichka/bot/database.py:45-77 | after `create_user`, `get_user` finds the row, and it is the default row exactly when it was new |
| UserTable.DefaultRowGood | imbulichka/bot/database.py:17-28 | the schema defaults satisfy the row invariant |
| UserTable.GrowsKeepsGood | imbulichka/bot/database.py:79-121 | adding non-negative amounts keeps a row's level within the curve and its counters non-negative |
| UserTable.ChargeKeepsGood | imbulichka/bot/cogs/cards.py:44-54 | a debit that the balance covers keeps the table good |
| UserTable.LimitCount | imbulichka/bot/database.py:127-129 | SQLite's LIMIT returns min(rows, limit) rows, and all of them for a negative limit |
| UserTable.Database.constructor | imbulichka/bot/database.py:10-43 | a first run of `init_db`, when no earlier database exists: both tables exist and are empty |
| UserTable.Database.GetUser | imbulichka/bot/database.py:45-66 | None exactly for an absent key, otherwise that row |
| UserTable.Database.CreateUser | imbulichka/bot/database.py:68-77 | the table becomes its insert-or-ignore, keeping the invariant |
| UserTable.Database.UpdateXp | imbulichka/bot/database.py:79-88 | `xp = xp + ?` on the keyed row only |
| UserTable.Database.UpdateLevel | imbulichka/bot/database.py:90-99 | `level = ?` on the keyed row only |
| UserTable.Database.UpdateMessages | imbulichka/bot/database.py:101-110 | `messages = messages + 1` on the keyed row only |
| UserTable.Database.UpdateVoiceTime | imbulichka/bot/database.py:112-121 | `voice_time = voice_time + ?` on the keyed row only |
| UserTable.Database.InsertCard | imbulichka/bot/database.py:31-40 | a `user_cards` row is appended last and `users` is untouched |
| UserTable.Database.GetTopUsers | imbulichka/bot/database.py:123-133 | the guild's rows, each user once, by xp descending, as many as LIMIT allows, with no row left out that has more xp than one returned |
| Leveling.AwardMessageSpec | imbulichka/bot/cogs/leveling.py:24-34 | a message adds the gain and one message, leaves voice time and coins, and sets the level to max(old, curve); the level-up is announced exactly when the level rises |
| Leveling.AnnouncedLevelBand | imbulichka/bot/cogs/leveling.py:43-44 | the announced level is the band of the new xp, so xp is below `xp_for_next` |
| Leveling.FirstAnnouncement | imbulichka/bot/cogs/leveling.py:31-34 | a fresh row is first announced at 400 XP |
| Leveling.AwardKeepsGood | imbulichka/bot/cogs/leveling.py:24-34 | awarding a message keeps the table good |
| Leveling.LevelingCog.OnMessage | imbulichka/bot/cogs/leveling.py:14-34 | bots and direct messages change nothing; otherwise the row is created if missing and awarded the message |
| Leveling.LevelingCog.AwardAuthor | imbulichka/bot/cogs/leveling.py:25-34 | the two UPDATEs, the re-read and the conditional `update_level` equal `AwardMessage` on the row |
| Leveling.LevelingCog.Rank | imbulichka/bot/cogs/leveling.py:47-60 | the row is created if missing; the level shown is the curve's for xp, and xp is below `xp_for_next` |
| MessageEvent.OnMessageCog.OnMessage | imbulichka/bot/events/on_message.py:13-70 | bots, direct messages and messages within the cooldown change nothing. Otherwise the time is recorded, the row is created, and the message is awarded |
| MessageEvent.OnMessageCog.AwardAuthor | imbulichka/bot/events/on_message.py:39-58 | the combined UPDATE and the conditional level update equal `AwardMessage` on the row |
| MessageEvent.OnMessageCog.constructor | imbulichka/bot/events/on_message.py:8-10 | the cog starts with no cooldowns |
| VoiceEvent.WholeMinutes | imbulichka/bot/events/on_voice_state.py:28 | `int(t/60)` truncates toward zero |
| VoiceEvent.WholeMinutesPositive | imbulichka/bot/events/on_voice_state.py:28-30 | a session earns something exactly when it lasted at least 60 seconds |
| VoiceEvent.OnVoiceStateCog.OnVoiceStateUpdate | imbulichka/bot/events/on_voice_state.py:13-48 | a join records the time. A leave of a tracked member adds minutes·rate XP and the minutes to an existing row, and always forgets the entry. Moves and mute changes change nothing |
| VoiceEvent.OnVoiceStateCog.constructor | imbulichka/bot/events/on_voice_state.py:8-10 | the cog starts with no sessions |
| Clock.CoolingAfterRecord | imbulichka/bot/cogs/economy.py:22-24 | after a use at t, the same user is refused exactly until t + period |
| Clock.CoolingOthers | imbulichka/bot/cogs/economy.py:46 | recording one user's use leaves every other user's cooldown as it was |
| Clock.Split60 | imbulichka/bot/cogs/utilities.py:45-49 | `t // 60, t % 60` satisfy 60·a + b = t with 0 ≤ b < 60 |
| Clock.Split60Unique | imbulichka/bot/cogs/utilities.py:45-49 | those two parts are the only ones that satisfy it |
| Clock.HoursMinutes | imbulichka/bot/cogs/cards.py:111-113 | the hours and minutes left cover the remaining seconds to within a minute |
| Economy.TransferSpec | imbulichka/bot/cogs/economy.py:141-152 | between two distinct rows the amount changes hands, the pair's total is conserved, every other row is untouched, and a covered debit keeps the table good |
| Economy.EconomyCog.Work | imbulichka/bot/cogs/economy.py:15-54 | within five minutes only the time left is reported; otherwise the earnings go to an existing row and the time is recorded |
| Economy.EconomyCog.Daily | imbulichka/bot/cogs/economy.py:56-94 | the same as `work`, with a 24-hour cooldown |
| Economy.EconomyCog.Balance | imbulichka/bot/cogs/economy.py:96-115 | a missing row is created, so a new member shows 1000 coins |
| Economy.EconomyCog.Give | imbulichka/bot/cogs/economy.py:117-161 | refused, with nothing changed, exactly for a non-positive amount, a gift to oneself, or a sender without a row or without enough coins. Otherwise the receiver's row is created and the coins move |
| Economy.EconomyCog.constructor | imbulichka/bot/cogs/economy.py:10-13 | the cog starts with no cooldowns |
| Cards.RarityOf | imbulichka/bot/cogs/cards.py:57-65 | a pack's rarity is one of the four rarities |
| Cards.RarityBuckets | imbulichka/bot/cogs/cards.py:57-65 | 60% common, 25% rare, 10% epic, 5% legendary; a higher draw never gives a more common rarity |
| Cards.OfRarity | imbulichka/bot/cogs/cards.py:68 | the pool is exactly the catalogue's cards of that rarity |
| Cards.DrawCard | imbulichka/bot/cogs/cards.py:68-72 | the card has the drawn rarity; it comes from the catalogue, or is the Mystery Card when the pool is empty |
| Cards.DefaultCatalogCoversRarities | imbulichka/bot/cogs/cards.py:21-33 | the built-in catalogue has a card of every rarity |
| Cards.OwnedIds | imbulichka/bot/cogs/cards.py:198-201 | the GROUP BY keys: each card id the user holds, once |
| Cards.FirstOf | imbulichka/bot/cogs/cards.py:198-201 | the row a group's bare columns come from belongs to that user and card |
| Cards.Collection | imbulichka/bot/cogs/cards.py:198-202 | one entry per owned card id, with its count and the name and rarity of one of the user's rows of that card |
| Cards.CollectionCountsAllCards | imbulichka/bot/cogs/cards.py:198-202 | the counts of the collection add up to the number of cards the user holds |
| Cards.CardsCog.BuyPack | imbulichka/bot/cogs/cards.py:35-100 | the row is created first. Without the price nothing else happens. Otherwise the price is debited and one card of the drawn rarity is appended |
| Cards.CardsCog.GetCard | imbulichka/bot/cogs/cards.py:102-188 | within two hours only the time left is reported. Otherwise the row is created. A find with an empty catalogue stops there. A find otherwise appends the chosen card and pays half its value; no find pays the 10–50 coins rolled. The time is recorded in both |
| Cards.CardsCog.ShowCollection | imbulichka/bot/cogs/cards.py:190-202 | the member's collection over every guild, whose counts add up to their cards |
| Cards.CardsCog.constructor | imbulichka/bot/cogs/cards.py:12-15 | the cog starts with the catalogue and no cooldowns |
| Text.NatToStringDigits | imbulichka/bot/cogs/games.py:94 | `str(n)` of a natural is digits only, without a leading zero |
| Text.DigitsValueOfNatToString | imbulichka/bot/cogs/games.py:94 | reading back the digits of `str(n)` gives n |
| Text.Split | imbulichka/bot/cogs/games.py:94 | `split(c)` gives one more piece than there are separators, and no piece contains c |
| Text.JoinSplit | imbulichka/bot/cogs/games.py:94 | joining the pieces of a split gives the text back |
| Text.SplitJoin | imbulichka/bot/cogs/utilities.py:440-447 | splitting pieces that were joined without the separator gives the pieces back |
| Text.ParseIntOfIntToString | imbulichka/bot/cogs/fun.py:46 | `int(str(n)) == n` for every integer |
| Dice.ParseDice | imbulichka/bot/cogs/games.py:94 | `map(int, dice.split("d"))` succeeds only on text with exactly one 'd' |
| Dice.ParseDiceOfNotation | imbulichka/bot/cogs/games.py:94 | "NdM" written from two integers parses back to them |
| Dice.Rolls | imbulichka/bot/cogs/games.py:101 | `num` dice (none for a non-positive count), each between 1 and `sides` |
| Dice.RollsReachEveryOutcome | imbulichka/bot/cogs/games.py:101 | every outcome of the dice comes from some draws |
| Dice.SumIsMaxIffAllMax | imbulichka/bot/cogs/games.py:113-114 | the total is at most num·sides, and equal exactly when every die shows `sides` |
| Games.Lower | imbulichka/bot/cogs/games.py:51 | lower-cases character by character |
| Games.HandOf | imbulichka/bot/cogs/games.py:53-56 | only "rock", "paper" and "scissors" are accepted |
| Games.Rps | imbulichka/bot/cogs/games.py:48-84 | invalid exactly when the lowered choice is not one of the three |
| Games.RpsSpec | imbulichka/bot/cogs/games.py:61-71 | a tie exactly on equal hands, and the game is antisymmetric |
| Games.BeatsExactlyOne | imbulichka/bot/cogs/games.py:63-66 | every hand beats exactly one hand and loses to exactly one |
| Games.RpsIgnoresCase | imbulichka/bot/cogs/games.py:51 | every choice plays exactly as its lower-cased form, because lowering twice is lowering once |
| Games.RollSpec | imbulichka/bot/cogs/games.py:86-119 | the format hint exactly without a 'd'. A roll exactly when the text parses and the dice can be thrown, with the count capped at 10 and the sides at 100, each die in range, and the total their sum. Critical exactly when every die shows its maximum |
| Games.RollCaps | imbulichka/bot/cogs/games.py:96-99 | "20d200" throws ten 100-sided dice |
| Games.Payout | imbulichka/bot/cogs/games.py:147-159 | 500 for three diamonds, 100 for any other triple, 25 for an adjacent pair only, else 0 |
| Games.OuterPairPaysNothing | imbulichka/bot/cogs/games.py:153 | matching outer reels around a different middle reel pay nothing |
| Games.NetSpec | imbulichka/bot/cogs/games.py:137-168 | the net of a spin is −10, 15, 90 or 490, and positive exactly on an adjacent match |
| Games.SpinMovesBalance | imbulichka/bot/cogs/games.py:137-168 | the charge and the credit move the balance by exactly the net, keeping the table good |
| Games.GamesCog.Slots | imbulichka/bot/cogs/games.py:121-192 | refused, with nothing changed, exactly without a row or 10 coins; otherwise the reels are the picks and the balance moves by winnings − 10 |
| Games.GamesCog.constructor | imbulichka/bot/cogs/games.py:7-8 | the cog holds the given database, which `slots` uses as `self.bot.db` (games.py:125) |
| FunDice.DiceRollSpec | imbulichka/bot/cogs/fun.py:42-64 | the outcome depends on the parse alone. More than 20 dice or 100 sides are refused, not capped. A roll throws exactly `num` dice in range, totalling between num and num·sides |
| FunDice.SumAtLeastCount | imbulichka/bot/cogs/fun.py:52 | dice that each show at least 1 total at least their number |
| FunDice.TooManyDiceRefused | imbulichka/bot/cogs/fun.py:47-49 | "21d6" is refused |
| AiChat.Codes | imbulichka/bot/cogs/ai_chat.py:67-73 | the codes of the table, in order |
| AiChat.LanguageName | imbulichka/bot/cogs/ai_chat.py:75 | a name is found exactly for a listed code, and it is that code's name |
| AiChat.Translate | imbulichka/bot/cogs/ai_chat.py:64-97 | unsupported exactly when the code is not listed |
| AiChat.TranslateSpec | imbulichka/bot/cogs/ai_chat.py:85 | the translation carries the language's name, and removing the tag and suffix gives back the text |
| AiChat.LanguageCodes | imbulichka/bot/cogs/ai_chat.py:67-73 | the codes are en, ru, es, fr, de |
| AiChat.AvailableCodes | imbulichka/bot/cogs/ai_chat.py:78 | the error lists "en, ru, es, fr, de" |
| AiChat.UnsupportedListsCodes | imbulichka/bot/cogs/ai_chat.py:75-82 | "it" is refused with the five codes listed |
| AiChat.SummarizeSpec | imbulichka/bot/cogs/ai_chat.py:102-105 | text under 50 characters is its own summary; longer text keeps its first min(len, 100) characters followed by the marker, so at most 116 |
| AiChat.ClipOriginalSpec | imbulichka/bot/cogs/ai_chat.py:112 | the shown original is the text exactly when it is at most 500 characters (or already ends in "..." at 503); otherwise its first 500 characters then "..." |
| Utilities.ClampLimitAsWritten | imbulichka/bot/cogs/utilities.py:120-121 | the clamp as written caps the limit above only |
| Utilities.NegativeLimitShowsAll | imbulichka/bot/cogs/utilities.py:120-128 | a limit of −1 passes the clamp, and SQLite then returns every row, more than 20 |
| Utilities.ClampLimit | imbulichka/bot/cogs/utilities.py:120-121 | the corrected clamp keeps the limit in [0, 20] |
| Utilities.LeaderboardSizeSpec | imbulichka/bot/cogs/utilities.py:118-128 | a leaderboard shows at most 20 rows and no more than exist, and exactly min(rows, limit) for a limit in range |
| Utilities.Ahead | imbulichka/bot/cogs/utilities.py:224-231 | the rows counted ahead: same guild, and a higher level, or the same level with more xp |
| Utilities.RankOne | imbulichka/bot/cogs/utilities.py:224-232 | rank 1 exactly when no row of the guild is ahead |
| Utilities.RankOrder | imbulichka/bot/cogs/utilities.py:224-232 | a better (level, xp) never ranks lower, and strictly better ranks strictly higher when a row holds it |
| Utilities.TopIsRankOne | imbulichka/bot/cogs/utilities.py:224-232 | the best row of a guild has rank 1 |
| Utilities.NotAheadOfSelf | imbulichka/bot/cogs/utilities.py:224-232 | a row never counts itself |
| Utilities.Achievements | imbulichka/bot/cogs/utilities.py:274-283 | each achievement is listed exactly when its threshold is met |
| Utilities.AchievementsMonotone | imbulichka/bot/cogs/utilities.py:274-283 | larger statistics never lose an achievement |
| Utilities.GetMyStats | imbulichka/bot/cogs/utilities.py:204-292 | None exactly without a row. Otherwise the rank is 1 + the rows ahead, voice time is split into hours and minutes, and the achievements are listed |
| Utilities.UptimeParts | imbulichka/bot/cogs/utilities.py:435-438 | days, hours, minutes and seconds recompose the elapsed seconds, with hours < 24 and minutes, seconds < 60 |
| Utilities.UptimeStringIsJoin | imbulichka/bot/cogs/utilities.py:440-447 | the text is its words joined by single spaces |
| Utilities.ParseUptimeTokens | imbulichka/bot/cogs/utilities.py:440-447 | the words read back as the elapsed seconds and contain no space |
| Utilities.UptimeRoundTrip | imbulichka/bot/cogs/utilities.py:435-447 | the uptime text loses nothing: read back, it gives the elapsed seconds |
| Utilities.UptimeUnits | imbulichka/bot/cogs/utilities.py:440-447 | d, h and m appear exactly when that part is positive |
| Utilities.StatusCounts | imbulichka/bot/cogs/utilities.py:486-489 | online plus offline is every member, and idle plus dnd are among the online |
| Utilities.MembersInfoSpec | imbulichka/bot/cogs/utilities.py:481-490 | humans plus bots is the member count; idle plus dnd are among the online; when the gateway count equals the member list, online plus offline is that count and humans are the non-bot members |

## Left out

- I/O: embeds, messages, `print`, `save_data`/`load_data`, `load_config`, `load_cards` reading `data/cards.json`, and SQLite connections and commits. The cards cog takes its catalogue as a parameter.
- Randomness and clocks are parameters: `random.randint`, `random.random`, `random.choice`, `time.time()`, `datetime.now()`. Times are whole seconds and dates are day numbers. Float timestamps, and the fractional minutes of `int(time_spent / 60)` on floats, are modelled on integers.
- The `today_voice` counter of `add_xp` is a float (`xp / rate * 60`) in main.py. The model uses integer division, which is exact for the voice awards the bot makes.
- `get_fairy_type` and `set_fairy_type`: `get_fairy_type` draws at random and `set_fairy_type` upper-cases an enum name. Neither is modelled.
- Python's `str.lower` is modelled for ASCII letters and the KELVIN SIGN only. Python's `int()` is modelled for ASCII digits, a sign, underscores between digits, and surrounding ASCII whitespace. Other Unicode digits and spaces are not modelled.
- The SQLite bot's `Config` constants are never defined in the repository, so they are constructor parameters. Each is required to be positive (`XP_PER_MESSAGE`, `XP_PER_MINUTE_VOICE`) where the proofs of the level invariant need it.
- The games and utilities cogs use `self.bot.db`, `self.bot.server_stats` and `self.bot.start_time`. The bot never sets these, so the model uses the `users` table for `db`. Server stats and their percentages are not modelled. The uptime takes the elapsed seconds as a parameter.
- The `mystats` query reads a `total_xp` column and a `cards` table with `guild_id` and `value`. The schema has `xp` and `user_cards`, so `Utilities.GetMyStats` uses `xp` and takes the card count as a parameter. The card value sum is not modelled.
- `serverstats`, `topchatters` and `voiceleaderboard` run aggregate queries, which are not modelled. Only their limit clamp and the hour/minute split are.
- SQLite leaves the order of equal xp unspecified. `UserTable.Database.GetTopUsers` picks one order, and its contract allows any.
- Card rarity draws are a percent in [0, 100) rather than a float.
- `Games.GamesCog.Slots`: the deduction (games.py:137-140) is not committed on its own. The commit after crediting the winnings (games.py:168) also saves it. On a losing spin nothing is committed, so the deduction stays pending on the connection until a later commit on `bot.db`. The model applies both updates as the connection sees them, and does not model commits, rollbacks or a crash before a commit.
- State persisted by earlier runs is not modelled: the users and warns `load_data` reads from the JSON file, and the rows that survive `CREATE TABLE IF NOT EXISTS`. The constructors model a first run only. No method relies on starting empty. The `WinxBot` methods preserve `Valid()` without requiring it, and the SQLite methods require of the stored state at most `Database.Valid()`. So a persisted state that satisfies the invariant is covered.
- `flipcoin`, `8ball`, `coin_flip`, `getmeme`, `avatar`, `serverinfo`, `userinfo`, `rolesinfo` and `invitelink` only display random or Discord data, so they are not modelled.
- `MembersInfo` takes `member_count` from the gateway as a parameter. The model does not assume it equals the length of the member list.
- `Utilities.UptimeRoundTrip`: only for a non-negative uptime. A clock set back gives a negative day count, which the text drops.
- `handle_level_up`, role rewards and the commands of main.py (`rank`, `daily`, `quests`, `leaderboard`, moderation) send messages about the state modelled here, so they are not modelled themselves.
- `Cards.CardsCog.ShowCollection`: the first ten entries shown and the "more cards" footer are display only.
- `Cards.Collection`: SQLite promises neither the order of the groups of `GROUP BY card_id` without `ORDER BY` nor the row a group's bare columns come from. The model lists groups in order of first appearance and reads the first row. Its contract fixes the ids and counts, and only says that the name and rarity come from one of the group's rows. The order decides which ten entries the command shows.
- `WinxProgress.WinxBot.CalculateLevel`: only for a positive `level_multiplier`. For a multiplier of 0 or less, the `while True` loop of main.py:172-183 never ends, because the threshold never grows past the total. Every method that reaches `calculate_level` inherits this requirement through `ConfigOk`.
- `WinxProgress.WinxBot.AddXp`: with the source "voice", only for a positive `xp_per_minute_voice`. main.py:155 divides by the rate, and a rate of 0 raises ZeroDivisionError. Both voice handlers call it only when `minutes * rate > 0` with at least one minute, so only for a positive rate. Any other rate is accepted and pays no voice XP.

## Findings

| source | as written | input that shows it | evidently intended | confidence | as-written member | corrected member |
|---|---|---|---|---|---|---|
| imbulichka/bot/cogs/utilities.py:120-121 | `if limit > 20: limit = 20` caps only from above, and the limit goes to `LIMIT ?` | `!topchatters -1`: SQLite treats a negative LIMIT as no limit, so every member of the guild is listed | a leaderboard of at most 20 rows (the same clamp guards `voiceleaderboard` at lines 162-163) | medium; not executed. Latent: `self.bot.db` is never set, so `!topchatters` fails on `self.bot.db` before any query reaches SQLite; the bug shows once a database is attached | Utilities.NegativeLimitShowsAll | Utilities.LeaderboardSizeSpec |

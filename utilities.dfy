/**
 * The arithmetic and text of the utilities cog of the SQLite bot
 * (imbulichka/bot/cogs/utilities.py): voice minutes shown as hours and
 * minutes, the leaderboard limit, the rank rule and achievements of
 * `mystats`, the uptime text, and the member counts of `membersinfo`.
 */
module Utilities {
  import opened Wrappers
  import opened UserTable
  import Text
  import Clock

  // ---------------------------------------------------------------- leaderboard limit

  /** The most rows a leaderboard means to show. */
  const MaxLimit := 20

  /** `if limit > 20: limit = 20`, the clamp of `topchatters` and `voiceleaderboard` as written. */
  function ClampLimitAsWritten(limit: int): (l: int)
    ensures l <= MaxLimit
    ensures limit <= MaxLimit ==> l == limit
  {
    if limit > MaxLimit then MaxLimit else limit
  }

  /**
   * The clamp lets a negative limit through, and SQLite reads a negative
   * LIMIT as no limit: `!topchatters -1` in a guild of 25 members lists all 25.
   */
  lemma NegativeLimitShowsAll()
    ensures ClampLimitAsWritten(-1) == -1
    ensures LimitCount(25, ClampLimitAsWritten(-1)) == 25 > MaxLimit
  {
  }

  /** The clamp into `[0, 20]` the commands evidently intend. */
  function ClampLimit(limit: int): (l: nat)
    ensures l <= MaxLimit
    ensures 0 <= limit <= MaxLimit ==> l == limit
  {
    if limit > MaxLimit then MaxLimit else if limit < 0 then 0 else limit
  }

  /** How many rows a leaderboard lists for a guild with `rows` members in the table. */
  function LeaderboardSize(rows: nat, limit: int): (n: nat)
  {
    LimitCount(rows, ClampLimit(limit))
  }

  /**
   * A leaderboard never lists more than 20 rows, lists all of them when the
   * guild has fewer than the requested limit, and lists exactly the limit
   * otherwise.
   */
  lemma LeaderboardSizeSpec(rows: nat, limit: int)
    ensures LeaderboardSize(rows, limit) <= MaxLimit && LeaderboardSize(rows, limit) <= rows
    ensures 0 <= limit <= MaxLimit ==> LeaderboardSize(rows, limit) == if rows <= limit then rows else limit
    ensures limit > MaxLimit ==> LeaderboardSize(rows, limit) == if rows <= MaxLimit then rows else MaxLimit
  {
  }

  // ---------------------------------------------------------------- rank

  /** The row is ahead of (level, xp): a higher level, or the same level and more xp. */
  predicate Outranks(r: UserRow, level: int, xp: int) {
    r.level > level || (r.level == level && r.xp > xp)
  }

  /** The guild's rows ahead of (level, xp), the ones the rank query counts. */
  function Ahead(t: map<Key, UserRow>, guildId: int, level: int, xp: int): (s: set<Key>)
    ensures forall k :: k in s <==> k in t && k.guildId == guildId && Outranks(t[k], level, xp)
  {
    set k | k in t && k.guildId == guildId && Outranks(t[k], level, xp)
  }

  /** `COUNT(*) + 1` of the rows ahead. */
  function Rank(t: map<Key, UserRow>, guildId: int, level: int, xp: int): (rank: nat)
    ensures rank >= 1
  {
    |Ahead(t, guildId, level, xp)| + 1
  }

  lemma SubsetCard<T>(a: set<T>, b: set<T>)
    requires a <= b
    ensures |a| <= |b|
    ensures a < b ==> |a| < |b|
  {
    var rest := b - a;
    assert b == a + rest;
    assert a * rest == {};
    if a < b {
      var x :| x in b && x !in a;
      assert x in rest;
    }
  }

  /** Rank 1 exactly when no row of the guild is ahead. */
  lemma RankOne(t: map<Key, UserRow>, guildId: int, level: int, xp: int)
    ensures Rank(t, guildId, level, xp) == 1 <==>
      forall k :: k in t && k.guildId == guildId ==> !Outranks(t[k], level, xp)
  {
    var s := Ahead(t, guildId, level, xp);
    if s != {} {
      var k :| k in s;
    }
  }

  /**
   * The rank is ordered like (level, xp): standing at least as high never
   * gives a worse rank, and a row of the guild strictly between the two
   * standings makes the higher one's rank strictly better.
   */
  lemma RankOrder(t: map<Key, UserRow>, guildId: int, l1: int, x1: int, l2: int, x2: int)
    requires l1 > l2 || (l1 == l2 && x1 >= x2)
    ensures Rank(t, guildId, l1, x1) <= Rank(t, guildId, l2, x2)
    ensures (exists k :: k in t && k.guildId == guildId && t[k].level == l1 && t[k].xp == x1)
            && (l1 > l2 || x1 > x2)
            ==> Rank(t, guildId, l1, x1) < Rank(t, guildId, l2, x2)
  {
    var a := Ahead(t, guildId, l1, x1);
    var b := Ahead(t, guildId, l2, x2);
    assert a <= b;
    SubsetCard(a, b);
    if (exists k :: k in t && k.guildId == guildId && t[k].level == l1 && t[k].xp == x1) && (l1 > l2 || x1 > x2) {
      var k :| k in t && k.guildId == guildId && t[k].level == l1 && t[k].xp == x1;
      assert k in b && k !in a;
      SubsetCard(a, b);
    }
  }

  /** The best standing in the guild is rank 1. */
  lemma TopIsRankOne(t: map<Key, UserRow>, k: Key)
    requires k in t
    requires forall j :: j in t && j.guildId == k.guildId ==>
      t[j].level < t[k].level || (t[j].level == t[k].level && t[j].xp <= t[k].xp)
    ensures Rank(t, k.guildId, t[k].level, t[k].xp) == 1
  {
    RankOne(t, k.guildId, t[k].level, t[k].xp);
  }

  // ---------------------------------------------------------------- achievements

  datatype Achievement = ChatMaster | VoiceVeteran | LevelTen | CardCollector

  /** The achievement list of `mystats`, in the order it is built. */
  function Achievements(messages: int, voiceTime: int, level: int, cardCount: int): (a: seq<Achievement>)
    ensures ChatMaster in a <==> messages >= 1000
    ensures VoiceVeteran in a <==> voiceTime >= 1000
    ensures LevelTen in a <==> level >= 10
    ensures CardCollector in a <==> cardCount >= 10
  {
    (if messages >= 1000 then [ChatMaster] else [])
    + (if voiceTime >= 1000 then [VoiceVeteran] else [])
    + (if level >= 10 then [LevelTen] else [])
    + (if cardCount >= 10 then [CardCollector] else [])
  }

  /** More activity never takes an achievement away. */
  lemma AchievementsMonotone(m1: int, v1: int, l1: int, c1: int, m2: int, v2: int, l2: int, c2: int)
    requires m1 <= m2 && v1 <= v2 && l1 <= l2 && c1 <= c2
    ensures forall x :: x in Achievements(m1, v1, l1, c1) ==> x in Achievements(m2, v2, l2, c2)
  {
  }

  /** A member with a row of the table and `cardCount` cards. */
  datatype MyStats = MyStats(rank: nat, voiceHours: int, voiceMinutes: int, achievements: seq<Achievement>)

  /** `mystats_command`: nothing for a member without a row. */
  function GetMyStats(t: map<Key, UserRow>, k: Key, cardCount: int): (r: Option<MyStats>)
    ensures r.None? <==> k !in t
    ensures r.Some? ==>
      r.value.rank == 1 + |Ahead(t, k.guildId, t[k].level, t[k].xp)|
      && (r.value.voiceHours, r.value.voiceMinutes) == Clock.Split60(t[k].voiceTime)
      && r.value.achievements == Achievements(t[k].messages, t[k].voiceTime, t[k].level, cardCount)
  {
    if k !in t then None
    else
      var row := t[k];
      var (hours, minutes) := Clock.Split60(row.voiceTime);
      Some(MyStats(Rank(t, k.guildId, row.level, row.xp), hours, minutes,
                   Achievements(row.messages, row.voiceTime, row.level, cardCount)))
  }

  /** A member never counts as ahead of themselves. */
  lemma NotAheadOfSelf(t: map<Key, UserRow>, k: Key)
    requires k in t
    ensures k !in Ahead(t, k.guildId, t[k].level, t[k].xp)
  {
  }

  // ---------------------------------------------------------------- uptime

  /** `uptime.days`, then `divmod` of `uptime.seconds` into hours, minutes and seconds. */
  function UptimeParts(elapsed: int): (p: (int, int, int, int))
    ensures 86400 * p.0 + 3600 * p.1 + 60 * p.2 + p.3 == elapsed
    ensures 0 <= p.1 < 24 && 0 <= p.2 < 60 && 0 <= p.3 < 60
    ensures elapsed >= 0 ==> p.0 >= 0
  {
    var days := elapsed / 86400;
    var secs := elapsed % 86400;
    var hours := secs / 3600;
    var remainder := secs % 3600;
    (days, hours, remainder / 60, remainder % 60)
  }

  /** `f"{n}{unit} "` when `n > 0`, otherwise nothing. */
  function Part(n: int, unit: char): string {
    if n > 0 then Text.IntToString(n) + [unit, ' '] else ""
  }

  /** `time_str` of `uptime_command` for `elapsed` whole seconds. */
  function UptimeString(elapsed: int): string {
    var (days, hours, minutes, seconds) := UptimeParts(elapsed);
    Part(days, 'd') + (Part(hours, 'h') + (Part(minutes, 'm') + (Text.IntToString(seconds) + "s")))
  }

  function UnitSeconds(unit: char): Option<int> {
    if unit == 'd' then Some(86400)
    else if unit == 'h' then Some(3600)
    else if unit == 'm' then Some(60)
    else if unit == 's' then Some(1)
    else None
  }

  /** Reads one `<digits><unit>` word as seconds. */
  function ParseToken(token: string): Option<int> {
    if |token| < 2 || !Text.AllDigits(token[..|token| - 1]) then None
    else
      var n := Text.DigitsValue(token[..|token| - 1]);
      var unit := token[|token| - 1];
      if unit == 'd' then Some(86400 * n)
      else if unit == 'h' then Some(3600 * n)
      else if unit == 'm' then Some(60 * n)
      else if unit == 's' then Some(n)
      else None
  }

  function ParseTokens(tokens: seq<string>): Option<int> {
    if tokens == [] then Some(0)
    else match (ParseToken(tokens[0]), ParseTokens(tokens[1..]))
      case (Some(v), Some(rest)) => Some(v + rest)
      case _ => None
  }

  /** Reads an uptime text back as seconds. */
  function ParseUptime(s: string): Option<int> {
    ParseTokens(Text.Split(s, ' '))
  }

  /** `f"{n}{unit}"`, one word of the text. */
  function Token(n: int, unit: char): string {
    Text.IntToString(n) + [unit]
  }

  /** The word for a count, present only when the count is positive. */
  function Shown(n: int, unit: char): seq<string> {
    if n > 0 then [Token(n, unit)] else []
  }

  /** The words of the uptime text. */
  function UptimeTokens(elapsed: int): seq<string> {
    var (days, hours, minutes, seconds) := UptimeParts(elapsed);
    Shown(days, 'd') + (Shown(hours, 'h') + (Shown(minutes, 'm') + [Token(seconds, 's')]))
  }

  lemma TokenParses(n: int, unit: char, u: int)
    requires UnitSeconds(unit) == Some(u) && n >= 0
    ensures ParseToken(Token(n, unit)) == Some(n * u)
  {
    Text.NatToStringDigits(n);
    Text.DigitsValueOfNatToString(n);
    var token := Token(n, unit);
    assert token[..|token| - 1] == Text.NatToString(n);
  }

  lemma TokenHasNoSpace(n: int, unit: char)
    requires unit != ' '
    ensures ' ' !in Token(n, unit)
  {
    Text.NotInNumber(n, ' ');
  }

  /** A part in front of more words is a word in front of them. */
  lemma PartJoin(n: int, unit: char, ts: seq<string>)
    requires |ts| > 0
    ensures Part(n, unit) + Text.Join(ts, ' ') == Text.Join(Shown(n, unit) + ts, ' ')
  {
    if n > 0 {
      var all := [Token(n, unit)] + ts;
      assert all[1..] == ts;
      assert Part(n, unit) == Token(n, unit) + [' '];
    } else {
      assert Shown(n, unit) + ts == ts;
    }
  }

  /** The text is its words separated by single spaces. */
  lemma UptimeStringIsJoin(elapsed: int)
    ensures UptimeString(elapsed) == Text.Join(UptimeTokens(elapsed), ' ')
  {
    var p := UptimeParts(elapsed);
    var last := [Token(p.3, 's')];
    PartJoin(p.2, 'm', last);
    var m := Shown(p.2, 'm') + last;
    PartJoin(p.1, 'h', m);
    var h := Shown(p.1, 'h') + m;
    PartJoin(p.0, 'd', h);
  }

  /** A shown part adds its seconds to the words after it. */
  lemma ParseShown(n: int, unit: char, u: int, ts: seq<string>, v: int)
    requires UnitSeconds(unit) == Some(u) && n >= 0
    requires ParseTokens(ts) == Some(v)
    ensures ParseTokens(Shown(n, unit) + ts) == Some(n * u + v)
  {
    TokenParses(n, unit, u);
    if n > 0 {
      assert ([Token(n, unit)] + ts)[1..] == ts;
    } else {
      assert Shown(n, unit) + ts == ts;
    }
  }

  /** The words of non-negative counts read back as their seconds, and none holds a space. */
  lemma ParseUptimeTokens(elapsed: int)
    requires elapsed >= 0
    ensures ParseTokens(UptimeTokens(elapsed)) == Some(elapsed)
    ensures |UptimeTokens(elapsed)| > 0
    ensures forall i :: 0 <= i < |UptimeTokens(elapsed)| ==> ' ' !in UptimeTokens(elapsed)[i]
  {
    var p := UptimeParts(elapsed);
    ParseWords(p.0, p.1, p.2, p.3);
    WordsHaveNoSpace(p.0, p.1, p.2, p.3);
  }

  lemma WordsHaveNoSpace(days: int, hours: int, minutes: int, seconds: int)
    ensures var ts := Shown(days, 'd') + (Shown(hours, 'h') + (Shown(minutes, 'm') + [Token(seconds, 's')]));
      |ts| > 0 && forall i :: 0 <= i < |ts| ==> ' ' !in ts[i]
  {
    TokenHasNoSpace(days, 'd');
    TokenHasNoSpace(hours, 'h');
    TokenHasNoSpace(minutes, 'm');
    TokenHasNoSpace(seconds, 's');
  }

  lemma ParseWords(days: int, hours: int, minutes: int, seconds: int)
    requires days >= 0 && hours >= 0 && minutes >= 0 && seconds >= 0
    ensures var ts := Shown(days, 'd') + (Shown(hours, 'h') + (Shown(minutes, 'm') + [Token(seconds, 's')]));
      ParseTokens(ts) == Some(days * 86400 + (hours * 3600 + (minutes * 60 + seconds)))
  {
    var rest := Shown(hours, 'h') + (Shown(minutes, 'm') + [Token(seconds, 's')]);
    var v := hours * 3600 + (minutes * 60 + seconds);
    assert ParseTokens(rest) == Some(v) by {
      ParseHourWords(hours, minutes, seconds);
    }
    ParseShown(days, 'd', 86400, rest, v);
  }

  lemma ParseHourWords(hours: int, minutes: int, seconds: int)
    requires hours >= 0 && minutes >= 0 && seconds >= 0
    ensures ParseTokens(Shown(hours, 'h') + (Shown(minutes, 'm') + [Token(seconds, 's')]))
         == Some(hours * 3600 + (minutes * 60 + seconds))
  {
    var rest := Shown(minutes, 'm') + [Token(seconds, 's')];
    assert ParseTokens(rest) == Some(minutes * 60 + seconds) by {
      ParseMinuteWords(minutes, seconds);
    }
    ParseShown(hours, 'h', 3600, rest, minutes * 60 + seconds);
  }

  lemma ParseMinuteWords(minutes: int, seconds: int)
    requires minutes >= 0 && seconds >= 0
    ensures ParseTokens(Shown(minutes, 'm') + [Token(seconds, 's')]) == Some(minutes * 60 + seconds)
  {
    TokenParses(seconds, 's', 1);
    assert [Token(seconds, 's')][1..] == [];
    ParseShown(minutes, 'm', 60, [Token(seconds, 's')], seconds);
  }

  /**
   * The uptime text loses nothing: read back, it gives the elapsed seconds.
   * (Only for a non-negative uptime: a negative number of days is dropped.)
   */
  lemma UptimeRoundTrip(elapsed: int)
    requires elapsed >= 0
    ensures ParseUptime(UptimeString(elapsed)) == Some(elapsed)
  {
    UptimeStringIsJoin(elapsed);
    ParseUptimeTokens(elapsed);
    Text.SplitJoin(UptimeTokens(elapsed), ' ');
  }

  /** A letter other than the separator appears in a part exactly when it is that part's unit. */
  lemma LetterInPart(n: int, unit: char, c: char)
    requires !Text.IsDigit(c) && c != '-' && c != ' '
    ensures c in Part(n, unit) <==> n > 0 && c == unit
  {
    Text.NotInNumber(n, c);
  }

  /** A unit is shown exactly when its count is positive; seconds are always shown, last. */
  lemma UptimeUnits(elapsed: int)
    ensures var (days, hours, minutes, _) := UptimeParts(elapsed);
      var s := UptimeString(elapsed);
      ('d' in s <==> days > 0) && ('h' in s <==> hours > 0) && ('m' in s <==> minutes > 0)
      && |s| >= 2 && s[|s| - 1] == 's'
  {
    var p := UptimeParts(elapsed);
    LetterInText(p.0, p.1, p.2, p.3, 'd');
    LetterInText(p.0, p.1, p.2, p.3, 'h');
    LetterInText(p.0, p.1, p.2, p.3, 'm');
  }

  /** Which unit letters the text of given counts holds, and that it ends in seconds. */
  lemma LetterInText(days: int, hours: int, minutes: int, seconds: int, c: char)
    requires c == 'd' || c == 'h' || c == 'm'
    ensures var s := Part(days, 'd') + (Part(hours, 'h') + (Part(minutes, 'm') + (Text.IntToString(seconds) + "s")));
      (c in s <==> (days > 0 && c == 'd') || (hours > 0 && c == 'h') || (minutes > 0 && c == 'm'))
      && |s| >= 2 && s[|s| - 1] == 's'
  {
    var tail := Text.IntToString(seconds) + "s";
    Text.NotInNumber(seconds, c);
    Text.NatToStringDigits(if seconds < 0 then -seconds else seconds);
    assert c !in tail;
    LetterInPart(days, 'd', c);
    LetterInPart(hours, 'h', c);
    LetterInPart(minutes, 'm', c);
  }

  // ---------------------------------------------------------------- members

  datatype Status = Online | Idle | Dnd | Offline
  datatype Member = Member(status: Status, bot: bool)

  function CountStatus(members: seq<Member>, status: Status): (n: nat)
    ensures n <= |members|
  {
    if members == [] then 0
    else (if members[0].status == status then 1 else 0) + CountStatus(members[1..], status)
  }

  function CountNotStatus(members: seq<Member>, status: Status): (n: nat)
    ensures n <= |members|
  {
    if members == [] then 0
    else (if members[0].status != status then 1 else 0) + CountNotStatus(members[1..], status)
  }

  function CountBots(members: seq<Member>): (n: nat)
    ensures n <= |members|
  {
    if members == [] then 0 else (if members[0].bot then 1 else 0) + CountBots(members[1..])
  }

  datatype MemberCounts = MemberCounts(total: int, humans: int, bots: nat, online: nat, idle: nat, dnd: nat)

  /** `membersinfo_command`: `member_count` comes from the gateway, the rest from the member list. */
  function MembersInfo(memberCount: int, members: seq<Member>): (c: MemberCounts)
  {
    var bots := CountBots(members);
    MemberCounts(memberCount, memberCount - bots, bots, CountNotStatus(members, Offline),
                 CountStatus(members, Idle), CountStatus(members, Dnd))
  }

  /** Every member is offline or not, and idle or do-not-disturb members are among the online ones. */
  lemma {:induction false} StatusCounts(members: seq<Member>)
    ensures CountNotStatus(members, Offline) + CountStatus(members, Offline) == |members|
    ensures CountStatus(members, Idle) + CountStatus(members, Dnd) <= CountNotStatus(members, Offline)
    decreases |members|
  {
    if members != [] {
      StatusCounts(members[1..]);
    }
  }

  /**
   * Humans and bots add up to the member count, and when that count matches
   * the member list, humans are exactly the non-bot members and the online
   * and offline members make up the list.
   */
  lemma MembersInfoSpec(memberCount: int, members: seq<Member>)
    ensures MembersInfo(memberCount, members).humans + MembersInfo(memberCount, members).bots == memberCount
    ensures MembersInfo(memberCount, members).idle + MembersInfo(memberCount, members).dnd
            <= MembersInfo(memberCount, members).online
    ensures memberCount == |members| ==>
      MembersInfo(memberCount, members).online + CountStatus(members, Offline) == memberCount
      && MembersInfo(memberCount, members).humans == |members| - CountBots(members) >= 0
  {
    StatusCounts(members);
  }
}

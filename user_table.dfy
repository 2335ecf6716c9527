/**
 * The SQLite bot's tables (imbulichka/bot/database.py). The `users` table is
 * a map from its primary key `(user_id, guild_id)` to the other five columns,
 * so there is at most one row per pair; `user_cards` is the sequence of its
 * rows in insertion (autoincrement) order. Each statement the code issues is
 * a function on these values, and `Database` holds the two tables and runs
 * the statements on them in place.
 */
module UserTable {
  import opened Wrappers
  import SqrtCurve

  /** The primary key of `users`. */
  datatype Key = Key(userId: int, guildId: int)

  /** The non-key columns of a `users` row. */
  datatype UserRow = UserRow(xp: int, level: int, messages: int, voiceTime: int, coins: int)

  /** The row `create_user` inserts: the schema defaults and 1000 coins. */
  const DefaultRow := UserRow(0, 1, 0, 0, 1000)

  /** A `user_cards` row; its `id` is its position and `obtained_at` is not modelled. */
  datatype CardRow = CardRow(userId: int, cardId: string, cardName: string, rarity: string)

  /** A row of the result of `get_top_users`: `(user_id, xp, level)`. */
  datatype TopRow = TopRow(userId: int, xp: int, level: int)

  /** The SET clauses of the `UPDATE users ... WHERE user_id = ? AND guild_id = ?` statements. */
  datatype Change =
    | AddXp(xp: int)                            // update_xp
    | SetLevel(level: int)                      // update_level
    | AddMessage                                // update_messages
    | AddVoiceTime(minutes: int)                // update_voice_time
    | AddCoins(coins: int)                      // coins = coins + ? in the cogs
    | AddXpAndMessage(gain: int)                // xp = xp + ?, messages = messages + 1
    | AddXpAndVoiceTime(gain: int, minutes: int) // xp = xp + ?, voice_time = voice_time + ?

  function Apply(r: UserRow, c: Change): UserRow {
    match c
    case AddXp(d) => r.(xp := r.xp + d)
    case SetLevel(l) => r.(level := l)
    case AddMessage => r.(messages := r.messages + 1)
    case AddVoiceTime(m) => r.(voiceTime := r.voiceTime + m)
    case AddCoins(d) => r.(coins := r.coins + d)
    case AddXpAndMessage(d) => r.(xp := r.xp + d, messages := r.messages + 1)
    case AddXpAndVoiceTime(d, m) => r.(xp := r.xp + d, voiceTime := r.voiceTime + m)
  }

  /** An UPDATE on one key: it rewrites that row if present and matches nothing otherwise. */
  function Update(t: map<Key, UserRow>, k: Key, c: Change): (u: map<Key, UserRow>)
    ensures u.Keys == t.Keys
    ensures forall k' :: k' in t && k' != k ==> u[k'] == t[k']
    ensures k in t ==> u[k] == Apply(t[k], c)
  {
    if k in t then t[k := Apply(t[k], c)] else t
  }

  /** `INSERT OR IGNORE INTO users (user_id, guild_id, coins) VALUES (?, ?, 1000)`. */
  function InsertOrIgnore(t: map<Key, UserRow>, k: Key): (u: map<Key, UserRow>)
    ensures u.Keys == t.Keys + {k}
    ensures forall k' :: k' in t ==> u[k'] == t[k']
    ensures k !in t ==> u[k] == DefaultRow
  {
    if k in t then t else t[k := DefaultRow]
  }

  /** An UPDATE on a key that has no row changes nothing. */
  lemma UpdateAbsent(t: map<Key, UserRow>, k: Key, c: Change)
    requires k !in t
    ensures Update(t, k, c) == t
  {
  }

  /** Creating a user twice is the same as creating it once. */
  lemma InsertOrIgnoreIdempotent(t: map<Key, UserRow>, k: Key)
    ensures InsertOrIgnore(InsertOrIgnore(t, k), k) == InsertOrIgnore(t, k)
  {
  }

  /** `get_user` after `create_user`: the row exists and is the default one iff it was new. */
  lemma CreateThenGet(t: map<Key, UserRow>, k: Key)
    ensures k in InsertOrIgnore(t, k)
    ensures InsertOrIgnore(t, k)[k] == (if k in t then t[k] else DefaultRow)
  {
  }

  // ---------------------------------------------------------------------
  // The invariant every statement the bot issues keeps.

  function Max(a: int, b: int): int { if a < b then b else a }

  /**
   * The counters only ever grow from 0, coins are never debited below 0, and
   * the stored level starts at 1 and is only raised to `calculate_level(xp)`.
   */
  ghost predicate GoodRow(r: UserRow) {
    r.xp >= 0 && r.messages >= 0 && r.voiceTime >= 0 && r.coins >= 0
    && 1 <= r.level <= Max(1, SqrtCurve.CalculateLevel(r.xp))
  }

  ghost predicate AllGood(t: map<Key, UserRow>) {
    forall k :: k in t ==> GoodRow(t[k])
  }

  lemma DefaultRowGood()
    ensures GoodRow(DefaultRow)
  {
    assert SqrtCurve.CalculateLevel(0) == 0 by {
      SqrtCurve.CalculateLevelUnique(0, 0);
    }
  }

  /** The statements that only add non-negative amounts to counters or coins. */
  predicate Grows(c: Change) {
    match c
    case AddXp(d) => d >= 0
    case SetLevel(_) => false
    case AddMessage => true
    case AddVoiceTime(m) => m >= 0
    case AddCoins(d) => d >= 0
    case AddXpAndMessage(d) => d >= 0
    case AddXpAndVoiceTime(d, m) => d >= 0 && m >= 0
  }

  /** Adding non-negative amounts keeps the stored level within the curve. */
  lemma GrowsKeepsGood(r: UserRow, c: Change)
    requires GoodRow(r) && Grows(c)
    ensures GoodRow(Apply(r, c))
  {
    var r' := Apply(r, c);
    SqrtCurve.CalculateLevelMonotone(r.xp, r'.xp);
  }

  /** A debit the balance covers keeps coins non-negative. */
  lemma DebitKeepsGood(r: UserRow, amount: int)
    requires GoodRow(r) && 0 <= amount <= r.coins
    ensures GoodRow(Apply(r, AddCoins(-amount)))
  {
  }

  /** The promotion `if new_level > level: update_level(new_level)` keeps a good row good. */
  lemma PromoteKeepsGood(r: UserRow)
    requires GoodRow(r)
    ensures var l := SqrtCurve.CalculateLevel(r.xp);
      GoodRow(if l > r.level then r.(level := l) else r)
  {
  }

  /** Storing a good row keeps the whole table good. */
  lemma StoreKeepsGood(t: map<Key, UserRow>, k: Key, r: UserRow)
    requires AllGood(t) && GoodRow(r)
    ensures AllGood(t[k := r])
  {
  }

  /** An UPDATE keeps the table good when it keeps the keyed row good. */
  lemma UpdateKeepsGood(t: map<Key, UserRow>, k: Key, c: Change)
    requires AllGood(t)
    requires k in t ==> GoodRow(Apply(t[k], c))
    ensures AllGood(Update(t, k, c))
  {
  }

  lemma UpdateGrowsKeepsGood(t: map<Key, UserRow>, k: Key, c: Change)
    ensures AllGood(t) && Grows(c) ==> AllGood(Update(t, k, c))
  {
    if AllGood(t) && Grows(c) && k in t {
      GrowsKeepsGood(t[k], c);
    }
  }

  /** `coins = coins - price` on a row holding at least the price keeps the table good. */
  lemma ChargeKeepsGood(t: map<Key, UserRow>, k: Key, price: int)
    requires k in t && t[k].coins >= price
    ensures AllGood(t) ==> AllGood(Update(t, k, AddCoins(-price)))
  {
    if AllGood(t) {
      if price >= 0 {
        DebitKeepsGood(t[k], price);
      } else {
        GrowsKeepsGood(t[k], AddCoins(-price));
      }
      UpdateKeepsGood(t, k, AddCoins(-price));
    }
  }

  lemma InsertOrIgnoreKeepsGood(t: map<Key, UserRow>, k: Key)
    ensures AllGood(t) ==> AllGood(InsertOrIgnore(t, k))
  {
    DefaultRowGood();
  }

  // ---------------------------------------------------------------------
  // get_top_users.

  /** The keys of the rows of guild `g`. */
  function GuildKeys(t: map<Key, UserRow>, g: int): set<Key> {
    set k | k in t.Keys && k.guildId == g
  }

  /** SQLite's `LIMIT n`: a negative limit returns every row. */
  function LimitCount(count: nat, limit: int): (n: nat)
    ensures n <= count
    ensures limit >= 0 ==> n <= limit
    ensures n == count || n == limit
  {
    if limit < 0 || limit > count then count else limit
  }

  ghost function Ids(rows: seq<TopRow>): set<int> {
    set i | 0 <= i < |rows| :: rows[i].userId
  }

  lemma IdsAppend(rows: seq<TopRow>, r: TopRow)
    ensures Ids(rows + [r]) == Ids(rows) + {r.userId}
  {
    var rs := rows + [r];
    assert rs[|rows|].userId == r.userId;
    forall id | id in Ids(rows)
      ensures id in Ids(rs)
    {
      var i :| 0 <= i < |rows| && rows[i].userId == id;
      assert rs[i].userId == id;
    }
  }

  /** Every result row is the guild row of that user, with its xp and level. */
  ghost predicate RowsOfGuild(t: map<Key, UserRow>, g: int, rows: seq<TopRow>) {
    forall i :: 0 <= i < |rows| ==>
      Key(rows[i].userId, g) in t
      && t[Key(rows[i].userId, g)].xp == rows[i].xp
      && t[Key(rows[i].userId, g)].level == rows[i].level
  }

  /** Users appear once and xp does not increase down the list (`ORDER BY xp DESC`). */
  ghost predicate DistinctByXpDesc(rows: seq<TopRow>) {
    forall i, j :: 0 <= i < j < |rows| ==> rows[i].userId != rows[j].userId && rows[i].xp >= rows[j].xp
  }

  /** No guild row left out of the result has more xp than any row in it. */
  ghost predicate NoneLeftAbove(t: map<Key, UserRow>, g: int, rows: seq<TopRow>) {
    forall i, k :: 0 <= i < |rows| && k in GuildKeys(t, g) && k.userId !in Ids(rows) ==> t[k].xp <= rows[i].xp
  }

  /** What the selection loop of `GetTopUsers` keeps: `rows` is the best of `all - pending`. */
  ghost predicate Selected(t: map<Key, UserRow>, g: int, all: set<Key>, pending: set<Key>, rows: seq<TopRow>) {
    pending <= all && all <= t.Keys
    && RowsOfGuild(t, g, rows) && DistinctByXpDesc(rows)
    && (forall i :: 0 <= i < |rows| ==> Key(rows[i].userId, g) !in pending)
    && (forall k :: k in all && k !in pending ==> k.userId in Ids(rows))
    && (forall i, k :: 0 <= i < |rows| && k in pending ==> t[k].xp <= rows[i].xp)
  }

  /** Moving a pending row of highest xp to the end of the result keeps `Selected`. */
  lemma SelectStep(t: map<Key, UserRow>, g: int, all: set<Key>, pending: set<Key>, rows: seq<TopRow>, k: Key)
    requires all == GuildKeys(t, g) && Selected(t, g, all, pending, rows)
    requires k in pending && forall k' :: k' in pending ==> t[k'].xp <= t[k].xp
    ensures Selected(t, g, all, pending - {k}, rows + [TopRow(k.userId, t[k].xp, t[k].level)])
  {
    IdsAppend(rows, TopRow(k.userId, t[k].xp, t[k].level));
  }

  lemma {:induction false} MaxExists(t: map<Key, UserRow>, s: set<Key>)
    requires s != {} && s <= t.Keys
    ensures exists k :: k in s && forall k' :: k' in s ==> t[k'].xp <= t[k].xp
    decreases |s|
  {
    var x :| x in s;
    if s != {x} {
      MaxExists(t, s - {x});
      var y :| y in s - {x} && forall k' :: k' in s - {x} ==> t[k'].xp <= t[y].xp;
      if t[x].xp <= t[y].xp {
        assert forall k' :: k' in s ==> t[k'].xp <= t[y].xp;
      } else {
        assert forall k' :: k' in s ==> t[k'].xp <= t[x].xp;
      }
    } else {
      assert forall k' :: k' in s ==> t[k'].xp <= t[x].xp;
    }
  }

  // ---------------------------------------------------------------------

  class Database {
    var users: map<Key, UserRow>
    var cards: seq<CardRow>

    ghost predicate Valid()
      reads this
    {
      AllGood(users)
    }

    /** `init_db`: both tables exist and are empty. */
    constructor ()
      ensures users == map[] && cards == []
      ensures Valid()
    {
      users := map[];
      cards := [];
    }

    /** `get_user`: None for an absent key, else exactly that row. */
    function GetUser(k: Key): (r: Option<UserRow>)
      reads this
      ensures r.Some? <==> k in users
      ensures r.Some? ==> r.value == users[k]
    {
      if k in users then Some(users[k]) else None
    }

    /** `create_user`: insert-or-ignore with the defaults. */
    method CreateUser(k: Key)
      modifies this
      ensures users == InsertOrIgnore(old(users), k) && cards == old(cards)
      ensures old(Valid()) ==> Valid()
    {
      InsertOrIgnoreKeepsGood(users, k);
      users := InsertOrIgnore(users, k);
    }

    /** One `UPDATE users SET ... WHERE user_id = ? AND guild_id = ?` statement. */
    method Execute(k: Key, c: Change)
      modifies this
      ensures users == Update(old(users), k, c) && cards == old(cards)
    {
      users := Update(users, k, c);
    }

    /** `update_xp`. */
    method UpdateXp(k: Key, xp: int)
      modifies this
      ensures users == Update(old(users), k, AddXp(xp)) && cards == old(cards)
    {
      Execute(k, AddXp(xp));
    }

    /** `update_level`. */
    method UpdateLevel(k: Key, level: int)
      modifies this
      ensures users == Update(old(users), k, SetLevel(level)) && cards == old(cards)
    {
      Execute(k, SetLevel(level));
    }

    /** `update_messages`. */
    method UpdateMessages(k: Key)
      modifies this
      ensures users == Update(old(users), k, AddMessage) && cards == old(cards)
    {
      Execute(k, AddMessage);
    }

    /** `update_voice_time`. */
    method UpdateVoiceTime(k: Key, minutes: int)
      modifies this
      ensures users == Update(old(users), k, AddVoiceTime(minutes)) && cards == old(cards)
    {
      Execute(k, AddVoiceTime(minutes));
    }

    /** `INSERT INTO user_cards`: the new row goes last. */
    method InsertCard(row: CardRow)
      modifies this
      ensures cards == old(cards) + [row] && users == old(users)
    {
      cards := cards + [row];
    }

    /**
     * `get_top_users(guild_id, limit)`: the rows of the guild, highest xp
     * first, as many as LIMIT allows. SQLite leaves the order of equal xp
     * unspecified; this picks one.
     */
    method GetTopUsers(g: int, limit: int) returns (rows: seq<TopRow>)
      ensures |rows| == LimitCount(|GuildKeys(users, g)|, limit)
      ensures RowsOfGuild(users, g, rows)
      ensures DistinctByXpDesc(rows)
      ensures NoneLeftAbove(users, g, rows)
    {
      var all := GuildKeys(users, g);
      var pending := all;
      var n := LimitCount(|all|, limit);
      rows := [];
      while |rows| < n
        invariant |rows| + |pending| == |all| && |rows| <= n
        invariant Selected(users, g, all, pending, rows)
      {
        MaxExists(users, pending);
        var k :| k in pending && forall k' :: k' in pending ==> users[k'].xp <= users[k].xp;
        SelectStep(users, g, all, pending, rows, k);
        rows := rows + [TopRow(k.userId, users[k].xp, users[k].level)];
        pending := pending - {k};
      }
    }
  }
}

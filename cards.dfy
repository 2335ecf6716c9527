/**
 * The card cog of the SQLite bot (imbulichka/bot/cogs/cards.py): the built-in
 * catalogue, the rarity buckets of a pack, `buy_pack` (a debit and one new
 * `user_cards` row), the two-hour `get_card` search and the per-card counts
 * of `show_collection`.
 */
module Cards {
  import opened UserTable
  import Clock

  datatype Card = Card(id: string, name: string, rarity: string, value: int)

  /** The catalogue `load_cards` returns when there is no cards file. */
  const DefaultCatalog: seq<Card> := [
    Card("001", "Starshine Orb", "common", 10),
    Card("002", "Moonlight Crystal", "rare", 50),
    Card("003", "Galaxy Fragment", "epic", 200),
    Card("004", "Cosmic Singularity", "legendary", 1000),
    Card("005", "Solar Flare", "common", 15),
    Card("006", "Nebula Dust", "common", 12),
    Card("007", "Comet Tail", "rare", 60),
    Card("008", "Black Hole Core", "epic", 250),
    Card("009", "Supernova Remnant", "legendary", 1200)
  ]

  /** The rarities from most to least likely. */
  const Rarities: seq<string> := ["common", "rare", "epic", "legendary"]

  /** The `get_card` cooldown: two hours. */
  const SearchPeriod := 7200

  // ---------------------------------------------------------------------
  // Rarity buckets and the draw.

  /**
   * The rarity of a pack. `rand = random.random()` is given as the percent
   * `floor(100 * rand)`, which is below 60, 85 or 95 exactly when rand is
   * below 0.6, 0.85 or 0.95.
   */
  function RarityOf(percent: int): (r: string)
    requires 0 <= percent < 100
    ensures r in Rarities
  {
    if percent < 60 then "common"
    else if percent < 85 then "rare"
    else if percent < 95 then "epic"
    else "legendary"
  }

  /** Position of a rarity in `Rarities`. */
  function RarityRank(r: string): int {
    if r == "common" then 0 else if r == "rare" then 1 else if r == "epic" then 2 else 3
  }

  /**
   * The buckets partition [0, 100): 60 percent common, 25 rare, 10 epic and
   * 5 legendary, and a higher draw never gives a more common rarity.
   */
  lemma RarityBuckets(p: int, q: int)
    requires 0 <= p <= q < 100
    ensures RarityOf(p) == "common" <==> p < 60
    ensures RarityOf(p) == "rare" <==> 60 <= p < 85
    ensures RarityOf(p) == "epic" <==> 85 <= p < 95
    ensures RarityOf(p) == "legendary" <==> 95 <= p
    ensures RarityRank(RarityOf(p)) <= RarityRank(RarityOf(q))
  {
  }

  /** `[c for c in cards if c["rarity"] == rarity]`. */
  function OfRarity(catalog: seq<Card>, rarity: string): (pool: seq<Card>)
    ensures forall c :: c in pool <==> c in catalog && c.rarity == rarity
    ensures |pool| <= |catalog|
  {
    if catalog == [] then []
    else (if catalog[0].rarity == rarity then [catalog[0]] else []) + OfRarity(catalog[1..], rarity)
  }

  /** The stand-in for a rarity the catalogue has no card of. */
  function MysteryCard(rarity: string): Card {
    Card("000", "Mystery Card", rarity, 10)
  }

  /** The pack's card: `random.choice` at index `choice` of the pool, or the stand-in. */
  function DrawCard(catalog: seq<Card>, rarity: string, choice: nat): (c: Card)
    requires OfRarity(catalog, rarity) != [] ==> choice < |OfRarity(catalog, rarity)|
    ensures c.rarity == rarity
    ensures OfRarity(catalog, rarity) == [] ==> c == MysteryCard(rarity)
    ensures OfRarity(catalog, rarity) != [] ==> c in catalog
  {
    var pool := OfRarity(catalog, rarity);
    if pool == [] then MysteryCard(rarity) else pool[choice]
  }

  /** The built-in catalogue has a card of every rarity, so its packs never yield the stand-in. */
  lemma DefaultCatalogCoversRarities(percent: int)
    requires 0 <= percent < 100
    ensures OfRarity(DefaultCatalog, RarityOf(percent)) != []
  {
    var r := RarityOf(percent);
    var card := if r == "common" then DefaultCatalog[0]
                   else if r == "rare" then DefaultCatalog[1]
                   else if r == "epic" then DefaultCatalog[2]
                   else DefaultCatalog[3];
    assert card in DefaultCatalog && card.rarity == r;
  }

  // ---------------------------------------------------------------------
  // show_collection: `SELECT card_name, rarity, COUNT(*) ... WHERE user_id = ? GROUP BY card_id`.

  /** The rows of user `uid` with card id `id`: the size of that group. */
  function CountOf(rows: seq<CardRow>, uid: int, id: string): nat {
    if rows == [] then 0
    else CountOf(rows[..|rows| - 1], uid, id)
         + (if rows[|rows| - 1].userId == uid && rows[|rows| - 1].cardId == id then 1 else 0)
  }

  /** All the rows of user `uid`. */
  function CardsOf(rows: seq<CardRow>, uid: int): nat {
    if rows == [] then 0
    else CardsOf(rows[..|rows| - 1], uid) + (if rows[|rows| - 1].userId == uid then 1 else 0)
  }

  /** The group keys: the user's card ids, each once, in order of first appearance. */
  function OwnedIds(rows: seq<CardRow>, uid: int): (ids: seq<string>)
    ensures forall i, j :: 0 <= i < j < |ids| ==> ids[i] != ids[j]
    ensures forall id :: id in ids <==> CountOf(rows, uid, id) > 0
  {
    if rows == [] then []
    else
      var ids := OwnedIds(rows[..|rows| - 1], uid);
      var r := rows[|rows| - 1];
      if r.userId == uid && r.cardId !in ids then ids + [r.cardId] else ids
  }

  /** The row SQLite reports the bare columns of a group from; this model takes the first. */
  function FirstOf(rows: seq<CardRow>, uid: int, id: string): (r: CardRow)
    requires CountOf(rows, uid, id) > 0
    ensures r in rows && r.userId == uid && r.cardId == id
  {
    var prefix := rows[..|rows| - 1];
    if CountOf(prefix, uid, id) > 0 then FirstOf(prefix, uid, id) else rows[|rows| - 1]
  }

  /** One line of the collection; `cardId` is the group key, which the query does not select. */
  datatype CollectionEntry = CollectionEntry(cardId: string, cardName: string, rarity: string, count: nat)

  /** The result of the collection query, one entry per card id. */
  function Collection(rows: seq<CardRow>, uid: int): (c: seq<CollectionEntry>)
    ensures |c| == |OwnedIds(rows, uid)|
    ensures forall i :: 0 <= i < |c| ==>
      c[i].cardId == OwnedIds(rows, uid)[i] && c[i].count == CountOf(rows, uid, c[i].cardId) && c[i].count >= 1
    ensures forall i :: 0 <= i < |c| ==>
      exists r :: r in rows && r.userId == uid && r.cardId == c[i].cardId
                  && r.cardName == c[i].cardName && r.rarity == c[i].rarity
  {
    var ids := OwnedIds(rows, uid);
    seq(|ids|, i requires 0 <= i < |ids| =>
      var first := FirstOf(rows, uid, ids[i]);
      CollectionEntry(ids[i], first.cardName, first.rarity, CountOf(rows, uid, ids[i])))
  }

  function Total(entries: seq<CollectionEntry>): nat {
    if entries == [] then 0 else Total(entries[..|entries| - 1]) + entries[|entries| - 1].count
  }

  function SumCounts(rows: seq<CardRow>, uid: int, ids: seq<string>): nat {
    if ids == [] then 0 else SumCounts(rows, uid, ids[..|ids| - 1]) + CountOf(rows, uid, ids[|ids| - 1])
  }

  lemma {:induction false} SumCountsSame(p: seq<CardRow>, rows: seq<CardRow>, uid: int, ids: seq<string>)
    requires forall id :: id in ids ==> CountOf(rows, uid, id) == CountOf(p, uid, id)
    ensures SumCounts(rows, uid, ids) == SumCounts(p, uid, ids)
    decreases |ids|
  {
    if ids != [] {
      SumCountsSame(p, rows, uid, ids[..|ids| - 1]);
    }
  }

  lemma {:induction false} SumCountsBump(p: seq<CardRow>, rows: seq<CardRow>, uid: int, ids: seq<string>, id: string)
    requires forall i, j :: 0 <= i < j < |ids| ==> ids[i] != ids[j]
    requires id in ids
    requires forall x :: x in ids ==> CountOf(rows, uid, x) == CountOf(p, uid, x) + (if x == id then 1 else 0)
    ensures SumCounts(rows, uid, ids) == SumCounts(p, uid, ids) + 1
    decreases |ids|
  {
    var front := ids[..|ids| - 1];
    var last := ids[|ids| - 1];
    if last == id {
      assert id !in front by {
        forall i | 0 <= i < |front| ensures front[i] != id {
          assert ids[i] != ids[|ids| - 1];
        }
      }
      SumCountsSame(p, rows, uid, front);
    } else {
      assert id in front by {
        var i :| 0 <= i < |ids| && ids[i] == id;
        assert front[i] == id;
      }
      SumCountsBump(p, rows, uid, front, id);
    }
  }

  lemma {:induction false} TotalOfEntries(rows: seq<CardRow>, uid: int, ids: seq<string>, entries: seq<CollectionEntry>)
    requires |entries| == |ids|
    requires forall i :: 0 <= i < |ids| ==> entries[i].count == CountOf(rows, uid, ids[i])
    ensures Total(entries) == SumCounts(rows, uid, ids)
    decreases |ids|
  {
    if ids != [] {
      TotalOfEntries(rows, uid, ids[..|ids| - 1], entries[..|entries| - 1]);
    }
  }

  lemma {:induction false} SumOwned(rows: seq<CardRow>, uid: int)
    ensures SumCounts(rows, uid, OwnedIds(rows, uid)) == CardsOf(rows, uid)
    decreases |rows|
  {
    if rows != [] {
      var p := rows[..|rows| - 1];
      var r := rows[|rows| - 1];
      var ids := OwnedIds(p, uid);
      SumOwned(p, uid);
      if r.userId != uid {
        SumCountsSame(p, rows, uid, ids);
      } else if r.cardId in ids {
        SumCountsBump(p, rows, uid, ids, r.cardId);
      } else {
        SumCountsSame(p, rows, uid, ids);
      }
    }
  }

  /** The counts of the collection add up to the number of cards the user holds. */
  lemma CollectionCountsAllCards(rows: seq<CardRow>, uid: int)
    ensures Total(Collection(rows, uid)) == CardsOf(rows, uid)
  {
    TotalOfEntries(rows, uid, OwnedIds(rows, uid), Collection(rows, uid));
    SumOwned(rows, uid);
  }

  // ---------------------------------------------------------------------

  datatype PackOutcome = NeedCoins | Opened(card: Card, remaining: int)
  datatype SearchOutcome =
    | SearchWait(hours: int, minutes: int)
    | FoundCard(card: Card, reward: int)
    | FoundCoins(reward: int)
    | NoCardToDraw

  predicate ValuesNonNegative(catalog: seq<Card>) {
    forall i :: 0 <= i < |catalog| ==> catalog[i].value >= 0
  }

  class CardsCog {
    /** `self.card_cooldowns`: user id to the second of the last search. */
    var cardCooldowns: map<int, int>
    /** `self.cards_data["cards"]`. */
    const cardsData: seq<Card>
    const db: Database
    /** `Config.CARD_PACK_PRICE`, never defined: a parameter. */
    const packPrice: int

    constructor (db: Database, cardsData: seq<Card>, packPrice: int)
      ensures this.db == db && this.cardsData == cardsData && this.packPrice == packPrice
      ensures cardCooldowns == map[]
    {
      this.db := db;
      this.cardsData := cardsData;
      this.packPrice := packPrice;
      cardCooldowns := map[];
    }

    /**
     * `buy_pack` with the drawn percent and pool index. The buyer's row is
     * created first; with fewer coins than the price nothing else happens.
     * Otherwise the price is debited and one card row of the drawn rarity
     * is appended.
     */
    method BuyPack(userId: int, guildId: int, percent: int, choice: nat) returns (o: PackOutcome)
      requires 0 <= percent < 100
      requires OfRarity(cardsData, RarityOf(percent)) != [] ==> choice < |OfRarity(cardsData, RarityOf(percent))|
      modifies db
      ensures old(db.Valid()) ==> db.Valid()
      ensures var k := Key(userId, guildId);
        var t := InsertOrIgnore(old(db.users), k);
        if t[k].coins < packPrice then
          o == NeedCoins && db.users == t && db.cards == old(db.cards)
        else
          var c := DrawCard(cardsData, RarityOf(percent), choice);
          o == Opened(c, t[k].coins - packPrice)
          && db.users == Update(t, k, AddCoins(-packPrice))
          && db.cards == old(db.cards) + [CardRow(userId, c.id, c.name, c.rarity)]
    {
      var k := Key(userId, guildId);
      var userData := db.GetUser(k);
      if userData.None? {
        db.CreateUser(k);
        userData := db.GetUser(k);
      }
      if userData.value.coins < packPrice {
        return NeedCoins;
      }
      ChargeKeepsGood(db.users, k, packPrice);
      db.Execute(k, AddCoins(-packPrice));
      var rarity := RarityOf(percent);
      var card := DrawCard(cardsData, rarity, choice);
      db.InsertCard(CardRow(userId, card.id, card.name, card.rarity));
      o := Opened(card, userData.value.coins - packPrice);
    }

    /**
     * `get_card` with the draws: `found` for `random.random() < 0.5`, the
     * catalogue index, and the consolation coins. Within two hours of the
     * last search only the time left is reported. Otherwise the row is
     * created, and either a card is appended with half its value in coins
     * or 10 to 50 coins are added; the search time is recorded in both
     * cases. An empty catalogue makes `random.choice` raise after the row
     * was created, so no time is recorded then.
     */
    method GetCard(userId: int, guildId: int, now: int, found: bool, choice: nat, coinRoll: int)
      returns (o: SearchOutcome)
      requires 10 <= coinRoll <= 50
      requires found && cardsData != [] ==> choice < |cardsData|
      modifies this, db
      ensures old(db.Valid()) && ValuesNonNegative(cardsData) ==> db.Valid()
      ensures Clock.Cooling(old(cardCooldowns), userId, now, SearchPeriod) ==>
        o.SearchWait? && cardCooldowns == old(cardCooldowns)
        && db.users == old(db.users) && db.cards == old(db.cards)
        && 0 <= o.minutes < 60
        && 3600 * o.hours + 60 * o.minutes <= SearchPeriod - (now - old(cardCooldowns)[userId])
           < 3600 * o.hours + 60 * o.minutes + 60
      ensures !Clock.Cooling(old(cardCooldowns), userId, now, SearchPeriod) ==>
        var k := Key(userId, guildId);
        var t := InsertOrIgnore(old(db.users), k);
        if found && cardsData == [] then
          o == NoCardToDraw && db.users == t && db.cards == old(db.cards) && cardCooldowns == old(cardCooldowns)
        else if found then
          var c := cardsData[choice];
          o == FoundCard(c, c.value / 2)
          && db.users == Update(t, k, AddCoins(c.value / 2))
          && db.cards == old(db.cards) + [CardRow(userId, c.id, c.name, c.rarity)]
          && cardCooldowns == old(cardCooldowns)[userId := now]
        else
          o == FoundCoins(coinRoll)
          && db.users == Update(t, k, AddCoins(coinRoll)) && db.cards == old(db.cards)
          && cardCooldowns == old(cardCooldowns)[userId := now]
    {
      if userId in cardCooldowns && now - cardCooldowns[userId] < SearchPeriod {
        var (hours, minutes) := Clock.HoursMinutes(SearchPeriod - (now - cardCooldowns[userId]));
        return SearchWait(hours, minutes);
      }
      var k := Key(userId, guildId);
      var userData := db.GetUser(k);
      if userData.None? {
        db.CreateUser(k);
      }
      if found {
        if cardsData == [] {
          return NoCardToDraw;
        }
        var card := cardsData[choice];
        db.InsertCard(CardRow(userId, card.id, card.name, card.rarity));
        var coinReward := card.value / 2;
        UpdateGrowsKeepsGood(db.users, k, AddCoins(coinReward));
        db.Execute(k, AddCoins(coinReward));
        o := FoundCard(card, coinReward);
      } else {
        UpdateGrowsKeepsGood(db.users, k, AddCoins(coinRoll));
        db.Execute(k, AddCoins(coinRoll));
        o := FoundCoins(coinRoll);
      }
      cardCooldowns := cardCooldowns[userId := now];
    }

    /** `show_collection`: the member's cards grouped by card id, from every guild. */
    function ShowCollection(memberId: int): (c: seq<CollectionEntry>)
      reads db
      ensures Total(c) == CardsOf(db.cards, memberId)
    {
      CollectionCountsAllCards(db.cards, memberId);
      Collection(db.cards, memberId)
    }
  }
}

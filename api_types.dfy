/** The records served by the live client data API (`LiveGameAPI` in
    types/live_game.d.ts) and the static catalog entries they are built from
    (types/ddragon_item.d.ts, types/ddragon_champion.d.ts). The constant
    payloads that the session copies verbatim (the rune pages, the summoner
    spells and the champion statistics) are kept as tags. */
module LiveGameApi {
  import opened Base

  /** An item id: the catalog key, parsed as a number for `Item.itemID`. */
  type ItemId = int

  /** One inventory stack of a player. */
  datatype Item = Item(
    canUse: bool,
    consumable: bool,
    count: int,
    displayName: string,
    itemID: ItemId,
    price: int,
    rawDescription: string,
    rawDisplayName: string,
    slot: int)

  datatype Scores = Scores(assists: int, creepScore: int, deaths: int, kills: int, wardScore: real)

  const ZeroScores := Scores(0, 0, 0, 0, 0.0)

  /** The two sides of the map: "ORDER" and "CHAOS". */
  datatype Team = Order | Chaos

  /** The fixed rune summary of every generated player (Electrocute, Domination, Sorcery). */
  datatype Runes = DefaultRunes

  /** The fixed summoner spells of every generated player (Flash and Ignite). */
  datatype SummonerSpells = FlashAndIgnite

  /** The fixed full rune page of the active player. */
  datatype FullRunes = DefaultRunePage

  /** The active player's statistics, copied from the catalog entry of the champion with this id. */
  datatype ChampionStats = StatsOf(championId: string)

  /** One entry of `allPlayers`. The optional skin names are never set by the session and are not modelled. */
  datatype PlayerRecord = PlayerRecord(
    championName: string,
    isBot: bool,
    isDead: bool,
    items: seq<Item>,
    level: int,
    position: string,
    rawChampionName: string,
    respawnTimer: int,
    runes: Runes,
    scores: Scores,
    skinID: int,
    summonerName: string,
    summonerSpells: SummonerSpells,
    team: Team)

  /** One ability; the passive has no level (`abilityLevel` is left undefined). */
  datatype Ability = Ability(
    abilityLevel: Option<int>,
    displayName: string,
    id: string,
    rawDescription: string,
    rawDisplayName: string)

  /** The active player's abilities, one field per key of the source's map (Q, W, E, R, Passive). */
  datatype Abilities = Abilities(q: Ability, w: Ability, e: Ability, r: Ability, passive: Ability)

  datatype ActivePlayerRecord = ActivePlayerRecord(
    abilities: Abilities,
    championStats: ChampionStats,
    currentGold: int,
    fullRunes: FullRunes,
    level: int,
    summonerName: string)

  datatype GameEvent = GameEvent(eventID: int, eventName: string, eventTime: int)

  datatype GameData = GameData(gameMode: string, gameTime: int, mapName: string, mapNumber: int, mapTerrain: string)

  /** The whole session payload; `events` is the list under the `Events` key. */
  datatype Response = Response(
    activePlayer: Option<ActivePlayerRecord>,
    allPlayers: seq<PlayerRecord>,
    events: seq<GameEvent>,
    gameData: GameData)

  /** The body that `getError` builds for a refused query. */
  datatype ErrorPayload = ErrorPayload(errorCode: string, httpStatus: int, message: string)

  // ---- Catalog entries ----

  datatype Gold = Gold(base: int, total: int, sell: int, purchasable: bool)

  /** An item of the item catalog; only the fields the session reads. A
      negative `stacks` value is not modelled. */
  datatype ItemData = ItemData(
    name: string,
    gold: Option<Gold>,
    consumed: Option<bool>,
    stacks: Option<nat>,
    from: Option<seq<ItemId>>)

  /** The item catalog, keyed by item id. */
  type ItemDatabase = map<ItemId, ItemData>

  /** `item.gold?.total || 0`: the item's total cost, 0 when it has no gold data. */
  function TotalCost(data: ItemData): int
  {
    if data.gold.Some? then data.gold.value.total else 0
  }

  datatype Spell = Spell(id: string, name: string)

  /** A champion of the champion catalog; only the fields the session reads. */
  datatype Champion = Champion(id: string, key: string, name: string, spells: seq<Spell>, passiveName: string)
}

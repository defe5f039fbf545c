/** The mock game session (src/live_game.ts): it builds the roster and the
    optional active player from the start options and the champion catalog,
    accrues passive gold on every poll, and answers the live client data
    queries with a value, a structured error payload, or an exception. */
module Session {
  import opened Base
  import opened LiveGameApi

  // ---- Start options ----

  /** The `string | number` champion option. */
  datatype ChampionRef = Named(name: string) | Numbered(number: int)

  /** One entry of `allies` or `enemies`. The `level` and `runes` options are
      read by nothing in the session and are not modelled. */
  datatype OptionsPlayer = OptionsPlayer(
    summonerName: Option<string>,
    champion: Option<ChampionRef>,
    isBot: Option<bool>,
    isYou: Option<bool>)

  /** The start options. `patch` and `locale` only select the catalog to
      fetch, which happens outside this model. */
  datatype GameOptions = GameOptions(
    allies: seq<OptionsPlayer>,
    enemies: Option<seq<OptionsPlayer>>,
    alliedTeamIsRed: Option<bool>,
    mode: Option<string>,
    mapNumber: Option<nat>)

  const NoOptionsMessage := "Unable to generate current player: Cannot initialise game without options!"
  const NoCatalogMessage := "Unable to generate current player: Cannot initialise game without DDragon!"
  const NotInitialisedMessage := "Cannot update LiveGame! It has not initialised!"
  const FetchFailedMessage := "Unable to initialise game, unable to fetch DDragon Champion json file!"
  /** Stands for the runtime's TypeError when a champion has fewer than four
      spells; the source throws an error object, whose text is not modelled. */
  const MissingSpellMessage := "TypeError"

  /** `name || fallback` on an optional string: an absent or empty name takes the fallback. */
  function NameOr(name: Option<string>, fallback: string): string
  {
    if name.Some? && name.value != "" then name.value else fallback
  }

  /** `player.isBot` read as a truth value. */
  predicate IsBot(p: OptionsPlayer)
  {
    p.isBot == Some(true)
  }

  /** `player.isYou` read as a truth value. */
  predicate IsYou(p: OptionsPlayer)
  {
    p.isYou == Some(true)
  }

  /** `player.champion || "Aatrox"`: the champion that is looked up. */
  function ChampionQuery(p: OptionsPlayer): ChampionRef
  {
    match p.champion
    case None => Named("Aatrox")
    case Some(Named(s)) => if s == "" then Named("Aatrox") else Named(s)
    case Some(Numbered(n)) => if n == 0 then Named("Aatrox") else Numbered(n)
  }

  /** `c.id === q || c.key === q`: strict equality, so a number never matches a string id or key. */
  predicate Identifies(c: Champion, q: ChampionRef)
  {
    q.Named? && (c.id == q.name || c.key == q.name)
  }

  /** The position of the first catalog champion that the query identifies, or -1. */
  function FindChampion(champions: seq<Champion>, q: ChampionRef): (k: int)
    ensures -1 <= k < |champions|
    ensures 0 <= k ==> Identifies(champions[k], q)
    ensures forall j :: 0 <= j < |champions| && (k < 0 || j < k) ==> !Identifies(champions[j], q)
  {
    FindIndex(champions, (c: Champion) => Identifies(c, q))
  }

  /** A numeric champion option other than 0 is never found, whatever the catalog holds. */
  lemma NumericChampionIsNeverFound(p: OptionsPlayer, champions: seq<Champion>)
    requires p.champion.Some? && p.champion.value.Numbered? && p.champion.value.number != 0
    ensures FindChampion(champions, ChampionQuery(p)) == -1
  {
  }

  function QueryText(q: ChampionRef): string
  {
    match q
    case Named(s) => s
    case Numbered(n) => IntToString(n)
  }

  function UnidentifiedMessage(q: ChampionRef): string
  {
    "Unable to generate current player: Unable to identify '" + QueryText(q) + "' as a champion!"
  }

  /** The side of the map: the allies are on the red side ("CHAOS") exactly when `alliedTeamIsRed`. */
  function TeamOf(ally: bool, alliedTeamIsRed: bool): Team
  {
    if ally == alliedTeamIsRed then Chaos else Order
  }

  // ---- Roster (generateAllPlayers) ----

  /** The record `handlePlayer` pushes for an options entry whose champion was found. */
  function EntryRecord(p: OptionsPlayer, champion: Champion, ally: bool, alliedTeamIsRed: bool): PlayerRecord
  {
    PlayerRecord(
      championName := champion.name,
      isBot := IsBot(p),
      isDead := false,
      items := [],
      level := 0,
      position := "",
      rawChampionName := "game_character_displayname_" + champion.id,
      respawnTimer := 0,
      runes := DefaultRunes,
      scores := ZeroScores,
      skinID := 0,
      summonerName := NameOr(p.summonerName, if IsBot(p) then champion.name + " Bot" else "Holland"),
      summonerSpells := FlashAndIgnite,
      team := TeamOf(ally, alliedTeamIsRed))
  }

  /** What `handlePlayer` pushes for one options entry, or what it throws. */
  function RosterEntry(p: OptionsPlayer, ally: bool, alliedTeamIsRed: bool, champions: seq<Champion>): Result<PlayerRecord>
  {
    var q := ChampionQuery(p);
    var k := FindChampion(champions, q);
    if k < 0 then Thrown(UnidentifiedMessage(q))
    else Ok(EntryRecord(p, champions[k], ally, alliedTeamIsRed))
  }

  /** A roster entry starts alive, at level 0, with no items and no score;
      its team follows its side; its name is the given one, else
      "<champion> Bot" for a bot and "Holland" for anyone else. */
  lemma RosterEntryStartsFresh(p: OptionsPlayer, ally: bool, alliedTeamIsRed: bool, champions: seq<Champion>)
    requires RosterEntry(p, ally, alliedTeamIsRed, champions).Ok?
    ensures var e := RosterEntry(p, ally, alliedTeamIsRed, champions).value;
      && e.level == 0 && e.items == [] && e.scores == ZeroScores
      && !e.isDead && e.respawnTimer == 0
      && (e.team == Chaos <==> ally == alliedTeamIsRed)
      && (p.summonerName.Some? && p.summonerName.value != "" ==> e.summonerName == p.summonerName.value)
      && (NameOr(p.summonerName, "") == "" && IsBot(p) ==> e.summonerName == e.championName + " Bot")
      && (NameOr(p.summonerName, "") == "" && !IsBot(p) ==> e.summonerName == "Holland")
  {
  }

  /** Whatever the options, an ally and an enemy are never on the same team. */
  lemma AlliesAndEnemiesOnOppositeTeams(a: OptionsPlayer, b: OptionsPlayer, alliedTeamIsRed: bool, champions: seq<Champion>)
    requires RosterEntry(a, true, alliedTeamIsRed, champions).Ok?
    requires RosterEntry(b, false, alliedTeamIsRed, champions).Ok?
    ensures RosterEntry(a, true, alliedTeamIsRed, champions).value.team
         != RosterEntry(b, false, alliedTeamIsRed, champions).value.team
  {
  }

  /** `handlePlayer` for one side of the map, as a function of the options entry. */
  function EntryOf(ally: bool, alliedTeamIsRed: bool, champions: seq<Champion>): OptionsPlayer -> Result<PlayerRecord>
  {
    p => RosterEntry(p, ally, alliedTeamIsRed, champions)
  }

  /** The entries of `players`, in order, or the message of the first one that throws. */
  function Entries(players: seq<OptionsPlayer>, ally: bool, alliedTeamIsRed: bool, champions: seq<Champion>): Result<seq<PlayerRecord>>
  {
    MapResult(players, EntryOf(ally, alliedTeamIsRed, champions))
  }

  /** The entries succeed exactly when every player's champion is identified. */
  lemma EntriesSucceed(players: seq<OptionsPlayer>, ally: bool, alliedTeamIsRed: bool, champions: seq<Champion>)
    ensures Entries(players, ally, alliedTeamIsRed, champions).Ok?
      <==> forall i :: 0 <= i < |players| ==> RosterEntry(players[i], ally, alliedTeamIsRed, champions).Ok?
  {
    MapResultSucceeds(players, EntryOf(ally, alliedTeamIsRed, champions));
  }

  /** Successful entries hold one record per player: the i-th player's entry. */
  lemma EntriesInOrder(players: seq<OptionsPlayer>, ally: bool, alliedTeamIsRed: bool, champions: seq<Champion>)
    requires Entries(players, ally, alliedTeamIsRed, champions).Ok?
    ensures |Entries(players, ally, alliedTeamIsRed, champions).value| == |players|
    ensures forall i :: 0 <= i < |players| ==>
      RosterEntry(players[i], ally, alliedTeamIsRed, champions) == Ok(Entries(players, ally, alliedTeamIsRed, champions).value[i])
  {
    MapResultInOrder(players, EntryOf(ally, alliedTeamIsRed, champions));
  }

  /** When the entries throw, they throw the message of the first player
      whose champion cannot be identified. */
  lemma EntriesThrowFirst(players: seq<OptionsPlayer>, ally: bool, alliedTeamIsRed: bool, champions: seq<Champion>)
    requires Entries(players, ally, alliedTeamIsRed, champions).Thrown?
    ensures exists i :: (&& 0 <= i < |players|
      && RosterEntry(players[i], ally, alliedTeamIsRed, champions) == Thrown(Entries(players, ally, alliedTeamIsRed, champions).message)
      && (forall j :: 0 <= j < i ==> RosterEntry(players[j], ally, alliedTeamIsRed, champions).Ok?))
  {
    MapResultThrowsFirst(players, EntryOf(ally, alliedTeamIsRed, champions));
  }

  /** One iteration of `for (const player of ...) handlePlayer(player, ally)`:
      the entry is pushed, or its throw ends the whole pass. */
  lemma EntriesStep(players: seq<OptionsPlayer>, i: nat, ally: bool, alliedTeamIsRed: bool, champions: seq<Champion>, done: seq<PlayerRecord>)
    requires i < |players|
    requires Entries(players[..i], ally, alliedTeamIsRed, champions) == Ok(done)
    ensures var entry := RosterEntry(players[i], ally, alliedTeamIsRed, champions);
      && (entry.Ok? ==> Entries(players[..i + 1], ally, alliedTeamIsRed, champions) == Ok(done + [entry.value]))
      && (entry.Thrown? ==> Entries(players, ally, alliedTeamIsRed, champions) == Thrown(entry.message))
  {
    MapResultStep(players, i, EntryOf(ally, alliedTeamIsRed, champions), done);
  }

  /** The whole roster: every ally, then every enemy (absent enemies read as none). */
  function Roster(options: GameOptions, champions: seq<Champion>): Result<seq<PlayerRecord>>
  {
    var red := options.alliedTeamIsRed.GetOr(false);
    match Entries(options.allies, true, red, champions)
    case Thrown(m) => Thrown(m)
    case Ok(allies) =>
      match Entries(options.enemies.GetOr([]), false, red, champions)
      case Thrown(m) => Thrown(m)
      case Ok(enemies) => Ok(allies + enemies)
  }

  /** The roster is built exactly when every ally's and every enemy's
      champion is identified. */
  lemma RosterSucceeds(options: GameOptions, champions: seq<Champion>)
    ensures var red := options.alliedTeamIsRed.GetOr(false);
      var enemies := options.enemies.GetOr([]);
      Roster(options, champions).Ok? <==>
        (&& (forall i :: 0 <= i < |options.allies| ==> RosterEntry(options.allies[i], true, red, champions).Ok?)
         && (forall i :: 0 <= i < |enemies| ==> RosterEntry(enemies[i], false, red, champions).Ok?))
  {
    var red := options.alliedTeamIsRed.GetOr(false);
    EntriesSucceed(options.allies, true, red, champions);
    EntriesSucceed(options.enemies.GetOr([]), false, red, champions);
  }

  /** The roster lists the allies' entries in their order, then the
      enemies' in theirs. */
  lemma RosterLayout(options: GameOptions, champions: seq<Champion>)
    requires Roster(options, champions).Ok?
    ensures var red := options.alliedTeamIsRed.GetOr(false);
      var enemies := options.enemies.GetOr([]);
      var roster := Roster(options, champions).value;
      && |roster| == |options.allies| + |enemies|
      && (forall i :: 0 <= i < |options.allies| ==> Ok(roster[i]) == RosterEntry(options.allies[i], true, red, champions))
      && (forall i :: 0 <= i < |enemies| ==> Ok(roster[|options.allies| + i]) == RosterEntry(enemies[i], false, red, champions))
  {
    var red := options.alliedTeamIsRed.GetOr(false);
    var enemies := options.enemies.GetOr([]);
    EntriesInOrder(options.allies, true, red, champions);
    EntriesInOrder(enemies, false, red, champions);
    var a := Entries(options.allies, true, red, champions).value;
    var e := Entries(enemies, false, red, champions).value;
    assert Roster(options, champions).value == a + e;
  }

  /** `generateAllPlayers`: pushes the entry of every ally, then of every enemy. */
  method GenerateAllPlayers(options: Option<GameOptions>, champions: Option<seq<Champion>>) returns (r: Result<seq<PlayerRecord>>)
    ensures options.None? ==> r == Thrown(NoOptionsMessage)
    ensures options.Some? && champions.None? ==> r == Thrown(NoCatalogMessage)
    ensures options.Some? && champions.Some? ==> r == Roster(options.value, champions.value)
  {
    if options.None? {
      return Thrown(NoOptionsMessage);
    }
    if champions.None? {
      return Thrown(NoCatalogMessage);
    }
    var opts, catalog := options.value, champions.value;
    var players: seq<PlayerRecord> := [];
    var alliedTeamIsRed := opts.alliedTeamIsRed.GetOr(false);
    var i := 0;
    while i < |opts.allies|
      invariant 0 <= i <= |opts.allies|
      invariant Entries(opts.allies[..i], true, alliedTeamIsRed, catalog) == Ok(players)
    {
      var entry := RosterEntry(opts.allies[i], true, alliedTeamIsRed, catalog);
      EntriesStep(opts.allies, i, true, alliedTeamIsRed, catalog, players);
      if entry.Thrown? {
        return Thrown(entry.message);
      }
      players := players + [entry.value];
      i := i + 1;
    }
    assert opts.allies[..i] == opts.allies;
    ghost var allies := players;
    ghost var added: seq<PlayerRecord> := [];
    var enemies := opts.enemies.GetOr([]);
    var j := 0;
    while j < |enemies|
      invariant 0 <= j <= |enemies|
      invariant players == allies + added
      invariant Entries(enemies[..j], false, alliedTeamIsRed, catalog) == Ok(added)
    {
      var entry := RosterEntry(enemies[j], false, alliedTeamIsRed, catalog);
      EntriesStep(enemies, j, false, alliedTeamIsRed, catalog, added);
      if entry.Thrown? {
        return Thrown(entry.message);
      }
      players := players + [entry.value];
      added := added + [entry.value];
      j := j + 1;
    }
    assert enemies[..j] == enemies;
    r := Ok(players);
  }

  // ---- Active player (generateCurrentPlayer) ----

  /** The position of the first ally marked `isYou`, or -1. */
  function FindYou(allies: seq<OptionsPlayer>): (k: int)
    ensures -1 <= k < |allies|
    ensures 0 <= k ==> IsYou(allies[k])
    ensures forall j :: 0 <= j < |allies| && (k < 0 || j < k) ==> !IsYou(allies[j])
  {
    FindIndex(allies, (p: OptionsPlayer) => IsYou(p))
  }

  /** One of the four spell abilities, not yet levelled. */
  function SpellAbility(spell: Spell): Ability
  {
    Ability(Some(0), spell.name, spell.id,
            "GeneratedTip_Spell_" + spell.id + "_Description",
            "GeneratedTip_Spell_" + spell.id + "_DisplayName")
  }

  /** The passive ability, which has no level. */
  function PassiveAbility(champion: Champion): Ability
  {
    Ability(None, champion.passiveName, champion.id + "Passive",
            "GeneratedTip_Passive_" + champion.passiveName + "_Description",
            "GeneratedTip_Passive_" + champion.passiveName + "_DisplayName")
  }

  /** The active player starts at level 1 with 500 gold and every spell at level 0. */
  ghost predicate StartsFresh(a: ActivePlayerRecord)
  {
    && a.level == 1 && a.currentGold == 500
    && a.abilities.q.abilityLevel == Some(0) && a.abilities.w.abilityLevel == Some(0)
    && a.abilities.e.abilityLevel == Some(0) && a.abilities.r.abilityLevel == Some(0)
    && a.abilities.passive.abilityLevel.None?
  }

  /** `generateCurrentPlayer`: the active player built for the first ally
      marked `isYou`, nothing in a spectated game, or what it throws. */
  function GenerateCurrentPlayer(options: Option<GameOptions>, champions: Option<seq<Champion>>): (r: Result<Option<ActivePlayerRecord>>)
    ensures options.None? ==> r == Thrown(NoOptionsMessage)
    ensures options.Some? && champions.None? ==> r == Thrown(NoCatalogMessage)
    ensures options.Some? && champions.Some? ==>
      (r == Ok(None) <==> forall i :: 0 <= i < |options.value.allies| ==> !IsYou(options.value.allies[i]))
    ensures options.Some? && champions.Some? && 0 <= FindYou(options.value.allies) ==>
      var q := ChampionQuery(options.value.allies[FindYou(options.value.allies)]);
      && (FindChampion(champions.value, q) < 0 ==> r == Thrown(UnidentifiedMessage(q)))
      && (0 <= FindChampion(champions.value, q) && |champions.value[FindChampion(champions.value, q)].spells| < 4 ==>
            r == Thrown(MissingSpellMessage))
    ensures options.Some? && champions.Some? ==>
      (r.Thrown? <==> (0 <= FindYou(options.value.allies) &&
        var q := ChampionQuery(options.value.allies[FindYou(options.value.allies)]);
        (FindChampion(champions.value, q) < 0 || |champions.value[FindChampion(champions.value, q)].spells| < 4)))
    ensures r.Ok? && r.value.Some? ==> StartsFresh(r.value.value)
    ensures r.Ok? && r.value.Some? ==> (options.Some? &&
      r.value.value.summonerName == NameOr(options.value.allies[FindYou(options.value.allies)].summonerName, "Holland"))
  {
    if options.None? then Thrown(NoOptionsMessage)
    else if champions.None? then Thrown(NoCatalogMessage)
    else
      var k := FindYou(options.value.allies);
      if k < 0 then Ok(None)
      else
        var you := options.value.allies[k];
        var q := ChampionQuery(you);
        var c := FindChampion(champions.value, q);
        if c < 0 then Thrown(UnidentifiedMessage(q))
        else
          var champion := champions.value[c];
          if |champion.spells| < 4 then Thrown(MissingSpellMessage)
          else
            Ok(Some(ActivePlayerRecord(
              abilities := Abilities(SpellAbility(champion.spells[0]), SpellAbility(champion.spells[1]),
                                     SpellAbility(champion.spells[2]), SpellAbility(champion.spells[3]),
                                     PassiveAbility(champion)),
              championStats := StatsOf(champion.id),
              currentGold := 500,
              fullRunes := DefaultRunePage,
              level := 1,
              summonerName := NameOr(you.summonerName, "Holland"))))
  }

  /** The active player is the roster entry of the first ally marked
      `isYou`: same champion, and the same name unless that ally is an
      unnamed bot (then the roster says "<champion> Bot" and the active
      player says "Holland"). */
  lemma ActivePlayerMatchesRosterEntry(options: GameOptions, champions: seq<Champion>)
    requires GenerateCurrentPlayer(Some(options), Some(champions)).Ok?
    requires GenerateCurrentPlayer(Some(options), Some(champions)).value.Some?
    ensures 0 <= FindYou(options.allies)
    ensures var you := options.allies[FindYou(options.allies)];
      var entry := RosterEntry(you, true, options.alliedTeamIsRed.GetOr(false), champions);
      var active := GenerateCurrentPlayer(Some(options), Some(champions)).value.value;
      && entry.Ok?
      && entry.value.rawChampionName == "game_character_displayname_" + active.championStats.championId
      && (entry.value.summonerName == active.summonerName <==> !(IsBot(you) && NameOr(you.summonerName, "") == ""))
  {
    var you := options.allies[FindYou(options.allies)];
    var entry := RosterEntry(you, true, options.alliedTeamIsRed.GetOr(false), champions);
    var active := GenerateCurrentPlayer(Some(options), Some(champions)).value.value;
    if IsBot(you) && NameOr(you.summonerName, "") == "" {
      var botName := entry.value.championName + " Bot";
      assert entry.value.summonerName == botName;
      assert active.summonerName == "Holland";
      if |botName| == |"Holland"| {
        assert botName[|botName| - 1] == 't';
        assert "Holland"[6] == 'd';
      }
    }
  }

  // ---- Queries ----

  /** A query's answer: the value, a structured error payload, or an exception. */
  datatype Reply<+T> = Served(value: T) | Refused(payload: ErrorPayload) | Raised(message: string)

  /** `getError(status, code, error)`. */
  function GetError(status: int, code: string, error: string): (payload: ErrorPayload)
    ensures payload.httpStatus == status && payload.errorCode == code && payload.message == error
  {
    ErrorPayload(errorCode := code, httpStatus := status, message := error)
  }

  const SpectatorError := GetError(400, "RPC_ERROR", "Spectator mode doesn't currently support this feature")
  const MissingNameError := GetError(400, "BAD_REQUEST", "A value for 'summonerName' is required.")
  const UnknownPlayerError := GetError(400, "BAD_REQUEST", "Unable to find player")

  /** The three refusals are all HTTP 400 and a client can tell them apart:
      the spectator refusal by its code, the two lookup refusals by their message. */
  lemma RefusalsAreDistinguishable()
    ensures SpectatorError.httpStatus == 400 && MissingNameError.httpStatus == 400 && UnknownPlayerError.httpStatus == 400
    ensures SpectatorError.errorCode == "RPC_ERROR"
    ensures MissingNameError.errorCode == "BAD_REQUEST" && UnknownPlayerError.errorCode == "BAD_REQUEST"
    ensures MissingNameError.message != UnknownPlayerError.message
  {
    assert MissingNameError.message[0] == 'A' && UnknownPlayerError.message[0] == 'U';
  }

  /** The `activePlayer` getter. */
  function ActivePlayerReply(data: Option<Response>): (r: Reply<ActivePlayerRecord>)
    ensures r.Raised? <==> data.None?
    ensures r.Refused? <==> data.Some? && data.value.activePlayer.None?
    ensures r.Refused? ==> r.payload.errorCode == "RPC_ERROR" && r.payload.httpStatus == 400
    ensures r.Served? ==> data.Some? && data.value.activePlayer == Some(r.value)
  {
    if data.None? then Raised(NotInitialisedMessage)
    else if data.value.activePlayer.None? then Refused(SpectatorError)
    else Served(data.value.activePlayer.value)
  }

  /** The `activePlayerAbilities` getter. */
  function AbilitiesReply(data: Option<Response>): (r: Reply<Abilities>)
    ensures r.Raised? <==> data.None?
    ensures r.Refused? <==> data.Some? && data.value.activePlayer.None?
    ensures r.Refused? ==> r.payload.errorCode == "RPC_ERROR" && r.payload.httpStatus == 400
    ensures r.Served? ==> data.Some? && data.value.activePlayer.Some? && r.value == data.value.activePlayer.value.abilities
  {
    if data.None? then Raised(NotInitialisedMessage)
    else if data.value.activePlayer.None? then Refused(SpectatorError)
    else Served(data.value.activePlayer.value.abilities)
  }

  /** The `activePlayerRunes` getter. */
  function RunesReply(data: Option<Response>): (r: Reply<FullRunes>)
    ensures r.Raised? <==> data.None?
    ensures r.Refused? <==> data.Some? && data.value.activePlayer.None?
    ensures r.Refused? ==> r.payload.errorCode == "RPC_ERROR" && r.payload.httpStatus == 400
    ensures r.Served? ==> data.Some? && data.value.activePlayer.Some? && r.value == data.value.activePlayer.value.fullRunes
  {
    if data.None? then Raised(NotInitialisedMessage)
    else if data.value.activePlayer.None? then Refused(SpectatorError)
    else Served(data.value.activePlayer.value.fullRunes)
  }

  /** The `allPlayers` getter, which also refuses a spectated game. */
  function AllPlayersReply(data: Option<Response>): (r: Reply<seq<PlayerRecord>>)
    ensures r.Raised? <==> data.None?
    ensures r.Refused? <==> data.Some? && data.value.activePlayer.None?
    ensures r.Refused? ==> r.payload.errorCode == "RPC_ERROR" && r.payload.httpStatus == 400
    ensures r.Served? ==> data.Some? && r.value == data.value.allPlayers
  {
    if data.None? then Raised(NotInitialisedMessage)
    else if data.value.activePlayer.None? then Refused(SpectatorError)
    else Served(data.value.allPlayers)
  }

  /** The `events` getter: never the spectator payload. */
  function EventsReply(data: Option<Response>): (r: Reply<seq<GameEvent>>)
    ensures !r.Refused?
    ensures r.Raised? <==> data.None?
    ensures r.Served? ==> data.Some? && r.value == data.value.events
  {
    if data.None? then Raised(NotInitialisedMessage) else Served(data.value.events)
  }

  /** The `stats` getter: never the spectator payload. */
  function StatsReply(data: Option<Response>): (r: Reply<GameData>)
    ensures !r.Refused?
    ensures r.Raised? <==> data.None?
    ensures r.Served? ==> data.Some? && r.value == data.value.gameData
  {
    if data.None? then Raised(NotInitialisedMessage) else Served(data.value.gameData)
  }

  /** The `activePlayerName` getter: the empty name when there is no active player. */
  function ActivePlayerName(data: Option<Response>): (name: string)
    ensures data.None? || data.value.activePlayer.None? ==> name == ""
    ensures data.Some? && data.value.activePlayer.Some? ==> name == data.value.activePlayer.value.summonerName
  {
    if data.None? || data.value.activePlayer.None? then "" else data.value.activePlayer.value.summonerName
  }

  /** The position of the first player with the given summoner name, or -1. */
  function FindPlayer(players: seq<PlayerRecord>, summonerName: string): (k: int)
    ensures -1 <= k < |players|
    ensures 0 <= k ==> players[k].summonerName == summonerName
    ensures forall j :: 0 <= j < |players| && (k < 0 || j < k) ==> players[j].summonerName != summonerName
  {
    FindIndex(players, (p: PlayerRecord) => p.summonerName == summonerName)
  }

  /** The lookup shared by the three summoner queries. It never throws, not
      even before the game has started: an absent name and an unmatched name
      are two distinct BAD_REQUEST payloads. */
  function LookupSummoner(data: Option<Response>, summonerName: Option<string>): (r: Reply<PlayerRecord>)
    ensures !r.Raised?
    ensures summonerName.None? <==> r == Refused(MissingNameError)
    ensures r == Refused(UnknownPlayerError) <==>
      summonerName.Some? &&
      (data.None? || forall i :: 0 <= i < |data.value.allPlayers| ==> data.value.allPlayers[i].summonerName != summonerName.value)
    ensures r.Served? ==> (summonerName.Some? && data.Some? &&
      exists k :: && 0 <= k < |data.value.allPlayers| && r.value == data.value.allPlayers[k]
        && r.value.summonerName == summonerName.value
        && (forall j :: 0 <= j < k ==> data.value.allPlayers[j].summonerName != summonerName.value))
  {
    if summonerName.None? then Refused(MissingNameError)
    else if data.None? then Refused(UnknownPlayerError)
    else
      var k := FindPlayer(data.value.allPlayers, summonerName.value);
      if k < 0 then Refused(UnknownPlayerError) else Served(data.value.allPlayers[k])
  }

  /** `getPlayerScore`. */
  function PlayerScore(data: Option<Response>, summonerName: Option<string>): (r: Reply<Scores>)
    ensures !r.Raised?
    ensures r.Refused? ==> LookupSummoner(data, summonerName) == Refused(r.payload)
    ensures r.Served? ==> LookupSummoner(data, summonerName).Served? && r.value == LookupSummoner(data, summonerName).value.scores
  {
    match LookupSummoner(data, summonerName)
    case Served(p) => Served(p.scores)
    case Refused(e) => Refused(e)
  }

  /** `getPlayerSummoners`. */
  function PlayerSummoners(data: Option<Response>, summonerName: Option<string>): (r: Reply<SummonerSpells>)
    ensures !r.Raised?
    ensures r.Refused? ==> LookupSummoner(data, summonerName) == Refused(r.payload)
    ensures r.Served? ==> LookupSummoner(data, summonerName).Served? && r.value == LookupSummoner(data, summonerName).value.summonerSpells
  {
    match LookupSummoner(data, summonerName)
    case Served(p) => Served(p.summonerSpells)
    case Refused(e) => Refused(e)
  }

  /** `getPlayerItems`. */
  function PlayerItems(data: Option<Response>, summonerName: Option<string>): (r: Reply<seq<Item>>)
    ensures !r.Raised?
    ensures r.Refused? ==> LookupSummoner(data, summonerName) == Refused(r.payload)
    ensures r.Served? ==> LookupSummoner(data, summonerName).Served? && r.value == LookupSummoner(data, summonerName).value.items
  {
    match LookupSummoner(data, summonerName)
    case Served(p) => Served(p.items)
    case Refused(e) => Refused(e)
  }

  /** In a spectated game the four active-player queries are refused with
      the RPC_ERROR payload while events and statistics are still served. */
  lemma SpectatorTiers(data: Response)
    requires data.activePlayer.None?
    ensures ActivePlayerReply(Some(data)) == Refused(SpectatorError)
    ensures AbilitiesReply(Some(data)) == Refused(SpectatorError)
    ensures RunesReply(Some(data)) == Refused(SpectatorError)
    ensures AllPlayersReply(Some(data)) == Refused(SpectatorError)
    ensures EventsReply(Some(data)) == Served(data.events)
    ensures StatsReply(Some(data)) == Served(data.gameData)
  {
  }

  /** In a freshly started game every player found by name has no score yet
      and an empty inventory. */
  lemma FreshRosterQueries(options: GameOptions, champions: seq<Champion>, data: Response, summonerName: Option<string>)
    requires Roster(options, champions).Ok?
    requires data.allPlayers == Roster(options, champions).value
    ensures PlayerScore(Some(data), summonerName).Served? ==> PlayerScore(Some(data), summonerName).value == ZeroScores
    ensures PlayerItems(Some(data), summonerName).Served? ==> PlayerItems(Some(data), summonerName).value == []
  {
    var players := data.allPlayers;
    var red := options.alliedTeamIsRed.GetOr(false);
    var enemies := options.enemies.GetOr([]);
    RosterLayout(options, champions);
    forall k | 0 <= k < |players|
      ensures players[k].scores == ZeroScores && players[k].items == []
    {
      if k < |options.allies| {
        RosterEntryStartsFresh(options.allies[k], true, red, champions);
      } else {
        RosterEntryStartsFresh(enemies[k - |options.allies|], false, red, champions);
        assert Ok(players[|options.allies| + (k - |options.allies|)]) == RosterEntry(enemies[k - |options.allies|], false, red, champions);
      }
    }
  }

  // ---- Passive gold ----

  /** Passive income of the active player, in gold per second. */
  const GoldPerSecond: real := 3.0

  /** The gold ledger after a poll `elapsedMs` milliseconds after the previous one. */
  function Accrue(goldCounter: real, elapsedMs: real): real
  {
    goldCounter + GoldPerSecond * elapsedMs / 1000.0
  }

  /** Two polls, each as `Update` makes it: the first measures from `last`
      to its first clock reading `t1` and stores its second reading `t1b`; the
      second measures from `t1b` to `t2`. Together they accrue what one poll
      over the whole interval would, less the gold of the gap between the two
      readings of the first poll, so the ledger is independent of how often
      the game is polled exactly when that gap is zero. */
  lemma PollingLosesTheGap(goldCounter: real, last: real, t1: real, t1b: real, t2: real)
    ensures Accrue(Accrue(goldCounter, t1 - last), t2 - t1b)
      == Accrue(goldCounter, t2 - last) - GoldPerSecond * (t1b - t1) / 1000.0
    ensures Accrue(Accrue(goldCounter, t1 - last), t2 - t1b) == Accrue(goldCounter, t2 - last) <==> t1b == t1
  {
  }

  /** With a clock that does not run backwards, the displayed gold never decreases. */
  lemma DisplayedGoldNeverDecreases(goldCounter: real, elapsedMs: real)
    requires elapsedMs >= 0.0
    ensures goldCounter <= Accrue(goldCounter, elapsedMs)
    ensures goldCounter.Floor <= Accrue(goldCounter, elapsedMs).Floor
  {
  }

  /** `map || 11`: the map number, Summoner's Rift when absent. */
  function MapNumber(options: GameOptions): nat
  {
    if options.mapNumber.Some? && options.mapNumber.value != 0 then options.mapNumber.value else 11
  }

  /** The game statistics a new session starts with. */
  function InitialGameData(options: GameOptions): GameData
  {
    GameData(gameMode := NameOr(options.mode, "CLASSIC"),
             gameTime := 0,
             mapName := "Map" + NatToString(MapNumber(options)),
             mapNumber := MapNumber(options),
             mapTerrain := "Default")
  }

  const GameStartEvent := GameEvent(eventID := 0, eventName := "GameStart", eventTime := 0)

  /** One mock game (`LiveGame`). Times are in milliseconds of the process clock. */
  class LiveGame {
    var data: Option<Response>
    var options: Option<GameOptions>
    var startTime: real
    var lastFrameTime: real
    var ddragon: Option<seq<Champion>>
    var goldCounter: real

    constructor ()
      ensures data.None? && options.None? && ddragon.None?
      ensures startTime == 0.0 && lastFrameTime == 0.0 && goldCounter == 500.0
      ensures !IsRunning()
    {
      data := None;
      options := None;
      startTime := 0.0;
      lastFrameTime := 0.0;
      ddragon := None;
      goldCounter := 500.0;
    }

    /** `isRunning`: a game has been started. */
    predicate IsRunning(): (running: bool)
      reads this
      ensures running <==> startTime > 0.0
    {
      startTime > 0.0
    }

    /** The synchronous part of `startGame`, at clock reading `now`, given
        the champion catalog the fetch produced (`None` when it failed). */
    method StartGame(opts: GameOptions, now: real, fetched: Option<seq<Champion>>) returns (r: Outcome)
      modifies this`options, this`startTime, this`lastFrameTime, this`ddragon, this`data
      ensures options == Some(opts) && startTime == now && lastFrameTime == now
      ensures IsRunning() <==> now > 0.0
      ensures fetched.None? ==> r == Threw(FetchFailedMessage) && ddragon == old(ddragon) && data == old(data)
      ensures fetched.Some? ==> ddragon == fetched
      ensures fetched.Some? && GenerateCurrentPlayer(Some(opts), fetched).Thrown? ==>
        r == Threw(GenerateCurrentPlayer(Some(opts), fetched).message) && data == old(data)
      ensures fetched.Some? && GenerateCurrentPlayer(Some(opts), fetched).Ok? && Roster(opts, fetched.value).Thrown? ==>
        r == Threw(Roster(opts, fetched.value).message) && data == old(data)
      ensures r.Done? <==> fetched.Some? && GenerateCurrentPlayer(Some(opts), fetched).Ok? && Roster(opts, fetched.value).Ok?
      ensures r.Done? ==> data == Some(Response(
        activePlayer := GenerateCurrentPlayer(Some(opts), fetched).value,
        allPlayers := Roster(opts, fetched.value).value,
        events := [GameStartEvent],
        gameData := InitialGameData(opts)))
    {
      options := Some(opts);
      startTime := now;
      lastFrameTime := now;
      if fetched.None? {
        return Threw(FetchFailedMessage);
      }
      ddragon := fetched;
      var activePlayer := GenerateCurrentPlayer(options, ddragon);
      if activePlayer.Thrown? {
        return Threw(activePlayer.message);
      }
      var allPlayers := GenerateAllPlayers(options, ddragon);
      if allPlayers.Thrown? {
        return Threw(allPlayers.message);
      }
      data := Some(Response(activePlayer.value, allPlayers.value, [GameStartEvent], InitialGameData(opts)));
      r := Done;
    }

    /** `update`, with `now` the clock reading the elapsed time is measured
        against and `nowAgain` the second reading stored as the last frame time. */
    method Update(now: real, nowAgain: real) returns (r: Outcome)
      modifies this`data, this`lastFrameTime, this`goldCounter
      ensures old(data).None? ==> r == Threw(NotInitialisedMessage) && unchanged(this)
      ensures old(data).Some? ==> r.Done? && lastFrameTime == nowAgain
      ensures old(data).Some? && old(data).value.activePlayer.Some? ==>
        && goldCounter == Accrue(old(goldCounter), now - old(lastFrameTime))
        && data == Some(old(data).value.(activePlayer :=
             Some(old(data).value.activePlayer.value.(currentGold := goldCounter.Floor))))
      ensures old(data).Some? && old(data).value.activePlayer.None? ==>
        goldCounter == old(goldCounter) && data == old(data)
    {
      if data.None? {
        return Threw(NotInitialisedMessage);
      }
      var deltaSec := (now - lastFrameTime) / 1000.0;
      lastFrameTime := nowAgain;
      if data.value.activePlayer.Some? {
        goldCounter := goldCounter + GoldPerSecond * deltaSec;
        var active := data.value.activePlayer.value.(currentGold := goldCounter.Floor);
        data := Some(data.value.(activePlayer := Some(active)));
      }
      r := Done;
    }

    /** `allData`: an update, then the whole payload. */
    method AllData(now: real, nowAgain: real) returns (r: Result<Response>)
      modifies this`data, this`lastFrameTime, this`goldCounter
      ensures r.Thrown? <==> old(data).None?
      ensures old(data).None? ==> r == Thrown(NotInitialisedMessage) && unchanged(this)
      ensures r.Ok? ==> data == Some(r.value) && lastFrameTime == nowAgain
      ensures old(data).Some? && old(data).value.activePlayer.Some? ==>
        && goldCounter == Accrue(old(goldCounter), now - old(lastFrameTime))
        && r == Ok(old(data).value.(activePlayer :=
             Some(old(data).value.activePlayer.value.(currentGold := goldCounter.Floor))))
      ensures old(data).Some? && old(data).value.activePlayer.None? ==>
        goldCounter == old(goldCounter) && r == Ok(old(data).value)
    {
      var updated := Update(now, nowAgain);
      if updated.Threw? {
        return Thrown(updated.message);
      }
      r := Ok(data.value);
    }
  }
}

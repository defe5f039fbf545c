# Mock live game session, modelled in Dafny

MockLiveGameAPI imitates the live client data API of a running League of
Legends game. A `LiveGame` session is started from a set of options: the
allies, the enemies, the side of the map and the game mode. Together with
the champion catalog, these give the roster of players and, when one ally
is marked as "you", the active player. The session then answers the data
queries. Each answer is a value, a structured error payload (`getError`) or
an exception. Every poll accrues passive gold for the active player. Each
player keeps an inventory of item stacks. The active player pays for items
and consumes the components a purchase is built from.

The model has five modules:

- `Base` (base.dfy): optional values, results of calls that may throw,
  JavaScript's `findIndex`/`find`, a pass that pushes one result per
  element until a call throws (`MapResult`), and decimal printing of
  numbers.
- `LiveGameApi` (api_types.dfy): the served records and the catalog
  entries they are built from.
- `PlayerInventory` (player.dfy): the inventory of src/live_game/player.ts.
  The class `LiveGamePlayer` has `AddItem` and `RemoveItem`. Each is
  specified by a function on the old item list (`AfterAdd`, `AfterRemove`).
- `ActivePlayerEconomy` (active_player.dfy): `spendGold` and `refundGold`
  of src/live_game/active_player.ts. `SpendGold` keeps the source's
  index-driven loop, which splices `player.items` while it sums the
  discount. It is proved against `WithoutComponents` and `ComponentValue`.
- `Session` (live_game.dfy): src/live_game.ts.
  - The roster (`Roster`, built by the two loops of `GenerateAllPlayers`).
  - The active player (`GenerateCurrentPlayer`).
  - The query surface, with each answer a `Reply`: `Served`, `Refused`
    with a payload, or `Raised` with an exception.
  - The class `LiveGame`, whose `StartGame`, `Update` and `AllData`
    change the session's fields.

## Model

| member | source | states |
|---|---|---|
| PlayerInventory.StackLimit | src/live_game/player.ts:46 | a stack holds at least one unit; an absent or zero `stacks` means one |
| PlayerInventory.FindStack | src/live_game/player.ts:44 | the first stack with the id, or -1 when no stack has it |
| PlayerInventory.AddToHeldStack | src/live_game/player.ts:44-52 | a held id below its limit gets exactly one more unit in its first stack, and every other stack and the length stay the same; at the limit nothing changes |
| PlayerInventory.AddNewStack | src/live_game/player.ts:56-66 | an id that is not held appends one stack at the end: count 1, that id, slot = old length, price = gold total or 0; the earlier stacks are untouched |
| PlayerInventory.AddKeepsIdsUnique | src/live_game/player.ts:41-67 | a purchase never creates a second stack of an id |
| PlayerInventory.AddKeepsWithinLimits | src/live_game/player.ts:46-52 | if every stack holds between 1 and its limit before a purchase, the same holds after it |
| PlayerInventory.RemoveFromHeldStack | src/live_game/player.ts:71-81 | a held id loses one unit from its first stack; a one-unit stack is deleted, and the other stacks keep their contents and relative order |
| PlayerInventory.RemoveAbsentAppends | src/live_game/player.ts:83-94 | removing an id that is not held does exactly what a purchase does: the list grows by one one-unit stack |
| PlayerInventory.IntendedRemoveNeverGrows | src/live_game/player.ts:69-95 | the corrected removal never grows the list, leaves it unchanged for an id not held, never raises a count, and on a held id equals the written removal (one unit off the first stack, which is spliced out once empty) |
| PlayerInventory.RemoveKeepsIdsUnique | src/live_game/player.ts:69-95 | a removal never creates a second stack of an id |
| PlayerInventory.RemoveKeepsWithinLimits | src/live_game/player.ts:69-95 | if every stack holds between 1 and its limit before a removal, the same holds after it |
| PlayerInventory.RemoveUndoesAdd | src/live_game/player.ts:41-95 | when a purchase changes an inventory of non-empty stacks, removing the same item restores it exactly |
| PlayerInventory.LiveGamePlayer.constructor | src/live_game/player.ts:22-39 | the new player holds every field of the given record |
| PlayerInventory.LiveGamePlayer.AddItem | src/live_game/player.ts:41-67 | the new item list is `AfterAdd` of the old one; no other field changes |
| PlayerInventory.LiveGamePlayer.RemoveItem | src/live_game/player.ts:69-95 | the new item list is `AfterRemove` of the old one; no other field changes |
| ActivePlayerEconomy.WithoutComponentsDropsComponents | src/live_game/active_player.ts:39-52 | after the purchase loop no stack of a component is left, and every surviving stack was held before |
| ActivePlayerEconomy.WithoutComponentsKeepsOthers | src/live_game/active_player.ts:39-52 | every stack whose id is not a component survives the loop |
| ActivePlayerEconomy.WithoutComponentsSplits | src/live_game/active_player.ts:39-52 | the loop's filtering distributes over concatenation, so the survivors keep their relative order |
| ActivePlayerEconomy.ComponentValueIgnoresCounts | src/live_game/active_player.ts:46-51 | the discount counts each consumed stack once, whatever its count |
| ActivePlayerEconomy.TwoComponentDiscount | src/live_game/active_player.ts:38-54 | two held component stacks are both consumed, and the discount is the sum of their total costs (800 - (300 + 300) = 200) |
| ActivePlayerEconomy.ComponentWithoutGoldIsFree | src/live_game/active_player.ts:46-49 | a component stack without gold data is consumed but earns no discount |
| ActivePlayerEconomy.LiveGameActivePlayer.constructor | src/live_game/active_player.ts:15-22 | the new active player holds every field of the given record |
| ActivePlayerEconomy.LiveGameActivePlayer.SpendGold | src/live_game/active_player.ts:24-55 | no gold data: gold and items unchanged; no components: gold drops by the total cost and items are unchanged; otherwise the components are consumed and gold drops by the total cost less their summed costs |
| ActivePlayerEconomy.LiveGameActivePlayer.RefundGold | src/live_game/active_player.ts:57-59 | neither the gold nor the inventory changes |
| Session.FindChampion | src/live_game.ts:201-205 | the first catalog champion whose id or key equals the query, or -1 |
| Session.NumericChampionIsNeverFound | src/live_game.ts:201-203 | a non-zero numeric champion option matches no catalog champion, because of the strict comparison |
| Session.RosterEntryStartsFresh | src/live_game.ts:207-258 | each roster entry starts alive at level 0 with no items, zero scores and no respawn timer; it is on CHAOS exactly when `ally == alliedTeamIsRed`; its name is the given one, else "<champion> Bot" for a bot and "Holland" otherwise |
| Session.AlliesAndEnemiesOnOppositeTeams | src/live_game.ts:257 | an ally and an enemy are never on the same team |
| Base.MapResult | src/live_game.ts:261-264 | a pass that pushes one result per element and completes yields exactly as many results as elements |
| Base.MapResultSucceeds | src/live_game.ts:261-264 | such a pass completes exactly when no call throws |
| Base.MapResultInOrder | src/live_game.ts:261-264 | a completed pass holds the i-th call's result at position i |
| Base.MapResultThrowsFirst | src/live_game.ts:261-264 | a pass that throws, throws the message of the first call that does, and every earlier call succeeded |
| Base.MapResultStep | src/live_game.ts:261-264 | one more iteration either pushes the next result or ends the whole pass with its exception |
| Session.EntriesSucceed | src/live_game.ts:200-264 | one side's pass succeeds exactly when every player's champion is identified |
| Session.EntriesInOrder | src/live_game.ts:200-264 | a successful pass holds one record per player, and the i-th record is the i-th player's entry |
| Session.EntriesThrowFirst | src/live_game.ts:200-264 | a failing pass throws the message of the first player whose champion is not identified |
| Session.EntriesStep | src/live_game.ts:261-264 | one iteration of a side's loop pushes that player's entry, or its exception ends the pass |
| Session.RosterSucceeds | src/live_game.ts:191-267 | the roster is built exactly when every ally's and every enemy's champion is identified |
| Session.RosterLayout | src/live_game.ts:261-264 | the roster has \|allies\| + \|enemies\| entries: the allies' in their order, then the enemies' in theirs; absent enemies count as none |
| Session.GenerateAllPlayers | src/live_game.ts:191-267 | throws without options or catalog; otherwise its two loops return exactly `Roster`, or the first exception |
| Session.FindYou | src/live_game.ts:48-50 | the first ally marked `isYou`, or -1 |
| Session.GenerateCurrentPlayer | src/live_game.ts:42-189 | throws without options or catalog; with both, it throws exactly when an ally is marked `isYou` and that ally's champion is not in the catalog or has fewer than four spells; no active player exactly when no ally is marked `isYou`; throws "Unable to identify '<q>' as a champion!" when that ally's champion is not in the catalog, and the runtime's TypeError when the champion has fewer than four spells; otherwise level 1, 500 gold, Q/W/E/R at level 0, the passive without a level, and the name defaulting to "Holland" |
| Session.ActivePlayerMatchesRosterEntry | src/live_game.ts:201-244 | the active player's champion is the one on "your" roster entry; the two names agree unless "you" is an unnamed bot |
| Session.ActivePlayerReply | src/live_game.ts:325-331 | throws exactly before the game has data; the RPC_ERROR 400 payload exactly when there is no active player; otherwise the active player |
| Session.AbilitiesReply | src/live_game.ts:340-347 | the same tiers as the active player; served value is its abilities |
| Session.RunesReply | src/live_game.ts:349-356 | the same tiers as the active player; served value is its full rune page |
| Session.AllPlayersReply | src/live_game.ts:358-365 | the same tiers as the active player; served value is the whole roster |
| Session.EventsReply | src/live_game.ts:367-371 | never the spectator payload; throws exactly before the game has data |
| Session.StatsReply | src/live_game.ts:373-377 | never the spectator payload; throws exactly before the game has data |
| Session.ActivePlayerName | src/live_game.ts:333-338 | the empty name without data or active player, else the active player's name |
| Session.FindPlayer | src/live_game.ts:383 | the first player with the given summoner name, or -1 |
| Session.LookupSummoner | src/live_game.ts:379-385 | never throws; "A value for 'summonerName' is required." exactly when the name is absent; "Unable to find player" exactly when no player has it (or there is no data); otherwise the first player with that name |
| Session.PlayerScore | src/live_game.ts:379-388 | the lookup's error payload, or the found player's scores |
| Session.PlayerSummoners | src/live_game.ts:390-399 | the lookup's error payload, or the found player's summoner spells |
| Session.PlayerItems | src/live_game.ts:401-410 | the lookup's error payload, or the found player's items |
| Session.GetError | src/live_game.ts:412-418 | the payload puts the status in `httpStatus`, the code in `errorCode` and the text in `message` |
| Session.RefusalsAreDistinguishable | src/live_game.ts:325-410 | every refusal is HTTP 400; the spectator refusal has code RPC_ERROR, the two lookup refusals have BAD_REQUEST and different messages |
| Session.SpectatorTiers | src/live_game.ts:325-377 | with no active player the four active-player queries are refused with RPC_ERROR while events and stats are served |
| Session.FreshRosterQueries | src/live_game.ts:207-243 | in a freshly built roster every player found by name has zero scores and no items |
| Session.PollingLosesTheGap | src/live_game.ts:306-311 | two successive polls accrue what one poll over the whole interval would, less 3 gold per second of the gap between the first poll's two clock readings; the totals agree exactly when that gap is zero |
| Session.DisplayedGoldNeverDecreases | src/live_game.ts:309-312 | when the clock does not run backwards, the gold ledger and its floor never decrease |
| Session.LiveGame.constructor | src/live_game.ts:28-36 | a new session has no data, options or catalog, zero times, a ledger of 500 gold, and is not running |
| Session.LiveGame.IsRunning | src/live_game.ts:321-323 | a session is running exactly when a positive start time has been recorded |
| Session.LiveGame.StartGame | src/live_game.ts:269-300 | stores the options and both times before the fetch, so the game counts as running (`isRunning`, :321-323) exactly when the clock reading is positive; a failed fetch, an unidentified champion or a missing spell throws and leaves the data as it was; otherwise the data is the active player, the roster, the GameStart event and the game statistics (mode or "CLASSIC", map or 11) |
| Session.LiveGame.Update | src/live_game.ts:302-314 | throws and changes nothing before the game has data; otherwise records the second clock reading; with an active player the ledger grows by 3 gold per elapsed second and `currentGold` becomes its floor; without one no gold changes |
| Session.LiveGame.AllData | src/live_game.ts:316-319 | an update, then the whole payload; throws "Cannot update LiveGame! It has not initialised!" exactly when there is no data, and then leaves the session unchanged; with an active player the ledger accrues 3 gold per elapsed second and the payload is the old one with `currentGold` set to the ledger's floor; without one the ledger and the payload are unchanged |

## Left out

- The catalog fetch in `startGame` (src/live_game.ts:273-279) and src/ddragon.ts are network I/O. `StartGame` takes the fetched champion catalog as a parameter, with `None` for a failed fetch. `patch` and `locale` only choose what to fetch, so they are not modelled.
- The clock (`performance.now()`) is a parameter. `Update` takes both of the readings the source makes.
- Gold and times are exact reals and ints, not IEEE doubles. The map number is a `nat`.
- The rune pages, summoner spells and champion statistics are constant payloads. They are kept as tags. `ChampionStats` records only which champion it was copied from.
- The optional `rawSkinName`/`skinName` fields and the `level`/`runes` player options are never written or read by the session.
- `optionsForNextGame` (src/live_game.ts:38-40) only returns a field.
- `console.warn` and `debugger` have no effect on state.
- src/index.ts (routes, TLS, argument parsing) is not part of this model.
- Item ids are integers. The source compares `itemID.toString()` with a string key and stores `parseInt(key)`. The model assumes catalog keys are canonical decimal numbers, so the two agree.
- Aliasing is not modelled. The source mutates the found stack object (`count++`) in place and may share `items` arrays between records. The model updates a `seq` value held by one object.
- LiveGameActivePlayer.SpendGold: requires that the bought item and every held component stack have a catalog entry. The source's index type promises this. A missing entry would crash with a TypeError, and that crash is not modelled.
- A champion with fewer than four spells makes the source throw a TypeError object. The model throws the string "TypeError" instead, and the runtime's wording of that error is not modelled.
- A negative `stacks` value in the catalog is not modelled.
- `spendGold` is not called from the session code, so the model does not connect it to `LiveGame`. `Update` overwrites `currentGold` with the floor of the gold ledger, so a deduction made by `spendGold` would be lost on the next poll.
- `startGame` does not reset the gold ledger. A second game in the same session starts from the previous ledger, and the model keeps that.

## Findings

| source | as written | input that shows it | evidently intended | confidence | as-written member | corrected member |
|---|---|---|---|---|---|---|
| src/live_game/player.ts:83-94 | `removeItem` on an id that is not held appends a new one-unit stack of that item, copied from `addItem` | an empty inventory and any item: the removal leaves one stack holding one unit | removing an item that is not held leaves the inventory unchanged | medium, not executed | PlayerInventory.RemoveAbsentAppends | PlayerInventory.IntendedRemoveNeverGrows |

`LiveGamePlayer.RemoveItem` keeps the behaviour as written. The corrected
removal is `AfterRemoveIntended`.

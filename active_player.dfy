/** The active player's gold (src/live_game/active_player.ts). Buying an item
    that is built from components consumes every owned stack of a component
    and charges the item's total cost less the total cost of each consumed
    stack. */
module ActivePlayerEconomy {
  import opened Base
  import opened LiveGameApi
  import opened PlayerInventory

  /** `item.from`, with an absent list read as empty. */
  function Components(data: ItemData): seq<ItemId>
  {
    if data.from.Some? then data.from.value else []
  }

  /** The stacks that survive a purchase of an item built from `from`: those
      whose id is not a component, in their original order. */
  function WithoutComponents(items: seq<Item>, from: seq<ItemId>): seq<Item>
  {
    if items == [] then []
    else
      var last := items[|items| - 1];
      WithoutComponents(items[..|items| - 1], from) + (if last.itemID in from then [] else [last])
  }

  /** Every held stack of a component has a catalog entry. */
  ghost predicate ComponentsCatalogued(items: seq<Item>, from: seq<ItemId>, catalog: ItemDatabase)
  {
    forall j :: 0 <= j < |items| && items[j].itemID in from ==> items[j].itemID in catalog
  }

  /** The discount a purchase earns from `items`: the catalog total cost of
      every component stack, once per stack whatever its count; a component
      without gold data adds nothing. (A component without a catalog entry
      never reaches this sum: `SpendGold` requires the entries.) */
  function ComponentValue(items: seq<Item>, from: seq<ItemId>, catalog: ItemDatabase): int
  {
    if items == [] then 0
    else
      var last := items[|items| - 1];
      ComponentValue(items[..|items| - 1], from, catalog)
        + (if last.itemID in from && last.itemID in catalog then TotalCost(catalog[last.itemID]) else 0)
  }

  /** No component stack survives, and every survivor was held before. */
  lemma {:induction false} WithoutComponentsDropsComponents(items: seq<Item>, from: seq<ItemId>)
    ensures forall x :: x in WithoutComponents(items, from) ==> x in items && x.itemID !in from
  {
    if items != [] {
      var init := items[..|items| - 1];
      WithoutComponentsDropsComponents(init, from);
      assert forall x :: x in init ==> x in items;
    }
  }

  /** Every stack that is not a component survives. */
  lemma {:induction false} WithoutComponentsKeepsOthers(items: seq<Item>, from: seq<ItemId>)
    ensures forall j :: 0 <= j < |items| && items[j].itemID !in from ==> items[j] in WithoutComponents(items, from)
  {
    if items != [] {
      var init := items[..|items| - 1];
      WithoutComponentsKeepsOthers(init, from);
      assert forall j :: 0 <= j < |init| ==> init[j] == items[j];
    }
  }

  /** Filtering distributes over concatenation, so the survivors keep their
      relative order. */
  lemma {:induction false} WithoutComponentsSplits(a: seq<Item>, b: seq<Item>, from: seq<ItemId>)
    ensures WithoutComponents(a + b, from) == WithoutComponents(a, from) + WithoutComponents(b, from)
  {
    if b == [] {
      assert a + b == a;
    } else {
      var init := b[..|b| - 1];
      assert (a + b)[..|a + b| - 1] == a + init;
      WithoutComponentsSplits(a, init, from);
    }
  }

  /** The discount depends on which ids are held, in which stacks, and not
      on how many units each stack holds. */
  lemma {:induction false} ComponentValueIgnoresCounts(items: seq<Item>, other: seq<Item>, from: seq<ItemId>, catalog: ItemDatabase)
    requires |items| == |other|
    requires forall j :: 0 <= j < |items| ==> items[j].itemID == other[j].itemID
    ensures ComponentValue(items, from, catalog) == ComponentValue(other, from, catalog)
  {
    if items != [] {
      ComponentValueIgnoresCounts(items[..|items| - 1], other[..|other| - 1], from, catalog);
    }
  }

  /** Two held component stacks are both consumed and the discount is the
      sum of their costs: with components of cost 300 and 300 and an item of
      cost 800, the charge is 200. */
  lemma TwoComponentDiscount(x: Item, y: Item, from: seq<ItemId>, catalog: ItemDatabase)
    requires x.itemID in from && y.itemID in from
    requires x.itemID in catalog && y.itemID in catalog
    ensures WithoutComponents([x, y], from) == []
    ensures ComponentValue([x, y], from, catalog) == TotalCost(catalog[x.itemID]) + TotalCost(catalog[y.itemID])
  {
    assert [x, y][..1] == [x];
    assert [x][..0] == [];
    assert WithoutComponents([x], from) == [];
    assert ComponentValue([x], from, catalog) == TotalCost(catalog[x.itemID]);
  }

  /** A held component stack without gold data is consumed like any other
      but earns no discount. */
  lemma ComponentWithoutGoldIsFree(items: seq<Item>, x: Item, from: seq<ItemId>, catalog: ItemDatabase)
    requires x.itemID in from && x.itemID in catalog && catalog[x.itemID].gold.None?
    ensures WithoutComponents(items + [x], from) == WithoutComponents(items, from)
    ensures ComponentValue(items + [x], from, catalog) == ComponentValue(items, from, catalog)
  {
    assert (items + [x])[..|items|] == items;
  }

  /** Extending a prefix of `held` by one stack extends the survivors by
      that stack unless it is a component, and the discount by its cost
      when it is a catalogued component. */
  lemma PrefixStep(held: seq<Item>, seen: nat, from: seq<ItemId>, catalog: ItemDatabase)
    requires seen < |held|
    ensures held[seen].itemID in from ==>
      WithoutComponents(held[..seen + 1], from) == WithoutComponents(held[..seen], from)
    ensures held[seen].itemID !in from ==>
      WithoutComponents(held[..seen + 1], from) == WithoutComponents(held[..seen], from) + [held[seen]]
    ensures held[seen].itemID !in from || held[seen].itemID !in catalog ==>
      ComponentValue(held[..seen + 1], from, catalog) == ComponentValue(held[..seen], from, catalog)
    ensures held[seen].itemID in from && held[seen].itemID in catalog ==>
      ComponentValue(held[..seen + 1], from, catalog)
        == ComponentValue(held[..seen], from, catalog) + TotalCost(catalog[held[seen].itemID])
  {
    assert held[..seen + 1][..seen] == held[..seen];
  }

  /** The list `kept + held[seen..]` seen at position `|kept|`: its element
      there is `held[seen]`, and splicing it out leaves `kept + held[seen + 1..]`. */
  lemma SpliceAt(items: seq<Item>, kept: seq<Item>, held: seq<Item>, seen: nat)
    requires seen < |held|
    requires items == kept + held[seen..]
    ensures |kept| < |items| && items[|kept|] == held[seen]
    ensures items == (kept + [held[seen]]) + held[seen + 1..]
    ensures items[..|kept|] + items[|kept| + 1..] == kept + held[seen + 1..]
  {
    assert held[seen..] == [held[seen]] + held[seen + 1..];
  }

  /** The active player (`LiveGameActivePlayer`). */
  class LiveGameActivePlayer {
    var abilities: Abilities
    var championStats: ChampionStats
    var currentGold: int
    var fullRunes: FullRunes
    var level: int
    var summonerName: string

    /** The plain record with this player's fields. */
    function Record(): ActivePlayerRecord
      reads this
    {
      ActivePlayerRecord(abilities, championStats, currentGold, fullRunes, level, summonerName)
    }

    /** Copies every field of the given record. */
    constructor (player: ActivePlayerRecord)
      ensures Record() == player
    {
      abilities := player.abilities;
      championStats := player.championStats;
      currentGold := player.currentGold;
      fullRunes := player.fullRunes;
      level := player.level;
      summonerName := player.summonerName;
    }

    /** Pays for item `itemId`, consuming the component stacks `player` holds. */
    method SpendGold(player: LiveGamePlayer, itemId: ItemId, catalog: ItemDatabase)
      requires itemId in catalog
      requires ComponentsCatalogued(player.items, Components(catalog[itemId]), catalog)
      modifies this`currentGold, player`items
      ensures catalog[itemId].gold.None? ==>
        player.items == old(player.items) && currentGold == old(currentGold)
      ensures catalog[itemId].gold.Some? && Components(catalog[itemId]) == [] ==>
        player.items == old(player.items) && currentGold == old(currentGold) - catalog[itemId].gold.value.total
      ensures catalog[itemId].gold.Some? && Components(catalog[itemId]) != [] ==>
        && player.items == WithoutComponents(old(player.items), Components(catalog[itemId]))
        && currentGold == old(currentGold)
             - (catalog[itemId].gold.value.total
                - ComponentValue(old(player.items), Components(catalog[itemId]), catalog))
    {
      var item := catalog[itemId];
      if item.gold.None? {
        return;
      }
      if item.from.None? || |item.from.value| == 0 {
        currentGold := currentGold - item.gold.value.total;
        return;
      }
      var from := item.from.value;
      var goldTotal := item.gold.value.total;
      ghost var held := player.items;
      ghost var seen := 0;
      ghost var kept: seq<Item> := [];
      var i := 0;
      while i < |player.items|
        invariant 0 <= seen <= |held|
        invariant currentGold == old(currentGold)
        invariant ComponentsCatalogued(held, from, catalog)
        invariant kept == WithoutComponents(held[..seen], from)
        invariant player.items == kept + held[seen..]
        invariant i == |kept|
        invariant goldTotal == item.gold.value.total - ComponentValue(held[..seen], from, catalog)
        decreases |player.items| - i
      {
        SpliceAt(player.items, kept, held, seen);
        PrefixStep(held, seen, from, catalog);
        var invItem := player.items[i];
        if invItem.itemID !in from {
          i := i + 1;
          kept := kept + [held[seen]];
          seen := seen + 1;
          continue;
        }
        player.items := player.items[..i] + player.items[i + 1..];
        seen := seen + 1;
        var invItemData := catalog[invItem.itemID];
        if invItemData.gold.None? {
          continue;
        }
        goldTotal := goldTotal - invItemData.gold.value.total;
      }
      assert held[..seen] == held;
      currentGold := currentGold - goldTotal;
    }

    /** Refunding a sold, destroyed or undone item is a stub: nothing changes. */
    method RefundGold(player: LiveGamePlayer, itemId: ItemId, catalog: ItemDatabase, sold: bool)
      ensures player.items == old(player.items) && currentGold == old(currentGold)
    {
    }
  }
}

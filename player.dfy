/** The inventory of one player (src/live_game/player.ts): an ordered list of
    item stacks keyed by item id. A purchase adds a unit to the first stack of
    that id, up to the item's stack limit, or appends a new stack; a removal
    takes a unit away and drops the stack once it is empty. */
module PlayerInventory {
  import opened Base
  import opened LiveGameApi

  /** `item.stacks || 1`: how many units of an item one stack may hold. */
  function StackLimit(data: ItemData): (limit: nat)
    ensures limit >= 1
  {
    if data.stacks.Some? && data.stacks.value != 0 then data.stacks.value else 1
  }

  /** The position of the first stack of item `id`, or -1 when none is held. */
  function FindStack(items: seq<Item>, id: ItemId): (k: int)
    ensures -1 <= k < |items|
    ensures 0 <= k ==> items[k].itemID == id
    ensures forall j :: 0 <= j < |items| && (k < 0 || j < k) ==> items[j].itemID != id
  {
    FindIndex(items, (x: Item) => x.itemID == id)
  }

  /** The one-unit stack that both mutators append for an item that is not held. */
  function NewStack(id: ItemId, data: ItemData, slot: int): Item
  {
    Item(canUse := data.consumed.GetOr(false),
         consumable := data.consumed.GetOr(false),
         count := 1,
         displayName := data.name,
         itemID := id,
         price := TotalCost(data),
         rawDescription := "",
         rawDisplayName := "",
         slot := slot)
  }

  /** The inventory after `addItem(id, data)`. */
  function AfterAdd(items: seq<Item>, id: ItemId, data: ItemData): seq<Item>
  {
    var k := FindStack(items, id);
    if 0 <= k then
      if items[k].count >= StackLimit(data) then items
      else items[k := items[k].(count := items[k].count + 1)]
    else items + [NewStack(id, data, |items|)]
  }

  /** Stack `k` loses one unit, and is spliced out once it is empty. */
  function TakeOneAt(items: seq<Item>, k: nat): seq<Item>
    requires k < |items|
  {
    if items[k].count - 1 == 0 then items[..k] + items[k + 1..]
    else items[k := items[k].(count := items[k].count - 1)]
  }

  /** The inventory after `removeItem(id, data)`, as written: an id that is
      not held gets a new one-unit stack, exactly as a purchase would. */
  function AfterRemove(items: seq<Item>, id: ItemId, data: ItemData): seq<Item>
  {
    var k := FindStack(items, id);
    if 0 <= k then TakeOneAt(items, k)
    else items + [NewStack(id, data, |items|)]
  }

  /** The removal without the append: an id that is not held leaves the
      inventory as it is. */
  function AfterRemoveIntended(items: seq<Item>, id: ItemId): seq<Item>
  {
    var k := FindStack(items, id);
    if 0 <= k then TakeOneAt(items, k) else items
  }

  /** No two stacks hold the same item. */
  ghost predicate UniqueIds(items: seq<Item>)
  {
    forall i, j :: 0 <= i < j < |items| ==> items[i].itemID != items[j].itemID
  }

  /** Every stack is catalogued and holds between one unit and its item's stack limit. */
  ghost predicate WithinLimits(items: seq<Item>, catalog: ItemDatabase)
  {
    forall j :: 0 <= j < |items| ==>
      items[j].itemID in catalog && 1 <= items[j].count <= StackLimit(catalog[items[j].itemID])
  }

  /** Every stack holds at least one unit. */
  ghost predicate PositiveCounts(items: seq<Item>)
  {
    forall j :: 0 <= j < |items| ==> items[j].count >= 1
  }

  /** A held id: the first stack `k` of that id gains one unit when it is
      below the limit, and nothing at all changes when it is at the limit. */
  lemma AddToHeldStack(items: seq<Item>, id: ItemId, data: ItemData, k: nat)
    requires k < |items| && items[k].itemID == id
    requires forall j :: 0 <= j < k ==> items[j].itemID != id
    ensures items[k].count >= StackLimit(data) ==> AfterAdd(items, id, data) == items
    ensures items[k].count < StackLimit(data) ==>
      var after := AfterAdd(items, id, data);
      && |after| == |items|
      && after[k] == items[k].(count := items[k].count + 1)
      && forall j :: 0 <= j < |items| && j != k ==> after[j] == items[j]
  {
    assert FindStack(items, id) == k;
  }

  /** An id that is not held: exactly one stack is appended, holding one
      unit of that id, in the slot numbered by the old length, priced at the
      item's total cost. */
  lemma AddNewStack(items: seq<Item>, id: ItemId, data: ItemData)
    requires forall j :: 0 <= j < |items| ==> items[j].itemID != id
    ensures var after := AfterAdd(items, id, data);
      && |after| == |items| + 1
      && after[..|items|] == items
      && after[|items|].count == 1
      && after[|items|].itemID == id
      && after[|items|].slot == |items|
      && after[|items|].price == (if data.gold.Some? then data.gold.value.total else 0)
  {
    assert FindStack(items, id) == -1;
  }

  /** A purchase never gives two stacks the same id. */
  lemma AddKeepsIdsUnique(items: seq<Item>, id: ItemId, data: ItemData)
    requires UniqueIds(items)
    ensures UniqueIds(AfterAdd(items, id, data))
  {
    var after := AfterAdd(items, id, data);
    var k := FindStack(items, id);
    if 0 <= k {
      assert forall j :: 0 <= j < |items| ==> after[j].itemID == items[j].itemID;
    } else {
      assert forall j :: 0 <= j < |items| ==> after[j] == items[j];
    }
  }

  /** A purchase keeps every stack between one unit and its stack limit. */
  lemma AddKeepsWithinLimits(items: seq<Item>, id: ItemId, catalog: ItemDatabase)
    requires id in catalog
    requires WithinLimits(items, catalog)
    ensures WithinLimits(AfterAdd(items, id, catalog[id]), catalog)
  {
    var after := AfterAdd(items, id, catalog[id]);
    var k := FindStack(items, id);
    if k < 0 {
      assert forall j :: 0 <= j < |items| ==> after[j] == items[j];
    }
  }

  /** A held id: the first stack `k` of that id loses one unit; a stack that
      held one unit is deleted, and the other stacks keep their contents and
      their relative order. */
  lemma RemoveFromHeldStack(items: seq<Item>, id: ItemId, data: ItemData, k: nat)
    requires k < |items| && items[k].itemID == id
    requires forall j :: 0 <= j < k ==> items[j].itemID != id
    ensures items[k].count != 1 ==>
      var after := AfterRemove(items, id, data);
      && |after| == |items|
      && after[k] == items[k].(count := items[k].count - 1)
      && forall j :: 0 <= j < |items| && j != k ==> after[j] == items[j]
    ensures items[k].count == 1 ==>
      var after := AfterRemove(items, id, data);
      && |after| == |items| - 1
      && (forall j :: 0 <= j < k ==> after[j] == items[j])
      && (forall j :: k < j < |items| ==> after[j - 1] == items[j])
  {
    assert FindStack(items, id) == k;
  }

  /** As written, removing an id that is not held behaves as a purchase: the
      inventory grows by one stack of one unit. */
  lemma RemoveAbsentAppends(items: seq<Item>, id: ItemId, data: ItemData)
    requires forall j :: 0 <= j < |items| ==> items[j].itemID != id
    ensures AfterRemove(items, id, data) == AfterAdd(items, id, data)
    ensures |AfterRemove(items, id, data)| == |items| + 1
  {
    assert FindStack(items, id) == -1;
  }

  /** The intended removal never grows the inventory, leaves it unchanged
      for an id that is not held, never raises a count, and on a held id
      takes one unit exactly as the written removal does. */
  lemma IntendedRemoveNeverGrows(items: seq<Item>, id: ItemId)
    ensures |AfterRemoveIntended(items, id)| <= |items|
    ensures (forall j :: 0 <= j < |items| ==> items[j].itemID != id) ==> AfterRemoveIntended(items, id) == items
    ensures forall x :: x in AfterRemoveIntended(items, id) ==>
      exists j :: 0 <= j < |items| && items[j].itemID == x.itemID && items[j].count >= x.count
    ensures forall data :: 0 <= FindStack(items, id) ==> AfterRemoveIntended(items, id) == AfterRemove(items, id, data)
  {
    var after := AfterRemoveIntended(items, id);
    var k := FindStack(items, id);
    if 0 <= k && items[k].count - 1 == 0 {
      forall x | x in after
        ensures exists j :: 0 <= j < |items| && items[j].itemID == x.itemID && items[j].count >= x.count
      {
        var i :| 0 <= i < |after| && after[i] == x;
        if i < k {
          assert items[i] == x;
        } else {
          assert items[i + 1] == x;
        }
      }
    } else if 0 <= k {
      forall x | x in after
        ensures exists j :: 0 <= j < |items| && items[j].itemID == x.itemID && items[j].count >= x.count
      {
        var i :| 0 <= i < |after| && after[i] == x;
        assert items[i].itemID == x.itemID && items[i].count >= x.count;
      }
    } else {
      forall x | x in after
        ensures exists j :: 0 <= j < |items| && items[j].itemID == x.itemID && items[j].count >= x.count
      {
        var i :| 0 <= i < |after| && after[i] == x;
        assert items[i] == x;
      }
    }
  }

  /** A removal never gives two stacks the same id. */
  lemma RemoveKeepsIdsUnique(items: seq<Item>, id: ItemId, data: ItemData)
    requires UniqueIds(items)
    ensures UniqueIds(AfterRemove(items, id, data))
  {
    var after := AfterRemove(items, id, data);
    var k := FindStack(items, id);
    if 0 <= k && items[k].count - 1 == 0 {
      forall i, j | 0 <= i < j < |after|
        ensures after[i].itemID != after[j].itemID
      {
        var i' := if i < k then i else i + 1;
        var j' := if j < k then j else j + 1;
        assert after[i] == items[i'] && after[j] == items[j'];
      }
    } else if 0 <= k {
      assert forall j :: 0 <= j < |items| ==> after[j].itemID == items[j].itemID;
    } else {
      assert forall j :: 0 <= j < |items| ==> after[j] == items[j];
    }
  }

  /** A removal keeps every stack between one unit and its stack limit. */
  lemma RemoveKeepsWithinLimits(items: seq<Item>, id: ItemId, catalog: ItemDatabase)
    requires id in catalog
    requires WithinLimits(items, catalog)
    ensures WithinLimits(AfterRemove(items, id, catalog[id]), catalog)
  {
    var after := AfterRemove(items, id, catalog[id]);
    var k := FindStack(items, id);
    if k < 0 {
      assert after == items + [NewStack(id, catalog[id], |items|)];
      forall j | 0 <= j < |after|
        ensures after[j].itemID in catalog && 1 <= after[j].count <= StackLimit(catalog[after[j].itemID])
      {
        if j < |items| {
          assert after[j] == items[j];
        }
      }
    } else if items[k].count - 1 == 0 {
      assert after == items[..k] + items[k + 1..];
      forall j | 0 <= j < |after|
        ensures after[j].itemID in catalog && 1 <= after[j].count <= StackLimit(catalog[after[j].itemID])
      {
        var source := if j < k then j else j + 1;
        assert after[j] == items[source];
      }
    } else {
      assert after == items[k := items[k].(count := items[k].count - 1)];
      forall j | 0 <= j < |after|
        ensures after[j].itemID in catalog && 1 <= after[j].count <= StackLimit(catalog[after[j].itemID])
      {
        assert after[j].itemID == items[j].itemID && after[j].count <= items[j].count;
      }
    }
  }

  /** Whenever a purchase changes the inventory, removing the same item
      restores the inventory exactly. */
  lemma {:induction false} RemoveUndoesAdd(items: seq<Item>, id: ItemId, data: ItemData)
    requires PositiveCounts(items)
    requires AfterAdd(items, id, data) != items
    ensures AfterRemove(AfterAdd(items, id, data), id, data) == items
  {
    var after := AfterAdd(items, id, data);
    var k := FindStack(items, id);
    if 0 <= k {
      assert FindStack(after, id) == k;
    } else {
      assert after[|items|].itemID == id;
      assert FindStack(after, id) == |items|;
      assert after[..|items|] == items;
    }
  }

  /** A player of the session (`LiveGamePlayer`); the mutators change `items` only. */
  class LiveGamePlayer {
    var championName: string
    var isBot: bool
    var isDead: bool
    var items: seq<Item>
    var level: int
    var position: string
    var rawChampionName: string
    var respawnTimer: int
    var runes: Runes
    var scores: Scores
    var skinID: int
    var summonerName: string
    var summonerSpells: SummonerSpells
    var team: Team

    /** The plain record with this player's fields. */
    function Record(): PlayerRecord
      reads this
    {
      PlayerRecord(championName, isBot, isDead, items, level, position, rawChampionName,
                   respawnTimer, runes, scores, skinID, summonerName, summonerSpells, team)
    }

    /** Copies every field of the given record. */
    constructor (player: PlayerRecord)
      ensures Record() == player
    {
      championName := player.championName;
      isBot := player.isBot;
      isDead := player.isDead;
      items := player.items;
      level := player.level;
      position := player.position;
      rawChampionName := player.rawChampionName;
      respawnTimer := player.respawnTimer;
      runes := player.runes;
      scores := player.scores;
      skinID := player.skinID;
      summonerName := player.summonerName;
      summonerSpells := player.summonerSpells;
      team := player.team;
    }

    /** Buys one unit of item `id`, whose catalog entry is `data`. */
    method AddItem(id: ItemId, data: ItemData)
      modifies this`items
      ensures items == AfterAdd(old(items), id, data)
    {
      var k := FindStack(items, id);
      if 0 <= k {
        if items[k].count >= StackLimit(data) {
          return;
        }
        items := items[k := items[k].(count := items[k].count + 1)];
        return;
      }
      items := items + [NewStack(id, data, |items|)];
    }

    /** Takes one unit of item `id`, whose catalog entry is `data`, out of the inventory. */
    method RemoveItem(id: ItemId, data: ItemData)
      modifies this`items
      ensures items == AfterRemove(old(items), id, data)
    {
      var k := FindStack(items, id);
      if 0 <= k {
        var spot := items[k].(count := items[k].count - 1);
        items := items[k := spot];
        if spot.count == 0 {
          items := items[..k] + items[k + 1..];
        }
        return;
      }
      items := items + [NewStack(id, data, |items|)];
    }
  }
}

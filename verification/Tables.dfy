/** The item, drop and quest tables the server reads at start-up (GameServer/main.cpp:42-66). */
module Tables {
  import opened Machine

  datatype Kind = Weapon | Armor | Consumable

  datatype ItemData = ItemData(id: uint16, name: string, kind: Kind, atk: uint16, def: uint16, hp: uint16,
      price: uint32)

  datatype DropEntry = DropEntry(itemId: uint16, weight: int)

  /** The sum the loader keeps (`g_totalWeight`). */
  function TotalWeight(drops: seq<DropEntry>): int {
    if drops == [] then 0 else drops[0].weight + TotalWeight(drops[1..])
  }

  datatype QuestData =
    QuestData(id: uint16, name: string, target: uint16, rewardGold: uint32, rewardExp: uint32, rewardItemId: uint16)

  datatype Data = Data(items: seq<ItemData>, drops: seq<DropEntry>, quests: seq<QuestData>)

  /** The tables the program ships with (data/items.json, data/quests.json). */
  const SHIPPED := Data(
    [ItemData(1, "Rusty Sword", Weapon, 5, 0, 0, 50), ItemData(2, "Steel Sword", Weapon, 12, 0, 0, 200),
     ItemData(3, "Leather Armor", Armor, 0, 5, 0, 80), ItemData(4, "Iron Armor", Armor, 0, 10, 0, 300),
     ItemData(5, "HP Potion", Consumable, 0, 0, 50, 30)],
    [DropEntry(1, 20), DropEntry(3, 20), DropEntry(5, 40)],
    [QuestData(1, "Goblin Slayer", 3, 100, 50, 0), QuestData(2, "Monster Hunter", 5, 200, 100, 5),
     QuestData(3, "Champion", 10, 500, 300, 2)])

  /** The first table entry with this id. */
  function ItemIn(items: seq<ItemData>, id: uint16): (r: Option<ItemData>)
    ensures r.Some? ==> r.value.id == id && r.value in items
    ensures r.None? <==> forall it | it in items :: it.id != id
  {
    if items == [] then None
    else if items[0].id == id then Some(items[0])
    else ItemIn(items[1..], id)
  }

  function FindItem(t: Data, id: uint16): Option<ItemData> { ItemIn(t.items, id) }

  /** The position of the first quest with this id, or the table's length. */
  function QuestIndex(quests: seq<QuestData>, id: uint16): (i: nat)
    ensures i <= |quests|
    ensures i < |quests| ==> quests[i].id == id
    ensures forall j | 0 <= j < i :: quests[j].id != id
  {
    if quests == [] then 0
    else if quests[0].id == id then 0
    else 1 + QuestIndex(quests[1..], id)
  }

  function FindQuest(t: Data, id: uint16): (r: Option<QuestData>)
    ensures r.Some? ==> r.value.id == id && r.value in t.quests
  {
    var i := QuestIndex(t.quests, id);
    if i < |t.quests| then Some(t.quests[i]) else None
  }

  /** Item id 0 means "empty slot", so no loaded item may carry it; quest ids are distinct. */
  ghost predicate WellFormed(t: Data) {
    && (forall it | it in t.items :: it.id != 0)
    && (forall i, j | 0 <= i < j < |t.quests| :: t.quests[i].id != t.quests[j].id)
  }

  /** The name a 32-byte packet field carries for an item id: empty when the id is unknown. */
  function ItemName(t: Data, id: uint16): (r: string)
    ensures |r| <= 31
  {
    match FindItem(t, id)
    case Some(it) => Clip(it.name, 31)
    case None => ""
  }
}

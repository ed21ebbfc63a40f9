/** The per-session half of the server, in place: player fields, inventory and quest map (GameServer/main.cpp). */
module Sessions {
  import opened Machine
  import opened Tables
  import opened Protocol
  import opened Character

  // ---------------------------------------------------------------- table look-ups

  lemma {:induction false} ItemInFrom(items: seq<ItemData>, id: uint16, i: nat)
    requires i < |items| && items[i].id == id
    requires forall j | 0 <= j < i :: items[j].id != id
    ensures ItemIn(items, id) == Some(items[i])
    decreases i
  {
    if i > 0 { ItemInFrom(items[1..], id, i - 1); }
  }

  method LookUpItem(t: Data, id: uint16) returns (r: Option<ItemData>)
    ensures r == FindItem(t, id)
  {
    var i := 0;
    while i < |t.items|
      invariant 0 <= i <= |t.items|
      invariant forall j | 0 <= j < i :: t.items[j].id != id
    {
      if t.items[i].id == id {
        ItemInFrom(t.items, id, i);
        return Some(t.items[i]);
      }
      i := i + 1;
    }
    r := None;
  }

  method LookUpQuest(t: Data, id: uint16) returns (r: Option<QuestData>)
    ensures r == FindQuest(t, id)
  {
    var i := 0;
    while i < |t.quests|
      invariant 0 <= i <= |t.quests|
      invariant forall j | 0 <= j < i :: t.quests[j].id != id
    {
      if t.quests[i].id == id {
        return Some(t.quests[i]);
      }
      i := i + 1;
    }
    r := None;
  }

  /** The first empty slot; one past the last when the bag is full. */
  method FindEmptySlot(inv: Inventory) returns (slot: nat)
    ensures slot == FindEmpty(inv.slots)
  {
    slot := 0;
    while slot < MAX_INVENTORY && inv.slots[slot].tid != 0
      invariant 0 <= slot <= MAX_INVENTORY
      invariant forall j | 0 <= j < slot :: inv.slots[j].tid != 0
    {
      slot := slot + 1;
    }
    var f := FindEmpty(inv.slots);
    assert f == slot;
  }

  class Session {
    const id: SessionId
    var player: Player
    var inv: Inventory
    var quests: map<uint16, Quest>
    var connected: bool
    var sent: seq<Msg> // everything handed to the socket, oldest first

    ghost function State(): State
      reads this
    {
      Character.State(player, inv, quests, connected, sent)
    }

    constructor (id: SessionId)
      ensures this.id == id && State() == NEW_SESSION
    {
      this.id := id;
      player, inv, quests := NEW_PLAYER, EMPTY_INVENTORY, map[];
      connected, sent := true, [];
    }

    method Send(m: Msg)
      modifies this
      ensures State() == Character.Send(old(State()), m)
    {
      if connected {
        sent := sent + [m];
      }
    }

    method SendCharInfo()
      modifies this
      ensures State() == Character.SendCharInfo(old(State()))
    {
      Send(OwnInfo(player));
    }

    // ---------------------------------------------------------------- levels

    method LevelUpOnce()
      requires player.exp >= player.maxExp
      modifies this
      ensures State() == old(Character.Send(State().(player := LevelOnce(player)), LevelUpMsg(LevelOnce(player))))
    {
      player := player.(exp := player.exp - player.maxExp);
      player := player.(level := U16(player.level + 1));
      player := player.(maxHp := U16(player.maxHp + 20));
      player := player.(hp := player.maxHp, atk := U16(player.atk + 3), def := U16(player.def + 2));
      player := player.(maxExp := player.level * 100);
      Send(LevelUp(player.level, player.hp, player.maxHp, player.atk, player.def));
    }

    method CheckLevelUp()
      modifies this
      ensures State() == Character.CheckLevelUp(old(State()))
    {
      hide Character.Send, LevelUpMsg;
      while player.exp >= player.maxExp
        invariant Character.CheckLevelUp(State()) == Character.CheckLevelUp(old(State()))
        decreases player.exp, ZeroTurns(player)
      {
        LevelUpOnce();
      }
    }

    method Gain(exp: nat, gold: nat)
      modifies this
      ensures State() == Character.Gain(old(State()), exp, gold)
    {
      player := player.(exp := U64(player.exp + exp));
      player := player.(gold := U64(player.gold + gold));
    }

    method SendExp()
      modifies this
      ensures State() == Character.Send(old(State()), ExpUpdate(U32(old(player.exp)), old(player.maxExp)))
    {
      Send(ExpUpdate(U32(player.exp), player.maxExp));
    }

    method Award(exp: nat, gold: nat)
      modifies this
      ensures State() == Character.Award(old(State()), exp, gold)
    {
      Gain(exp, gold);
      SendExp();
      CheckLevelUp();
    }

    // ---------------------------------------------------------------- items

    method SetSlot(slot: nat, item: InvSlot)
      requires slot < MAX_INVENTORY
      modifies this`inv
      ensures State() == PutSlot(old(State()), slot, item)
    {
      inv := inv.(slots := inv.slots[slot := item]);
    }

    method NameOf(t: Data, tid: uint16) returns (name: string)
      ensures name == ItemName(t, tid)
    {
      var item := LookUpItem(t, tid);
      name := if item.Some? then Clip(item.value.name, 31) else "";
    }

    method SlotUpdate(t: Data, slot: nat) returns (e: SlotEntry)
      requires slot < MAX_INVENTORY
      ensures e == SlotMsg(t, slot, inv.slots[slot].tid)
    {
      var tid, name := inv.slots[slot].tid, "";
      if tid != 0 {
        name := NameOf(t, tid);
      }
      e := SlotEntry(slot, tid, name);
    }

    /** A dropped or rewarded item. */
    method Receive(t: Data, tid: uint16, newUid: uint64)
      modifies this
      ensures State() == Character.Receive(t, old(State()), tid, newUid)
    {
      if tid != 0 {
        var slot := FindEmptySlot(inv);
        if slot < MAX_INVENTORY {
          var item := LookUpItem(t, tid);
          if item.Some? {
            SetSlot(slot, InvSlot(newUid, tid));
            var e := SlotUpdate(t, slot);
            Send(ItemDrop(e));
          }
        }
      }
    }

    /** The item in a named slot, when it can be used up. */
    method FindUsable(t: Data, slot: nat) returns (item: Option<ItemData>)
      ensures item == Usable(t, State(), slot) && (item.Some? ==> slot < MAX_INVENTORY)
    {
      if slot >= MAX_INVENTORY || inv.slots[slot].tid == 0 {
        return None;
      }
      item := LookUpItem(t, inv.slots[slot].tid);
      if item.Some? && item.value.kind != Consumable {
        item := None;
      }
    }

    method Consume(slot: nat, it: ItemData)
      requires slot < MAX_INVENTORY
      modifies this
      ensures State() == Character.Consume(old(State()), slot, it)
    {
      var hp := U16(player.hp + it.hp);
      player := player.(hp := if hp <= player.maxHp then hp else player.maxHp);
      SetSlot(slot, NO_ITEM);
    }

    method AfterUse(t: Data, slot: nat)
      requires slot < MAX_INVENTORY
      modifies this
      ensures State() == Character.AfterUse(t, old(State()), slot)
    {
      Send(InventoryUpdate(SlotEntry(slot, 0, "")));
      SendCharInfo();
    }

    method Wear(slot: nat, it: ItemData)
      requires slot < MAX_INVENTORY
      modifies this
      ensures State() == Character.Wear(old(State()), slot, it)
    {
      if it.kind == Weapon {
        var before := inv.weapon;
        inv := inv.(weapon := inv.slots[slot]);
        SetSlot(slot, before);
        player := player.(atk := U16(15 + it.atk));
      } else {
        var before := inv.armor;
        inv := inv.(armor := inv.slots[slot]);
        SetSlot(slot, before);
        player := player.(def := U16(5 + it.def));
      }
    }

    method SendEquipment(t: Data)
      modifies this
      ensures State() == Character.Send(old(State()), EquipMsg(t, old(State())))
    {
      var weapon := NameOf(t, inv.weapon.tid);
      var armor := NameOf(t, inv.armor.tid);
      Send(EquipResult(true, player.atk, player.def, weapon, armor));
    }

    method OnItemEquip(t: Data, slot: nat)
      modifies this
      ensures State() == Character.OnItemEquip(t, old(State()), slot)
    {
      hide Character.Wear, Character.SendCharInfo, EquipMsg, SlotMsg;
      if slot >= MAX_INVENTORY || inv.slots[slot].tid == 0 {
        return;
      }
      var item := LookUpItem(t, inv.slots[slot].tid);
      if item.None? {
        return;
      }
      if item.value.kind == Consumable {
        Send(EquipResult(false, 0, 0, "", ""));
        return;
      }
      Wear(slot, item.value);
      SendEquipment(t);
      var e := SlotUpdate(t, slot);
      Send(InventoryUpdate(e));
      SendCharInfo();
    }

    method OnShopBuy(t: Data, tid: uint16, newUid: uint64)
      modifies this
      ensures State() == Character.OnShopBuy(t, old(State()), tid, newUid)
    {
      hide Character.Send;
      var item := LookUpItem(t, tid);
      if item.None? || player.gold < item.value.price {
        Send(ShopResult(0, 0, player.gold));
        return;
      }
      var slot := FindEmptySlot(inv);
      if slot >= MAX_INVENTORY {
        Send(ShopResult(0, 0, player.gold));
        return;
      }
      player := player.(gold := player.gold - item.value.price);
      SetSlot(slot, InvSlot(newUid, tid));
      var e := SlotUpdate(t, slot);
      Send(InventoryUpdate(e));
      Send(ShopResult(1, tid, player.gold));
    }

    method OnShopSell(t: Data, slot: nat)
      modifies this
      ensures State() == Character.OnShopSell(t, old(State()), slot)
    {
      hide Character.Send, U64;
      if slot >= MAX_INVENTORY || inv.slots[slot].tid == 0 {
        Send(ShopResult(0, 0, 0));
        return;
      }
      var tid := inv.slots[slot].tid;
      var item := LookUpItem(t, tid);
      var sellPrice := if item.Some? then item.value.price / 5 else 0;
      player := player.(gold := U64(player.gold + sellPrice));
      SetSlot(slot, NO_ITEM);
      Send(InventoryUpdate(SlotEntry(slot, 0, "")));
      Send(ShopResult(2, tid, player.gold));
    }

    // ---------------------------------------------------------------- quests

    method OnQuestList(t: Data)
      modifies this
      ensures State() == Character.OnQuestList(t, old(State()))
    {
      if !NearQuestNpc(player) {
        Send(Error(3));
        return;
      }
      var list: seq<QuestEntry> := [];
      while |list| < |t.quests| && |list| < MAX_QUEST_LIST
        invariant |list| <= |t.quests| && |list| <= MAX_QUEST_LIST && list == Entries(t.quests, quests, |list|)
      {
        var q := t.quests[|list|];
        var state := if q.id in quests then quests[q.id] else Quest(0, 0);
        list := list + [QuestEntry(q.id, Clip(q.name, 31), state.status, state.progress, q.target)];
      }
      Send(QuestList(list));
    }

    /** `saved` is the row the handler writes, if any. */
    method OnQuestAccept(t: Data, id: uint16) returns (saved: Option<Quest>)
      modifies this
      ensures State() == Character.OnQuestAccept(t, old(State()), id)
      ensures saved == if Acceptable(t, old(State()), id) then Some(Quest(1, 0)) else None
    {
      var quest := LookUpQuest(t, id);
      saved := None;
      if NearQuestNpc(player) && quest.Some? {
        var state := if id in quests then quests[id] else Quest(0, 0);
        if state.status != 1 && state.status != 2 && state.status != 3 {
          saved := Some(Quest(1, 0));
          quests := quests[id := Quest(1, 0)];
        }
      }
      Send(QuestAcceptResult(saved.Some?, id));
    }

    method Rewards(t: Data, q: QuestData, newUid: uint64)
      modifies this
      ensures State() == Character.Rewards(t, old(State()), q, newUid)
    {
      Gain(q.rewardExp, q.rewardGold);
      Receive(t, q.rewardItemId, newUid);
      SendExp();
      CheckLevelUp();
      SendCharInfo();
    }

    method OnQuestComplete(t: Data, id: uint16, newUid: uint64) returns (saved: Option<Quest>)
      modifies this
      ensures State() == Character.OnQuestComplete(t, old(State()), id, newUid)
      ensures saved == if Completable(t, old(State()), id) then Some(old(quests)[id].(status := 3)) else None
    {
      hide Character.Rewards;
      var quest := LookUpQuest(t, id);
      saved := None;
      if !NearQuestNpc(player) || quest.None? || id !in quests || quests[id].status != 2 {
        Send(QuestReward(false, id, 0, 0, 0));
        return;
      }
      var q := quest.value;
      saved := Some(quests[id].(status := 3));
      quests := quests[id := saved.value];
      Rewards(t, q, newUid);
      Send(QuestReward(true, id, q.rewardGold, q.rewardExp, q.rewardItemId));
    }

    /** One kill: the loop over the ordered quest map, writing each changed row through to the table. */
    method UpdateQuestProgress(t: Data, db: QuestTable) returns (rows: QuestTable)
      modifies this
      ensures (State(), rows) == Character.UpdateQuestProgress(t, old(State()), db)
    {
      hide TickOne;
      rows := db;
      var ids := quests.Keys;
      while ids != {}
        invariant TickAll(t, State(), rows, ids) == Character.UpdateQuestProgress(t, old(State()), db)
        decreases |ids|
      {
        var id := Least(ids);
        rows := CountKill(t, id, rows);
        ids := ids - {id};
      }
    }

    method CountKill(t: Data, id: uint16, db: QuestTable) returns (rows: QuestTable)
      modifies this
      ensures (State(), rows) == TickOne(t, old(State()), db, id)
    {
      rows := db;
      var quest := LookUpQuest(t, id);
      if id !in quests || quests[id].status != 1 || quest.None? {
        return;
      }
      var q := quests[id].(progress := U16(quests[id].progress + 1));
      if q.progress >= quest.value.target {
        q := q.(status := 2);
      }
      quests := quests[id := q];
      rows := Save(rows, player.charUid, id, q);
      Send(QuestProgressed(id, q.progress, quest.value.target));
    }

    // ---------------------------------------------------------------- entering and moving

    method Enter(charUid: uint64, r: Record, x: nat, y: nat)
      modifies this
      ensures State() == Character.SendCharInfo(Entered(old(State()), charUid, r, x, y))
    {
      player := player.(charUid := charUid, loggedIn := true, level := r.level, exp := r.exp, gold := r.gold);
      player := player.(x := 5 + x % 10, y := 5 + y % 10, name := Clip(r.name, 19));
      SendCharInfo();
    }

    method LoadInventory(t: Data, r: Record)
      modifies this
      ensures State() == Character.LoadInventory(t, old(State()), r)
    {
      hide Character.Send, EquipMsg, BagEntries, U16;
      var slots: seq<InvSlot> := FetchSlots(r.bag);
      inv := Bag(slots, r.weapon, r.armor);
      var weapon := LookUpItem(t, inv.weapon.tid);
      var armor := LookUpItem(t, inv.armor.tid);
      if weapon.Some? {
        player := player.(atk := U16(15 + weapon.value.atk));
      }
      if armor.Some? {
        player := player.(def := U16(5 + armor.value.def));
      }
      var list := ListBag(t);
      Send(InventoryList(list));
      if inv.weapon.tid != 0 || inv.armor.tid != 0 {
        SendEquipment(t);
      }
    }

    /** The result rows, one slot each, as long as there are slots. */
    static method FetchSlots(bag: seq<InvSlot>) returns (slots: seq<InvSlot>)
      ensures slots == LoadedSlots(bag)
    {
      slots := Repeat(NO_ITEM, MAX_INVENTORY);
      var slot := 0;
      while slot < |bag| && slot < MAX_INVENTORY
        invariant 0 <= slot <= |bag| && slot <= MAX_INVENTORY && |slots| == MAX_INVENTORY
        invariant forall i | 0 <= i < MAX_INVENTORY :: slots[i] == if i < slot then bag[i] else NO_ITEM
      {
        slots := slots[slot := bag[slot]];
        slot := slot + 1;
      }
    }

    /** The entries of the bulk inventory message. */
    method ListBag(t: Data) returns (list: seq<SlotEntry>)
      ensures list == BagEntries(t, inv.slots, 0)
    {
      hide SlotMsg, FindItem;
      list := [];
      var i := 0;
      while i < MAX_INVENTORY
        invariant 0 <= i <= MAX_INVENTORY
        invariant list + BagEntries(t, inv.slots, i) == BagEntries(t, inv.slots, 0)
      {
        var entry: seq<SlotEntry> := [];
        if inv.slots[i].tid != 0 {
          var item := LookUpItem(t, inv.slots[i].tid);
          if item.Some? {
            var e := SlotUpdate(t, i);
            entry := [e];
          }
        }
        ghost var rest := BagEntries(t, inv.slots, i + 1);
        assert BagEntries(t, inv.slots, i) == entry + rest;
        assert list + (entry + rest) == (list + entry) + rest;
        list := list + entry;
        i := i + 1;
      }
    }

    /** The rest of a character's data, once everybody has been told. */
    method Load(t: Data, r: Record, rows: map<uint16, Quest>)
      modifies this
      ensures State() == Character.LoadInventory(t, Character.Send(old(State()), AttendanceInfo), r).(quests := rows)
    {
      hide Character.LoadInventory, Character.Send;
      Send(AttendanceInfo);
      LoadInventory(t, r);
      quests := rows;
    }

    method OnMove(dx: int, dy: int)
      modifies this
      ensures State() == Moved(old(State()), dx, dy)
    {
      var newX, newY := I16(player.x + dx), I16(player.y + dy);
      if 0 <= newX && newX < MAP_SIZE && 0 <= newY && newY < MAP_SIZE {
        player := player.(x := newX, y := newY);
      }
      Send(MoveResult(player.x, player.y));
    }
  }
}

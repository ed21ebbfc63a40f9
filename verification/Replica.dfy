/** What a drained client agrees with the server about, session by session, and that the in-session handlers keep it. */
module Replica {
  import opened Machine
  import opened Tables
  import opened Protocol
  import opened Client
  import opened Character

  /** What the client should show for a slot. */
  function SlotView(t: Data, s: InvSlot): ClientSlot {
    ClientSlot(s.tid, if s.tid != 0 then ItemName(t, s.tid) else "")
  }

  ghost predicate StatsAgree(v: View, p: Player) {
    && v.me.level == p.level && v.me.hp == p.hp && v.me.maxHp == p.maxHp && v.me.atk == p.atk && v.me.def == p.def
    && v.me.x == p.x && v.me.y == p.y
  }

  ghost predicate ItemsAgree(t: Data, v: View, inv: Inventory) {
    && |v.slots| == MAX_INVENTORY
    && (forall i | 0 <= i < MAX_INVENTORY :: v.slots[i] == SlotView(t, inv.slots[i]))
    && v.weapon == ItemName(t, inv.weapon.tid) && v.armor == ItemName(t, inv.armor.tid)
  }

  /** From the first quest list in the log on, the list shown is the one the server would send now; before, there is
      none. */
  ghost predicate ListAgrees(t: Data, told: bool, shown: seq<QuestEntry>, quests: map<uint16, Quest>) {
    shown == if told then Entries(t.quests, quests, Listed(t)) else []
  }

  ghost predicate ScreenAgrees(v: View, p: Player) {
    && v.screen == (if p.loggedIn then InGame else if p.accountUid == 0 then Client.Login else CharSelect)
    && (p.loggedIn ==> v.me.uid == p.accountUid && p.accountUid != 0)
  }

  /** Nothing has happened to a session that has not selected a character. */
  ghost predicate Waiting(v: View, c: State) {
    c.inv == EMPTY_INVENTORY && c.quests == map[] && !ListSent(c.sent) && v.npcs == map[] && v.others == map[]
  }

  /** Own-state and quest replica of one session. A session known to be cut off gets no more messages. */
  ghost predicate Synced(t: Data, c: State) {
    c.connected ==>
      var v := Replay(c.sent);
      && StatsAgree(v, c.player) && ItemsAgree(t, v, c.inv) && ListAgrees(t, ListSent(c.sent), v.quests, c.quests)
          && ScreenAgrees(v, c.player)
      && (!c.player.loggedIn ==> Waiting(v, c))
  }

  function Places(npcs: map<nat, NpcView>): map<nat, (int, int)> { map u | u in npcs :: (npcs[u].x, npcs[u].y) }

  /** Everything the other sessions are told about this one. */
  ghost predicate SameFace(c: State, d: State) {
    && d.connected == c.connected
    && d.player.accountUid == c.player.accountUid && d.player.charUid == c.player.charUid
    && d.player.loggedIn == c.player.loggedIn && d.player.name == c.player.name
    && d.player.x == c.player.x && d.player.y == c.player.y
  }

  /** The parts of the view that mirror the rest of the world. */
  ghost predicate SameSurroundings(c: State, d: State) {
    Places(Replay(d.sent).npcs) == Places(Replay(c.sent).npcs) && Replay(d.sent).others == Replay(c.sent).others
  }

  /** A step that stays inside one session: it keeps the session's replica and touches nothing other sessions mirror. */
  ghost predicate Local(t: Data, c: State, d: State) {
    SameFace(c, d) && (Synced(t, c) ==> Synced(t, d) && (c.connected ==> SameSurroundings(c, d)))
  }

  lemma LocalTrans(t: Data, c: State, d: State, e: State)
    requires Local(t, c, d) && Local(t, d, e)
    ensures Local(t, c, e)
  {
  }

  lemma SendNeutral(t: Data, c: State, m: Msg)
    requires Neutral(m)
    ensures Local(t, c, Send(c, m))
  {
    hide Replay, ListSent;
    if c.connected {
      var v, w := Replay(c.sent), Replay(Send(c, m).sent);
      assert Places(w.npcs) == Places(v.npcs);
    }
  }

  lemma SendOwnInfo(t: Data, c: State)
    requires c.player.loggedIn
    ensures Local(t, c, SendCharInfo(c))
  {
    hide Replay, ListSent;
  }

  lemma {:induction false} LevelUpsLocal(t: Data, c: State)
    ensures Local(t, c, CheckLevelUp(c))
    decreases c.player.exp, ZeroTurns(c.player)
  {
    hide Replay, ListSent;
    if c.player.exp >= c.player.maxExp {
      var p := LevelOnce(c.player);
      var d := Send(c.(player := p), LevelUpMsg(p));
      assert Local(t, c, d);
      LevelUpsLocal(t, d);
      LocalTrans(t, c, d, CheckLevelUp(d));
    }
  }

  lemma GainLocal(t: Data, c: State, exp: nat, gold: nat)
    ensures Local(t, c, Gain(c, exp, gold))
  {
    hide Replay, ListSent;
  }

  lemma AwardLocal(t: Data, c: State, exp: nat, gold: nat)
    ensures Local(t, c, Award(c, exp, gold))
  {
    hide Replay, ListSent;
    var g := Gain(c, exp, gold);
    var m := ExpUpdate(U32(g.player.exp), g.player.maxExp);
    GainLocal(t, c, exp, gold);
    SendNeutral(t, g, m);
    LevelUpsLocal(t, Send(g, m));
  }

  /** Changing one slot and telling the client about it. */
  lemma SlotLocal(t: Data, c: State, slot: nat, item: InvSlot)
    requires slot < MAX_INVENTORY && c.player.loggedIn
    ensures Local(t, c, Send(PutSlot(c, slot, item), InventoryUpdate(SlotMsg(t, slot, item.tid))))
  {
    hide Replay, ListSent, ItemName;
  }

  lemma DropLocal(t: Data, c: State, slot: nat, item: InvSlot)
    requires slot < MAX_INVENTORY && c.player.loggedIn && item.tid != 0
    ensures Local(t, c, Send(PutSlot(c, slot, item), ItemDrop(SlotMsg(t, slot, item.tid))))
  {
    hide Replay, ListSent, ItemName;
  }

  lemma ReceiveLocal(t: Data, c: State, tid: uint16, uid: uint64)
    requires c.player.loggedIn
    ensures Local(t, c, Receive(t, c, tid, uid))
  {
    hide Replay, ListSent;
    var slot := FindEmpty(c.inv.slots);
    if slot < MAX_INVENTORY && tid != 0 { DropLocal(t, c, slot, InvSlot(uid, tid)); }
  }

  /** Use, with the broadcast that the user receives too. */
  lemma UseLocal(t: Data, c: State, slot: nat, it: ItemData, m: Msg)
    requires slot < MAX_INVENTORY && c.player.loggedIn && m.ItemUseResult?
    ensures Local(t, c, AfterUse(t, Send(Consume(c, slot, it), m), slot))
  {
    hide Replay, ListSent;
  }

  lemma WearLocal(t: Data, c: State, slot: nat, it: ItemData)
    requires slot < MAX_INVENTORY && c.player.loggedIn
    ensures var w := Wear(c, slot, it);
            Local(t, c, Send(Send(w, EquipMsg(t, w)), InventoryUpdate(SlotMsg(t, slot, w.inv.slots[slot].tid))))
  {
    hide Replay, ListSent, ItemName;
  }

  lemma EquipLocal(t: Data, c: State, slot: nat)
    requires c.player.loggedIn
    ensures Local(t, c, OnItemEquip(t, c, slot))
  {
    hide Replay, ListSent;
    if Occupied(c, slot) {
      var found := FindItem(t, c.inv.slots[slot].tid);
      if found.Some? && found.value.kind == Consumable {
        SendNeutral(t, c, EquipResult(false, 0, 0, "", ""));
      } else if found.Some? {
        WearLocal(t, c, slot, found.value);
        var w := Wear(c, slot, found.value);
        SendOwnInfo(t, Send(Send(w, EquipMsg(t, w)), InventoryUpdate(SlotMsg(t, slot, w.inv.slots[slot].tid))));
      }
    }
  }

  /** Gold is not compared. */
  lemma GoldLocal(t: Data, c: State, gold: uint64)
    ensures Local(t, c, c.(player := c.player.(gold := gold)))
  {
    hide Replay, ListSent;
  }

  /** A deal: gold, one slot and the two messages about them. */
  lemma DealLocal(t: Data, c: State, gold: uint64, slot: nat, item: InvSlot, outcome: Msg)
    requires c.player.loggedIn && slot < MAX_INVENTORY && Neutral(outcome)
    ensures var paid := PutSlot(c.(player := c.player.(gold := gold)), slot, item);
            Local(t, c, Send(Send(paid, InventoryUpdate(SlotMsg(t, slot, item.tid))), outcome))
  {
    hide Local, SlotMsg;
    var paid := c.(player := c.player.(gold := gold));
    var told := Send(PutSlot(paid, slot, item), InventoryUpdate(SlotMsg(t, slot, item.tid)));
    GoldLocal(t, c, gold);
    SlotLocal(t, paid, slot, item);
    LocalTrans(t, c, paid, told);
    SendNeutral(t, told, outcome);
    LocalTrans(t, c, told, Send(told, outcome));
  }

  lemma BuyLocal(t: Data, c: State, tid: uint16, uid: uint64)
    requires c.player.loggedIn
    ensures Local(t, c, OnShopBuy(t, c, tid, uid))
  {
    hide Local, SlotMsg, FindItem;
    SendNeutral(t, c, ShopResult(0, 0, c.player.gold));
    var slot := FindEmpty(c.inv.slots);
    if FindItem(t, tid).Some? && c.player.gold >= FindItem(t, tid).value.price && slot < MAX_INVENTORY {
      var gold := c.player.gold - FindItem(t, tid).value.price;
      DealLocal(t, c, gold, slot, InvSlot(uid, tid), ShopResult(1, tid, gold));
    }
  }

  lemma SellLocal(t: Data, c: State, slot: nat)
    requires c.player.loggedIn
    ensures Local(t, c, OnShopSell(t, c, slot))
  {
    hide Local, SlotMsg, FindItem, U64;
    SendNeutral(t, c, ShopResult(0, 0, 0));
    if Occupied(c, slot) {
      var tid := c.inv.slots[slot].tid;
      var gold := U64(c.player.gold + Price(t, tid) / 5);
      DealLocal(t, c, gold, slot, NO_ITEM, ShopResult(2, tid, gold));
    }
  }

  // ---------------------------------------------------------------- quests

  /** Changing one quest changes at most one entry of the server's list. */
  lemma EntriesUpdate(t: Data, quests: map<uint16, Quest>, id: uint16, q: Quest)
    requires WellFormed(t)
    ensures var es := Entries(t.quests, quests, Listed(t));
            var now := Entries(t.quests, quests[id := q], Listed(t));
            var i := EntryIndex(es, id);
            if i < |es| then t.quests[i].id == id && now == es[i := es[i].(status := q.status, progress := q.progress)]
            else now == es
  {
    hide Entries, EntryIndex, Clip;
    var es := Entries(t.quests, quests, Listed(t));
    var now := Entries(t.quests, quests[id := q], Listed(t));
    var i := EntryIndex(es, id);
    forall j | 0 <= j < |es|
      ensures now[j] == if j == i then es[j].(status := q.status, progress := q.progress) else es[j]
    {
      if j != i {
        assert es[j].questId == t.quests[j].id;
        if i < |es| { assert es[i].questId == t.quests[i].id != t.quests[j].id; }
      }
    }
  }

  lemma FoundAt(t: Data, i: nat)
    requires WellFormed(t) && i < |t.quests|
    ensures FindQuest(t, t.quests[i].id) == Some(t.quests[i])
  {
    var j := QuestIndex(t.quests, t.quests[i].id);
    assert j <= i && t.quests[j].id == t.quests[i].id;
  }

  lemma AcceptedAgrees(t: Data, told: bool, shown: seq<QuestEntry>, quests: map<uint16, Quest>, id: uint16)
    requires WellFormed(t) && ListAgrees(t, told, shown, quests)
    ensures ListAgrees(t, told, Accepted(shown, id), quests[id := Quest(1, 0)])
  {
    EntriesUpdate(t, quests, id, Quest(1, 0));
  }

  /** The client recomputes status 2 and gets it right. */
  lemma ProgressedAgrees(t: Data, told: bool, shown: seq<QuestEntry>, quests: map<uint16, Quest>, id: uint16)
    requires WellFormed(t) && ListAgrees(t, told, shown, quests) && Counting(t, quests, id)
    ensures var q := Ticked(t, quests[id], id);
            ListAgrees(t, told, Progressed(shown, id, q.progress, FindQuest(t, id).value.target), quests[id := q])
  {
    EntriesUpdate(t, quests, id, Ticked(t, quests[id], id));
    var i := EntryIndex(shown, id);
    if i < |shown| { FoundAt(t, i); }
  }

  lemma RewardedAgrees(t: Data, told: bool, shown: seq<QuestEntry>, quests: map<uint16, Quest>, id: uint16)
    requires WellFormed(t) && ListAgrees(t, told, shown, quests) && id in quests
    ensures ListAgrees(t, told, Rewarded(shown, id), quests[id := quests[id].(status := 3)])
  {
    EntriesUpdate(t, quests, id, quests[id].(status := 3));
  }

  lemma ListLocal(t: Data, c: State)
    requires c.player.loggedIn
    ensures Local(t, c, OnQuestList(t, c))
  {
    hide Replay, ListSent, Entries, SlotView;
    if !NearQuestNpc(c.player) {
      hide Local;
      SendNeutral(t, c, Error(3));
    }
  }

  lemma AcceptLocal(t: Data, c: State, id: uint16)
    requires WellFormed(t) && c.player.loggedIn
    ensures Local(t, c, OnQuestAccept(t, c, id))
  {
    hide Replay, ListSent, ListAgrees, Accepted, SlotView;
    if !Acceptable(t, c, id) {
      SendNeutral(t, c, QuestAcceptResult(false, id));
    } else if c.connected && Synced(t, c) {
      AcceptedAgrees(t, ListSent(c.sent), Replay(c.sent).quests, c.quests, id);
    }
  }

  lemma TickOneLocal(t: Data, c: State, db: QuestTable, id: uint16)
    requires WellFormed(t)
    ensures Local(t, c, TickOne(t, c, db, id).0)
  {
    hide Replay, ListSent, ListAgrees, Progressed, SlotView, Ticked, Save;
    if Counting(t, c.quests, id) && c.connected && Synced(t, c) {
      ProgressedAgrees(t, ListSent(c.sent), Replay(c.sent).quests, c.quests, id);
    }
  }

  lemma {:induction false} TicksLocal(t: Data, c: State, db: QuestTable, ids: set<uint16>)
    requires WellFormed(t)
    ensures Local(t, c, TickAll(t, c, db, ids).0)
    decreases |ids|
  {
    hide Replay, ListSent;
    if ids != {} {
      var id := Least(ids);
      var (d, db') := TickOne(t, c, db, id);
      TickOneLocal(t, c, db, id);
      TicksLocal(t, d, db', ids - {id});
    }
  }

  /** Marking a quest completed and sending the reward. */
  lemma MarkedLocal(t: Data, c: State, id: uint16, m: Msg)
    requires WellFormed(t) && c.player.loggedIn && id in c.quests && m.QuestReward? && m.success && m.questId == id
    ensures Local(t, c, Send(c.(quests := c.quests[id := c.quests[id].(status := 3)]), m))
  {
    hide Replay, ListSent, ListAgrees, Rewarded, SlotView;
    if c.connected && Synced(t, c) {
      RewardedAgrees(t, ListSent(c.sent), Replay(c.sent).quests, c.quests, id);
    }
  }

  lemma RewardsLocal(t: Data, c: State, q: QuestData, uid: uint64)
    requires c.player.loggedIn
    ensures Local(t, c, Rewards(t, c, q, uid))
  {
    hide Replay, ListSent;
    var e := Gain(c, q.rewardExp, q.rewardGold);
    var given := Receive(t, e, q.rewardItemId, uid);
    var m := ExpUpdate(U32(given.player.exp), given.player.maxExp);
    GainLocal(t, c, q.rewardExp, q.rewardGold);
    ReceiveLocal(t, e, q.rewardItemId, uid);
    SendNeutral(t, given, m);
    LevelUpsLocal(t, Send(given, m));
    SendOwnInfo(t, CheckLevelUp(Send(given, m)));
  }

  lemma RewardsIgnoreQuests(t: Data, c: State, q: QuestData, uid: uint64, quests: map<uint16, Quest>)
    ensures Rewards(t, c.(quests := quests), q, uid) == Rewards(t, c, q, uid).(quests := quests)
  {
    hide SlotMsg, FindItem, FindEmpty, CheckLevelUp, Replay, ListSent;
    var e := Gain(c, q.rewardExp, q.rewardGold);
    var given := Receive(t, e, q.rewardItemId, uid);
    assert Receive(t, e.(quests := quests), q.rewardItemId, uid) == given.(quests := quests);
    LevelUpsIgnoreQuests(Send(given, ExpUpdate(U32(given.player.exp), given.player.maxExp)), quests);
  }

  /** The client learns of the completion only after the item, level and status messages; it makes no difference. */
  lemma CompleteLocal(t: Data, c: State, id: uint16, uid: uint64)
    requires WellFormed(t) && c.player.loggedIn
    ensures Local(t, c, OnQuestComplete(t, c, id, uid))
  {
    hide Replay, ListSent, Rewards, Synced;
    if Completable(t, c, id) {
      var q := FindQuest(t, id).value;
      RewardsLocal(t, c, q, uid);
      RewardsIgnoreQuests(t, c, q, uid, c.quests[id := c.quests[id].(status := 3)]);
      RewardsKeepQuests(t, c, q, uid);
      MarkedLocal(t, Rewards(t, c, q, uid), id, QuestReward(true, id, q.rewardGold, q.rewardExp, q.rewardItemId));
    } else {
      SendNeutral(t, c, QuestReward(false, id, 0, 0, 0));
    }
  }

  lemma RewardsKeepQuests(t: Data, c: State, q: QuestData, uid: uint64)
    ensures Rewards(t, c, q, uid).quests == c.quests
  {
  }

  lemma {:induction false} LevelUpsIgnoreQuests(c: State, quests: map<uint16, Quest>)
    ensures CheckLevelUp(c.(quests := quests)) == CheckLevelUp(c).(quests := quests)
    decreases c.player.exp, ZeroTurns(c.player)
  {
    if c.player.exp >= c.player.maxExp {
      var p := LevelOnce(c.player);
      LevelUpsIgnoreQuests(Send(c.(player := p), LevelUpMsg(p)), quests);
    }
  }

  // ---------------------------------------------------------------- loading

  lemma ListOne(e: SlotEntry, rest: seq<SlotEntry>, shown: seq<ClientSlot>)
    ensures SetSlots(shown, [e] + rest) == SetSlots(SetSlot(shown, e), rest)
  {
    assert ([e] + rest)[1..] == rest;
  }

  lemma OneShown(t: Data, shown: seq<ClientSlot>, i: nat, item: InvSlot)
    requires i < |shown| == MAX_INVENTORY && item.tid != 0
    ensures SetSlot(shown, SlotMsg(t, i, item.tid)) == shown[i := SlotView(t, item)]
  {
    hide ItemName;
  }

  /** The client's slots after the bulk message that lists slots i and up. */
  lemma {:induction false} BagShown(t: Data, slots: seq<InvSlot>, i: nat, shown: seq<ClientSlot>, j: nat)
    requires i <= |slots| == MAX_INVENTORY == |shown| && j < MAX_INVENTORY
    ensures var r := SetSlots(shown, BagEntries(t, slots, i));
            r[j] == if i <= j && slots[j].tid != 0 && FindItem(t, slots[j].tid).Some? then SlotView(t, slots[j])
                else shown[j]
    decreases |slots| - i
  {
    hide FindItem, ItemName, SetSlot;
    if i < |slots| {
      var rest := BagEntries(t, slots, i + 1);
      if slots[i].tid != 0 && FindItem(t, slots[i].tid).Some? {
        var e := SlotMsg(t, i, slots[i].tid);
        ListOne(e, rest, shown);
        assert SetSlot(shown, e) == shown[i := SlotView(t, slots[i])] by { OneShown(t, shown, i, slots[i]); }
        BagShown(t, slots, i + 1, SetSlot(shown, e), j);
      } else {
        assert [] + rest == rest;
        BagShown(t, slots, i + 1, shown, j);
      }
    }
  }

  /** What the load's messages do to the view. */
  lemma LoadShows(t: Data, c: State, r: Record)
    requires c.connected
    ensures var l := LoadInventory(t, c, r); var v, u := Replay(c.sent), Replay(l.sent);
            && u.slots == SetSlots(v.slots, BagEntries(t, LoadedSlots(r.bag), 0))
            && l.inv == Bag(LoadedSlots(r.bag), r.weapon, r.armor)
            && (r.weapon.tid != 0 || r.armor.tid != 0 ==>
                  u.weapon == ItemName(t, r.weapon.tid) && u.armor == ItemName(t, r.armor.tid)
                  && u.me.atk == l.player.atk && u.me.def == l.player.def)
            && (r.weapon.tid == 0 && r.armor.tid == 0 ==> u.weapon == v.weapon && u.armor == v.armor && u.me == v.me)
  {
    hide Replay, ListSent, ItemName, FindItem, BagEntries, SetSlots, LoadedSlots;
  }

  lemma NothingWorn(t: Data, c: State, r: Record)
    requires WellFormed(t) && r.weapon.tid == 0 && r.armor.tid == 0
    ensures ItemName(t, 0) == "" && LoadInventory(t, c, r).player == c.player
  {
    hide Replay, ListSent, BagEntries, LoadedSlots;
  }

  /** Loading onto an empty client shows the loaded bag exactly when every loaded item is in the item table. */
  lemma LoadAgreesIff(t: Data, c: State, r: Record)
    requires WellFormed(t) && c.connected && Replay(c.sent).slots == EMPTY_SLOTS
    requires Replay(c.sent).weapon == "" == Replay(c.sent).armor
    requires Replay(c.sent).me.atk == c.player.atk && Replay(c.sent).me.def == c.player.def
    ensures var l := LoadInventory(t, c, r); var v := Replay(l.sent);
            && v.me.atk == l.player.atk && v.me.def == l.player.def
            && (ItemsAgree(t, v, l.inv) <==> BagKnown(t, r))
  {
    hide Replay, ListSent, ItemName, FindItem, LoadInventory, BagEntries, SetSlots, WellFormed;
    var l := LoadInventory(t, c, r);
    var v := Replay(l.sent);
    var slots := LoadedSlots(r.bag);
    LoadShows(t, c, r);
    if r.weapon.tid == 0 && r.armor.tid == 0 { NothingWorn(t, c, r); }
    forall j | 0 <= j < MAX_INVENTORY
      ensures v.slots[j] == if slots[j].tid != 0 && FindItem(t, slots[j].tid).Some? then SlotView(t, slots[j])
              else ClientSlot(0, "")
    {
      BagShown(t, slots, 0, EMPTY_SLOTS, j);
    }
  }

  lemma ShippedWellFormed()
    ensures WellFormed(SHIPPED) && FindItem(SHIPPED, 7).None?
  {
  }

  /** The shipped tables have no item 7: a stored one is in the first slot on the server and in none on the client. */
  lemma UnknownItemHidden()
    ensures var r := Record(1, 0, 0, "a", [InvSlot(9, 7)], NO_ITEM, NO_ITEM);
            var l := LoadInventory(SHIPPED, NEW_SESSION, r); var v := Replay(l.sent);
            && l.inv.slots[0] == InvSlot(9, 7) && |v.slots| == MAX_INVENTORY
            && (forall j | 0 <= j < MAX_INVENTORY :: v.slots[j].itemId != 7)
            && !ItemsAgree(SHIPPED, v, l.inv)
  {
    hide FindItem, ItemName, LoadInventory, BagEntries, SetSlots, WellFormed, Replay, ListSent;
    var r := Record(1, 0, 0, "a", [InvSlot(9, 7)], NO_ITEM, NO_ITEM);
    var slots := LoadedSlots(r.bag);
    ShippedWellFormed();
    NothingReplayed();
    LoadShows(SHIPPED, NEW_SESSION, r);
    forall j | 0 <= j < MAX_INVENTORY
      ensures Replay(LoadInventory(SHIPPED, NEW_SESSION, r).sent).slots[j].itemId != 7
    {
      BagShown(SHIPPED, slots, 0, EMPTY_SLOTS, j);
    }
  }

  lemma NothingReplayed()
    ensures Replay(NEW_SESSION.sent) == NEW_VIEW
  {
  }

  /** Every item that will be loaded into a slot is in the item table. */
  ghost predicate BagKnown(t: Data, r: Record) {
    forall j | 0 <= j < MAX_INVENTORY ::
      LoadedSlots(r.bag)[j].tid != 0 ==> FindItem(t, LoadedSlots(r.bag)[j].tid).Some?
  }
}

/** What each request of one session does, read off the world before and after it, in the program's own terms. */
module Effects {
  import opened Machine
  import opened Tables
  import opened Protocol
  import opened Character
  import opened Server
  import opened Frames
  import opened Replication
  import opened Progress

  // ---------------------------------------------------------------- what is heard

  /** A session's log once these messages have been sent to it. */
  function Log(c: State, ms: seq<Msg>): seq<Msg> { if c.connected then c.sent + ms else c.sent }

  lemma SendLog(c: State, ms: seq<Msg>, m: Msg)
    ensures Send(c.(sent := Log(c, ms)), m) == c.(sent := Log(c, ms + [m]))
    ensures Send(c, m) == c.(sent := Log(c, [m]))
  {
    assert c.sent + ms + [m] == c.sent + (ms + [m]);
  }

  /** What a session is told about its own player. */
  function ForSelf(p: Player): Msg {
    CharInfo(p.accountUid, "", p.level, p.exp % 0x1_0000_0000, p.x, p.y, p.hp, p.maxHp, p.gold)
  }

  /** What the others are told: no experience, no gold. */
  function ForOthers(p: Player): Msg {
    CharInfo(p.accountUid, Clip(p.name, 31), p.level, 0, p.x, p.y, p.hp, p.maxHp, 0)
  }

  /** Every session but s hears m if it is in the game, and is otherwise as before. */
  ghost predicate OthersHear(w: World, v: World, s: SessionId, m: Msg) {
    v.sessions.Keys == w.sessions.Keys
    && forall o | o in w.sessions && o != s ::
         v.sessions[o] == w.sessions[o].(sent := Log(w.sessions[o], if w.sessions[o].player.loggedIn then [m] else []))
  }

  /** The only change is that s is sent these messages. */
  ghost predicate Answered(w: World, v: World, s: SessionId, ms: seq<Msg>)
    requires s in w.sessions
  {
    v == w.(sessions := w.sessions[s := w.sessions[s].(sent := Log(w.sessions[s], ms))])
  }

  lemma BroadcastAt(w: World, except: Option<SessionId>, m: Msg, o: SessionId)
    requires o in w.sessions
    ensures var c := w.sessions[o];
            BroadcastExcept(w, except, m).sessions[o] ==
              c.(sent := Log(c, if c.player.loggedIn && except != Some(o) then [m] else []))
  {
    hide Send, Log;
    Hearing(w.sessions[o], m);
    NothingLogged(w.sessions[o]);
  }

  lemma NothingLogged(c: State)
    ensures c.(sent := Log(c, [])) == c
  {
  }

  lemma Broadcasting(w: World, c: State, s: SessionId, m: Msg)
    requires s in w.sessions
    ensures OthersHear(w, BroadcastExcept(Put(w, s, c), Some(s), m), s, m)
    ensures BroadcastExcept(Put(w, s, c), Some(s), m).sessions[s] == c
  {
    hide BroadcastExcept, Log;
    var v := Put(w, s, c);
    NothingLogged(c);
    forall o | o in w.sessions
      ensures BroadcastExcept(v, Some(s), m).sessions[o] ==
                v.sessions[o].(sent := Log(v.sessions[o], if v.sessions[o].player.loggedIn && o != s then [m] else []))
    {
      BroadcastAt(v, Some(s), m, o);
    }
  }

  lemma Hearing(c: State, m: Msg)
    ensures (if c.player.loggedIn then Send(c, m) else c) == c.(sent := Log(c, if c.player.loggedIn then [m] else []))
  {
    SendLog(c, [], m);
  }

  // ---------------------------------------------------------------- table look-ups

  ghost predicate FirstItem(t: Data, id: uint16, it: ItemData) {
    exists i :: 0 <= i < |t.items| && t.items[i] == it && it.id == id && forall j | 0 <= j < i :: t.items[j].id != id
  }

  /** An id stands for the first table entry that carries it. */
  lemma FindItemIff(t: Data, id: uint16, it: ItemData)
    ensures FindItem(t, id) == Some(it) <==> FirstItem(t, id, it)
  {
    var i := ItemPlace(t.items, id);
    if FirstItem(t, id, it) {
      var k :| 0 <= k < |t.items| && t.items[k] == it && it.id == id && forall j | 0 <= j < k :: t.items[j].id != id;
      assert i == k;
    }
  }

  lemma {:induction false} ItemPlace(items: seq<ItemData>, id: uint16) returns (i: nat)
    ensures i <= |items| && forall j | 0 <= j < i :: items[j].id != id
    ensures i < |items| ==> items[i].id == id
    ensures ItemIn(items, id) == if i < |items| then Some(items[i]) else None
    decreases |items|
  {
    i := 0;
    if items != [] && items[0].id != id {
      var k := ItemPlace(items[1..], id);
      i := k + 1;
    }
  }

  ghost predicate FirstQuest(t: Data, id: uint16, q: QuestData) {
    exists i :: 0 <= i < |t.quests| && t.quests[i] == q && q.id == id && forall j | 0 <= j < i :: t.quests[j].id != id
  }

  lemma FindQuestIff(t: Data, id: uint16, q: QuestData)
    ensures FindQuest(t, id) == Some(q) <==> FirstQuest(t, id, q)
  {
    var i := QuestIndex(t.quests, id);
    if FirstQuest(t, id, q) {
      var k :| 0 <= k < |t.quests| && t.quests[k] == q && q.id == id && forall j | 0 <= j < k :: t.quests[j].id != id;
      assert i == k;
    }
  }

  /** The name an item id goes by in a message: its first 31 characters; none for an unknown id or an empty slot. */
  ghost predicate Names(t: Data, id: uint16, name: string) {
    (exists it :: FirstItem(t, id, it) && name == Clip(it.name, 31))
    || ((forall it :: !FirstItem(t, id, it)) && name == "")
  }

  lemma ItemNamed(t: Data, id: uint16)
    ensures Names(t, id, ItemName(t, id))
  {
    hide FirstItem;
    forall it { FindItemIff(t, id, it); }
    if FindItem(t, id).Some? { assert FirstItem(t, id, FindItem(t, id).value); }
  }

  // ---------------------------------------------------------------- moving

  /** A step leads exactly where it points if that is on the map, and nowhere otherwise. */
  lemma MoveEffect(t: Data, w: World, s: SessionId, dx: int8, dy: int8)
    requires Enabled(w, Move(s, dx, dy))
    ensures var c, v := w.sessions[s], Step(t, w, Move(s, dx, dy));
            var x, y := c.player.x + dx, c.player.y + dy;
            var p := if 0 <= x < 20 && 0 <= y < 20 then c.player.(x := x, y := y) else c.player;
            && v == w.(sessions := v.sessions) && OthersHear(w, v, s, ForOthers(p))
            && v.sessions[s] == c.(player := p, sent := Log(c, [MoveResult(p.x, p.y)]))
  {
    hide Moved, OthersHear, BroadcastExcept;
    var c := w.sessions[s];
    var d := Moved(c, dx, dy);
    StepTaken(c, dx, dy);
    Broadcasting(w, d, s, OtherInfo(d.player));
  }

  /** A step cannot wrap onto the map. */
  lemma NoWrapOnto(x: int16, d: int8)
    ensures 0 <= I16(x + d) < 20 <==> 0 <= x + d < 20
    ensures 0 <= x + d < 20 ==> I16(x + d) == x + d
  {
  }

  lemma StepTaken(c: State, dx: int8, dy: int8)
    ensures var x, y := c.player.x + dx, c.player.y + dy;
            var p := if 0 <= x < 20 && 0 <= y < 20 then c.player.(x := x, y := y) else c.player;
            Moved(c, dx, dy) == c.(player := p, sent := Log(c, [MoveResult(p.x, p.y)]))
  {
    hide Send, Log, I16;
    NoWrapOnto(c.player.x, dx);
    NoWrapOnto(c.player.y, dy);
    var d := Moved(c, dx, dy);
    SendLog(c.(player := d.player), [], MoveResult(d.player.x, d.player.y));
    LogsAlike(c, c.(player := d.player), [MoveResult(d.player.x, d.player.y)]);
  }

  lemma LogsAlike(c: State, d: State, ms: seq<Msg>)
    requires d.sent == c.sent && d.connected == c.connected
    ensures Log(d, ms) == Log(c, ms)
  {
  }

  // ---------------------------------------------------------------- consumables

  lemma BroadcastHeard(w: World, c: State, s: SessionId, m: Msg)
    requires s in w.sessions
    ensures OthersHear(w, Broadcast(Put(w, s, c), m), s, m)
    ensures Broadcast(Put(w, s, c), m).sessions[s] == c.(sent := Log(c, if c.player.loggedIn then [m] else []))
  {
    hide BroadcastExcept, Log;
    var v := Put(w, s, c);
    forall o | o in w.sessions
      ensures Broadcast(v, m).sessions[o] ==
                v.sessions[o].(sent := Log(v.sessions[o], if v.sessions[o].player.loggedIn then [m] else []))
    {
      BroadcastAt(v, None, m, o);
    }
  }

  lemma SentTwice(c: State, ms: seq<Msg>, m: Msg, n: Msg)
    ensures Send(Send(c.(sent := Log(c, ms)), m), n) == c.(sent := Log(c, ms + [m, n]))
  {
    assert ms + [m] + [n] == ms + [m, n];
    SendLog(c, ms, m);
    SendLog(c, ms + [m], n);
  }

  lemma OthersPut(w: World, v: World, s: SessionId, m: Msg, c: State)
    requires s in w.sessions && OthersHear(w, v, s, m)
    ensures OthersHear(w, Put(v, s, c), s, m)
  {
  }

  /** Using a consumable heals by its value up to the maximum and takes it out of its slot; everyone is told. Nothing
      else can be used. */
  lemma UseEffect(t: Data, w: World, s: SessionId, slot: nat)
    requires Enabled(w, UseItem(s, slot))
    ensures var c, v := w.sessions[s], Step(t, w, UseItem(s, slot));
            var item := if slot < 20 then FindItem(t, c.inv.slots[slot].tid) else None;
            if slot < 20 && c.inv.slots[slot].tid != 0 && item.Some? && item.value.kind == Consumable then
              var hp := (c.player.hp + item.value.hp) % 0x1_0000;
              var p := c.player.(hp := if hp <= c.player.maxHp then hp else c.player.maxHp);
              var m := ItemUseResult(p.charUid, Clip(item.value.name, 31), item.value.hp);
              var told := (if p.loggedIn then [m] else []) + [InventoryUpdate(SlotEntry(slot, 0, "")), ForSelf(p)];
              && v == w.(sessions := v.sessions) && OthersHear(w, v, s, m)
              && v.sessions[s] == State(p, c.inv.(slots := c.inv.slots[slot := InvSlot(0, 0)]), c.quests, c.connected,
                                        Log(c, told))
            else v == w
  {
    hide OthersHear, BroadcastExcept, Send, FindItem, Consume, UsedMsg, Log, AfterUse;
    var c := w.sessions[s];
    if Usable(t, c, slot).Some? {
      var it := Usable(t, c, slot).value;
      var d := Consume(c, slot, it);
      var m := UsedMsg(d.player, it);
      var heard := if d.player.loggedIn then [m] else [];
      BroadcastHeard(w, d, s, m);
      AfterTold(t, c, slot, it, heard);
      OthersPut(w, Broadcast(Put(w, s, d), m), s, m, AfterUse(t, d.(sent := Log(d, heard)), slot));
    }
  }

  lemma AfterTold(t: Data, c: State, slot: nat, it: ItemData, heard: seq<Msg>)
    requires slot < 20
    ensures var d := Consume(c, slot, it);
            var hp := (c.player.hp + it.hp) % 0x1_0000;
            var p := c.player.(hp := if hp <= c.player.maxHp then hp else c.player.maxHp);
            && d == c.(player := p, inv := c.inv.(slots := c.inv.slots[slot := InvSlot(0, 0)]))
            && UsedMsg(d.player, it) == ItemUseResult(p.charUid, Clip(it.name, 31), it.hp)
            && AfterUse(t, d.(sent := Log(d, heard)), slot) ==
                 d.(sent := Log(c, heard + [InventoryUpdate(SlotEntry(slot, 0, "")), ForSelf(p)]))
  {
    hide Send, Log;
    var d := Consume(c, slot, it);
    SentTwice(d, heard, InventoryUpdate(SlotEntry(slot, 0, "")), ForSelf(d.player));
    LogsAlike(c, d, heard + [InventoryUpdate(SlotEntry(slot, 0, "")), ForSelf(d.player)]);
  }

  // ---------------------------------------------------------------- equipment and shop

  /** Equipping swaps the slot with the weapon or armor worn and sets attack or defence from the base; a consumable is
      refused, anything else ignored. */
  lemma EquipEffect(t: Data, w: World, s: SessionId, slot: nat)
    requires Enabled(w, EquipItem(s, slot))
    ensures var c, v := w.sessions[s], Step(t, w, EquipItem(s, slot));
            var item := if slot < 20 then FindItem(t, c.inv.slots[slot].tid) else None;
            if slot >= 20 || c.inv.slots[slot].tid == 0 || item.None? then v == w
            else if item.value.kind == Consumable then Answered(w, v, s, [EquipResult(false, 0, 0, "", "")])
            else v == w.(sessions := w.sessions[s := Equipped(t, c, slot, item.value)])
  {
    hide Send, FindItem, Log, Equipped, Wear, SlotMsg, EquipMsg;
    var c := w.sessions[s];
    SendLog(c, [], EquipResult(false, 0, 0, "", ""));
    if slot < 20 && c.inv.slots[slot].tid != 0 && FindItem(t, c.inv.slots[slot].tid).Some? {
      var it := FindItem(t, c.inv.slots[slot].tid).value;
      if it.kind != Consumable { EquipTold(t, c, slot, it); }
    }
  }

  /** The session that has put on a known weapon or armor. */
  function Equipped(t: Data, c: State, slot: nat, it: ItemData): State
    requires slot < 20
  {
    var arms := it.kind == Weapon;
    var worn := if arms then c.inv.weapon else c.inv.armor;
    var slots := c.inv.slots[slot := worn];
    var inv := Bag(slots, if arms then c.inv.slots[slot] else c.inv.weapon,
                   if arms then c.inv.armor else c.inv.slots[slot]);
    var p := if arms then c.player.(atk := (15 + it.atk) % 0x1_0000) else c.player.(def := (5 + it.def) % 0x1_0000);
    var told := [EquipResult(true, p.atk, p.def, ItemName(t, inv.weapon.tid), ItemName(t, inv.armor.tid)),
                 InventoryUpdate(SlotEntry(slot, worn.tid, if worn.tid == 0 then "" else ItemName(t, worn.tid))),
                 ForSelf(p)];
    State(p, inv, c.quests, c.connected, Log(c, told))
  }

  lemma EquipTold(t: Data, c: State, slot: nat, it: ItemData)
    requires slot < 20 && c.inv.slots[slot].tid != 0 && FindItem(t, c.inv.slots[slot].tid) == Some(it)
    requires it.kind != Consumable
    ensures OnItemEquip(t, c, slot) == Equipped(t, c, slot, it)
  {
    hide Send, FindItem, ItemName, Log;
    var d := Wear(c, slot, it);
    SentThrice(c, d.player, d.inv, EquipMsg(t, d), InventoryUpdate(SlotMsg(t, slot, d.inv.slots[slot].tid)),
        ForSelf(d.player));
  }

  lemma SentThrice(c: State, p: Player, inv: Inventory, m: Msg, n: Msg, o: Msg)
    ensures Send(Send(Send(c.(player := p, inv := inv), m), n), o)
         == c.(player := p, inv := inv, sent := Log(c, [m, n, o]))
  {
    var d := c.(player := p, inv := inv);
    SendLog(d, [], m);
    SentTwice(d, [m], n, o);
    assert [m] + [n, o] == [m, n, o];
  }

  lemma SentBoth(c: State, p: Player, inv: Inventory, m: Msg, n: Msg)
    ensures Send(Send(c.(player := p, inv := inv), m), n) == c.(player := p, inv := inv, sent := Log(c, [m, n]))
  {
    var d := c.(player := p, inv := inv);
    SendLog(d, [], m);
    SendLog(d, [m], n);
    assert [m] + [n] == [m, n];
  }

  /** A known item the player can pay for goes to the first empty slot, for its price; otherwise the shop refuses. */
  lemma BuyEffect(t: Data, w: World, s: SessionId, tid: uint16, uid: uint64)
    requires Enabled(w, Buy(s, tid, uid))
    ensures var c, v, item := w.sessions[s], Step(t, w, Buy(s, tid, uid)), FindItem(t, tid);
            var i := FindEmpty(c.inv.slots);
            if item.Some? && item.value.price <= c.player.gold && i < 20 then
              var p := c.player.(gold := c.player.gold - item.value.price);
              var inv := c.inv.(slots := c.inv.slots[i := InvSlot(uid, tid)]);
              var told := [InventoryUpdate(SlotEntry(i, tid, if tid == 0 then "" else ItemName(t, tid))),
                           ShopResult(1, tid, p.gold)];
              v == w.(sessions := w.sessions[s := State(p, inv, c.quests, c.connected, Log(c, told))])
            else Answered(w, v, s, [ShopResult(0, 0, c.player.gold)])
  {
    hide Send, FindItem, ItemName, Log, FindEmpty;
    var c := w.sessions[s];
    var i := FindEmpty(c.inv.slots);
    SendLog(c, [], ShopResult(0, 0, c.player.gold));
    if FindItem(t, tid).Some? && FindItem(t, tid).value.price <= c.player.gold && i < 20 {
      var p := c.player.(gold := c.player.gold - FindItem(t, tid).value.price);
      var inv := c.inv.(slots := c.inv.slots[i := InvSlot(uid, tid)]);
      SentBoth(c, p, inv, InventoryUpdate(SlotMsg(t, i, tid)), ShopResult(1, tid, p.gold));
    }
  }

  /** A sale empties the slot for a fifth of the price, rounded down, and nothing for an unknown item. */
  lemma SellEffect(t: Data, w: World, s: SessionId, slot: nat)
    requires Enabled(w, Sell(s, slot))
    ensures var c, v := w.sessions[s], Step(t, w, Sell(s, slot));
            if slot >= 20 || c.inv.slots[slot].tid == 0 then Answered(w, v, s, [ShopResult(0, 0, 0)])
            else v == w.(sessions := w.sessions[s := Sold(t, c, slot)])
  {
    hide Send, Sold, Log, Price, SlotMsg;
    var c := w.sessions[s];
    SendLog(c, [], ShopResult(0, 0, 0));
    if slot < 20 && c.inv.slots[slot].tid != 0 { SoldTold(t, c, slot); }
  }

  /** The session that has sold what was in a slot. */
  function Sold(t: Data, c: State, slot: nat): State
    requires slot < 20
  {
    var tid := c.inv.slots[slot].tid;
    var paid: int := if FindItem(t, tid).Some? then FindItem(t, tid).value.price / 5 else 0;
    var p := c.player.(gold := (c.player.gold + paid) % 0x1_0000_0000_0000_0000);
    State(p, c.inv.(slots := c.inv.slots[slot := InvSlot(0, 0)]), c.quests, c.connected,
          Log(c, [InventoryUpdate(SlotEntry(slot, 0, "")), ShopResult(2, tid, p.gold)]))
  }

  lemma SoldTold(t: Data, c: State, slot: nat)
    requires slot < 20 && c.inv.slots[slot].tid != 0
    ensures OnShopSell(t, c, slot) == Sold(t, c, slot)
  {
    hide Send, FindItem, ItemName, Log;
    var tid := c.inv.slots[slot].tid;
    var p := c.player.(gold := U64(c.player.gold + Price(t, tid) / 5));
    var inv := c.inv.(slots := c.inv.slots[slot := NO_ITEM]);
    SentBoth(c, p, inv, InventoryUpdate(SlotEntry(slot, 0, "")), ShopResult(2, tid, p.gold));
  }

  // ---------------------------------------------------------------- rewards

  /** The message of the level after k more. */
  function LevelMsg(p: Player, k: nat): Msg {
    LevelUp((p.level + k + 1) % 0x1_0000, (p.maxHp + 20 * (k + 1)) % 0x1_0000, (p.maxHp + 20 * (k + 1)) % 0x1_0000,
            (p.atk + 3 * (k + 1)) % 0x1_0000, (p.def + 2 * (k + 1)) % 0x1_0000)
  }

  /** The level-up messages of a player: one a level, each with the stats that level brings. */
  function LevelLog(p: Player): seq<Msg> { seq(Turns(p), k requires 0 <= k => LevelMsg(p, k)) }

  lemma LevelMsgNext(p: Player, k: nat)
    requires p.exp >= p.maxExp
    ensures LevelMsg(LevelOnce(p), k) == LevelMsg(p, k + 1)
  {
    Stacked(p.level, 1, k + 1);
    Stacked(p.maxHp, 20, 20 * (k + 1));
    Stacked(p.atk, 3, 3 * (k + 1));
    Stacked(p.def, 2, 2 * (k + 1));
  }

  lemma LevelLogStep(p: Player)
    requires p.exp >= p.maxExp
    ensures LevelLog(p) == [LevelUpMsg(LevelOnce(p))] + LevelLog(LevelOnce(p))
  {
    var q := LevelOnce(p);
    assert LevelMsg(p, 0) == LevelUpMsg(q);
    hide LevelMsg, LevelOnce;
    forall k: nat | k < Turns(q) ensures LevelMsg(q, k) == LevelMsg(p, k + 1) { LevelMsgNext(p, k); }
  }

  lemma Stacked(x: int, a: int, b: int)
    ensures ((x + a) % 0x1_0000 + b) % 0x1_0000 == (x + (a + b)) % 0x1_0000
  {
  }

  /** The level check sends exactly those messages. */
  lemma {:induction false} LevelsTold(c: State, ms: seq<Msg>)
    ensures CheckLevelUp(c.(sent := Log(c, ms)))
         == c.(player := Levels(c.player), sent := Log(c, ms + LevelLog(c.player)))
    decreases c.player.exp, ZeroTurns(c.player)
  {
    hide Send, LevelLog, LevelOnce;
    if c.player.exp >= c.player.maxExp {
      LevelOnceSmaller(c.player);
      LevelLogStep(c.player);
      var q := LevelOnce(c.player);
      var d := c.(player := q);
      SendLog(d, ms, LevelUpMsg(q));
      LevelsTold(d, ms + [LevelUpMsg(q)]);
      assert ms + [LevelUpMsg(q)] + LevelLog(q) == ms + LevelLog(c.player);
    } else {
      assert LevelLog(c.player) == [] by { NoTurns(c.player); }
      assert ms + [] == ms;
    }
  }

  lemma NoTurns(p: Player)
    requires p.exp < p.maxExp
    ensures LevelLog(p) == []
  {
  }

  /** A player just paid, before the level check. */
  function Richer(p: Player, exp: nat, gold: nat): Player {
    p.(exp := (p.exp + exp) % 0x1_0000_0000_0000_0000, gold := (p.gold + gold) % 0x1_0000_0000_0000_0000)
  }

  /** The messages of an award: the experience now, then the levels it brings. */
  function PayLog(p: Player, exp: nat, gold: nat): seq<Msg> {
    var q := Richer(p, exp, gold);
    [ExpUpdate(q.exp % 0x1_0000_0000, q.maxExp)] + LevelLog(q)
  }

  lemma CheckTold(c: State, ms: seq<Msg>)
    ensures CheckLevelUp(Send(c.(sent := Log(c, ms)), ExpUpdate(U32(c.player.exp), c.player.maxExp)))
         == c.(player := Levels(c.player),
               sent := Log(c, ms + [ExpUpdate(U32(c.player.exp), c.player.maxExp)] + LevelLog(c.player)))
  {
    hide Send, LevelLog, Log, CheckLevelUp, Levels;
    SendLog(c, ms, ExpUpdate(U32(c.player.exp), c.player.maxExp));
    LevelsTold(c, ms + [ExpUpdate(U32(c.player.exp), c.player.maxExp)]);
  }

  lemma AwardTold(c: State, ms: seq<Msg>, exp: nat, gold: nat)
    ensures Award(c.(sent := Log(c, ms)), exp, gold)
         == c.(player := Levels(Richer(c.player, exp, gold)), sent := Log(c, ms + PayLog(c.player, exp, gold)))
  {
    hide Send, LevelLog, Log, CheckLevelUp, Levels;
    var g := c.(player := Richer(c.player, exp, gold));
    CheckTold(g, ms);
    var up := ExpUpdate(U32(g.player.exp), g.player.maxExp);
    assert ms + [up] + LevelLog(g.player) == ms + PayLog(c.player, exp, gold);
    LogsAlike(c, g, ms);
    LogsAlike(c, g, ms + PayLog(c.player, exp, gold));
  }

  /** Whether an item handed out finds a place: a known one, and an empty slot. */
  predicate Pocketable(t: Data, inv: Inventory, tid: uint16) {
    tid != 0 && FindItem(t, tid).Some? && FindEmpty(inv.slots) < 20
  }

  /** The bag after that: the first empty slot holds the item. */
  function Pocketed(t: Data, inv: Inventory, tid: uint16, uid: uint64): Inventory {
    if Pocketable(t, inv, tid) then inv.(slots := inv.slots[FindEmpty(inv.slots) := InvSlot(uid, tid)]) else inv
  }

  function PocketLog(t: Data, inv: Inventory, tid: uint16): seq<Msg> {
    if Pocketable(t, inv, tid) then [ItemDrop(SlotEntry(FindEmpty(inv.slots), tid, ItemName(t, tid)))] else []
  }

  lemma ReceiveTold(t: Data, c: State, ms: seq<Msg>, tid: uint16, uid: uint64)
    ensures Receive(t, c.(sent := Log(c, ms)), tid, uid)
         == c.(inv := Pocketed(t, c.inv, tid, uid), sent := Log(c, ms + PocketLog(t, c.inv, tid)))
  {
    hide Send, ItemName, FindItem;
    var d := c.(inv := Pocketed(t, c.inv, tid, uid));
    if Pocketable(t, c.inv, tid) {
      SendLog(d, ms, ItemDrop(SlotEntry(FindEmpty(c.inv.slots), tid, ItemName(t, tid))));
    } else {
      assert ms + [] == ms;
    }
  }

  // ---------------------------------------------------------------- quests

  /** Within one step of the quest NPC at (2, 2). */
  predicate AtQuestNpc(p: Player) { 1 <= p.x <= 3 && 1 <= p.y <= 3 }

  /** The table rows with one of them written. */
  function WithRow(db: QuestTable, charUid: uint64, id: uint16, q: Quest): QuestTable {
    db[charUid := (if charUid in db then db[charUid] else map[])[id := q]]
  }

  /** What the list says of one quest. */
  function Listing(q: QuestData, quests: map<uint16, Quest>): QuestEntry {
    QuestEntry(q.id, Clip(q.name, 31), if q.id in quests then quests[q.id].status else 0,
               if q.id in quests then quests[q.id].progress else 0, q.target)
  }

  /** The quest list is given at the quest NPC only: the first ten quests of the table with this session's progress. */
  lemma ListEffect(t: Data, w: World, s: SessionId)
    requires Enabled(w, AskQuests(s))
    ensures var c, v := w.sessions[s], Step(t, w, AskQuests(s));
            if !AtQuestNpc(c.player) then Answered(w, v, s, [Error(3)])
            else
              var n: nat := if |t.quests| < 10 then |t.quests| else 10;
              var listed := seq(n, i requires 0 <= i < |t.quests| => Listing(t.quests[i], c.quests));
              Answered(w, v, s, [QuestList(listed)])
  {
    hide Send, Log, Entries;
    var c := w.sessions[s];
    SendLog(c, [], Error(3));
    if AtQuestNpc(c.player) {
      var n: nat := if |t.quests| < 10 then |t.quests| else 10;
      var listed := seq(n, i requires 0 <= i < |t.quests| => Listing(t.quests[i], c.quests));
      assert Entries(t.quests, c.quests, n) == listed;
      SendLog(c, [], QuestList(listed));
    }
  }

  /** A quest is accepted at the quest NPC only, when it exists and has not been accepted before; in memory and in the
      table. */
  lemma AcceptEffect(t: Data, w: World, s: SessionId, q: uint16)
    requires Enabled(w, AcceptQuest(s, q))
    ensures var c, v := w.sessions[s], Step(t, w, AcceptQuest(s, q));
            if !AtQuestNpc(c.player) || FindQuest(t, q).None? || (q in c.quests && c.quests[q].status in {1, 2, 3}) then
              Answered(w, v, s, [QuestAcceptResult(false, q)])
            else
              var d := c.(quests := c.quests[q := Quest(1, 0)], sent := Log(c, [QuestAcceptResult(true, q)]));
              v == w.(sessions := w.sessions[s := d], quests := WithRow(w.quests, c.player.charUid, q, Quest(1, 0)))
  {
    hide Send, Log, FindQuest;
    var c := w.sessions[s];
    SendLog(c, [], QuestAcceptResult(false, q));
    var d := c.(quests := c.quests[q := Quest(1, 0)]);
    SendLog(d, [], QuestAcceptResult(true, q));
    LogsAlike(c, d, [QuestAcceptResult(true, q)]);
  }

  /** The session that has turned in a quest: completed, paid, given the item if it fits, levelled up, and told. */
  function TurnedIn(t: Data, c: State, id: uint16, q: QuestData, uid: uint64): State
    requires id in c.quests
  {
    var p := Richer(c.player, q.rewardExp, q.rewardGold);
    State(Levels(p), Pocketed(t, c.inv, q.rewardItemId, uid), c.quests[id := Quest(3, c.quests[id].progress)],
          c.connected,
          Log(c, PocketLog(t, c.inv, q.rewardItemId) + PayLog(c.player, q.rewardExp, q.rewardGold)
                 + [ForSelf(Levels(p)), QuestReward(true, id, q.rewardGold, q.rewardExp, q.rewardItemId)]))
  }

  /** A quest is turned in at the quest NPC only, when it exists and is completable. */
  lemma CompleteEffect(t: Data, w: World, s: SessionId, id: uint16, uid: uint64)
    requires Enabled(w, CompleteQuest(s, id, uid))
    ensures var c, v := w.sessions[s], Step(t, w, CompleteQuest(s, id, uid));
            if AtQuestNpc(c.player) && FindQuest(t, id).Some? && id in c.quests && c.quests[id].status == 2 then
              v == w.(sessions := w.sessions[s := TurnedIn(t, c, id, FindQuest(t, id).value, uid)],
                      quests := WithRow(w.quests, c.player.charUid, id, Quest(3, c.quests[id].progress)))
            else Answered(w, v, s, [QuestReward(false, id, 0, 0, 0)])
  {
    hide Send, Log, FindQuest, Rewards, TurnedIn;
    var c := w.sessions[s];
    SendLog(c, [], QuestReward(false, id, 0, 0, 0));
    if AtQuestNpc(c.player) && FindQuest(t, id).Some? && id in c.quests && c.quests[id].status == 2 {
      RewardsTold(t, c, id, FindQuest(t, id).value, uid);
    }
  }

  lemma RewardsTold(t: Data, c: State, id: uint16, q: QuestData, uid: uint64)
    requires id in c.quests
    ensures var done := c.(quests := c.quests[id := c.quests[id].(status := 3)]);
            Send(Rewards(t, done, q, uid), QuestReward(true, id, q.rewardGold, q.rewardExp, q.rewardItemId)) ==
              TurnedIn(t, c, id, q, uid)
  {
    hide Send, Log, Receive, Pocketed, PocketLog, LevelLog, Levels, CheckLevelUp;
    var done := c.(quests := c.quests[id := Quest(3, c.quests[id].progress)]);
    var g := done.(player := Richer(c.player, q.rewardExp, q.rewardGold));
    NothingLogged(g);
    ReceiveTold(t, g, [], q.rewardItemId, uid);
    var drop := PocketLog(t, c.inv, q.rewardItemId);
    assert [] + drop == drop;
    var h := g.(inv := Pocketed(t, c.inv, q.rewardItemId, uid));
    CheckTold(h, drop);
    var pay := PayLog(c.player, q.rewardExp, q.rewardGold);
    assert drop + [ExpUpdate(U32(g.player.exp), g.player.maxExp)] + LevelLog(g.player) == drop + pay;
    var l := h.(player := Levels(g.player));
    SentTwice(l, drop + pay, ForSelf(l.player),
        QuestReward(true, id, q.rewardGold, q.rewardExp, q.rewardItemId));
    LogsAlike(c, g, drop);
    LogsAlike(g, h, drop);
    LogsAlike(h, l, drop + pay);
    LogsAlike(c, l, drop + pay + [ForSelf(l.player),
        QuestReward(true, id, q.rewardGold, q.rewardExp, q.rewardItemId)]);
  }

  // ---------------------------------------------------------------- connecting and entering

  /** A new session has the defaults of the player structure and is filed under the next id. */
  lemma ConnectEffect(t: Data, w: World)
    requires Enabled(w, Connect)
    ensures var p := Player("", 10, 10, 1, 100, 100, 15, 5, 0, 100, 0, 0, 0, false);
            var v := Step(t, w, Connect);
            && v == w.(sessions := v.sessions, nextSessionId := w.nextSessionId + 1)
            && v.sessions == w.sessions[w.nextSessionId := v.sessions[w.nextSessionId]]
            && var c := v.sessions[w.nextSessionId];
               && c.player == p && c.connected && c.sent == [] && c.quests == map[]
               && c.inv.weapon == c.inv.armor == InvSlot(0, 0)
               && forall i | 0 <= i < 20 :: c.inv.slots[i] == InvSlot(0, 0)
  {
  }

  /** A login sets the account and nothing else, and is answered with the account and its characters. */
  lemma LoginEffect(t: Data, w: World, s: SessionId, account: uint64)
    requires Enabled(w, Login(s, account))
    ensures var c := w.sessions[s];
            var d := c.(player := c.player.(accountUid := account), sent := Log(c, [LoginResult(account), CharList]));
            Step(t, w, Login(s, account)) == w.(sessions := w.sessions[s := d])
    ensures Answered(w, Step(t, w, AskCharList(s)), s, [CharList])
  {
    hide Send, Log;
    var c := w.sessions[s];
    SentBoth(c, c.player.(accountUid := account), c.inv, LoginResult(account), CharList);
    SendLog(c, [], CharList);
  }

  /** The living NPCs, in order, with their hit points. */
  function Spawns(npcs: seq<Npc>): (r: seq<Msg>)
    ensures forall m :: m in r <==> exists i :: 0 <= i < |npcs| && npcs[i].alive
                                                && m == NpcSpawn(npcs[i].uid, npcs[i].x, npcs[i].y, npcs[i].hp, 30)
  {
    if npcs == [] then []
    else
      assert npcs == [npcs[0]] + npcs[1..];
      (if npcs[0].alive then [NpcSpawn(npcs[0].uid, npcs[0].x, npcs[0].y, npcs[0].hp, 30)] else []) + Spawns(npcs[1..])
  }

  lemma {:induction false} NpcsTold(c: State, ms: seq<Msg>, npcs: seq<Npc>)
    ensures SendAllNpcs(c.(sent := Log(c, ms)), npcs) == c.(sent := Log(c, ms + Spawns(npcs)))
    decreases |npcs|
  {
    hide Send, Log;
    if npcs == [] {
      assert ms + [] == ms;
    } else {
      var first := if npcs[0].alive then [SpawnMsg(npcs[0])] else [];
      SendLog(c, ms, SpawnMsg(npcs[0]));
      assert ms + [] == ms;
      NpcsTold(c, ms + first, npcs[1..]);
      assert ms + first + Spawns(npcs[1..]) == ms + Spawns(npcs);
    }
  }

  /** The players in the game among these sessions, in the order of their ids. */
  function Faces(sessions: Sessions, ids: set<SessionId>): (r: seq<Msg>)
    requires ids <= sessions.Keys
    ensures forall m :: m in r <==> exists o :: o in ids && sessions[o].player.loggedIn
                                                && m == ForOthers(sessions[o].player)
    decreases |ids|
  {
    if ids == {} then []
    else
      var o := Least(ids);
      (if sessions[o].player.loggedIn then [ForOthers(sessions[o].player)] else []) + Faces(sessions, ids - {o})
  }

  lemma {:induction false} PlayersTold(c: State, ms: seq<Msg>, sessions: Sessions, ids: set<SessionId>)
    requires ids <= sessions.Keys
    ensures SendPlayers(c.(sent := Log(c, ms)), sessions, ids) == c.(sent := Log(c, ms + Faces(sessions, ids)))
    decreases |ids|
  {
    hide Send, Log;
    if ids == {} {
      assert ms + [] == ms;
    } else {
      var o := Least(ids);
      var first := if sessions[o].player.loggedIn then [ForOthers(sessions[o].player)] else [];
      SendLog(c, ms, ForOthers(sessions[o].player));
      assert ms + [] == ms;
      PlayersTold(c, ms + first, sessions, ids - {o});
      assert ms + first + Faces(sessions, ids - {o}) == ms + Faces(sessions, ids);
    }
  }

  /** The log of a session that enters the game, up to the inventory. */
  function Greeting(w: World, s: SessionId, p: Player): seq<Msg>
    requires s in w.sessions
  {
    [ForSelf(p)] + Spawns(w.npcs) + Faces(w.sessions, w.sessions.Keys - {s}) + [AttendanceInfo]
  }

  lemma GreetingTold(w: World, s: SessionId, d: State)
    requires s in w.sessions
    ensures Send(SendPlayers(SendAllNpcs(SendCharInfo(d), w.npcs), w.sessions, w.sessions.Keys - {s}), AttendanceInfo)
         == d.(sent := Log(d, Greeting(w, s, d.player)))
  {
    hide Send, Log, Spawns, Faces, SendAllNpcs, SendPlayers;
    var ids := w.sessions.Keys - {s};
    var first := [ForSelf(d.player)];
    SendLog(d, [], ForSelf(d.player));
    NpcsTold(d, first, w.npcs);
    PlayersTold(d, first + Spawns(w.npcs), w.sessions, ids);
    SendLog(d, first + Spawns(w.npcs) + Faces(w.sessions, ids), AttendanceInfo);
  }

  /** The bag as it is loaded: the first twenty stored items in their order, then empty slots. */
  function Unpacked(r: Record): Inventory {
    Bag(seq(20, i requires 0 <= i => if i < |r.bag| then r.bag[i] else InvSlot(0, 0)), r.weapon, r.armor)
  }

  /** The player with the attack and defence of what is worn. */
  function Armed(t: Data, p: Player, r: Record): Player {
    p.(atk := if FindItem(t, r.weapon.tid).Some? then (15 + FindItem(t, r.weapon.tid).value.atk) % 0x1_0000 else p.atk,
       def := if FindItem(t, r.armor.tid).Some? then (5 + FindItem(t, r.armor.tid).value.def) % 0x1_0000 else p.def)
  }

  /** The inventory messages; the second only for a character that wears something. */
  function PackLog(t: Data, p: Player, r: Record): seq<Msg> {
    [InventoryList(BagEntries(t, Unpacked(r).slots, 0))]
    + if r.weapon.tid == 0 && r.armor.tid == 0 then []
      else [EquipResult(true, p.atk, p.def, ItemName(t, r.weapon.tid), ItemName(t, r.armor.tid))]
  }

  lemma LoadTold(t: Data, c: State, ms: seq<Msg>, r: Record)
    ensures var p := Armed(t, c.player, r);
            LoadInventory(t, c.(sent := Log(c, ms)), r) ==
              c.(player := p, inv := Unpacked(r), sent := Log(c, ms + PackLog(t, p, r)))
  {
    hide Send, Log, BagEntries, ItemName, FindItem;
    var d := c.(player := Armed(t, c.player, r), inv := Unpacked(r));
    assert LoadedSlots(r.bag) == Unpacked(r).slots;
    var list := InventoryList(BagEntries(t, Unpacked(r).slots, 0));
    var worn := EquipResult(true, d.player.atk, d.player.def, ItemName(t, r.weapon.tid), ItemName(t, r.armor.tid));
    LogsAlike(c, d, ms);
    SendLog(d, ms, list);
    SendLog(d, ms + [list], worn);
    assert ms + [list] + [worn] == ms + ([list] + [worn]) && [list] + [] == [list];
    LogsAlike(c, d, ms + PackLog(t, d.player, r));
  }

  /** Entering the game: the stored level, experience, gold and name, the random start, the stored bag and quest rows,
      the stats of what is worn, and all else as before; the others learn of the player. A refused select is answered
      with error 1 and changes nothing. */
  lemma SelectEffect(t: Data, w: World, s: SessionId, charUid: uint64, found: Option<Record>, x: nat, y: nat)
    requires Enabled(w, Select(s, charUid, found, x, y))
    ensures var c, v := w.sessions[s], Step(t, w, Select(s, charUid, found, x, y));
            match found
            case None => Answered(w, v, s, [Error(1)])
            case Some(r) =>
              var p := c.player.(charUid := charUid, loggedIn := true, level := r.level, exp := r.exp, gold := r.gold,
                                 x := 5 + x % 10, y := 5 + y % 10, name := Clip(r.name, 19));
              var q := Armed(t, p, r);
              var rows := if charUid in w.quests then w.quests[charUid] else map[];
              && v == w.(sessions := v.sessions) && OthersHear(w, v, s, ForOthers(p))
              && v.sessions[s] == State(q, Unpacked(r), rows, c.connected, Log(c, Greeting(w, s, p) + PackLog(t, q, r)))
  {
    hide Send, Log, Greeting, PackLog, Armed, Unpacked, LoadInventory, SendPlayers, SendAllNpcs, BroadcastExcept,
      OthersHear, OnCharSelect;
    var c := w.sessions[s];
    match found
    case None =>
      RefusedForm(t, w, s, charUid, x, y);
      SendLog(c, [], Error(1));
    case Some(r) =>
      var d := Entered(c, charUid, r, x, y);
      GreetingTold(w, s, d);
      LoadTold(t, d, Greeting(w, s, d.player), r);
      SelectForm(t, w, s, charUid, r, x, y);
      var e := Selected(t, w, s, charUid, r, x, y);
      ArmedKeeps(t, d.player, r);
      LogsAlike(c, d, Greeting(w, s, d.player) + PackLog(t, e.player, r));
      Broadcasting(w, e, s, OtherInfo(e.player));
  }

  lemma ArmedKeeps(t: Data, p: Player, r: Record)
    ensures var q := Armed(t, p, r); q == p.(atk := q.atk, def := q.def)
  {
  }
}

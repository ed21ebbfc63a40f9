/** One session's game state on the server and the handlers' effects that stay inside it (GameServer/main.cpp). */
module Character {
  import opened Machine
  import opened Tables
  import opened Protocol
  import opened Client

  datatype Player =
    Player(name: string, x: int16, y: int16, level: uint16, hp: uint16, maxHp: uint16, atk: uint16, def: uint16,
           exp: uint64, maxExp: uint32, gold: uint64, accountUid: uint64, charUid: uint64, loggedIn: bool)

  datatype InvSlot = InvSlot(uid: uint64, tid: uint16)

  const NO_ITEM := InvSlot(0, 0)

  datatype Bag = Bag(slots: seq<InvSlot>, weapon: InvSlot, armor: InvSlot)

  type Inventory = b: Bag | |b.slots| == MAX_INVENTORY witness Bag(Repeat(NO_ITEM, MAX_INVENTORY), NO_ITEM, NO_ITEM)

  const EMPTY_INVENTORY: Inventory := Bag(Repeat(NO_ITEM, MAX_INVENTORY), NO_ITEM, NO_ITEM)

  /** 0 = available, 1 = accepted, 2 = completable, 3 = completed. */
  datatype Quest = Quest(status: uint8, progress: uint16)

  /** Rows of quest_progress, by character. */
  type QuestTable = map<uint64, map<uint16, Quest>>

  function Rows(db: QuestTable, charUid: uint64): map<uint16, Quest> { if charUid in db then db[charUid] else map[] }

  /** spQuestSave: insert or update one row. */
  function Save(db: QuestTable, charUid: uint64, id: uint16, q: Quest): QuestTable {
    db[charUid := Rows(db, charUid)[id := q]]
  }

  /** `sent` is everything handed to the socket so far, oldest first. */
  datatype State = State(player: Player, inv: Inventory, quests: map<uint16, Quest>, connected: bool, sent: seq<Msg>)

  const NEW_PLAYER := Player("", 10, 10, 1, 100, 100, 15, 5, 0, 100, 0, 0, 0, false)

  const NEW_SESSION := State(NEW_PLAYER, EMPTY_INVENTORY, map[], true, [])

  /** `Session::Send` drops the message once the connection is known to be gone. */
  function Send(c: State, m: Msg): (r: State)
    ensures r == c.(sent := r.sent)
    ensures c.connected ==> Replay(r.sent) == Apply(Replay(c.sent), m)
    ensures c.connected ==> ListSent(r.sent) == (ListSent(c.sent) || m.QuestList?)
    ensures !c.connected ==> r == c
  {
    ReplaySnoc(c.sent, m);
    if c.connected then c.(sent := c.sent + [m]) else c
  }

  function OwnInfo(p: Player): Msg {
    CharInfo(p.accountUid, "", p.level, U32(p.exp), p.x, p.y, p.hp, p.maxHp, p.gold)
  }

  /** What other clients are told about a player. */
  function OtherInfo(p: Player): Msg {
    CharInfo(p.accountUid, Clip(p.name, 31), p.level, 0, p.x, p.y, p.hp, p.maxHp, 0)
  }

  function SendCharInfo(c: State): State { Send(c, OwnInfo(c.player)) }

  // ---------------------------------------------------------------- levels

  function LevelOnce(p: Player): Player
    requires p.exp >= p.maxExp
  {
    var level, maxHp := U16(p.level + 1), U16(p.maxHp + 20);
    p.(exp := p.exp - p.maxExp, level := level, maxHp := maxHp, hp := maxHp,
       atk := U16(p.atk + 3), def := U16(p.def + 2), maxExp := level * 100)
  }

  function LevelUpMsg(p: Player): Msg { LevelUp(p.level, p.hp, p.maxHp, p.atk, p.def) }

  /** At most two turns leave `exp` as it is: maxExp is 0 only after the level has wrapped to 0. */
  function ZeroTurns(p: Player): nat {
    if p.maxExp > 0 then 0 else if p.level == 0xFFFF then 2 else 1
  }

  function CheckLevelUp(c: State): (r: State)
    ensures r.player.exp < r.player.maxExp
    ensures r == c.(player := r.player, sent := r.sent)
    decreases c.player.exp, ZeroTurns(c.player)
  {
    if c.player.exp < c.player.maxExp then c
    else
      var p := LevelOnce(c.player);
      CheckLevelUp(Send(c.(player := p), LevelUpMsg(p)))
  }

  /** Experience and gold arrive together, then the level is checked. */
  function Gain(c: State, exp: nat, gold: nat): State {
    c.(player := c.player.(exp := U64(c.player.exp + exp), gold := U64(c.player.gold + gold)))
  }

  function Award(c: State, exp: nat, gold: nat): State {
    var g := Gain(c, exp, gold);
    CheckLevelUp(Send(g, ExpUpdate(U32(g.player.exp), g.player.maxExp)))
  }

  // ---------------------------------------------------------------- items

  /** The first empty slot, or the number of slots. */
  function FindEmpty(slots: seq<InvSlot>): (i: nat)
    ensures i <= |slots|
    ensures i < |slots| ==> slots[i].tid == 0
    ensures forall j | 0 <= j < i :: slots[j].tid != 0
  {
    if slots == [] || slots[0].tid == 0 then 0 else 1 + FindEmpty(slots[1..])
  }

  function PutSlot(c: State, slot: nat, item: InvSlot): State
    requires slot < MAX_INVENTORY
  {
    c.(inv := c.inv.(slots := c.inv.slots[slot := item]))
  }

  function SlotMsg(t: Data, slot: nat, tid: uint16): SlotEntry
    requires slot < MAX_INVENTORY
  {
    SlotEntry(slot, tid, if tid != 0 then ItemName(t, tid) else "")
  }

  /** A dropped or rewarded item goes to the first empty slot, or is lost. */
  function Receive(t: Data, c: State, tid: uint16, uid: uint64): State {
    var slot := FindEmpty(c.inv.slots);
    if tid == 0 || slot >= MAX_INVENTORY || FindItem(t, tid).None? then c
    else Send(PutSlot(c, slot, InvSlot(uid, tid)), ItemDrop(SlotMsg(t, slot, tid)))
  }

  /** The item in a slot a client named; slots past the end and empty slots hold none. */
  function Occupied(c: State, slot: nat): bool { slot < MAX_INVENTORY && c.inv.slots[slot].tid != 0 }

  function Usable(t: Data, c: State, slot: nat): Option<ItemData> {
    if !Occupied(c, slot) then None
    else match FindItem(t, c.inv.slots[slot].tid)
         case Some(it) => if it.kind == Consumable then Some(it) else None
         case None => None
  }

  function UsedMsg(p: Player, it: ItemData): Msg { ItemUseResult(p.charUid, Clip(it.name, 31), it.hp) }

  /** The effect of a consumable and its removal, before anything is sent. */
  function Consume(c: State, slot: nat, it: ItemData): State
    requires slot < MAX_INVENTORY
  {
    var hp := U16(c.player.hp + it.hp);
    PutSlot(c.(player := c.player.(hp := if hp <= c.player.maxHp then hp else c.player.maxHp)), slot, NO_ITEM)
  }

  /** What the user is sent after the broadcast. */
  function AfterUse(t: Data, c: State, slot: nat): State
    requires slot < MAX_INVENTORY
  {
    SendCharInfo(Send(c, InventoryUpdate(SlotMsg(t, slot, 0))))
  }

  function EquipMsg(t: Data, c: State): Msg {
    EquipResult(true, c.player.atk, c.player.def, ItemName(t, c.inv.weapon.tid), ItemName(t, c.inv.armor.tid))
  }

  /** The swap itself; the stat is set from the base value, not adjusted. */
  function Wear(c: State, slot: nat, it: ItemData): State
    requires slot < MAX_INVENTORY
  {
    var item := c.inv.slots[slot];
    if it.kind == Weapon then
      c.(inv := c.inv.(slots := c.inv.slots[slot := c.inv.weapon], weapon := item),
          player := c.player.(atk := U16(15 + it.atk)))
    else
      c.(inv := c.inv.(slots := c.inv.slots[slot := c.inv.armor], armor := item),
          player := c.player.(def := U16(5 + it.def)))
  }

  function OnItemEquip(t: Data, c: State, slot: nat): State {
    if !Occupied(c, slot) then c
    else match FindItem(t, c.inv.slots[slot].tid)
         case None => c
         case Some(it) =>
           if it.kind == Consumable then Send(c, EquipResult(false, 0, 0, "", ""))
           else
             var w := Wear(c, slot, it);
             SendCharInfo(Send(Send(w, EquipMsg(t, w)), InventoryUpdate(SlotMsg(t, slot, w.inv.slots[slot].tid))))
  }

  function OnShopBuy(t: Data, c: State, tid: uint16, uid: uint64): State {
    match FindItem(t, tid)
    case None => Send(c, ShopResult(0, 0, c.player.gold))
    case Some(it) =>
      var slot := FindEmpty(c.inv.slots);
      if c.player.gold < it.price || slot >= MAX_INVENTORY then Send(c, ShopResult(0, 0, c.player.gold))
      else
        var b := PutSlot(c.(player := c.player.(gold := c.player.gold - it.price)), slot, InvSlot(uid, tid));
        Send(Send(b, InventoryUpdate(SlotMsg(t, slot, tid))), ShopResult(1, tid, b.player.gold))
  }

  function Price(t: Data, tid: uint16): uint32 {
    match FindItem(t, tid) case Some(it) => it.price case None => 0
  }

  /** The shop pays a fifth of the price, rounded down; unknown items are taken for nothing. */
  function OnShopSell(t: Data, c: State, slot: nat): State {
    if !Occupied(c, slot) then Send(c, ShopResult(0, 0, 0))
    else
      var tid := c.inv.slots[slot].tid;
      var s := PutSlot(c.(player := c.player.(gold := U64(c.player.gold + Price(t, tid) / 5))), slot, NO_ITEM);
      Send(Send(s, InventoryUpdate(SlotMsg(t, slot, 0))), ShopResult(2, tid, s.player.gold))
  }

  // ---------------------------------------------------------------- quests

  predicate NearQuestNpc(p: Player) { -1 <= p.x - 2 <= 1 && -1 <= p.y - 2 <= 1 }

  function QuestOf(quests: map<uint16, Quest>, id: uint16): Quest { if id in quests then quests[id] else Quest(0, 0) }

  function EntryOf(q: QuestData, quests: map<uint16, Quest>): QuestEntry {
    QuestEntry(q.id, Clip(q.name, 31), QuestOf(quests, q.id).status, QuestOf(quests, q.id).progress, q.target)
  }

  /** The first n entries of the quest list as the server would send it now. */
  function Entries(table: seq<QuestData>, quests: map<uint16, Quest>, n: nat): (r: seq<QuestEntry>)
    requires n <= |table|
    ensures |r| == n
    ensures forall i | 0 <= i < n :: r[i] == EntryOf(table[i], quests)
  {
    if n == 0 then [] else Entries(table, quests, n - 1) + [EntryOf(table[n - 1], quests)]
  }

  function Listed(t: Data): nat { if |t.quests| < MAX_QUEST_LIST then |t.quests| else MAX_QUEST_LIST }

  function OnQuestList(t: Data, c: State): State {
    if !NearQuestNpc(c.player) then Send(c, Error(3))
    else Send(c, QuestList(Entries(t.quests, c.quests, Listed(t))))
  }

  predicate Acceptable(t: Data, c: State, id: uint16) {
    NearQuestNpc(c.player) && FindQuest(t, id).Some? && QuestOf(c.quests, id).status !in {1, 2, 3}
  }

  function OnQuestAccept(t: Data, c: State, id: uint16): State {
    if !Acceptable(t, c, id) then Send(c, QuestAcceptResult(false, id))
    else Send(c.(quests := c.quests[id := Quest(1, 0)]), QuestAcceptResult(true, id))
  }

  predicate Completable(t: Data, c: State, id: uint16) {
    NearQuestNpc(c.player) && FindQuest(t, id).Some? && id in c.quests && c.quests[id].status == 2
  }

  /** A quest's gold and experience, possibly an item, then the level check and a fresh status. */
  function Rewards(t: Data, c: State, q: QuestData, uid: uint64): State {
    var given := Receive(t, Gain(c, q.rewardExp, q.rewardGold), q.rewardItemId, uid);
    SendCharInfo(CheckLevelUp(Send(given, ExpUpdate(U32(given.player.exp), given.player.maxExp))))
  }

  function OnQuestComplete(t: Data, c: State, id: uint16, uid: uint64): State {
    if !Completable(t, c, id) then Send(c, QuestReward(false, id, 0, 0, 0))
    else
      var q := FindQuest(t, id).value;
      var done := c.(quests := c.quests[id := c.quests[id].(status := 3)]);
      Send(Rewards(t, done, q, uid), QuestReward(true, id, q.rewardGold, q.rewardExp, q.rewardItemId))
  }

  predicate Counting(t: Data, quests: map<uint16, Quest>, id: uint16) {
    id in quests && quests[id].status == 1 && FindQuest(t, id).Some?
  }

  function Ticked(t: Data, q: Quest, id: uint16): Quest
    requires FindQuest(t, id).Some?
  {
    var progress := U16(q.progress + 1);
    Quest(if progress >= FindQuest(t, id).value.target then 2 else q.status, progress)
  }

  function TickOne(t: Data, c: State, db: QuestTable, id: uint16): (State, QuestTable) {
    if !Counting(t, c.quests, id) then (c, db)
    else
      var q := Ticked(t, c.quests[id], id);
      (Send(c.(quests := c.quests[id := q]), QuestProgressed(id, q.progress, FindQuest(t, id).value.target)),
       Save(db, c.player.charUid, id, q))
  }

  /** One kill credited: every accepted quest in `ids` moves one step, in ascending id order. */
  function TickAll(t: Data, c: State, db: QuestTable, ids: set<uint16>): (State, QuestTable)
    decreases |ids|
  {
    if ids == {} then (c, db)
    else
      var id := Least(ids);
      var (c', db') := TickOne(t, c, db, id);
      TickAll(t, c', db', ids - {id})
  }

  function UpdateQuestProgress(t: Data, c: State, db: QuestTable): (State, QuestTable) {
    TickAll(t, c, db, c.quests.Keys)
  }

  // ---------------------------------------------------------------- entering the game

  /** What the database returns for a selected character. */
  datatype Record =
    Record(level: uint16, exp: uint64, gold: uint64, name: string, bag: seq<InvSlot>, weapon: InvSlot, armor: InvSlot)

  function LoadedSlots(bag: seq<InvSlot>): (r: seq<InvSlot>)
    ensures |r| == MAX_INVENTORY
  {
    if |bag| >= MAX_INVENTORY then bag[..MAX_INVENTORY] else bag + Repeat(NO_ITEM, MAX_INVENTORY - |bag|)
  }

  /** The entries of the bulk inventory message for slots i and up: known items only. */
  function BagEntries(t: Data, slots: seq<InvSlot>, i: nat): (r: seq<SlotEntry>)
    requires i <= |slots| <= MAX_INVENTORY
    ensures |r| <= |slots| - i
    decreases |slots| - i
  {
    if i == |slots| then []
    else
      (if slots[i].tid != 0 && FindItem(t, slots[i].tid).Some? then [SlotMsg(t, i, slots[i].tid)] else [])
      + BagEntries(t, slots, i + 1)
  }

  function LoadInventory(t: Data, c: State, r: Record): State {
    var atk := match FindItem(t, r.weapon.tid) case Some(it) => U16(15 + it.atk) case None => c.player.atk;
    var def := match FindItem(t, r.armor.tid) case Some(it) => U16(5 + it.def) case None => c.player.def;
    var l := c.(inv := Bag(LoadedSlots(r.bag), r.weapon, r.armor), player := c.player.(atk := atk, def := def));
    var listed := Send(l, InventoryList(BagEntries(t, l.inv.slots, 0)));
    if r.weapon.tid != 0 || r.armor.tid != 0 then Send(listed, EquipMsg(t, listed)) else listed
  }

  /** The session's player once the character is found. */
  function Entered(c: State, charUid: uint64, r: Record, x: nat, y: nat): State {
    c.(player := c.player.(charUid := charUid, loggedIn := true, level := r.level, exp := r.exp, gold := r.gold,
                           x := 5 + x % 10, y := 5 + y % 10, name := Clip(r.name, 19)))
  }

  // ---------------------------------------------------------------- moving and fighting

  function Moved(c: State, dx: int, dy: int): State {
    var x, y := I16(c.player.x + dx), I16(c.player.y + dy);
    var m := if 0 <= x < MAP_SIZE && 0 <= y < MAP_SIZE then c.(player := c.player.(x := x, y := y)) else c;
    Send(m, MoveResult(m.player.x, m.player.y))
  }

  /** NPCs have defence 2; a hit always hurts. */
  function Damage(p: Player): uint16 { if p.atk > 2 then p.atk - 2 else 1 }
}

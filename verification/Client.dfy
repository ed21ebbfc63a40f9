/** The client's copy of the game and what each incoming message does to it (GameClient/main.cpp:12-100, 213-577). */
module Client {
  import opened Machine
  import opened Protocol

  datatype Screen = Login | CharSelect | InGame

  datatype Me = Me(uid: uint64, x: int, y: int, level: uint16, hp: uint16, maxHp: uint16,
                   atk: uint16, def: uint16, exp: uint32, maxExp: uint32, gold: uint64)

  datatype Other = Other(name: string, x: int, y: int)

  datatype NpcView = NpcView(x: int, y: int, hp: uint16, maxHp: uint16)

  datatype ClientSlot = ClientSlot(itemId: uint16, name: string)

  datatype View = View(screen: Screen, me: Me, others: map<uint64, Other>, npcs: map<nat, NpcView>,
                       slots: seq<ClientSlot>, weapon: string, armor: string, quests: seq<QuestEntry>)

  const EMPTY_SLOTS: seq<ClientSlot> := Repeat(ClientSlot(0, ""), MAX_INVENTORY)

  const NEW_VIEW: View :=
    View(Login, Me(0, 10, 10, 1, 100, 100, 15, 5, 0, 100, 0), map[], map[], EMPTY_SLOTS, "", "", [])

  /** Storing one slot: an id of 0 also clears the name, a slot past the end is ignored. */
  function SetSlot(slots: seq<ClientSlot>, e: SlotEntry): (r: seq<ClientSlot>)
    ensures |r| == |slots|
  {
    if e.slot < |slots| then
      slots[e.slot := ClientSlot(e.itemId, if e.itemId != 0 then Clip(e.name, 31) else "")]
    else slots
  }

  function SetSlots(slots: seq<ClientSlot>, es: seq<SlotEntry>): (r: seq<ClientSlot>)
    ensures |r| == |slots|
    decreases |es|
  {
    if es == [] then slots else SetSlots(SetSlot(slots, es[0]), es[1..])
  }

  /** SC_ITEM_DROP stores the id and name as they come. */
  function DropSlot(slots: seq<ClientSlot>, e: SlotEntry): (r: seq<ClientSlot>)
    ensures |r| == |slots|
  {
    if e.slot < |slots| then slots[e.slot := ClientSlot(e.itemId, Clip(e.name, 31))] else slots
  }

  /** The first entry of the local quest list with this id, or the list's length. */
  function EntryIndex(quests: seq<QuestEntry>, id: uint16): (i: nat)
    ensures i <= |quests|
    ensures i < |quests| ==> quests[i].questId == id
    ensures forall j | 0 <= j < i :: quests[j].questId != id
  {
    if quests == [] then 0
    else if quests[0].questId == id then 0
    else 1 + EntryIndex(quests[1..], id)
  }

  function Accepted(quests: seq<QuestEntry>, id: uint16): seq<QuestEntry> {
    var i := EntryIndex(quests, id);
    if i < |quests| then quests[i := quests[i].(status := 1, progress := 0)] else quests
  }

  /** The client decides by itself that a quest has become completable. */
  function Progressed(quests: seq<QuestEntry>, id: uint16, progress: uint16, target: uint16): seq<QuestEntry> {
    var i := EntryIndex(quests, id);
    if i < |quests| then
      quests[i := quests[i].(progress := progress, target := target,
                             status := if progress >= target then 2 else quests[i].status)]
    else quests
  }

  function Rewarded(quests: seq<QuestEntry>, id: uint16): seq<QuestEntry> {
    var i := EntryIndex(quests, id);
    if i < |quests| then quests[i := quests[i].(status := 3)] else quests
  }

  function EnterOrUpdate(v: View, m: Msg): View
    requires m.CharInfo?
  {
    var me := v.me.(level := m.level, exp := m.exp, x := m.x, y := m.y, hp := m.hp, maxHp := m.maxHp, gold := m.gold);
    if v.screen == CharSelect then v.(screen := InGame, me := me.(uid := m.uid))
    else if m.uid == v.me.uid then v.(me := me)
    else v.(others := v.others[m.uid := Other(Clip(m.name, 31), m.x, m.y)])
  }

  /** One message, one handler. */
  function Apply(v: View, m: Msg): View {
    match m
    case CharList => v.(screen := CharSelect)
    case CharInfo(_, _, _, _, _, _, _, _, _) => EnterOrUpdate(v, m)
    case CharLeave(uid) => v.(others := v.others - {uid})
    case MoveResult(x, y) => v.(me := v.me.(x := x, y := y))
    case NpcSpawn(npc, x, y, hp, maxHp) => v.(npcs := v.npcs[npc := NpcView(x, y, hp, maxHp)])
    case NpcDeath(npc, _, gold) => v.(npcs := v.npcs - {npc}, me := v.me.(gold := U64(v.me.gold + gold)))
    case AttackResult(success, npc, _, hp) =>
      if success && npc in v.npcs then v.(npcs := v.npcs[npc := v.npcs[npc].(hp := hp)]) else v
    case ExpUpdate(exp, maxExp) => v.(me := v.me.(exp := exp, maxExp := maxExp))
    case LevelUp(level, hp, maxHp, atk, def) =>
      v.(me := v.me.(level := level, hp := hp, maxHp := maxHp, atk := atk, def := def))
    case ItemDrop(e) => v.(slots := DropSlot(v.slots, e))
    case EquipResult(success, atk, def, weapon, armor) =>
      if success then
        v.(me := v.me.(atk := atk, def := def), weapon := Clip(weapon, 31), armor := Clip(armor, 31))
      else v
    case InventoryUpdate(e) => v.(slots := SetSlot(v.slots, e))
    case InventoryList(es) => v.(slots := SetSlots(v.slots, es))
    case ShopResult(_, _, gold) => v.(me := v.me.(gold := gold))
    case QuestList(quests) => v.(quests := quests)
    case QuestAcceptResult(success, q) => if success then v.(quests := Accepted(v.quests, q)) else v
    case QuestProgressed(q, progress, target) => v.(quests := Progressed(v.quests, q, progress, target))
    case QuestReward(success, q, _, _, _) => if success then v.(quests := Rewarded(v.quests, q)) else v
    case _ => v
  }

  /** Messages that change nothing the replicas compare: at most experience, gold or an NPC's hit points. */
  predicate Neutral(m: Msg) {
    match m
    case LoginResult(_) => true
    case AttendanceInfo => true
    case AttackResult(_, _, _, _) => true
    case ExpUpdate(_, _) => true
    case ItemUseResult(_, _, _) => true
    case EquipResult(success, _, _, _, _) => !success
    case ShopResult(_, _, _) => true
    case QuestAcceptResult(success, _) => !success
    case QuestReward(success, _, _, _, _) => !success
    case PartyInvite(_) => true
    case PartyUpdate(_, _) => true
    case PartyLeave(_) => true
    case Error(_) => true
    case _ => false
  }

  /** The view after handling a whole FIFO log, oldest message first. */
  function Replay(log: seq<Msg>): View {
    if log == [] then NEW_VIEW else Apply(Replay(log[..|log| - 1]), log[|log| - 1])
  }

  /** Whether a quest list is among the messages. */
  predicate ListSent(log: seq<Msg>) { log != [] && (log[|log| - 1].QuestList? || ListSent(log[..|log| - 1])) }

  lemma {:induction false} ListSentIff(log: seq<Msg>)
    ensures ListSent(log) <==> exists m :: m in log && m.QuestList?
    decreases |log|
  {
    if log != [] {
      var front := log[..|log| - 1];
      assert log == front + [log[|log| - 1]];
      ListSentIff(front);
    }
  }

  /** Handling the queued messages on top of an existing view. */
  function ApplyAll(v: View, queue: seq<Msg>): View
    decreases |queue|
  {
    if queue == [] then v else ApplyAll(Apply(v, queue[0]), queue[1..])
  }

  /** A client that has handled any prefix of its log reaches the same view once its queue is drained. */
  lemma {:induction false} DrainedView(log: seq<Msg>, handled: nat)
    requires handled <= |log|
    ensures ApplyAll(Replay(log[..handled]), log[handled..]) == Replay(log)
    decreases |log| - handled
  {
    if handled == |log| {
      assert log[..handled] == log;
    } else {
      assert log[..handled + 1][..handled] == log[..handled];
      assert log[handled..][1..] == log[handled + 1..];
      DrainedView(log, handled + 1);
    }
  }

  lemma ReplaySnoc(log: seq<Msg>, m: Msg)
    ensures Replay(log + [m]) == Apply(Replay(log), m)
    ensures ListSent(log + [m]) == (ListSent(log) || m.QuestList?)
  {
    assert (log + [m])[..|log|] == log;
  }
}

/** The server-to-client messages, with the payload fields the client stores (Common/Protocol.h). */
module Protocol {
  import opened Machine

  datatype QuestEntry = QuestEntry(questId: uint16, name: string, status: uint8, progress: uint16, target: uint16)

  datatype SlotEntry = SlotEntry(slot: uint8, itemId: uint16, name: string)

  /** The packet structs' fixed-size arrays, up to their counts. */
  type QuestEntries = es: seq<QuestEntry> | |es| <= MAX_QUEST_LIST
  type SlotEntries = es: seq<SlotEntry> | |es| <= MAX_INVENTORY

  datatype Msg =
    | LoginResult(account: uint64)
    | CharList
    | CharInfo(uid: uint64, name: string, level: uint16, exp: uint32, x: int, y: int, hp: uint16, maxHp: uint16,
        gold: uint64)
    | CharLeave(uid: uint64)
    | AttendanceInfo
    | MoveResult(x: int, y: int)
    | NpcSpawn(npc: nat, x: int, y: int, hp: uint16, maxHp: uint16)
    | NpcDeath(npc: nat, expReward: uint32, goldReward: uint32)
    | AttackResult(success: bool, npc: nat, damage: uint16, targetHp: uint16)
    | ExpUpdate(exp: uint32, maxExp: uint32)
    | LevelUp(level: uint16, hp: uint16, maxHp: uint16, atk: uint16, def: uint16)
    | ItemDrop(entry: SlotEntry)
    | ItemUseResult(user: uint64, item: string, amount: uint16)
    | EquipResult(success: bool, atk: uint16, def: uint16, weapon: string, armor: string)
    | InventoryUpdate(entry: SlotEntry)
    | InventoryList(entries: SlotEntries)
    | ShopResult(outcome: uint8, itemId: uint16, remainGold: uint64)
    | QuestList(quests: QuestEntries)
    | QuestAcceptResult(success: bool, questId: uint16)
    | QuestProgressed(questId: uint16, progress: uint16, target: uint16)
    | QuestReward(success: bool, questId: uint16, rewardGold: uint32, rewardExp: uint32, rewardItemId: uint16)
    | PartyInvite(inviter: string)
    | PartyUpdate(memberCount: uint8, members: seq<uint64>)
    | PartyLeave(uid: uint64)
    | Error(code: uint16)
}

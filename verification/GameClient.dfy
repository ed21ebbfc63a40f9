/** The client's global state and its message handlers, in place (GameClient/main.cpp:12-100, 213-590). */
module GameClient {
  import opened Machine
  import opened Protocol
  import opened Client

  lemma EntryIndexIs(quests: seq<QuestEntry>, id: uint16, i: nat)
    requires i <= |quests| && (i < |quests| ==> quests[i].questId == id)
    requires forall j | 0 <= j < i :: quests[j].questId != id
    ensures EntryIndex(quests, id) == i
  {
  }

  /** Walking distance on the map. */
  function Distance(n: NpcView, x: int, y: int): nat {
    (if n.x >= x then n.x - x else x - n.x) + if n.y >= y then n.y - y else y - n.y
  }

  class GameClient {
    var screen: Screen
    var myPlayer: Me
    var otherPlayers: map<uint64, Other>
    var npcs: map<nat, NpcView>
    const inventory: array<ClientSlot>
    var equippedWeapon: string
    var equippedArmor: string
    const questEntries: array<QuestEntry>
    var questCount: nat

    ghost predicate Valid()
      reads this
    {
      inventory.Length == MAX_INVENTORY && questEntries.Length == MAX_QUEST_LIST && questCount <= MAX_QUEST_LIST
    }

    ghost function View(): View
      requires Valid()
      reads this, inventory, questEntries
    {
      Client.View(screen, myPlayer, otherPlayers, npcs, inventory[..], equippedWeapon, equippedArmor,
          questEntries[..questCount])
    }

    constructor ()
      ensures Valid() && View() == NEW_VIEW && fresh(inventory) && fresh(questEntries)
    {
      screen, myPlayer := Client.Login, NEW_VIEW.me;
      otherPlayers, npcs := map[], map[];
      inventory := new ClientSlot[MAX_INVENTORY](_ => ClientSlot(0, ""));
      equippedWeapon, equippedArmor := "", "";
      questEntries := new QuestEntry[MAX_QUEST_LIST](_ => QuestEntry(0, "", 0, 0, 0));
      questCount := 0;
      new;
      assert inventory[..] == EMPTY_SLOTS;
    }

    /** One decoded message, one handler. */
    method Handle(m: Msg)
      requires Valid()
      modifies this, inventory, questEntries
      ensures Valid() && View() == Apply(old(View()), m)
    {
      match m
      case CharList => OnCharList(m);
      case CharInfo(_, _, _, _, _, _, _, _, _) => OnCharInfo(m);
      case CharLeave(_) => OnCharLeave(m);
      case MoveResult(_, _) => OnMoveResult(m);
      case NpcSpawn(_, _, _, _, _) => OnNpcSpawn(m);
      case NpcDeath(_, _, _) => OnNpcDeath(m);
      case AttackResult(_, _, _, _) => OnAttackResult(m);
      case ExpUpdate(_, _) => OnExpUpdate(m);
      case LevelUp(_, _, _, _, _) => OnLevelUp(m);
      case ItemDrop(_) => OnItemDrop(m);
      case EquipResult(_, _, _, _, _) => OnEquipResult(m);
      case InventoryUpdate(_) => OnInventoryUpdate(m);
      case InventoryList(_) => OnInventoryList(m);
      case ShopResult(_, _, _) => OnShopResult(m);
      case QuestList(_) => OnQuestListResult(m);
      case QuestAcceptResult(_, _) => OnQuestAcceptResult(m);
      case QuestProgressed(_, _, _) => OnQuestProgressUpdate(m);
      case QuestReward(_, _, _, _, _) => OnQuestRewardResult(m);
      case _ => // the messages that only show a text
    }

    /** Handling everything that has arrived, oldest first. */
    method Drain(queue: seq<Msg>)
      requires Valid()
      modifies this, inventory, questEntries
      ensures Valid() && View() == ApplyAll(old(View()), queue)
    {
      hide Apply;
      var i := 0;
      while i < |queue|
        invariant Valid() && 0 <= i <= |queue|
        invariant ApplyAll(View(), queue[i..]) == ApplyAll(old(View()), queue)
      {
        assert queue[i..][0] == queue[i] && queue[i..][1..] == queue[i + 1..];
        Handle(queue[i]);
        i := i + 1;
      }
    }

    method OnCharList(m: Msg)
      requires Valid() && m.CharList?
      modifies this
      ensures Valid() && View() == Apply(old(View()), m)
    {
      screen := CharSelect;
    }

    method OnCharInfo(m: Msg)
      requires Valid() && m.CharInfo?
      modifies this
      ensures Valid() && View() == Apply(old(View()), m)
    {
      var me := myPlayer.(level := m.level, exp := m.exp, x := m.x, y := m.y, hp := m.hp, maxHp := m.maxHp,
          gold := m.gold);
      if screen == CharSelect {
        screen, myPlayer := InGame, me.(uid := m.uid);
      } else if m.uid == myPlayer.uid {
        myPlayer := me;
      } else {
        otherPlayers := otherPlayers[m.uid := Other(Clip(m.name, 31), m.x, m.y)];
      }
    }

    method OnCharLeave(m: Msg)
      requires Valid() && m.CharLeave?
      modifies this
      ensures Valid() && View() == Apply(old(View()), m)
    {
      otherPlayers := otherPlayers - {m.uid};
    }

    method OnMoveResult(m: Msg)
      requires Valid() && m.MoveResult?
      modifies this
      ensures Valid() && View() == Apply(old(View()), m)
    {
      myPlayer := myPlayer.(x := m.x, y := m.y);
    }

    method OnNpcSpawn(m: Msg)
      requires Valid() && m.NpcSpawn?
      modifies this
      ensures Valid() && View() == Apply(old(View()), m)
    {
      npcs := npcs[m.npc := NpcView(m.x, m.y, m.hp, m.maxHp)];
    }

    method OnNpcDeath(m: Msg)
      requires Valid() && m.NpcDeath?
      modifies this
      ensures Valid() && View() == Apply(old(View()), m)
    {
      npcs := npcs - {m.npc};
      myPlayer := myPlayer.(gold := U64(myPlayer.gold + m.goldReward));
    }

    method OnAttackResult(m: Msg)
      requires Valid() && m.AttackResult?
      modifies this
      ensures Valid() && View() == Apply(old(View()), m)
    {
      if m.success && m.npc in npcs {
        npcs := npcs[m.npc := npcs[m.npc].(hp := m.targetHp)];
      }
    }

    method OnExpUpdate(m: Msg)
      requires Valid() && m.ExpUpdate?
      modifies this
      ensures Valid() && View() == Apply(old(View()), m)
    {
      myPlayer := myPlayer.(exp := m.exp, maxExp := m.maxExp);
    }

    method OnLevelUp(m: Msg)
      requires Valid() && m.LevelUp?
      modifies this
      ensures Valid() && View() == Apply(old(View()), m)
    {
      myPlayer := myPlayer.(level := m.level, hp := m.hp, maxHp := m.maxHp, atk := m.atk, def := m.def);
    }

    method OnItemDrop(m: Msg)
      requires Valid() && m.ItemDrop?
      modifies inventory
      ensures Valid() && View() == Apply(old(View()), m)
    {
      if m.entry.slot < MAX_INVENTORY {
        inventory[m.entry.slot] := ClientSlot(m.entry.itemId, Clip(m.entry.name, 31));
      }
    }

    method OnEquipResult(m: Msg)
      requires Valid() && m.EquipResult?
      modifies this
      ensures Valid() && View() == Apply(old(View()), m)
    {
      if m.success {
        myPlayer := myPlayer.(atk := m.atk, def := m.def);
        equippedWeapon, equippedArmor := Clip(m.weapon, 31), Clip(m.armor, 31);
      }
    }

    method OnInventoryUpdate(m: Msg)
      requires Valid() && m.InventoryUpdate?
      modifies inventory
      ensures Valid() && View() == Apply(old(View()), m)
    {
      StoreSlot(m.entry);
    }

    method OnShopResult(m: Msg)
      requires Valid() && m.ShopResult?
      modifies this
      ensures Valid() && View() == Apply(old(View()), m)
    {
      myPlayer := myPlayer.(gold := m.remainGold);
    }

    method StoreSlot(e: SlotEntry)
      requires Valid()
      modifies inventory
      ensures inventory[..] == SetSlot(old(inventory[..]), e)
    {
      if e.slot < MAX_INVENTORY {
        inventory[e.slot] := ClientSlot(e.itemId, if e.itemId != 0 then Clip(e.name, 31) else "");
      }
    }

    method OnInventoryList(m: Msg)
      requires Valid() && m.InventoryList?
      modifies inventory
      ensures Valid() && View() == Apply(old(View()), m)
    {
      var i := 0;
      while i < |m.entries| && i < MAX_INVENTORY
        invariant 0 <= i <= |m.entries|
        invariant SetSlots(inventory[..], m.entries[i..]) == SetSlots(old(inventory[..]), m.entries)
      {
        assert m.entries[i..][0] == m.entries[i] && m.entries[i..][1..] == m.entries[i + 1..];
        StoreSlot(m.entries[i]);
        i := i + 1;
      }
    }

    method OnQuestListResult(m: Msg)
      requires Valid() && m.QuestList?
      modifies this`questCount, questEntries
      ensures Valid() && View() == Apply(old(View()), m)
    {
      questCount := |m.quests|;
      var i := 0;
      while i < questCount
        invariant 0 <= i <= questCount == |m.quests|
        invariant questEntries[..i] == m.quests[..i]
      {
        questEntries[i] := m.quests[i];
        i := i + 1;
      }
    }

    method FindEntry(id: uint16) returns (i: nat)
      requires Valid()
      ensures i == EntryIndex(questEntries[..questCount], id)
    {
      i := 0;
      while i < questCount
        invariant 0 <= i <= questCount
        invariant forall j | 0 <= j < i :: questEntries[j].questId != id
      {
        if questEntries[i].questId == id {
          break;
        }
        i := i + 1;
      }
      EntryIndexIs(questEntries[..questCount], id, i);
    }

    method OnQuestAcceptResult(m: Msg)
      requires Valid() && m.QuestAcceptResult?
      modifies questEntries
      ensures Valid() && View() == Apply(old(View()), m)
    {
      if m.success {
        var i := FindEntry(m.questId);
        if i < questCount {
          questEntries[i] := questEntries[i].(status := 1, progress := 0);
        }
      }
    }

    method OnQuestProgressUpdate(m: Msg)
      requires Valid() && m.QuestProgressed?
      modifies questEntries
      ensures Valid() && View() == Apply(old(View()), m)
    {
      var i := FindEntry(m.questId);
      if i < questCount {
        questEntries[i] := questEntries[i].(progress := m.progress, target := m.target);
        if m.progress >= m.target {
          questEntries[i] := questEntries[i].(status := 2);
        }
      }
    }

    method OnQuestRewardResult(m: Msg)
      requires Valid() && m.QuestReward?
      modifies questEntries
      ensures Valid() && View() == Apply(old(View()), m)
    {
      if m.success {
        var i := FindEntry(m.questId);
        if i < questCount {
          questEntries[i] := questEntries[i].(status := 3);
        }
      }
    }

    /** How far the player has to walk to a shown NPC. */
    function Reach(uid: nat): nat
      requires uid in npcs
      reads this
    {
      Distance(npcs[uid], myPlayer.x, myPlayer.y)
    }

    /** Every NPC in `seen` is farther than `best`, or as far with a uid not below `nearest`. */
    ghost predicate NoneNearer(seen: set<nat>, nearest: nat, best: nat)
      requires seen <= npcs.Keys
      reads this
    {
      forall u | u in seen :: best < Reach(u) || (best == Reach(u) && nearest <= u)
    }

    /** The attack key's target: a nearest NPC, the lowest uid among equals; 0 when none is shown. */
    method FindNearestNpc() returns (nearest: nat)
      ensures if npcs == map[] then nearest == 0
              else nearest in npcs && NoneNearer(npcs.Keys, nearest, Reach(nearest))
    {
      nearest := 0;
      var seen: set<nat>, left := {}, npcs.Keys;
      var best: nat := 0;
      while left != {}
        invariant seen + left == npcs.Keys && seen !! left
        invariant forall a, b | a in seen && b in left :: a < b
        invariant if seen == {} then nearest == 0 else nearest in seen && best == Reach(nearest)
        invariant NoneNearer(seen, nearest, best)
        decreases left
      {
        var uid := Least(left);
        if seen == {} || Reach(uid) < best {
          best, nearest := Reach(uid), uid;
        }
        seen, left := seen + {uid}, left - {uid};
      }
      assert seen == npcs.Keys;
      assert seen == {} ==> npcs == map[];
    }
  }
}

/** The NPCs every client shows, over all runs: nothing is asked of the clients. */
module NpcReplica {
  import opened Machine
  import opened Tables
  import opened Protocol
  import opened Client
  import opened Character
  import opened Replica
  import opened Server
  import opened Frames
  import opened Replication
  import opened Runs
  import Party

  /** The uids and positions the drained client shows. */
  function Shown(c: State): map<nat, (int, int)> { Places(Replay(c.sent).npcs) }

  /** A client in the game shows the living NPCs; before that it shows none. */
  ghost predicate ShownRight(c: State, npcs: seq<Npc>) {
    c.connected ==> if c.player.loggedIn then Mirrors(Shown(c), npcs) else Shown(c) == map[]
  }

  ghost predicate AllRight(w: World) { forall s | s in w.sessions :: ShownRight(w.sessions[s], w.npcs) }

  // ---------------------------------------------------------------- steps that leave the NPCs alone

  ghost predicate Quiet(c: State, d: State) {
    d.connected == c.connected && d.player.loggedIn == c.player.loggedIn && Shown(d) == Shown(c)
  }

  ghost predicate AllQuiet(w: World, v: World) {
    && v.sessions.Keys == w.sessions.Keys && v.npcs == w.npcs
    && forall s | s in w.sessions :: Quiet(w.sessions[s], v.sessions[s])
  }

  lemma QuietKeeps(w: World, v: World)
    requires AllRight(w) && AllQuiet(w, v)
    ensures AllRight(v)
  {
    hide Shown, Mirrors;
    forall s | s in v.sessions ensures ShownRight(v.sessions[s], v.npcs) {
      assert ShownRight(w.sessions[s], w.npcs) && Quiet(w.sessions[s], v.sessions[s]);
    }
  }

  predicate NpcNotice(m: Msg) { m.NpcSpawn? || m.NpcDeath? }

  lemma ApplyQuiet(v: View, m: Msg)
    requires !NpcNotice(m)
    ensures Places(Apply(v, m).npcs) == Places(v.npcs)
  {
    hide SetSlot, SetSlots, DropSlot, Accepted, Progressed, Rewarded, Clip;
    assert Apply(v, m).npcs == v.npcs || m.AttackResult?;
  }

  lemma SendQuiet(c: State, m: Msg)
    requires !NpcNotice(m)
    ensures Quiet(c, Send(c, m))
  {
    hide Replay, ListSent, Apply, Places;
    ApplyQuiet(Replay(c.sent), m);
  }

  /** Changes outside the log that keep the session in or out of the game. */
  lemma StateQuiet(c: State, d: State)
    requires d.sent == c.sent && d.connected == c.connected && d.player.loggedIn == c.player.loggedIn
    ensures Quiet(c, d)
  {
  }

  lemma ChangeSendQuiet(c: State, d: State, m: Msg)
    requires d.sent == c.sent && d.connected == c.connected && d.player.loggedIn == c.player.loggedIn && !NpcNotice(m)
    ensures Quiet(c, Send(d, m))
  {
    hide Shown;
    StateQuiet(c, d);
    SendQuiet(d, m);
  }

  lemma InfoQuiet(c: State)
    ensures Quiet(c, SendCharInfo(c))
  {
    hide Shown;
    SendQuiet(c, OwnInfo(c.player));
  }

  lemma {:induction false} LevelUpsQuiet(c: State)
    ensures Quiet(c, CheckLevelUp(c))
    decreases c.player.exp, ZeroTurns(c.player)
  {
    hide Shown;
    if c.player.exp >= c.player.maxExp {
      var d := c.(player := LevelOnce(c.player));
      ChangeSendQuiet(c, d, LevelUpMsg(d.player));
      LevelUpsQuiet(Send(d, LevelUpMsg(d.player)));
    }
  }

  lemma AwardQuiet(c: State, exp: nat, gold: nat)
    ensures Quiet(c, Award(c, exp, gold))
  {
    hide Shown, Send, CheckLevelUp;
    var g := Gain(c, exp, gold);
    var m := ExpUpdate(U32(g.player.exp), g.player.maxExp);
    ChangeSendQuiet(c, g, m);
    LevelUpsQuiet(Send(g, m));
  }

  lemma ReceiveQuiet(t: Data, c: State, tid: uint16, uid: uint64)
    ensures Quiet(c, Receive(t, c, tid, uid))
  {
    hide Shown, Send, SlotMsg;
    var slot := FindEmpty(c.inv.slots);
    if slot < MAX_INVENTORY {
      ChangeSendQuiet(c, PutSlot(c, slot, InvSlot(uid, tid)), ItemDrop(SlotMsg(t, slot, tid)));
    }
  }

  lemma EquipQuiet(t: Data, c: State, slot: nat)
    ensures Quiet(c, OnItemEquip(t, c, slot))
  {
    hide Shown, Send, SlotMsg, SendCharInfo;
    if Occupied(c, slot) && FindItem(t, c.inv.slots[slot].tid).Some? {
      var it := FindItem(t, c.inv.slots[slot].tid).value;
      if it.kind == Consumable {
        SendQuiet(c, EquipResult(false, 0, 0, "", ""));
      } else {
        var w := Wear(c, slot, it);
        var e := Send(w, EquipMsg(t, w));
        var u := InventoryUpdate(SlotMsg(t, slot, w.inv.slots[slot].tid));
        ChangeSendQuiet(c, w, EquipMsg(t, w));
        SendQuiet(e, u);
        InfoQuiet(Send(e, u));
      }
    }
  }

  lemma BuyQuiet(t: Data, c: State, tid: uint16, uid: uint64)
    ensures Quiet(c, OnShopBuy(t, c, tid, uid))
  {
    hide Shown, Send, SlotMsg;
    SendQuiet(c, ShopResult(0, 0, c.player.gold));
    match FindItem(t, tid)
    case None =>
    case Some(it) =>
      var slot := FindEmpty(c.inv.slots);
      if c.player.gold >= it.price && slot < MAX_INVENTORY {
        var b := PutSlot(c.(player := c.player.(gold := c.player.gold - it.price)), slot, InvSlot(uid, tid));
        var u := InventoryUpdate(SlotMsg(t, slot, tid));
        ChangeSendQuiet(c, b, u);
        SendQuiet(Send(b, u), ShopResult(1, tid, b.player.gold));
      }
  }

  lemma SellQuiet(t: Data, c: State, slot: nat)
    ensures Quiet(c, OnShopSell(t, c, slot))
  {
    hide Shown, Send, SlotMsg, U64;
    SendQuiet(c, ShopResult(0, 0, 0));
    if Occupied(c, slot) {
      var tid := c.inv.slots[slot].tid;
      var s := PutSlot(c.(player := c.player.(gold := U64(c.player.gold + Price(t, tid) / 5))), slot, NO_ITEM);
      var u := InventoryUpdate(SlotMsg(t, slot, 0));
      ChangeSendQuiet(c, s, u);
      SendQuiet(Send(s, u), ShopResult(2, tid, s.player.gold));
    }
  }

  lemma QuestsQuiet(t: Data, c: State, id: uint16)
    ensures Quiet(c, OnQuestList(t, c)) && Quiet(c, OnQuestAccept(t, c, id))
  {
    hide Shown, Send, Entries;
    SendQuiet(c, Error(3));
    SendQuiet(c, QuestList(Entries(t.quests, c.quests, Listed(t))));
    SendQuiet(c, QuestAcceptResult(false, id));
    ChangeSendQuiet(c, c.(quests := c.quests[id := Quest(1, 0)]), QuestAcceptResult(true, id));
  }

  lemma RewardsQuiet(t: Data, c: State, q: QuestData, uid: uint64)
    ensures Quiet(c, Rewards(t, c, q, uid))
  {
    hide Shown, Send, Receive, CheckLevelUp, SendCharInfo;
    var g := Gain(c, q.rewardExp, q.rewardGold);
    StateQuiet(c, g);
    ReceiveQuiet(t, g, q.rewardItemId, uid);
    var given := Receive(t, g, q.rewardItemId, uid);
    var m := ExpUpdate(U32(given.player.exp), given.player.maxExp);
    SendQuiet(given, m);
    LevelUpsQuiet(Send(given, m));
    InfoQuiet(CheckLevelUp(Send(given, m)));
  }

  lemma CompleteQuiet(t: Data, c: State, id: uint16, uid: uint64)
    ensures Quiet(c, OnQuestComplete(t, c, id, uid))
  {
    hide Shown, Send, Rewards;
    SendQuiet(c, QuestReward(false, id, 0, 0, 0));
    if Completable(t, c, id) {
      var q := FindQuest(t, id).value;
      var done := c.(quests := c.quests[id := c.quests[id].(status := 3)]);
      StateQuiet(c, done);
      RewardsQuiet(t, done, q, uid);
      SendQuiet(Rewards(t, done, q, uid), QuestReward(true, id, q.rewardGold, q.rewardExp, q.rewardItemId));
    }
  }

  lemma {:induction false} TicksQuiet(t: Data, c: State, db: QuestTable, ids: set<uint16>)
    ensures Quiet(c, TickAll(t, c, db, ids).0)
    decreases |ids|
  {
    hide Shown, Send;
    if ids != {} {
      var id := Least(ids);
      var (c', db') := TickOne(t, c, db, id);
      if Counting(t, c.quests, id) {
        var q := Ticked(t, c.quests[id], id);
        ChangeSendQuiet(c, c.(quests := c.quests[id := q]),
            QuestProgressed(id, q.progress, FindQuest(t, id).value.target));
      }
      TicksQuiet(t, c', db', ids - {id});
    }
  }

  lemma LoadQuiet(t: Data, c: State, r: Record)
    ensures Quiet(c, LoadInventory(t, c, r))
  {
    hide Replay, ListSent;
    LoadKeeps(t, c, r);
    if !c.connected { assert LoadInventory(t, c, r).sent == c.sent; }
  }

  // ---------------------------------------------------------------- the world

  lemma PutQuiet(w: World, s: SessionId, c: State)
    requires s in w.sessions && Quiet(w.sessions[s], c)
    ensures AllQuiet(w, Put(w, s, c))
  {
    hide Shown;
  }

  lemma QuietTrans(w: World, v: World, u: World)
    requires AllQuiet(w, v) && AllQuiet(v, u)
    ensures AllQuiet(w, u)
  {
    hide Shown;
    forall s | s in w.sessions ensures Quiet(w.sessions[s], u.sessions[s]) {
      assert Quiet(w.sessions[s], v.sessions[s]) && Quiet(v.sessions[s], u.sessions[s]);
    }
  }

  lemma {:induction false} ToldQuiet(c: State, d: State)
    requires Told(c, d)
    ensures Quiet(c, d)
    decreases |d.sent|
  {
    hide Shown;
    if |d.sent| > |c.sent| {
      var n := |d.sent| - 1;
      var front := d.(sent := d.sent[..n]);
      assert d.sent == d.sent[..n] + [d.sent[n]];
      ToldQuiet(c, front);
      SendQuiet(front, d.sent[n]);
    } else {
      assert d == c;
    }
  }

  lemma ToldAllQuiet(w: World, v: World)
    requires AllTold(w, v)
    ensures AllQuiet(w, v)
  {
    hide Told, Shown;
    forall s | s in w.sessions ensures Quiet(w.sessions[s], v.sessions[s]) { ToldQuiet(w.sessions[s], v.sessions[s]); }
  }

  lemma BroadcastQuiet(w: World, except: Option<SessionId>, m: Msg)
    requires !NpcNotice(m)
    ensures AllQuiet(w, BroadcastExcept(w, except, m))
  {
    hide Shown, Send;
    forall s | s in w.sessions ensures Quiet(w.sessions[s], BroadcastExcept(w, except, m).sessions[s]) {
      SendQuiet(w.sessions[s], m);
    }
  }

  lemma SelfQuiet(w: World)
    ensures AllQuiet(w, w)
  {
  }

  lemma CreditQuiet(t: Data, w: World, s: SessionId)
    requires s in w.sessions
    ensures AllQuiet(w, CreditQuests(t, w, s))
  {
    hide Quiet, TickAll;
    var c := w.sessions[s];
    TicksQuiet(t, c, w.quests, c.quests.Keys);
    PutQuiet(w, s, UpdateQuestProgress(t, c, w.quests).0);
  }

  lemma {:induction false} ShareQuiet(t: Data, w: World, members: seq<SessionId>, killer: SessionId, exp: nat,
          gold: nat)
    ensures AllQuiet(w, Share(t, w, members, killer, exp, gold))
    decreases |members|
  {
    hide Quiet, Award, CreditQuests;
    SelfQuiet(w);
    if members != [] {
      var m, r := members[0], Share(t, w, members, killer, exp, gold);
      if m !in w.sessions {
        ShareQuiet(t, w, members[1..], killer, exp, gold);
      } else {
        var paid := Put(w, m, Award(w.sessions[m], exp, gold));
        AwardQuiet(w.sessions[m], exp, gold);
        PutQuiet(w, m, Award(w.sessions[m], exp, gold));
        CreditQuiet(t, paid, m);
        var next := if m != killer then CreditQuests(t, paid, m) else paid;
        if m != killer { QuietTrans(w, paid, next); }
        ShareQuiet(t, next, members[1..], killer, exp, gold);
        QuietTrans(w, next, r);
      }
    }
  }

  lemma PayQuiet(t: Data, w: World, s: SessionId)
    requires s in w.sessions && (Sharers(w, s).Some? ==> |Sharers(w, s).value| > 0)
    ensures AllQuiet(w, PayKill(t, w, s))
  {
    hide Quiet, Award, Share;
    match Sharers(w, s)
    case Some(members) => ShareQuiet(t, w, members, s, Part(NPC_EXP, |members|), Part(NPC_GOLD, |members|));
    case None =>
      AwardQuiet(w.sessions[s], NPC_EXP, NPC_GOLD);
      PutQuiet(w, s, Award(w.sessions[s], NPC_EXP, NPC_GOLD));
  }

  lemma UseQuiet(t: Data, w: World, s: SessionId, slot: nat)
    requires s in w.sessions
    ensures AllQuiet(w, OnItemUse(t, w, s, slot))
  {
    hide Quiet, BroadcastExcept, Consume, SendCharInfo, Send;
    SelfQuiet(w);
    match Usable(t, w.sessions[s], slot)
    case None =>
    case Some(it) =>
      var c := Consume(w.sessions[s], slot, it);
      ConsumeQuiet(w.sessions[s], slot, it);
      PutQuiet(w, s, c);
      var told := Broadcast(Put(w, s, c), UsedMsg(c.player, it));
      BroadcastQuiet(Put(w, s, c), None, UsedMsg(c.player, it));
      QuietTrans(w, Put(w, s, c), told);
      AfterUseQuiet(t, told.sessions[s], slot);
      PutQuiet(told, s, AfterUse(t, told.sessions[s], slot));
      QuietTrans(w, told, OnItemUse(t, w, s, slot));
  }

  lemma ConsumeQuiet(c: State, slot: nat, it: ItemData)
    requires slot < MAX_INVENTORY
    ensures Quiet(c, Consume(c, slot, it))
  {
    hide Shown;
    StateQuiet(c, Consume(c, slot, it));
  }

  lemma AfterUseQuiet(t: Data, c: State, slot: nat)
    requires slot < MAX_INVENTORY
    ensures Quiet(c, AfterUse(t, c, slot))
  {
    hide Shown, Send, SlotMsg, SendCharInfo;
    var u := InventoryUpdate(SlotMsg(t, slot, 0));
    SendQuiet(c, u);
    InfoQuiet(Send(c, u));
  }

  lemma MoveQuiet(w: World, s: SessionId, dx: int, dy: int)
    requires s in w.sessions
    ensures AllQuiet(w, OnMove(w, s, dx, dy))
  {
    hide Quiet, BroadcastExcept, Moved;
    var c := Moved(w.sessions[s], dx, dy);
    MovedQuiet(w.sessions[s], dx, dy);
    PutQuiet(w, s, c);
    BroadcastQuiet(Put(w, s, c), Some(s), OtherInfo(c.player));
    QuietTrans(w, Put(w, s, c), OnMove(w, s, dx, dy));
  }

  lemma MovedQuiet(c: State, dx: int, dy: int)
    ensures Quiet(c, Moved(c, dx, dy))
  {
    hide Shown, Send, I16;
    var x, y := I16(c.player.x + dx), I16(c.player.y + dy);
    var m := if 0 <= x < MAP_SIZE && 0 <= y < MAP_SIZE then c.(player := c.player.(x := x, y := y)) else c;
    ChangeSendQuiet(c, m, MoveResult(m.player.x, m.player.y));
  }

  lemma LoginQuiet(w: World, s: SessionId, account: uint64)
    requires s in w.sessions
    ensures AllQuiet(w, OnLogin(w, s, account))
  {
    hide Shown, Send;
    var c := w.sessions[s].(player := w.sessions[s].player.(accountUid := account));
    ChangeSendQuiet(w.sessions[s], c, LoginResult(account));
    SendQuiet(Send(c, LoginResult(account)), CharList);
    PutQuiet(w, s, Send(Send(c, LoginResult(account)), CharList));
  }

  // ---------------------------------------------------------------- deaths, spawns, hits

  lemma NoticeShown(c: State, m: Msg)
    requires NpcNotice(m) && c.connected
    ensures Shown(Send(c, m)) == if m.NpcSpawn? then Shown(c)[m.npc := (m.x, m.y)] else Shown(c) - {m.npc}
  {
    hide Replay, ListSent;
  }

  lemma DeathRight(w: World, i: nat)
    requires AllRight(w) && i < |w.npcs| && w.npcs[i].alive && DistinctUids(w.npcs)
    ensures AllRight(Death(w, i))
  {
    hide Shown, Mirrors, Send;
    var m := NpcDeath(w.npcs[i].uid, NPC_EXP, NPC_GOLD);
    var r := Death(w, i);
    forall s | s in r.sessions ensures ShownRight(r.sessions[s], r.npcs) {
      var c := w.sessions[s];
      assert ShownRight(c, w.npcs);
      if c.connected && c.player.loggedIn {
        NoticeShown(c, m);
        DeathMirrored(Shown(c), w.npcs, i);
      }
    }
  }

  lemma RespawnRight(w: World, x: nat, y: nat)
    requires AllRight(w) && forall j | 0 <= j < |w.npcs| :: w.npcs[j].uid < w.nextNpcUid
    ensures AllRight(Respawn(w, x, y))
  {
    hide Shown, Mirrors, Send;
    var i := DeadIndex(w.npcs);
    if i < |w.npcs| {
      var n := Npc(w.nextNpcUid, x % MAP_SIZE, y % MAP_SIZE, NPC_HP, true);
      var r := Respawn(w, x, y);
      forall s | s in r.sessions ensures ShownRight(r.sessions[s], r.npcs) {
        var c := w.sessions[s];
        assert ShownRight(c, w.npcs);
        if c.connected && c.player.loggedIn {
          NoticeShown(c, SpawnMsg(n));
          SpawnMirrored(Shown(c), w.npcs, i, n);
        }
      }
    }
  }

  lemma HitRight(w: World, s: SessionId, i: nat)
    requires AllRight(w) && s in w.sessions && i < |w.npcs|
    ensures AllRight(Hit(w, s, i))
  {
    hide Shown, Mirrors, Quiet;
    var n := w.npcs[i].(hp := HpAfter(w.sessions[s].player, w.npcs[i]));
    var hurt := w.(npcs := w.npcs[i := n]);
    forall o | o in hurt.sessions ensures ShownRight(hurt.sessions[o], hurt.npcs) {
      var c := w.sessions[o];
      assert ShownRight(c, w.npcs);
      if c.connected && c.player.loggedIn { HitMirrored(Shown(c), w.npcs, i, n); }
    }
    var m := AttackResult(true, n.uid, Damage(w.sessions[s].player), n.hp);
    SendToTold(hurt, s, m);
    ToldAllQuiet(hurt, SendTo(hurt, s, m));
    QuietKeeps(hurt, SendTo(hurt, s, m));
  }

  lemma KillRight(t: Data, w: World, s: SessionId, i: nat, luck: Luck)
    requires AllRight(w) && s in w.sessions && i < |w.npcs| && w.npcs[i].alive && DistinctUids(w.npcs)
    requires (forall j | 0 <= j < |w.npcs| :: w.npcs[j].uid < w.nextNpcUid)
             && (Sharers(w, s).Some? ==> |Sharers(w, s).value| > 0)
    ensures AllRight(Killed(t, w, s, i, luck))
  {
    hide AllRight, Quiet, PayKill, CreditQuests, Receive, Death, Respawn, Sharers, Dropped;
    DeathRight(w, i);
    var dead := Death(w, i);
    DeathKeeps(w, i, s);
    PayQuiet(t, dead, s);
    var paid := PayKill(t, dead, s);
    CreditQuiet(t, paid, s);
    var credited := CreditQuests(t, paid, s);
    QuietTrans(dead, paid, credited);
    var looted := Loot(t, credited, s, luck);
    ReceiveQuiet(t, credited.sessions[s], Dropped(t.drops, luck.rand), luck.itemUid);
    PutQuiet(credited, s, Receive(t, credited.sessions[s], Dropped(t.drops, luck.rand), luck.itemUid));
    QuietTrans(dead, credited, looted);
    QuietKeeps(dead, looted);
    RespawnRight(looted, luck.x, luck.y);
  }

  lemma AttackRight(t: Data, w: World, s: SessionId, uid: nat, luck: Luck)
    requires AllRight(w) && NpcsOk(w.npcs, w.nextNpcUid) && s in w.sessions
             && (Sharers(w, s).Some? ==> |Sharers(w, s).value| > 0)
    ensures AllRight(OnAttack(t, w, s, uid, luck))
  {
    hide AllRight, Quiet, Killed, SendTo;
    match Target(w, s, uid)
    case None =>
      SendToTold(w, s, AttackResult(false, 0, 0, 0));
      ToldAllQuiet(w, SendTo(w, s, AttackResult(false, 0, 0, 0)));
      QuietKeeps(w, SendTo(w, s, AttackResult(false, 0, 0, 0)));
    case Some(i) =>
      HitRight(w, s, i);
      if Hit(w, s, i).npcs[i].hp == 0 { KillRight(t, Hit(w, s, i), s, i, luck); }
  }

  // ---------------------------------------------------------------- entering and leaving

  lemma {:induction false} PlayersQuiet(c: State, sessions: Sessions, ids: set<SessionId>)
    requires ids <= sessions.Keys
    ensures Quiet(c, SendPlayers(c, sessions, ids))
    decreases |ids|
  {
    hide Shown, Send;
    if ids != {} {
      var o := Least(ids);
      var p := sessions[o].player;
      SendQuiet(c, OtherInfo(p));
      PlayersQuiet(if p.loggedIn then Send(c, OtherInfo(p)) else c, sessions, ids - {o});
    }
  }

  /** A select shows the living NPCs, a first one as well as a repeated one. */
  lemma SelectedRight(t: Data, w: World, s: SessionId, charUid: uint64, r: Record, x: nat, y: nat)
    requires AllRight(w) && DistinctUids(w.npcs) && s in w.sessions
    ensures ShownRight(Selected(t, w, s, charUid, r, x, y), w.npcs)
  {
    hide Replay, ListSent, Mirrors, AddNpcs, LoadInventory, Send;
    var before := w.sessions[s];
    assert ShownRight(before, w.npcs);
    var entered := Entered(before, charUid, r, x, y);
    InfoQuiet(entered);
    var first := SendCharInfo(entered);
    var all := SendAllNpcs(first, w.npcs);
    NpcsSent(first, w.npcs);
    var ids := w.sessions.Keys - {s};
    PlayersQuiet(all, w.sessions, ids);
    var met := SendPlayers(all, w.sessions, ids);
    SendQuiet(met, AttendanceInfo);
    LoadQuiet(t, Send(met, AttendanceInfo), r);
    SelectForm(t, w, s, charUid, r, x, y);
    if before.connected {
      forall u | u in Replay(first.sent).npcs ensures NpcIndex(w.npcs, u) < |w.npcs| {
        assert u in Shown(first) && Shown(first) == Shown(before);
        MirroredAlive(Shown(before), w.npcs, u, before.player.loggedIn);
      }
      AllNpcsMirrored(Replay(first.sent).npcs, w.npcs);
    }
  }

  lemma MirroredAlive(shown: map<nat, (int, int)>, npcs: seq<Npc>, u: nat, playing: bool)
    requires if playing then Mirrors(shown, npcs) else shown == map[]
    requires u in shown
    ensures NpcIndex(npcs, u) < |npcs|
  {
  }

  lemma SelectRight(t: Data, w: World, s: SessionId, charUid: uint64, found: Option<Record>, x: nat, y: nat)
    requires AllRight(w) && DistinctUids(w.npcs) && s in w.sessions
    ensures AllRight(OnCharSelect(t, w, s, charUid, found, x, y))
  {
    hide ShownRight, Quiet, Selected, OnCharSelect;
    match found
    case None =>
      RefusedForm(t, w, s, charUid, x, y);
      SendToTold(w, s, Error(1));
      ToldAllQuiet(w, SendTo(w, s, Error(1)));
      QuietKeeps(w, SendTo(w, s, Error(1)));
    case Some(r) =>
      var c := Selected(t, w, s, charUid, r, x, y);
      SelectForm(t, w, s, charUid, r, x, y);
      SelectedRight(t, w, s, charUid, r, x, y);
      BroadcastQuiet(Put(w, s, c), Some(s), OtherInfo(c.player));
      QuietKeeps(Put(w, s, c), OnCharSelect(t, w, s, charUid, found, x, y));
  }

  lemma ConnectRight(w: World)
    requires AllRight(w)
    ensures AllRight(OnConnect(w))
  {
    hide Mirrors;
    assert Shown(NEW_SESSION) == map[];
  }

  lemma DisconnectRight(w: World, s: SessionId)
    requires AllRight(w) && s in w.sessions
    ensures AllRight(OnDisconnect(w, s))
  {
    hide ShownRight, Quiet, RemoveFromParty, BroadcastExcept;
    RemoveTold(w, s);
    ToldAllQuiet(w, RemoveFromParty(w, s));
    RemoveOnlySent(w, s);
    var left := RemoveFromParty(w, s);
    var cleared := left.(parties := left.parties.(pending := left.parties.pending - {s}));
    var m := CharLeave(w.sessions[s].player.accountUid);
    BroadcastQuiet(cleared, Some(s), m);
    QuietKeeps(w, cleared);
    QuietKeeps(cleared, BroadcastExcept(cleared, Some(s), m));
  }

  // ---------------------------------------------------------------- runs

  lemma StepRight(t: Data, w: World, e: Event)
    requires Enabled(w, e) && AllRight(w) && NpcsOk(w.npcs, w.nextNpcUid)
    ensures AllRight(Step(t, w, e))
  {
    hide ShownRight, AllQuiet, OnAttack, OnCharSelect, OnItemUse, OnItemEquip, OnShopBuy, OnShopSell, OnQuestList,
      OnQuestAccept, OnQuestComplete, OnDisconnect, OnConnect, RemoveFromParty, OnPartyInvite, OnPartyAccept, OnMove,
      OnLogin, SendTo, Quiet;
    var r := Step(t, w, e);
    if e.Connect? {
      ConnectRight(w);
    } else if e.WriteFails? {
      CutOffRight(w, e.s);
    } else if e.Disconnect? {
      DisconnectRight(w, e.s);
    } else if e.Select? {
      SelectRight(t, w, e.s, e.charUid, e.found, e.x, e.y);
    } else if e.Attack? {
      AttackRight(t, w, e.s, e.uid, e.luck);
    } else {
      StepQuiet(t, w, e);
      QuietKeeps(w, r);
    }
  }

  lemma CutOffRight(w: World, s: SessionId)
    requires AllRight(w) && s in w.sessions
    ensures AllRight(Put(w, s, w.sessions[s].(connected := false)))
  {
    hide Mirrors;
    var r := Put(w, s, w.sessions[s].(connected := false));
    forall o | o in r.sessions ensures ShownRight(r.sessions[o], r.npcs) { assert ShownRight(w.sessions[o], w.npcs); }
  }

  lemma StepQuiet(t: Data, w: World, e: Event)
    requires Enabled(w, e) && !e.Connect? && !e.WriteFails? && !e.Disconnect? && !e.Select? && !e.Attack?
    ensures AllQuiet(w, Step(t, w, e))
  {
    hide AllQuiet, Quiet, OnItemUse, OnItemEquip, OnShopBuy, OnShopSell, OnQuestList, OnQuestAccept, OnQuestComplete,
      RemoveFromParty, OnPartyInvite, OnPartyAccept, OnMove, OnLogin, SendTo;
    var s, c := e.s, w.sessions[e.s];
    if e.Login? {
      LoginQuiet(w, s, e.account);
    } else if e.AskCharList? {
      SendQuiet(c, CharList);
      PutQuiet(w, s, Send(c, CharList));
      SendToLive(w, s, CharList);
    } else if e.Move? {
      MoveQuiet(w, s, e.dx, e.dy);
    } else if e.UseItem? {
      UseQuiet(t, w, s, e.slot);
    } else if e.EquipItem? {
      EquipQuiet(t, c, e.slot);
      PutQuiet(w, s, OnItemEquip(t, c, e.slot));
    } else if e.Buy? {
      BuyQuiet(t, c, e.tid, e.itemUid);
      PutQuiet(w, s, OnShopBuy(t, c, e.tid, e.itemUid));
    } else if e.Sell? {
      SellQuiet(t, c, e.slot);
      PutQuiet(w, s, OnShopSell(t, c, e.slot));
    } else if e.AskQuests? {
      QuestsQuiet(t, c, 0);
      PutQuiet(w, s, OnQuestList(t, c));
    } else if e.AcceptQuest? {
      QuestsQuiet(t, c, e.quest);
      PutQuiet(w, s, OnQuestAccept(t, c, e.quest));
      RowsQuiet(w, Put(w, s, OnQuestAccept(t, c, e.quest)), Step(t, w, e));
    } else if e.CompleteQuest? {
      CompleteQuiet(t, c, e.quest, e.itemUid);
      PutQuiet(w, s, OnQuestComplete(t, c, e.quest, e.itemUid));
      RowsQuiet(w, Put(w, s, OnQuestComplete(t, c, e.quest, e.itemUid)), Step(t, w, e));
    } else {
      PartyOnlySent(t, w, e);
      ToldAllQuiet(w, Step(t, w, e));
    }
  }

  lemma RowsQuiet(w: World, v: World, u: World)
    requires AllQuiet(w, v) && u == v.(quests := u.quests)
    ensures AllQuiet(w, u)
  {
  }

  lemma {:induction false} RunRight(t: Data, w: World, es: seq<Event>, rules: Rules)
    requires (rules.disciplined ==> WellFormed(t)) && Invariant(t, w, rules) && Run(t, w, es, rules) && AllRight(w)
    ensures AllRight(After(t, w, es, rules))
    decreases |es|
  {
    hide Step, AllRight, Party.Safe, NpcsOk;
    if es != [] {
      StepRight(t, w, es[0]);
      StepKeeps(t, w, es[0], rules);
      RunRight(t, Step(t, w, es[0]), es[1..], rules);
    }
  }

  /** NPC replica, with no rule for the clients: in every reachable state, every connected client in the game that has
      handled any prefix of what it was sent shows, once drained, exactly the living NPCs at their positions. */
  lemma NpcReplicas(t: Data, w: World, es: seq<Event>, rules: Rules, s: SessionId, handled: nat)
    requires (rules.disciplined ==> WellFormed(t)) && Initial(w) && Run(t, w, es, rules)
    requires s in After(t, w, es, rules).sessions && After(t, w, es, rules).sessions[s].connected
    requires After(t, w, es, rules).sessions[s].player.loggedIn && handled <= |After(t, w, es, rules).sessions[s].sent|
    ensures var r := After(t, w, es, rules); var log := r.sessions[s].sent;
            Mirrors(Places(ApplyAll(Replay(log[..handled]), log[handled..]).npcs), r.npcs)
  {
    hide Mirrors, Step;
    InitialInvariant(t, w, rules);
    RunRight(t, w, es, rules);
    var c := After(t, w, es, rules).sessions[s];
    assert ShownRight(c, After(t, w, es, rules).npcs);
    DrainedView(c.sent, handled);
  }
}

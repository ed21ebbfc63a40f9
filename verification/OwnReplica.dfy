/** One client's own state and quest list, over runs in which only that client keeps to the protocol. */
module OwnReplica {
  import opened Machine
  import opened Tables
  import opened Protocol
  import opened Client
  import opened Character
  import opened Replica
  import opened Server
  import opened Frames
  import opened Replication
  import opened Runs

  /** Session s itself asks for what its screen allows; the items it loads are known. */
  ghost predicate OwnRules(t: Data, w: World, e: Event, s: SessionId)
    requires s in w.sessions
  {
    var p := w.sessions[s].player;
    e.Connect? || e.s != s ||
    match e
    case WriteFails(_) => true
    case Disconnect(_) => true
    case Login(_, account) => !p.loggedIn && account != 0
    case AskCharList(_) => !p.loggedIn && p.accountUid != 0
    case Select(_, _, found, _, _) => found.Some? ==> !p.loggedIn && p.accountUid != 0 && BagKnown(t, found.value)
    case _ => p.loggedIn
  }

  /** Nobody else has logged in under the account of session s. */
  ghost predicate Alone(w: World, s: SessionId)
    requires s in w.sessions
  {
    w.sessions[s].player.accountUid != 0 ==>
      forall o | o in w.sessions && o != s :: w.sessions[o].player.accountUid != w.sessions[s].player.accountUid
  }

  // ---------------------------------------------------------------- the session's own events

  lemma FromLocal(t: Data, c: State, d: State)
    requires Synced(t, c) && Local(t, c, d)
    ensures Synced(t, d)
  {
  }

  lemma SelectedOwn(t: Data, w: World, s: SessionId, charUid: uint64, r: Record, x: nat, y: nat)
    requires WellFormed(t) && s in w.sessions && Synced(t, w.sessions[s]) && Alone(w, s) && BagKnown(t, r)
    requires !w.sessions[s].player.loggedIn && w.sessions[s].player.accountUid != 0
    ensures Synced(t, Selected(t, w, s, charUid, r, x, y))
  {
    hide Replay, ListSent, LoadInventory, AddNpcs, AddPlayers, BagKnown;
    var c := Selected(t, w, s, charUid, r, x, y);
    var first := SendCharInfo(Entered(w.sessions[s], charUid, r, x, y));
    var entered := SendAllNpcs(first, w.npcs);
    var ids := w.sessions.Keys - {s};
    SelectForm(t, w, s, charUid, r, x, y);
    if c.connected {
      SentOnly(first, w.npcs, w.sessions, ids);
      NpcsSent(first, w.npcs);
      PlayersSent(entered, w.sessions, ids);
      var met := Send(SendPlayers(entered, w.sessions, ids), AttendanceInfo);
      NothingShown(t, Replay(w.sessions[s].sent));
      LoadAgreesIff(t, met, r);
      LoadKeeps(t, met, r);
    }
  }

  lemma OwnSelect(t: Data, w: World, s: SessionId, charUid: uint64, found: Option<Record>, x: nat, y: nat)
    requires WellFormed(t) && s in w.sessions && Synced(t, w.sessions[s]) && Alone(w, s)
    requires OwnRules(t, w, Select(s, charUid, found, x, y), s)
    ensures Synced(t, OnCharSelect(t, w, s, charUid, found, x, y).sessions[s])
  {
    hide Synced, Selected, OnCharSelect, BagKnown, Alone;
    match found
    case None =>
      RefusedForm(t, w, s, charUid, x, y);
      SendNeutral(t, w.sessions[s], Error(1));
      FromLocal(t, w.sessions[s], Send(w.sessions[s], Error(1)));
    case Some(r) =>
      SelectForm(t, w, s, charUid, r, x, y);
      SelectedOwn(t, w, s, charUid, r, x, y);
      var c := Selected(t, w, s, charUid, r, x, y);
      ExceptedUntouched(Put(w, s, c), s, OtherInfo(c.player));
  }

  lemma OwnMove(t: Data, w: World, s: SessionId, dx: int, dy: int)
    requires s in w.sessions && Synced(t, w.sessions[s])
    ensures Synced(t, OnMove(w, s, dx, dy).sessions[s])
  {
    hide Synced, Moved, BroadcastExcept, Replay, ListSent;
    var c := Moved(w.sessions[s], dx, dy);
    MoveSynced(t, w.sessions[s], dx, dy);
    ExceptedUntouched(Put(w, s, c), s, OtherInfo(c.player));
  }

  /** Every event of session s. */
  lemma OwnEvent(t: Data, w: World, e: Event, s: SessionId)
    requires WellFormed(t) && Enabled(w, e) && !e.Connect? && e.s == s && !e.Disconnect?
    requires Synced(t, w.sessions[s]) && Alone(w, s) && OwnRules(t, w, e, s)
    ensures s in Step(t, w, e).sessions && Synced(t, Step(t, w, e).sessions[s])
  {
    hide Synced, Alone, OnAttack, OnCharSelect, OnItemUse, OnItemEquip, OnShopBuy, OnShopSell, OnQuestList,
      OnQuestAccept, OnQuestComplete, OnMove, RemoveFromParty, OnPartyInvite, OnPartyAccept, Local, BagKnown, Told;
    StaysLive(t, w, e, s);
    var c := w.sessions[s];
    if e.WriteFails? {
      NotCompared(t, c.(connected := false));
    } else if e.Login? {
      LoginSynced(t, c, e.account);
    } else if e.AskCharList? {
      CharListSynced(t, c);
    } else if e.Select? {
      OwnSelect(t, w, s, e.charUid, e.found, e.x, e.y);
    } else if e.Move? {
      OwnMove(t, w, s, e.dx, e.dy);
    } else if e.Attack? {
      AttackSynced(t, w, e, s);
    } else if e.InviteTo? || e.Answer? || e.Leave? {
      PartyOnlySent(t, w, e);
      ToldLocal(t, c, Step(t, w, e).sessions[s]);
      FromLocal(t, c, Step(t, w, e).sessions[s]);
    } else {
      OwnDeal(t, w, e, s);
    }
  }

  /** A session stays filed through every event but its own disconnect. */
  lemma StaysLive(t: Data, w: World, e: Event, s: SessionId)
    requires Enabled(w, e) && s in w.sessions && !(e.Disconnect? && e.s == s)
    ensures s in Step(t, w, e).sessions
  {
    hide Step;
    StepFrame(t, w, e);
  }

  /** Items and quests. */
  lemma OwnDeal(t: Data, w: World, e: Event, s: SessionId)
    requires WellFormed(t) && Enabled(w, e) && s in w.sessions && Synced(t, w.sessions[s])
    requires w.sessions[s].player.loggedIn
    requires e.UseItem? || e.EquipItem? || e.Buy? || e.Sell? || e.AskQuests? || e.AcceptQuest? || e.CompleteQuest?
    requires e.s == s
    ensures s in Step(t, w, e).sessions && Synced(t, Step(t, w, e).sessions[s])
  {
    hide Synced, OnItemUse, OnItemEquip, OnShopBuy, OnShopSell, OnQuestList, OnQuestAccept, OnQuestComplete, Local;
    StaysLive(t, w, e, s);
    var c := w.sessions[s];
    if e.UseItem? {
      UseLocally(t, w, s, e.slot);
    } else if e.EquipItem? {
      EquipLocal(t, c, e.slot);
    } else if e.Buy? {
      BuyLocal(t, c, e.tid, e.itemUid);
    } else if e.Sell? {
      SellLocal(t, c, e.slot);
    } else if e.AskQuests? {
      ListLocal(t, c);
    } else if e.AcceptQuest? {
      AcceptLocal(t, c, e.quest);
    } else {
      CompleteLocal(t, c, e.quest, e.itemUid);
    }
    FromLocal(t, c, Step(t, w, e).sessions[s]);
  }

  // ---------------------------------------------------------------- kills by anybody

  lemma NoticeSynced(t: Data, w: World, m: Msg, s: SessionId)
    requires s in w.sessions && Synced(t, w.sessions[s]) && (m.NpcSpawn? || m.NpcDeath?)
    ensures Synced(t, Broadcast(w, m).sessions[s])
  {
    hide Synced, Replay, ListSent;
    if w.sessions[s].player.loggedIn { NpcNoticeSynced(t, w.sessions[s], m); }
  }

  lemma LootSynced(t: Data, w: World, a: SessionId, luck: Luck, s: SessionId)
    requires a in w.sessions && s in w.sessions && Synced(t, w.sessions[s])
    requires a == s ==> w.sessions[s].player.loggedIn
    ensures Synced(t, Loot(t, w, a, luck).sessions[s])
  {
    hide Synced, Receive, Local;
    if a == s {
      ReceiveLocal(t, w.sessions[s], Dropped(t.drops, luck.rand), luck.itemUid);
      FromLocal(t, w.sessions[s], Receive(t, w.sessions[s], Dropped(t.drops, luck.rand), luck.itemUid));
    }
  }

  lemma KillSynced(t: Data, w: World, a: SessionId, i: nat, luck: Luck, s: SessionId)
    requires WellFormed(t) && a in w.sessions && i < |w.npcs| && (Sharers(w, a).Some? ==> |Sharers(w, a).value| > 0)
    requires s in w.sessions && Synced(t, w.sessions[s]) && (a == s ==> w.sessions[s].player.loggedIn)
    ensures Synced(t, Killed(t, w, a, i, luck).sessions[s])
  {
    hide Synced, Local, PayKill, CreditQuests, Loot, Sharers, BroadcastExcept;
    NoticeSynced(t, w, NpcDeath(w.npcs[i].uid, NPC_EXP, NPC_GOLD), s);
    var dead := Death(w, i);
    DeathKeeps(w, i, a);
    DeathKeeps(w, i, s);
    PayLocally(t, dead, a);
    var paid := PayKill(t, dead, a);
    CreditLocally(t, paid, a);
    var credited := CreditQuests(t, paid, a);
    LocallyTrans(t, dead, paid, credited);
    FromLocal(t, dead.sessions[s], credited.sessions[s]);
    LocallyPlaying(t, dead, credited, s);
    LootSynced(t, credited, a, luck, s);
    var looted := Loot(t, credited, a, luck);
    var j := DeadIndex(looted.npcs);
    if j < |looted.npcs| {
      var n := Npc(looted.nextNpcUid, luck.x % MAP_SIZE, luck.y % MAP_SIZE, NPC_HP, true);
      NoticeSynced(t, looted.(npcs := looted.npcs[j := n], nextNpcUid := looted.nextNpcUid + 1), SpawnMsg(n), s);
    }
  }

  lemma AttackSynced(t: Data, w: World, e: Event, s: SessionId)
    requires WellFormed(t) && Enabled(w, e) && e.Attack? && s in w.sessions && Synced(t, w.sessions[s])
    requires e.s == s ==> w.sessions[s].player.loggedIn
    ensures s in Step(t, w, e).sessions && Synced(t, Step(t, w, e).sessions[s])
  {
    hide Synced, Local, Killed, Told, Damage, HpAfter;
    match Target(w, e.s, e.uid)
    case None =>
      SendToTold(w, e.s, AttackResult(false, 0, 0, 0));
      ToldLocal(t, w.sessions[s], Step(t, w, e).sessions[s]);
      FromLocal(t, w.sessions[s], Step(t, w, e).sessions[s]);
    case Some(i) =>
      var hit := Hit(w, e.s, i);
      HitTold(w, e.s, i, s);
      ToldLocal(t, w.sessions[s], hit.sessions[s]);
      FromLocal(t, w.sessions[s], hit.sessions[s]);
      if hit.npcs[i].hp == 0 { KillSynced(t, hit, e.s, i, e.luck, s); }
  }

  lemma HitTold(w: World, a: SessionId, i: nat, s: SessionId)
    requires a in w.sessions && i < |w.npcs| && s in w.sessions
    ensures var hit := Hit(w, a, i);
            && s in hit.sessions && Told(w.sessions[s], hit.sessions[s]) && |hit.npcs| == |w.npcs|
            && hit.sessions[s].player == w.sessions[s].player && Sharers(hit, a) == Sharers(w, a)
  {
    hide Damage, HpAfter;
  }

  // ---------------------------------------------------------------- everybody else's events

  lemma TellsOfOther(t: Data, w: World, o: SessionId, c: State, s: SessionId)
    requires s in w.sessions && o in w.sessions && s != o && Synced(t, w.sessions[s]) && Alone(w, s)
    requires c.player.accountUid == w.sessions[o].player.accountUid
    ensures Synced(t, BroadcastExcept(Put(w, o, c), Some(o), OtherInfo(c.player)).sessions[s])
  {
    hide Replay, ListSent;
    var d := w.sessions[s];
    if d.player.loggedIn && d.connected { ForeignInfo(t, d, c.player); }
  }

  lemma OtherLeaves(t: Data, w: World, o: SessionId, s: SessionId)
    requires s in w.sessions && o in w.sessions && s != o && Synced(t, w.sessions[s])
    ensures s in OnDisconnect(w, o).sessions && Synced(t, OnDisconnect(w, o).sessions[s])
  {
    hide Synced, Local, Told, RemoveFromParty;
    RemoveTold(w, o);
    var left := RemoveFromParty(w, o);
    ToldLocal(t, w.sessions[s], left.sessions[s]);
    FromLocal(t, w.sessions[s], left.sessions[s]);
    if left.sessions[s].player.loggedIn { LeaveSynced(t, left.sessions[s], w.sessions[o].player.accountUid); }
  }

  lemma OtherUses(t: Data, w: World, o: SessionId, slot: nat, s: SessionId)
    requires s in w.sessions && o in w.sessions && s != o && Synced(t, w.sessions[s])
    ensures s in OnItemUse(t, w, o, slot).sessions && Synced(t, OnItemUse(t, w, o, slot).sessions[s])
  {
    hide Synced, Local, AfterUse;
    match Usable(t, w.sessions[o], slot)
    case None =>
    case Some(it) =>
      var m := UsedMsg(Consume(w.sessions[o], slot, it).player, it);
      SendNeutral(t, w.sessions[s], m);
      FromLocal(t, w.sessions[s], Send(w.sessions[s], m));
  }

  lemma OtherEvent(t: Data, w: World, e: Event, s: SessionId)
    requires WellFormed(t) && Enabled(w, e) && s in w.sessions && (e.Connect? || e.s != s) && w.nextSessionId != s
    requires Synced(t, w.sessions[s]) && Alone(w, s)
    ensures s in Step(t, w, e).sessions && Synced(t, Step(t, w, e).sessions[s])
  {
    hide Synced, Alone, OnAttack, OnCharSelect, OnItemUse, OnItemEquip, OnShopBuy, OnShopSell, OnQuestList,
      OnQuestAccept, OnQuestComplete, OnDisconnect, RemoveFromParty, OnPartyInvite, OnPartyAccept, Local, Told, Moved,
      BroadcastExcept, Selected;
    StaysLive(t, w, e, s);
    if e.Disconnect? {
      OtherLeaves(t, w, e.s, s);
    } else if e.Select? {
      OtherSelects(t, w, e.s, e.charUid, e.found, e.x, e.y, s);
    } else if e.Move? {
      var c := Moved(w.sessions[e.s], e.dx, e.dy);
      assert c.player.accountUid == w.sessions[e.s].player.accountUid by { MovedAccount(w.sessions[e.s], e.dx, e.dy); }
      TellsOfOther(t, w, e.s, c, s);
    } else if e.Attack? {
      AttackSynced(t, w, e, s);
    } else if e.UseItem? {
      OtherUses(t, w, e.s, e.slot, s);
    } else if e.InviteTo? || e.Answer? || e.Leave? {
      PartyOnlySent(t, w, e);
      ToldLocal(t, w.sessions[s], Step(t, w, e).sessions[s]);
      FromLocal(t, w.sessions[s], Step(t, w, e).sessions[s]);
    }
  }

  lemma MovedAccount(c: State, dx: int, dy: int)
    ensures Moved(c, dx, dy).player.accountUid == c.player.accountUid
  {
  }

  lemma OtherSelects(t: Data, w: World, o: SessionId, charUid: uint64, found: Option<Record>, x: nat, y: nat,
                     s: SessionId)
    requires s in w.sessions && o in w.sessions && s != o && Synced(t, w.sessions[s]) && Alone(w, s)
    ensures var r := OnCharSelect(t, w, o, charUid, found, x, y).sessions; s in r && Synced(t, r[s])
  {
    hide Synced, Alone, Selected, OnCharSelect, BroadcastExcept;
    match found
    case None => RefusedForm(t, w, o, charUid, x, y);
    case Some(r) =>
      SelectForm(t, w, o, charUid, r, x, y);
      TellsOfOther(t, w, o, Selected(t, w, o, charUid, r, x, y), s);
  }

  // ---------------------------------------------------------------- runs

  /** A run through which session s stays, keeps to the protocol and is alone under its account; the others may do as
      they like. */
  ghost predicate OwnRun(t: Data, w: World, es: seq<Event>, rules: Rules, s: SessionId)
    requires Run(t, w, es, rules) && s in w.sessions
    decreases |es|
  {
    if es == [] then true
    else
      && OwnRules(t, w, es[0], s) && Alone(w, s) && !(es[0].Disconnect? && es[0].s == s)
      && s in Step(t, w, es[0]).sessions && OwnRun(t, Step(t, w, es[0]), es[1..], rules, s)
  }

  lemma {:induction false} OwnKeeps(t: Data, w: World, es: seq<Event>, rules: Rules, s: SessionId)
    requires WellFormed(t) && Invariant(t, w, rules) && Run(t, w, es, rules) && s in w.sessions
    requires OwnRun(t, w, es, rules, s) && Synced(t, w.sessions[s])
    ensures s in After(t, w, es, rules).sessions && Synced(t, After(t, w, es, rules).sessions[s])
    decreases |es|
  {
    hide Step, Synced, OwnRules, Alone, NpcsOk, Agreement, Disciplined;
    if es != [] {
      if es[0].Connect? || es[0].s != s {
        OtherEvent(t, w, es[0], s);
      } else {
        OwnEvent(t, w, es[0], s);
      }
      StepKeeps(t, w, es[0], rules);
      OwnKeeps(t, Step(t, w, es[0]), es[1..], rules, s);
    }
  }

  /** From its connection on, a client that keeps to the protocol and is alone under its account shows its own stats,
      slots, equipment and quest list as the server has them, once drained, whatever the other clients do. */
  lemma OwnReplicas(t: Data, w: World, es: seq<Event>, rules: Rules, s: SessionId, handled: nat)
    requires WellFormed(t) && Invariant(t, w, rules) && Run(t, w, es, rules)
    requires s in w.sessions && w.sessions[s] == NEW_SESSION && OwnRun(t, w, es, rules, s)
    ensures s in After(t, w, es, rules).sessions
    ensures var c := After(t, w, es, rules).sessions[s];
            c.connected && handled <= |c.sent| ==>
              ShowsOwn(t, ApplyAll(Replay(c.sent[..handled]), c.sent[handled..]), c)
  {
    hide Step, OwnRun, Invariant;
    NewSynced(t);
    OwnKeeps(t, w, es, rules, s);
    var c := After(t, w, es, rules).sessions[s];
    if c.connected && handled <= |c.sent| {
      DrainedView(c.sent, handled);
      ListSentIff(c.sent);
    }
  }
}

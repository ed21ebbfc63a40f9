/** Quest durability: memory and table move together, and a quest pays once, after exactly its target of kills. */
module Quests {
  import opened Machine
  import opened Tables
  import opened Protocol
  import opened Character
  import opened Server
  import opened Progress
  import opened Replication
  import opened Runs
  import opened Frames
  import Client
  import Party

  /** The quests of every session in the game are its character's table rows; other sessions have none. */
  ghost predicate Durable(w: World) {
    forall s | s in w.sessions ::
      w.sessions[s].quests == if w.sessions[s].player.loggedIn then Rows(w.quests, w.sessions[s].player.charUid)
          else map[]
  }

  ghost predicate CharsDistinct(sessions: Sessions) {
    forall a, b | a in sessions && b in sessions && a != b && Present(sessions, a) && Present(sessions, b) ::
      sessions[a].player.charUid != sessions[b].player.charUid
  }

  /** One live session per character, and durable quests. */
  ghost predicate Stored(w: World) { Durable(w) && CharsDistinct(w.sessions) }

  /** The parts of a session that say whose quests it holds. */
  predicate SameOwner(c: State, d: State) {
    d.quests == c.quests && d.player.charUid == c.player.charUid && d.player.loggedIn == c.player.loggedIn
  }

  /** Quests and table are left alone. */
  ghost predicate Still(w: World, v: World) {
    v.sessions.Keys == w.sessions.Keys && v.quests == w.quests
    && forall s | s in w.sessions :: SameOwner(w.sessions[s], v.sessions[s])
  }

  lemma StillKeeps(w: World, v: World)
    requires Stored(w) && Still(w, v)
    ensures Stored(v)
  {
    forall a, b | a in v.sessions && b in v.sessions && a != b && Present(v.sessions, a) && Present(v.sessions, b)
      ensures v.sessions[a].player.charUid != v.sessions[b].player.charUid
    {
      assert Present(w.sessions, a) && Present(w.sessions, b);
    }
  }

  lemma SentStill(w: World, v: World)
    requires OnlySent(w, v) && v.quests == w.quests
    ensures Still(w, v)
  {
  }

  // ---------------------------------------------------------------- kills

  lemma AwardStill(w: World, m: SessionId, exp: nat, gold: nat)
    requires m in w.sessions
    ensures Still(w, Put(w, m, Award(w.sessions[m], exp, gold)))
  {
    AwardPlayer(w.sessions[m], exp, gold);
    LevelUpStats(w.sessions[m].player.(exp := U64(w.sessions[m].player.exp + exp),
        gold := U64(w.sessions[m].player.gold + gold)));
  }

  /** Crediting a kill keeps the rows of session s in step, and touches no other character's rows. */
  lemma CreditStored(t: Data, w: World, s: SessionId)
    requires Stored(w) && s in w.sessions
    ensures Stored(CreditQuests(t, w, s))
    ensures var r := CreditQuests(t, w, s); var p := w.sessions[s].player;
            forall other | !p.loggedIn || other != p.charUid :: Rows(r.quests, other) == Rows(w.quests, other)
  {
    hide CreditQuests, TickedAll;
    var c := w.sessions[s];
    var r := CreditQuests(t, w, s);
    CreditIs(t, w, s);
    if !c.player.loggedIn {
      NoQuestsNoTicks(t, w, s);
    }
    forall o | o in r.sessions
      ensures r.sessions[o].quests == if r.sessions[o].player.loggedIn then
              Rows(r.quests, r.sessions[o].player.charUid) else map[]
    {
      if o != s && w.sessions[o].player.loggedIn && c.player.loggedIn {
        assert Present(w.sessions, o) && Present(w.sessions, s);
      }
    }
    assert CharsDistinct(r.sessions) by { OwnersDistinct(w.sessions, r.sessions); }
  }

  lemma OwnersDistinct(sessions: Sessions, later: Sessions)
    requires CharsDistinct(sessions) && later.Keys == sessions.Keys
    requires forall s | s in sessions :: later[s].player == sessions[s].player
    ensures CharsDistinct(later)
  {
    forall a, b | a in later && b in later && a != b && Present(later, a) && Present(later, b)
      ensures later[a].player.charUid != later[b].player.charUid
    {
      assert Present(sessions, a) && Present(sessions, b);
    }
  }

  lemma NoQuestsNoTicks(t: Data, w: World, s: SessionId)
    requires s in w.sessions && w.sessions[s].quests == map[]
    ensures CreditQuests(t, w, s).quests == w.quests && CreditQuests(t, w, s).sessions == w.sessions
  {
  }

  lemma {:induction false} ShareStored(t: Data, w: World, members: seq<SessionId>, killer: SessionId, exp: nat,
          gold: nat)
    requires Stored(w)
    ensures Stored(Share(t, w, members, killer, exp, gold))
    decreases |members|
  {
    hide Stored, Award, CreditQuests, Still;
    if members != [] {
      var m := members[0];
      if m !in w.sessions {
        ShareStored(t, w, members[1..], killer, exp, gold);
      } else {
        var paid := Put(w, m, Award(w.sessions[m], exp, gold));
        AwardStill(w, m, exp, gold);
        StillKeeps(w, paid);
        CreditStored(t, paid, m);
        ShareStored(t, if m != killer then CreditQuests(t, paid, m) else paid, members[1..], killer, exp, gold);
      }
    }
  }

  lemma ReceiveStill(t: Data, w: World, s: SessionId, luck: Luck)
    requires s in w.sessions
    ensures Still(w, Loot(t, w, s, luck))
  {
  }

  lemma KillStored(t: Data, w: World, s: SessionId, i: nat, luck: Luck)
    requires Stored(w) && s in w.sessions && i < |w.npcs| && (Sharers(w, s).Some? ==> |Sharers(w, s).value| > 0)
    ensures Stored(Killed(t, w, s, i, luck))
  {
    hide Stored, Award, CreditQuests, Share, Still, Loot, Respawn, Death;
    var dead := Death(w, i);
    DeathOnlySent(w, i);
    SentStill(w, dead);
    StillKeeps(w, dead);
    assert Sharers(dead, s) == Sharers(w, s);
    match Sharers(dead, s) {
      case Some(members) => ShareStored(t, dead, members, s, Part(NPC_EXP, |members|), Part(NPC_GOLD, |members|));
      case None =>
        AwardStill(dead, s, NPC_EXP, NPC_GOLD);
        StillKeeps(dead, PayKill(t, dead, s));
    }
    var paid := PayKill(t, dead, s);
    CreditStored(t, paid, s);
    var credited := CreditQuests(t, paid, s);
    ReceiveStill(t, credited, s, luck);
    StillKeeps(credited, Loot(t, credited, s, luck));
    RespawnOnlySent(Loot(t, credited, s, luck), luck.x, luck.y);
    SentStill(Loot(t, credited, s, luck), Killed(t, w, s, i, luck));
    StillKeeps(Loot(t, credited, s, luck), Killed(t, w, s, i, luck));
  }

  // ---------------------------------------------------------------- every step

  lemma SelectStored(t: Data, w: World, s: SessionId, charUid: uint64, found: Option<Record>, x: nat, y: nat)
    requires Stored(w) && s in w.sessions && (found.Some? ==> CharFree(w, charUid))
    ensures Stored(OnCharSelect(t, w, s, charUid, found, x, y))
  {
    hide Selected, OnCharSelect;
    var r := OnCharSelect(t, w, s, charUid, found, x, y);
    match found
    case None =>
      RefusedForm(t, w, s, charUid, x, y);
      StillKeeps(w, r);
    case Some(rec) =>
      SelectForm(t, w, s, charUid, rec, x, y);
      assert r.quests == w.quests;
      forall a, b | a in r.sessions && b in r.sessions && a != b && Present(r.sessions, a) && Present(r.sessions, b)
        ensures r.sessions[a].player.charUid != r.sessions[b].player.charUid
      {
        assert a != s ==> Present(w.sessions, a);
        assert b != s ==> Present(w.sessions, b);
      }
  }

  lemma RewardsOwner(t: Data, c: State, q: QuestData, uid: uint64)
    ensures SameOwner(c, Rewards(t, c, q, uid))
  {
    var given := Receive(t, Gain(c, q.rewardExp, q.rewardGold), q.rewardItemId, uid);
    var told := Send(given, ExpUpdate(U32(given.player.exp), given.player.maxExp));
    LevelUpsPlayer(told);
    LevelUpStats(told.player);
  }

  /** Accepting and completing change one row and the same entry in memory. */
  lemma RowStored(w: World, s: SessionId, c: State, id: uint16, q: Quest)
    requires Stored(w) && s in w.sessions && w.sessions[s].player.loggedIn
    requires c.player.loggedIn && c.player.charUid == w.sessions[s].player.charUid
             && c.quests == w.sessions[s].quests[id := q]
    ensures Stored(Put(w, s, c).(quests := Save(w.quests, c.player.charUid, id, q)))
  {
    var r := Put(w, s, c).(quests := Save(w.quests, c.player.charUid, id, q));
    forall o | o in r.sessions && o != s && r.sessions[o].player.loggedIn
      ensures r.sessions[o].player.charUid != c.player.charUid
    {
      assert Present(w.sessions, o) && Present(w.sessions, s);
    }
    forall a, b | a in r.sessions && b in r.sessions && a != b && Present(r.sessions, a) && Present(r.sessions, b)
      ensures r.sessions[a].player.charUid != r.sessions[b].player.charUid
    {
      assert Present(w.sessions, a) && Present(w.sessions, b);
    }
  }

  lemma DisconnectStored(w: World, s: SessionId)
    requires Stored(w) && s in w.sessions
    ensures Stored(OnDisconnect(w, s))
  {
    hide OnDisconnect;
    var r := OnDisconnect(w, s);
    forall o | o in w.sessions && o != s ensures o in r.sessions && SameOwner(w.sessions[o], r.sessions[o]) {
      DisconnectOnlySent(w, s, o);
    }
    DisconnectRest(w, s);
    forall a, b | a in r.sessions && b in r.sessions && a != b && Present(r.sessions, a) && Present(r.sessions, b)
      ensures r.sessions[a].player.charUid != r.sessions[b].player.charUid
    {
      assert Present(w.sessions, a) && Present(w.sessions, b);
    }
  }

  lemma DisconnectRest(w: World, s: SessionId)
    requires s in w.sessions
    ensures OnDisconnect(w, s).quests == w.quests && OnDisconnect(w, s).sessions.Keys == w.sessions.Keys - {s}
  {
    hide RemoveFromParty;
  }

  /** Sessions that are not in the game do not matter. */
  lemma OutsideStored(w: World, v: World, s: SessionId)
    requires Stored(w) && v.quests == w.quests && s in v.sessions && !v.sessions[s].player.loggedIn
             && v.sessions[s].quests == map[]
    requires v.sessions.Keys == w.sessions.Keys + {s} && forall o | o in v.sessions && o != s ::
               v.sessions[o] == w.sessions[o]
    ensures Stored(v)
  {
    forall a, b | a in v.sessions && b in v.sessions && a != b && Present(v.sessions, a) && Present(v.sessions, b)
      ensures v.sessions[a].player.charUid != v.sessions[b].player.charUid
    {
      assert Present(w.sessions, a) && Present(w.sessions, b);
    }
  }

  lemma ItemStill(t: Data, c: State, slot: nat, tid: uint16, uid: uint64)
    ensures SameOwner(c, OnItemEquip(t, c, slot)) && SameOwner(c, OnShopBuy(t, c, tid, uid))
            && SameOwner(c, OnShopSell(t, c, slot))
    ensures SameOwner(c, OnQuestList(t, c))
  {
    hide Client.Replay, ItemName, FindEmpty;
  }

  lemma UseStill(t: Data, w: World, s: SessionId, slot: nat)
    requires s in w.sessions
    ensures Still(w, OnItemUse(t, w, s, slot))
  {
    hide AfterUse, Consume, BroadcastExcept, UsedMsg;
    match Usable(t, w.sessions[s], slot)
    case None =>
    case Some(it) =>
      var c := Consume(w.sessions[s], slot, it);
      assert SameOwner(w.sessions[s], c) by { ConsumeOwner(t, w.sessions[s], slot, it); }
      var told := Broadcast(Put(w, s, c), UsedMsg(c.player, it));
      BroadcastOnlySent(Put(w, s, c), None, UsedMsg(c.player, it));
      ConsumeOwner(t, told.sessions[s], slot, it);
  }

  lemma ConsumeOwner(t: Data, c: State, slot: nat, it: ItemData)
    requires slot < MAX_INVENTORY
    ensures SameOwner(c, Consume(c, slot, it)) && SameOwner(c, AfterUse(t, c, slot))
  {
  }

  lemma PutStill(w: World, s: SessionId, c: State)
    requires s in w.sessions && SameOwner(w.sessions[s], c) && Stored(w)
    ensures Stored(Put(w, s, c))
  {
    StillKeeps(w, Put(w, s, c));
  }

  lemma AcceptStored(t: Data, w: World, s: SessionId, q: uint16)
    requires Stored(w) && s in w.sessions && w.sessions[s].player.loggedIn
    ensures Stored(OnQuestAcceptW(t, w, s, q))
  {
    hide Stored;
    var c := w.sessions[s];
    if Acceptable(t, c, q) { RowStored(w, s, OnQuestAccept(t, c, q), q, Quest(1, 0)); }
    else { PutStill(w, s, OnQuestAccept(t, c, q)); }
  }

  lemma CompleteStored(t: Data, w: World, s: SessionId, q: uint16, uid: uint64)
    requires Stored(w) && s in w.sessions && w.sessions[s].player.loggedIn
    ensures Stored(OnQuestCompleteW(t, w, s, q, uid))
  {
    hide Stored, Rewards;
    var c := w.sessions[s];
    if Completable(t, c, q) {
      RewardsOwner(t, c.(quests := c.quests[q := c.quests[q].(status := 3)]), FindQuest(t, q).value, uid);
      RowStored(w, s, OnQuestComplete(t, c, q, uid), q, c.quests[q].(status := 3));
    } else {
      PutStill(w, s, OnQuestComplete(t, c, q, uid));
    }
  }

  /** Durability: after every disciplined step the in-memory quests equal the quest_progress rows. */
  lemma StepStored(t: Data, w: World, e: Event)
    requires Enabled(w, e) && Disciplined(t, w, e) && Stored(w)
    ensures Stored(Step(t, w, e))
  {
    hide Stored, OnAttack, OnCharSelect, OnItemUse, OnItemEquip, OnShopBuy, OnShopSell, OnQuestList, Rewards,
      OnQuestAcceptW, OnQuestCompleteW, OnDisconnect, RemoveFromParty, OnPartyInvite, OnPartyAccept, OnMove, OnLogin,
      Still;
    if e.Connect? {
      ConnectStored(w);
    } else if e.WriteFails? {
      PutStill(w, e.s, w.sessions[e.s].(connected := false));
    } else if e.Disconnect? {
      DisconnectStored(w, e.s);
    } else if e.Login? {
      LoginStored(w, e.s, e.account);
    } else if e.AskCharList? {
      PutStill(w, e.s, Send(w.sessions[e.s], CharList));
      SendToLive(w, e.s, CharList);
    } else if e.Select? {
      SelectStored(t, w, e.s, e.charUid, e.found, e.x, e.y);
    } else if e.Move? {
      MoveStored(w, e.s, e.dx, e.dy);
    } else if e.Attack? {
      AttackStored(t, w, e.s, e.uid, e.luck);
    } else if e.UseItem? {
      UseStill(t, w, e.s, e.slot);
      StillKeeps(w, OnItemUse(t, w, e.s, e.slot));
    } else if e.EquipItem? {
      ItemStill(t, w.sessions[e.s], e.slot, 0, 0);
      PutStill(w, e.s, OnItemEquip(t, w.sessions[e.s], e.slot));
    } else if e.Buy? {
      ItemStill(t, w.sessions[e.s], 0, e.tid, e.itemUid);
      PutStill(w, e.s, OnShopBuy(t, w.sessions[e.s], e.tid, e.itemUid));
    } else if e.Sell? {
      ItemStill(t, w.sessions[e.s], e.slot, 0, 0);
      PutStill(w, e.s, OnShopSell(t, w.sessions[e.s], e.slot));
    } else if e.AskQuests? {
      ItemStill(t, w.sessions[e.s], 0, 0, 0);
      PutStill(w, e.s, OnQuestList(t, w.sessions[e.s]));
    } else if e.AcceptQuest? {
      AcceptStored(t, w, e.s, e.quest);
    } else if e.CompleteQuest? {
      CompleteStored(t, w, e.s, e.quest, e.itemUid);
    } else {
      PartyOnlySent(t, w, e);
      SentStored(t, w, e);
    }
  }

  lemma SentStored(t: Data, w: World, e: Event)
    requires Enabled(w, e) && Stored(w) && OnlySent(w, Step(t, w, e)) && (e.InviteTo? || e.Answer? || e.Leave?)
    ensures Stored(Step(t, w, e))
  {
    hide Step;
    StepFrame(t, w, e);
    SentStill(w, Step(t, w, e));
    StillKeeps(w, Step(t, w, e));
  }

  lemma ConnectStored(w: World)
    requires Stored(w)
    ensures Stored(OnConnect(w))
  {
    OutsideStored(w, OnConnect(w), w.nextSessionId);
  }

  lemma LoginStored(w: World, s: SessionId, account: uint64)
    requires Stored(w) && s in w.sessions && !w.sessions[s].player.loggedIn
    ensures Stored(OnLogin(w, s, account))
  {
    OutsideStored(w, OnLogin(w, s, account), s);
  }

  lemma MoveStored(w: World, s: SessionId, dx: int, dy: int)
    requires Stored(w) && s in w.sessions
    ensures Stored(OnMove(w, s, dx, dy))
  {
    StillKeeps(w, OnMove(w, s, dx, dy));
  }

  lemma AttackStored(t: Data, w: World, s: SessionId, uid: nat, luck: Luck)
    requires Stored(w) && s in w.sessions && (Sharers(w, s).Some? ==> |Sharers(w, s).value| > 0)
    ensures Stored(OnAttack(t, w, s, uid, luck))
  {
    hide Stored, Killed;
    match Target(w, s, uid)
    case None => StillKeeps(w, OnAttack(t, w, s, uid, luck));
    case Some(i) =>
      var hit := Hit(w, s, i);
      StillKeeps(w, hit);
      if hit.npcs[i].hp == 0 { KillStored(t, hit, s, i, luck); }
  }

  // ---------------------------------------------------------------- what becomes of one quest of one character

  /** A character's table entry for a quest; no row means available. */
  function Entry(w: World, charUid: uint64, id: uint16): Quest { QuestOf(Rows(w.quests, charUid), id) }

  predicate Plays(w: World, s: SessionId, charUid: uint64) {
    Present(w.sessions, s) && w.sessions[s].player.charUid == charUid
  }

  predicate Accepts(t: Data, w: World, e: Event, charUid: uint64, id: uint16) {
    e.AcceptQuest? && e.quest == id && Plays(w, e.s, charUid) && Acceptable(t, w.sessions[e.s], id)
  }

  predicate Completes(t: Data, w: World, e: Event, charUid: uint64, id: uint16) {
    e.CompleteQuest? && e.quest == id && Plays(w, e.s, charUid) && Completable(t, w.sessions[e.s], id)
  }

  // ---------------------------------------------------------------- credits

  /** One credited kill: an accepted quest of the table moves one step. */
  function Credit(t: Data, q: Quest, id: uint16): Quest {
    if q.status == 1 && FindQuest(t, id).Some? then Ticked(t, q, id) else q
  }

  function CreditTimes(t: Data, q: Quest, id: uint16, n: nat): Quest
    decreases n
  {
    if n == 0 then q else CreditTimes(t, Credit(t, q, id), id, n - 1)
  }

  lemma {:induction false} CreditLast(t: Data, q: Quest, id: uint16, n: nat)
    ensures Credit(t, CreditTimes(t, q, id, n), id) == CreditTimes(t, q, id, n + 1)
    decreases n
  {
    hide Credit;
    if n > 0 { CreditLast(t, Credit(t, q, id), id, n - 1); }
  }

  /** How often a list credits the character: once for every entry that plays it, the killer's entries excepted. */
  function CreditsIn(w: World, members: seq<SessionId>, killer: SessionId, charUid: uint64): nat {
    if members == [] then 0
    else
      (if members[0] != killer && Plays(w, members[0], charUid) then 1 else 0)
      + CreditsIn(w, members[1..], killer, charUid)
  }

  /** How often a step credits the character: by the killer's list, and once more for the killer. */
  function Credits(w: World, e: Event, charUid: uint64): nat {
    if !Kills(w, e) then 0
    else CreditsIn(w, Takers(w, e.s), e.s, charUid) + if Plays(w, e.s, charUid) then 1 else 0
  }

  /** The character's session made the kill or shared in it. */
  predicate Credited(w: World, e: Event, charUid: uint64) {
    Kills(w, e) && exists o | o in w.sessions :: o in Takers(w, e.s) && Plays(w, o, charUid)
  }

  ghost predicate SamePlayers(w: World, v: World) {
    && v.sessions.Keys == w.sessions.Keys
    && forall o | o in w.sessions :: v.sessions[o].player.charUid == w.sessions[o].player.charUid
                                     && v.sessions[o].player.loggedIn == w.sessions[o].player.loggedIn
  }

  lemma {:induction false} CreditsSame(w: World, v: World, members: seq<SessionId>, killer: SessionId, charUid: uint64)
    requires SamePlayers(w, v)
    ensures CreditsIn(v, members, killer, charUid) == CreditsIn(w, members, killer, charUid)
    decreases |members|
  {
    if members != [] { CreditsSame(w, v, members[1..], killer, charUid); }
  }

  lemma CreditEntry(t: Data, w: World, m: SessionId, charUid: uint64, id: uint16)
    requires Stored(w) && m in w.sessions
    ensures var r := CreditQuests(t, w, m);
            && SamePlayers(w, r) && Stored(r)
            && Entry(r, charUid, id) == if Plays(w, m, charUid) then Credit(t, Entry(w, charUid, id), id)
                else Entry(w, charUid, id)
  {
    hide CreditQuests;
    CreditStored(t, w, m);
    CreditIs(t, w, m);
  }

  lemma {:induction false} ShareEntry(t: Data, w: World, members: seq<SessionId>, killer: SessionId, exp: nat,
          gold: nat, charUid: uint64, id: uint16)
    requires Stored(w)
    ensures var r := Share(t, w, members, killer, exp, gold);
            && SamePlayers(w, r) && Stored(r)
            && Entry(r, charUid, id)
                == CreditTimes(t, Entry(w, charUid, id), id, CreditsIn(w, members, killer, charUid))
    decreases |members|
  {
    hide Stored, Award, CreditQuests, Entry, Credit;
    if members != [] {
      var m := members[0];
      if m !in w.sessions {
        ShareEntry(t, w, members[1..], killer, exp, gold, charUid, id);
      } else {
        var paid := Put(w, m, Award(w.sessions[m], exp, gold));
        AwardStill(w, m, exp, gold);
        StillKeeps(w, paid);
        StillEntry(w, paid, charUid, id);
        CreditEntry(t, paid, m, charUid, id);
        var next := if m != killer then CreditQuests(t, paid, m) else paid;
        CreditsSame(w, next, members[1..], killer, charUid);
        ShareEntry(t, next, members[1..], killer, exp, gold, charUid, id);
      }
    }
  }

  lemma StillEntry(w: World, v: World, charUid: uint64, id: uint16)
    requires Still(w, v)
    ensures SamePlayers(w, v) && Entry(v, charUid, id) == Entry(w, charUid, id)
  {
  }

  /** The payments and credits of a kill move the entry by one step per credit. */
  lemma PaidEntry(t: Data, w: World, s: SessionId, charUid: uint64, id: uint16)
    requires Stored(w) && s in w.sessions && (Sharers(w, s).Some? ==> |Sharers(w, s).value| > 0)
    ensures var n := CreditsIn(w, Takers(w, s), s, charUid) + if Plays(w, s, charUid) then 1 else 0;
            Entry(CreditQuests(t, PayKill(t, w, s), s), charUid, id) == CreditTimes(t, Entry(w, charUid, id), id, n)
  {
    hide Stored, Award, CreditQuests, Share, Still, Entry, Credit;
    var paid := PayKill(t, w, s);
    match Sharers(w, s) {
      case Some(members) => ShareEntry(t, w, members, s, Part(NPC_EXP, |members|), Part(NPC_GOLD, |members|), charUid,
          id);
      case None =>
        AwardStill(w, s, NPC_EXP, NPC_GOLD);
        StillKeeps(w, paid);
        StillEntry(w, paid, charUid, id);
    }
    CreditEntry(t, paid, s, charUid, id);
    CreditLast(t, Entry(w, charUid, id), id, CreditsIn(w, Takers(w, s), s, charUid));
  }

  lemma KillEntry(t: Data, w: World, s: SessionId, i: nat, luck: Luck, charUid: uint64, id: uint16)
    requires Stored(w) && s in w.sessions && i < |w.npcs| && (Sharers(w, s).Some? ==> |Sharers(w, s).value| > 0)
    ensures var n := CreditsIn(w, Takers(w, s), s, charUid) + if Plays(w, s, charUid) then 1 else 0;
            Entry(Killed(t, w, s, i, luck), charUid, id) == CreditTimes(t, Entry(w, charUid, id), id, n)
  {
    hide Stored, CreditQuests, PayKill, Still, Death, Entry, CreditTimes, CreditsIn;
    var dead := Death(w, i);
    DeathOnlySent(w, i);
    SentStill(w, dead);
    StillKeeps(w, dead);
    StillEntry(w, dead, charUid, id);
    CreditsSame(w, dead, Takers(w, s), s, charUid);
    assert Sharers(dead, s) == Sharers(w, s);
    PaidEntry(t, dead, s, charUid, id);
    SameRows(CreditQuests(t, PayKill(t, dead, s), s), Killed(t, w, s, i, luck), charUid, id);
  }

  lemma SameRows(w: World, v: World, charUid: uint64, id: uint16)
    requires v.quests == w.quests
    ensures Entry(v, charUid, id) == Entry(w, charUid, id)
  {
  }

  lemma {:induction false} CreditsOnce(w: World, members: seq<SessionId>, killer: SessionId, charUid: uint64,
          o: SessionId)
    requires Party.Distinct(members) && forall x | Plays(w, x, charUid) :: x == o
    ensures CreditsIn(w, members, killer, charUid) == if o in members && o != killer && Plays(w, o, charUid) then 1
            else 0
    decreases |members|
  {
    if members != [] {
      assert members == [members[0]] + members[1..];
      Party.DistinctParts(members[0], members[1..]);
      CreditsOnce(w, members[1..], killer, charUid, o);
    }
  }

  /** With one party per player, a kill credits a character that took part exactly once, the killer's included. */
  lemma OneTickPerKill(t: Data, w: World, e: Event, rules: Rules, charUid: uint64)
    requires Invariant(t, w, rules) && rules.uncrossed && Stored(w) && Enabled(w, e)
    ensures Credits(w, e, charUid) == if Credited(w, e, charUid) then 1 else 0
  {
    hide Invariant, Target, HpAfter;
    if Kills(w, e) {
      TakersDistinct(t, w, rules, e.s);
      if o: SessionId :| Plays(w, o, charUid) {
        forall x | Plays(w, x, charUid) ensures x == o { assert Present(w.sessions, x) && Present(w.sessions, o); }
        CreditsOnce(w, Takers(w, e.s), e.s, charUid, o);
      } else {
        CreditsOnce(w, Takers(w, e.s), e.s, charUid, 0);
      }
    }
  }

  /** A character's entry after one step, in full: accepted, completed, or one step further for every credit. */
  function EntryAfter(t: Data, w: World, e: Event, charUid: uint64, id: uint16): Quest {
    var q := Entry(w, charUid, id);
    if Accepts(t, w, e, charUid, id) then Quest(1, 0)
    else if Completes(t, w, e, charUid, id) then q.(status := 3)
    else CreditTimes(t, q, id, Credits(w, e, charUid))
  }

  lemma StepEntry(t: Data, w: World, e: Event, charUid: uint64, id: uint16)
    requires Enabled(w, e) && Disciplined(t, w, e) && Stored(w)
    ensures Entry(Step(t, w, e), charUid, id) == EntryAfter(t, w, e, charUid, id)
  {
    hide OnAttack, Rewards, Step;
    if e.Attack? {
      AttackEntry(t, w, e, charUid, id);
    } else if e.AcceptQuest? {
      AcceptEntry(t, w, e, charUid, id);
    } else if e.CompleteQuest? {
      CompleteEntry(t, w, e, charUid, id);
    } else {
      StepFrame(t, w, e);
    }
  }

  lemma AttackEntry(t: Data, w: World, e: Event, charUid: uint64, id: uint16)
    requires Enabled(w, e) && e.Attack? && Stored(w)
    ensures Entry(Step(t, w, e), charUid, id) == CreditTimes(t, Entry(w, charUid, id), id, Credits(w, e, charUid))
  {
    hide Killed, Entry, Stored, Damage, HpAfter, Hit, SendTo, CreditTimes, CreditsIn;
    NoCredits(t, Entry(w, charUid, id), id);
    if Hits(w, e) {
      var i := Target(w, e.s, e.uid).value;
      var hit := Hit(w, e.s, i);
      HitStill(w, e.s, i);
      StillKeeps(w, hit);
      StillEntry(w, hit, charUid, id);
      if Kills(w, e) {
        CreditsSame(w, hit, Takers(w, e.s), e.s, charUid);
        KillEntry(t, hit, e.s, i, e.luck, charUid, id);
      }
    } else {
      SameRows(w, Step(t, w, e), charUid, id);
    }
  }

  lemma HitStill(w: World, s: SessionId, i: nat)
    requires s in w.sessions && i < |w.npcs|
    ensures var hit := Hit(w, s, i);
            && Still(w, hit) && Takers(hit, s) == Takers(w, s) && Sharers(hit, s) == Sharers(w, s)
            && |hit.npcs| == |w.npcs| && hit.npcs[i].hp == HpAfter(w.sessions[s].player, w.npcs[i])
  {
    hide HpAfter, Damage;
  }

  lemma AcceptEntry(t: Data, w: World, e: Event, charUid: uint64, id: uint16)
    requires Enabled(w, e) && e.AcceptQuest? && Disciplined(t, w, e) && Stored(w)
    ensures Entry(Step(t, w, e), charUid, id) == EntryAfter(t, w, e, charUid, id)
  {
    hide OnQuestAccept;
  }

  lemma CompleteEntry(t: Data, w: World, e: Event, charUid: uint64, id: uint16)
    requires Enabled(w, e) && e.CompleteQuest? && Disciplined(t, w, e) && Stored(w)
    ensures Entry(Step(t, w, e), charUid, id) == EntryAfter(t, w, e, charUid, id)
  {
    hide OnQuestComplete;
  }

  // ---------------------------------------------------------------- over a run

  /** How many of n credits the quest counts: it stops at its target. */
  function TicksIn(t: Data, q: Quest, id: uint16, n: nat): nat
    decreases n
  {
    if n == 0 then 0
    else (if q.status == 1 && FindQuest(t, id).Some? then 1 else 0) + TicksIn(t, Credit(t, q, id), id, n - 1)
  }

  /** The ticks after one step, k before it: counted from the last acceptance. */
  function TicksAfter(t: Data, w: World, e: Event, charUid: uint64, id: uint16, k: nat): nat {
    if Accepts(t, w, e, charUid, id) then 0 else k + TicksIn(t, Entry(w, charUid, id), id, Credits(w, e, charUid))
  }

  /** The ticks the quest has counted since it was last accepted; k so far. */
  ghost function Ticks(t: Data, w: World, es: seq<Event>, rules: Rules, charUid: uint64, id: uint16, k: nat): nat
    requires Run(t, w, es, rules)
    decreases |es|
  {
    if es == [] then k
    else Ticks(t, Step(t, w, es[0]), es[1..], rules, charUid, id, TicksAfter(t, w, es[0], charUid, id, k))
  }

  /** How often the quest paid out to the character. */
  ghost function Payouts(t: Data, w: World, es: seq<Event>, rules: Rules, charUid: uint64, id: uint16): nat
    requires Run(t, w, es, rules)
    decreases |es|
  {
    if es == [] then 0
    else Count(Completes(t, w, es[0], charUid, id)) + Payouts(t, Step(t, w, es[0]), es[1..], rules, charUid, id)
  }

  /** A quest's entry fits the ticks counted so far: the target is reached exactly, never passed. */
  predicate Fits(q: Quest, k: nat, target: nat) {
    match q.status
    case 0 => true
    case 1 => q.progress == k < target
    case _ => q.status <= 3 && q.progress == k == target
  }

  lemma {:induction false} CreditFits(t: Data, q: Quest, id: uint16, n: nat, k: nat)
    requires FindQuest(t, id).Some? && Fits(q, k, FindQuest(t, id).value.target)
    ensures var r := CreditTimes(t, q, id, n);
            && Fits(r, k + TicksIn(t, q, id, n), FindQuest(t, id).value.target)
            && q.status <= r.status <= 3 && (r.status == 3 <==> q.status == 3)
    decreases n
  {
    if n > 0 { CreditFits(t, Credit(t, q, id), id, n - 1, if q.status == 1 then k + 1 else k); }
  }

  lemma StepFits(t: Data, w: World, e: Event, charUid: uint64, id: uint16, k: nat)
    requires Enabled(w, e) && Disciplined(t, w, e) && Stored(w)
    requires FindQuest(t, id).Some? && FindQuest(t, id).value.target >= 1
    requires Fits(Entry(w, charUid, id), k, FindQuest(t, id).value.target)
    ensures var q, r := Entry(w, charUid, id), Entry(Step(t, w, e), charUid, id);
            && Fits(r, TicksAfter(t, w, e, charUid, id, k), FindQuest(t, id).value.target)
            && q.status <= r.status <= 3
            && (Completes(t, w, e, charUid, id) ==> q.status == 2 && r.status == 3)
            && (r.status == 3 && q.status != 3 ==> Completes(t, w, e, charUid, id))
  {
    hide Step, Disciplined, Kills, CreditTimes, TicksIn;
    StepEntry(t, w, e, charUid, id);
    CreditFits(t, Entry(w, charUid, id), id, Credits(w, e, charUid), k);
    NoCredits(t, Entry(w, charUid, id), id);
    if e.AcceptQuest? || e.CompleteQuest? { PlayedRows(w, e.s); }
  }

  lemma NoCredits(t: Data, q: Quest, id: uint16)
    ensures CreditTimes(t, q, id, 0) == q && TicksIn(t, q, id, 0) == 0
  {
  }

  lemma PlayedRows(w: World, s: SessionId)
    requires Stored(w) && s in w.sessions
    ensures Present(w.sessions, s) ==> w.sessions[s].quests == Rows(w.quests, w.sessions[s].player.charUid)
  {
  }

  /** Quest durability over disciplined runs, crossed accepts included, across any disconnects and new logins: memory
      equals the table; the status only moves up through 0, 1, 2, 3; at status 1 the progress is the number of ticks
      since the quest was accepted and is below the target, afterwards both are exactly the target; and the quest has
      paid out once if its status is 3 and never otherwise. */
  lemma {:induction false} QuestLife(t: Data, w: World, es: seq<Event>, rules: Rules, charUid: uint64, id: uint16,
          k: nat)
    requires WellFormed(t) && Invariant(t, w, rules) && Stored(w) && Run(t, w, es, rules) && rules.disciplined
    requires FindQuest(t, id).Some? && FindQuest(t, id).value.target >= 1
    requires Fits(Entry(w, charUid, id), k, FindQuest(t, id).value.target)
    ensures var r := After(t, w, es, rules); var q := Entry(r, charUid, id);
            && Stored(r) && Entry(w, charUid, id).status <= q.status <= 3
            && Fits(q, Ticks(t, w, es, rules, charUid, id, k), FindQuest(t, id).value.target)
            && Payouts(t, w, es, rules, charUid, id) == Count(q.status == 3) - Count(Entry(w, charUid, id).status == 3)
    decreases |es|
  {
    hide Step, Disciplined, Invariant, Entry, Accepts, Completes, Stored, TicksAfter;
    if es != [] {
      StepKeeps(t, w, es[0], rules);
      StepStored(t, w, es[0]);
      StepFits(t, w, es[0], charUid, id, k);
      QuestLife(t, Step(t, w, es[0]), es[1..], rules, charUid, id, TicksAfter(t, w, es[0], charUid, id, k));
    }
  }

  /** From an empty server and a quest the character has no row for. */
  lemma QuestPaysOnce(t: Data, w: World, es: seq<Event>, rules: Rules, charUid: uint64, id: uint16)
    requires WellFormed(t) && Initial(w) && Run(t, w, es, rules) && rules.disciplined
    requires FindQuest(t, id).Some? && FindQuest(t, id).value.target >= 1 && Entry(w, charUid, id) == Quest(0, 0)
    ensures var q := Entry(After(t, w, es, rules), charUid, id); var paid := Payouts(t, w, es, rules, charUid, id);
            && paid <= 1 && (paid == 1 <==> q.status == 3)
            && (paid == 1 ==> Ticks(t, w, es, rules, charUid, id, 0) == FindQuest(t, id).value.target)
  {
    InitialInvariant(t, w, rules);
    QuestLife(t, w, es, rules, charUid, id, 0);
  }
}

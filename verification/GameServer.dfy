/** The server's globals and handlers, in place; each handler is proved to take the step of the same name
    (GameServer/main.cpp, TcpServer.cpp, SessionManager.cpp). */
module GameServer {
  import opened Machine
  import opened Tables
  import opened Protocol
  import opened Character
  import opened Server
  import opened Sessions
  import Drops
  import Frames
  import Party
  import Runs

  lemma SendEachStep(w: World, ids: seq<SessionId>, i: nat, m: Msg)
    requires i < |ids|
    ensures Server.SendEach(w, ids[i..], m) == Server.SendEach(Server.SendTo(w, ids[i], m), ids[i + 1..], m)
  {
    hide Server.SendTo;
    assert ids[i..][0] == ids[i] && ids[i..][1..] == ids[i + 1..];
  }

  lemma SendEachDone(w: World, ids: seq<SessionId>, m: Msg)
    ensures Server.SendEach(w, ids[|ids|..], m) == w
  {
  }

  lemma NoneListed(w: World, members: seq<SessionId>)
    ensures [] + MemberChars(w, members[0..]) == MemberChars(w, members)
  {
    assert members[0..] == members;
  }

  lemma OneListed(w: World, members: seq<SessionId>, chars: seq<uint64>, charUid: uint64)
    requires |chars| < |members|
    requires var m := members[|chars|]; charUid == if m in w.sessions then w.sessions[m].player.charUid else 0
    ensures chars + MemberChars(w, members[|chars|..]) == (chars + [charUid]) + MemberChars(w, members[|chars| + 1..])
  {
    var i := |chars|;
    assert members[i..][0] == members[i] && members[i..][1..] == members[i + 1..];
    var rest := MemberChars(w, members[i + 1..]);
    assert chars + ([charUid] + rest) == (chars + [charUid]) + rest;
  }

  lemma AllListed(w: World, members: seq<SessionId>, chars: seq<uint64>)
    ensures chars + MemberChars(w, members[|members|..]) == chars
  {
  }

  /** Messages to a list of sessions do not depend on the rest of the world. */
  lemma {:induction false} SendEachLocal(w: World, v: World, ids: seq<SessionId>, m: Msg)
    requires w.sessions == v.sessions
    ensures SendEach(w, ids, m).sessions == SendEach(v, ids, m).sessions
    decreases |ids|
  {
    if ids != [] { SendEachLocal(SendTo(w, ids[0], m), SendTo(v, ids[0], m), ids[1..], m); }
  }

  /** What a broadcast does to one session. */
  function Heard(c: State, excepted: bool, m: Msg): State {
    if c.player.loggedIn && !excepted then Character.Send(c, m) else c
  }

  lemma BroadcastIs(w: World, except: Option<SessionId>, m: Msg, after: Server.Sessions)
    requires after.Keys == w.sessions.Keys
    requires forall s | s in w.sessions :: after[s] == Heard(w.sessions[s], except == Some(s), m)
    ensures Server.BroadcastExcept(w, except, m) == w.(sessions := after)
  {
    assert Server.BroadcastExcept(w, except, m).sessions == after;
  }

  /** The new session is told about the others as they are; its own entry is not read. */
  lemma {:induction false} PlayersLocal(c: State, sessions: Server.Sessions, s: SessionId, x: State,
          ids: set<SessionId>)
    requires ids <= sessions.Keys && s !in ids
    ensures SendPlayers(c, sessions[s := x], ids) == SendPlayers(c, sessions, ids)
    decreases |ids|
  {
    if ids != {} {
      var o := Least(ids);
      var p := sessions[o].player;
      PlayersLocal(if p.loggedIn then Character.Send(c, OtherInfo(p)) else c, sessions, s, x, ids - {o});
    }
  }

  lemma PutPut(w: World, s: SessionId, a: State, b: State)
    ensures Put(Put(w, s, a), s, b) == Put(w, s, b)
  {
  }

  /** The party maps once a session is struck from its party's list, before anyone has been told. */
  function Struck(ps: Party.State, s: SessionId): Party.State
    requires s in ps.playerParty && ps.playerParty[s] in ps.parties
  {
    var p := ps.playerParty[s];
    ps.(playerParty := ps.playerParty - {s},
        parties := ps.parties[p := ps.parties[p].(members := Party.Without(ps.parties[p].members, s))])
  }

  function Disbanded(ps: Party.State, p: Party.PartyId, rest: seq<SessionId>): Party.State {
    ps.(playerParty := ps.playerParty - Party.Elements(rest), parties := ps.parties - {p})
  }

  /** Leaving a party as the server does it: strike, tell, then disband or update. */
  lemma RemoveForm(w: World, s: SessionId)
    requires s in w.parties.playerParty && w.parties.playerParty[s] in w.parties.parties
    ensures var p := w.parties.playerParty[s];
            var rest := Party.Without(w.parties.parties[p].members, s);
            var leave := PartyLeave(if s in w.sessions then w.sessions[s].player.charUid else 0);
            var told := Server.SendEach(w.(parties := Struck(w.parties, s)), rest, leave);
            Server.RemoveFromParty(w, s) ==
              if |rest| <= 1 then
                Server.SendEach(told, rest, PartyLeave(0)).(parties := Disbanded(told.parties, p, rest))
              else Server.SendPartyUpdate(told, p)
  {
    hide Server.SendEach, Server.SendPartyUpdate, Party.Without, Party.Elements;
    var p := w.parties.playerParty[s];
    var rest := Party.Without(w.parties.parties[p].members, s);
    var leave := PartyLeave(if s in w.sessions then w.sessions[s].player.charUid else 0);
    if |rest| <= 1 {
      var struck := w.(parties := Struck(w.parties, s));
      var gone := w.(parties := Party.RemoveFromParty(w.parties, s));
      SendEachLocal(struck, gone, rest, leave);
      SendEachLocal(Server.SendEach(struck, rest, leave), Server.SendEach(gone, rest, leave), rest, PartyLeave(0));
      assert Struck(w.parties, s).parties - {p} == w.parties.parties - {p};
    }
  }

  lemma LeavingKeepsPlayer(w: World, s: SessionId)
    requires s in w.sessions
    ensures Server.RemoveFromParty(w, s).sessions[s].player == w.sessions[s].player
  {
    hide Server.RemoveFromParty;
    Frames.RemoveOnlySent(w, s);
  }

  lemma SplitAttack(w: World, e: Event)
    requires Enabled(w, e) && !e.Connect?
    ensures e.s in w.sessions && (Sharers(w, e.s).Some? ==> |Sharers(w, e.s).value| > 0)
  {
  }

  lemma NpcIndexIs(npcs: seq<Npc>, uid: nat, i: nat)
    requires i <= |npcs| && (i < |npcs| ==> npcs[i].alive && npcs[i].uid == uid)
    requires forall j | 0 <= j < i :: !(npcs[j].alive && npcs[j].uid == uid)
    ensures NpcIndex(npcs, uid) == i
  {
  }

  class GameServer {
    const tables: Data
    const totalWeight: int
    var sessions: map<SessionId, Session>
    var nextSessionId: SessionId
    const npcs: array<Npc>
    var nextNpcUid: nat
    var parties: map<Party.PartyId, Party.Group>
    var playerParty: map<SessionId, Party.PartyId>
    var pendingInvites: map<SessionId, SessionId>
    var nextPartyId: Party.PartyId
    var questRows: QuestTable

    /** The sum of the drop weights is known, and every session is filed under its own id, so no two entries share a
        session. */
    ghost predicate Valid()
      reads this`sessions
    {
      totalWeight == TotalWeight(tables.drops) && forall s | s in sessions :: sessions[s].id == s
    }

    ghost function States(): (r: Server.Sessions)
      reads this`sessions, sessions.Values
      ensures r.Keys == sessions.Keys
    {
      map s | s in sessions :: sessions[s].State()
    }

    ghost function PartyMaps(): Party.State
      reads this
    {
      Party.State(parties, playerParty, pendingInvites, nextPartyId)
    }

    ghost function World(): (w: World)
      reads this, sessions.Values, npcs
      ensures w.sessions.Keys == sessions.Keys
    {
      Server.World(States(), nextSessionId, npcs[..], nextNpcUid, PartyMaps(), questRows)
    }

    /** Start-up: five NPCs at random places, no session, the quest rows the database holds. */
    constructor (tables: Data, places: seq<(nat, nat)>, questRows: QuestTable)
      requires |places| == MAX_NPC
      ensures Valid() && this.tables == tables && fresh(npcs) && sessions == map[]
      ensures Initial(World()) && World().quests == questRows
    {
      this.tables, this.questRows := tables, questRows;
      var sum := Drops.SumWeights(tables.drops);
      totalWeight := sum;
      sessions, nextSessionId := map[], 1;
      parties, playerParty, pendingInvites, nextPartyId := map[], map[], map[], 1;
      npcs, nextNpcUid := new Npc[MAX_NPC](_ => Npc(0, 0, 0, 0, false)), 1;
      new;
      var i := 0;
      while i < MAX_NPC
        invariant 0 <= i <= MAX_NPC == npcs.Length && nextNpcUid == i + 1 && sessions == map[]
        invariant forall j | 0 <= j < i ::
                    npcs[j] == Npc(j + 1, places[j].0 % MAP_SIZE, places[j].1 % MAP_SIZE, NPC_HP, true)
        modifies this`nextNpcUid, npcs
      {
        npcs[i] := Npc(nextNpcUid, places[i].0 % MAP_SIZE, places[i].1 % MAP_SIZE, NPC_HP, true);
        nextNpcUid := nextNpcUid + 1;
        i := i + 1;
      }
    }

    twostate lemma OneChanged(s: SessionId)
      requires old(Valid()) && s in sessions && unchanged(this) && unchanged(npcs)
      requires forall o | o in sessions && o != s :: unchanged(sessions[o])
      ensures World() == Put(old(World()), s, sessions[s].State())
    {
      assert States() == old(States())[s := sessions[s].State()];
    }

    // ---------------------------------------------------------------- sending

    method SendTo(s: SessionId, m: Msg)
      requires Valid()
      modifies sessions.Values
      ensures World() == Server.SendTo(old(World()), s, m)
    {
      if s in sessions {
        sessions[s].Send(m);
        OneChanged(s);
      }
    }

    method Relay(s: SessionId, excepted: bool, m: Msg)
      requires s in sessions
      modifies sessions[s]
      ensures sessions[s].State() == Heard(old(sessions[s].State()), excepted, m)
    {
      if sessions[s].player.loggedIn && !excepted {
        sessions[s].Send(m);
      }
    }

    method BroadcastExcept(except: Option<SessionId>, m: Msg)
      requires Valid()
      modifies sessions.Values
      ensures World() == Server.BroadcastExcept(old(World()), except, m)
    {
      hide Character.Send, Server.BroadcastExcept, Heard;
      ghost var before := States();
      var ids := sessions.Keys;
      while ids != {}
        invariant ids <= sessions.Keys
        invariant forall s | s in sessions ::
                    sessions[s].State() == if s in ids then before[s] else Heard(before[s], except == Some(s), m)
        decreases ids
      {
        var s := Least(ids);
        Relay(s, except == Some(s), m);
        ids := ids - {s};
      }
      BroadcastIs(old(World()), except, m, States());
    }

    method SendEach(ids: seq<SessionId>, m: Msg)
      requires Valid()
      modifies sessions.Values
      ensures World() == Server.SendEach(old(World()), ids, m)
    {
      hide Server.SendTo, Server.SendEach, Valid, World;
      ghost var w := World();
      assert ids[0..] == ids;
      var i := 0;
      while i < |ids|
        invariant 0 <= i <= |ids|
        invariant Server.SendEach(World(), ids[i..], m) == Server.SendEach(w, ids, m)
      {
        SendEachStep(World(), ids, i, m);
        SendTo(ids[i], m);
        i := i + 1;
      }
      SendEachDone(World(), ids, m);
    }

    // ---------------------------------------------------------------- entering

    method SendAllNPCs(s: SessionId)
      requires Valid() && s in sessions
      modifies sessions[s]
      ensures sessions[s].State() == SendAllNpcs(old(sessions[s].State()), npcs[..])
    {
      hide Character.Send, SpawnMsg;
      var i := 0;
      while i < npcs.Length
        invariant 0 <= i <= npcs.Length
        invariant SendAllNpcs(sessions[s].State(), npcs[i..]) == SendAllNpcs(old(sessions[s].State()), npcs[..])
      {
        assert npcs[i..][0] == npcs[i] && npcs[i..][1..] == npcs[i + 1..];
        if npcs[i].alive {
          sessions[s].Send(SpawnMsg(npcs[i]));
        }
        i := i + 1;
      }
    }

    /** The new session is told of every other player in the game. */
    method TellOfOthers(s: SessionId)
      requires Valid() && s in sessions
      modifies sessions[s]
      ensures sessions[s].State() == SendPlayers(old(sessions[s].State()), old(States()), sessions.Keys - {s})
    {
      hide Character.Send, OtherInfo;
      var ids := sessions.Keys - {s};
      while ids != {}
        invariant ids <= sessions.Keys - {s}
        invariant SendPlayers(sessions[s].State(), old(States()), ids)
               == SendPlayers(old(sessions[s].State()), old(States()), sessions.Keys - {s})
        decreases ids
      {
        var o := Least(ids);
        if sessions[o].player.loggedIn {
          sessions[s].Send(OtherInfo(sessions[o].player));
        }
        ids := ids - {o};
      }
    }

    method SendOtherPlayers(s: SessionId)
      requires Valid() && s in sessions
      modifies sessions.Values
      ensures var met := SendPlayers(old(sessions[s].State()), old(States()), sessions.Keys - {s});
              World() == Server.BroadcastExcept(Put(old(World()), s, met), Some(s), OtherInfo(met.player))
              && sessions[s].State() == met
    {
      hide SendPlayers, Server.BroadcastExcept, OtherInfo;
      TellOfOthers(s);
      OneChanged(s);
      Frames.ExceptedUntouched(World(), s, OtherInfo(sessions[s].player));
      BroadcastExcept(Some(s), OtherInfo(sessions[s].player));
    }

    /** LoadInventory and LoadQuestProgress. */
    method Load(s: SessionId, charUid: uint64, r: Record)
      requires Valid() && s in sessions
      modifies sessions[s]
      ensures var c := Character.LoadInventory(tables, Character.Send(old(sessions[s].State()), AttendanceInfo), r);
              World() == Put(old(World()), s, c.(quests := Rows(questRows, charUid)))
    {
      hide Character.Send, Character.LoadInventory, Rows;
      sessions[s].Load(tables, r, Rows(questRows, charUid));
      OneChanged(s);
    }

    method OnCharSelect(s: SessionId, charUid: uint64, found: Option<Record>, x: nat, y: nat)
      requires Valid() && s in sessions
      modifies sessions.Values
      ensures World() == Server.OnCharSelect(tables, old(World()), s, charUid, found, x, y)
    {
      hide SendPlayers, SendAllNpcs, Server.BroadcastExcept, OtherInfo, Character.LoadInventory, Entered,
        SendCharInfo, Rows, Character.Send;
      match found
      case None => SendTo(s, Error(1));
      case Some(r) =>
        sessions[s].Enter(charUid, r, x, y);
        SendAllNPCs(s);
        OneChanged(s);
        ghost var entered := sessions[s].State();
        PlayersLocal(entered, old(States()), s, entered, sessions.Keys - {s});
        PutPut(old(World()), s, entered, SendPlayers(entered, old(States()), sessions.Keys - {s}));
        SendOtherPlayers(s);
        Load(s, charUid, r);
    }

    method OnLogin(s: SessionId, account: uint64)
      requires Valid() && s in sessions
      modifies sessions.Values
      ensures World() == Server.OnLogin(old(World()), s, account)
    {
      hide Character.Send;
      var session := sessions[s];
      session.player := session.player.(accountUid := account);
      session.Send(LoginResult(account));
      session.Send(CharList);
      OneChanged(s);
    }

    // ---------------------------------------------------------------- in the game

    method OnMove(s: SessionId, dx: int, dy: int)
      requires Valid() && s in sessions
      modifies sessions.Values
      ensures World() == Server.OnMove(old(World()), s, dx, dy)
    {
      hide Moved, OtherInfo, Server.BroadcastExcept;
      sessions[s].OnMove(dx, dy);
      OneChanged(s);
      BroadcastExcept(Some(s), OtherInfo(sessions[s].player));
    }

    method AfterUse(s: SessionId, slot: nat)
      requires Valid() && s in sessions && slot < MAX_INVENTORY
      modifies sessions[s]
      ensures World() == Put(old(World()), s, Character.AfterUse(tables, old(sessions[s].State()), slot))
    {
      hide Character.AfterUse;
      sessions[s].AfterUse(tables, slot);
      OneChanged(s);
    }

    method OnItemUse(s: SessionId, slot: nat)
      requires Valid() && s in sessions
      modifies sessions.Values
      ensures World() == Server.OnItemUse(tables, old(World()), s, slot)
    {
      hide Usable, UsedMsg, Character.Consume, Character.AfterUse, Server.BroadcastExcept;
      var item := sessions[s].FindUsable(tables, slot);
      if item.Some? {
        sessions[s].Consume(slot, item.value);
        OneChanged(s);
        BroadcastExcept(None, UsedMsg(sessions[s].player, item.value));
        AfterUse(s, slot);
      }
    }

    method OnItemEquip(s: SessionId, slot: nat)
      requires Valid() && s in sessions
      modifies sessions[s]
      ensures World() == Put(old(World()), s, Character.OnItemEquip(tables, old(sessions[s].State()), slot))
    {
      hide Character.OnItemEquip;
      sessions[s].OnItemEquip(tables, slot);
      OneChanged(s);
    }

    method OnShopBuy(s: SessionId, tid: uint16, newUid: uint64)
      requires Valid() && s in sessions
      modifies sessions[s]
      ensures World() == Put(old(World()), s, Character.OnShopBuy(tables, old(sessions[s].State()), tid, newUid))
    {
      hide Character.OnShopBuy;
      sessions[s].OnShopBuy(tables, tid, newUid);
      OneChanged(s);
    }

    method OnShopSell(s: SessionId, slot: nat)
      requires Valid() && s in sessions
      modifies sessions[s]
      ensures World() == Put(old(World()), s, Character.OnShopSell(tables, old(sessions[s].State()), slot))
    {
      hide Character.OnShopSell;
      sessions[s].OnShopSell(tables, slot);
      OneChanged(s);
    }

    method OnQuestList(s: SessionId)
      requires Valid() && s in sessions
      modifies sessions[s]
      ensures World() == Put(old(World()), s, Character.OnQuestList(tables, old(sessions[s].State())))
    {
      hide Character.OnQuestList;
      sessions[s].OnQuestList(tables);
      OneChanged(s);
    }

    method OnWriteError(s: SessionId)
      requires Valid() && s in sessions
      modifies sessions[s]
      ensures World() == Put(old(World()), s, old(sessions[s].State()).(connected := false))
    {
      sessions[s].connected := false;
      OneChanged(s);
    }

    method OnQuestAccept(s: SessionId, q: uint16)
      requires Valid() && s in sessions
      modifies this`questRows, sessions[s]
      ensures World() == OnQuestAcceptW(tables, old(World()), s, q)
    {
      hide Acceptable, Character.OnQuestAccept, Save;
      var charUid := sessions[s].player.charUid;
      var saved := sessions[s].OnQuestAccept(tables, q);
      OneChanged(s);
      if saved.Some? {
        questRows := Save(questRows, charUid, q, saved.value);
      }
    }

    method OnQuestComplete(s: SessionId, q: uint16, newUid: uint64)
      requires Valid() && s in sessions
      modifies this`questRows, sessions[s]
      ensures World() == OnQuestCompleteW(tables, old(World()), s, q, newUid)
    {
      hide Completable, Character.OnQuestComplete, Save;
      var charUid := sessions[s].player.charUid;
      var saved := sessions[s].OnQuestComplete(tables, q, newUid);
      OneChanged(s);
      if saved.Some? {
        questRows := Save(questRows, charUid, q, saved.value);
      }
    }

    // ---------------------------------------------------------------- attacks

    method UpdateQuestProgress(s: SessionId)
      requires Valid() && s in sessions
      modifies this`questRows, sessions[s]
      ensures World() == CreditQuests(tables, old(World()), s)
    {
      hide Character.UpdateQuestProgress;
      var rows := sessions[s].UpdateQuestProgress(tables, questRows);
      OneChanged(s);
      questRows := rows;
    }

    method Award(s: SessionId, exp: nat, gold: nat)
      requires Valid() && s in sessions
      modifies sessions[s]
      ensures World() == Put(old(World()), s, Character.Award(old(sessions[s].State()), exp, gold))
    {
      hide Character.Award;
      sessions[s].Award(exp, gold);
      OneChanged(s);
    }

    /** Every member's share; the killer's own quests are credited by the caller. */
    method ShareKill(members: seq<SessionId>, killer: SessionId, exp: nat, gold: nat)
      requires Valid()
      modifies this`questRows, sessions.Values
      ensures World() == Share(tables, old(World()), members, killer, exp, gold)
    {
      hide Character.Award, CreditQuests;
      var i := 0;
      while i < |members|
        invariant 0 <= i <= |members|
        invariant Share(tables, World(), members[i..], killer, exp, gold)
                  == Share(tables, old(World()), members, killer, exp, gold)
      {
        assert members[i..][0] == members[i] && members[i..][1..] == members[i + 1..];
        var m := members[i];
        if m in sessions {
          Award(m, exp, gold);
          if m != killer {
            UpdateQuestProgress(m);
          }
        }
        i := i + 1;
      }
    }

    method Reward(s: SessionId)
      requires Valid() && s in sessions
      requires Sharers(World(), s).Some? ==> |Sharers(World(), s).value| > 0
      modifies this`questRows, sessions.Values
      ensures World() == PayKill(tables, old(World()), s)
    {
      hide Share, Character.Award;
      if s in playerParty {
        var members := if playerParty[s] in parties then parties[playerParty[s]].members else [];
        ShareKill(members, s, NPC_EXP / |members|, NPC_GOLD / |members|);
      } else {
        Award(s, NPC_EXP, NPC_GOLD);
      }
    }

    /** The NPC within reach that has this uid; npcs.Length for none. */
    method FindTarget(s: SessionId, uid: nat) returns (i: nat)
      requires Valid() && s in sessions
      ensures i <= npcs.Length
      ensures Target(World(), s, uid) == if i < npcs.Length then Some(i) else None
    {
      i := 0;
      while i < npcs.Length
        invariant 0 <= i <= npcs.Length
        invariant forall j | 0 <= j < i :: !(npcs[j].alive && npcs[j].uid == uid)
      {
        if npcs[i].alive && npcs[i].uid == uid {
          break;
        }
        i := i + 1;
      }
      NpcIndexIs(npcs[..], uid, i);
      if i < npcs.Length && !InReach(sessions[s].player, npcs[i]) {
        i := npcs.Length;
      }
    }

    method SetNpc(i: nat, n: Npc)
      requires Valid() && i < npcs.Length
      modifies npcs
      ensures npcs[..] == old(npcs[..])[i := n] && World() == old(World()).(npcs := npcs[..])
    {
      npcs[i] := n;
    }

    method HitNpc(s: SessionId, i: nat)
      requires Valid() && s in sessions && i < npcs.Length
      modifies npcs, sessions.Values
      ensures World() == Hit(old(World()), s, i)
    {
      hide Damage, Server.SendTo;
      var damage := Damage(sessions[s].player);
      SetNpc(i, npcs[i].(hp := if npcs[i].hp > damage then npcs[i].hp - damage else 0));
      SendTo(s, AttackResult(true, npcs[i].uid, damage, npcs[i].hp));
    }

    method Die(i: nat)
      requires Valid() && i < npcs.Length
      modifies npcs, sessions.Values
      ensures World() == Death(old(World()), i)
    {
      hide Server.BroadcastExcept;
      BroadcastExcept(None, NpcDeath(npcs[i].uid, NPC_EXP, NPC_GOLD));
      SetNpc(i, npcs[i].(alive := false));
    }

    method DropItem(s: SessionId, luck: Luck)
      requires Valid() && s in sessions
      modifies sessions[s]
      ensures World() == Loot(tables, old(World()), s, luck)
    {
      hide Character.Receive, Dropped;
      var dropId := Drops.RollDrop(tables.drops, totalWeight, luck.rand);
      sessions[s].Receive(tables, dropId, luck.itemUid);
      OneChanged(s);
    }

    method TakeNpcUid() returns (uid: nat)
      modifies this`nextNpcUid
      ensures uid == old(nextNpcUid) && World() == old(World()).(nextNpcUid := uid + 1)
    {
      uid := nextNpcUid;
      nextNpcUid := nextNpcUid + 1;
    }

    method SpawnNPC(i: nat, x: nat, y: nat)
      requires Valid() && i < npcs.Length
      modifies this`nextNpcUid, npcs, sessions.Values
      ensures var w := old(World()); var n := Npc(w.nextNpcUid, x % MAP_SIZE, y % MAP_SIZE, NPC_HP, true);
              World() == Server.BroadcastExcept(w.(npcs := w.npcs[i := n], nextNpcUid := w.nextNpcUid + 1), None,
                  SpawnMsg(n))
    {
      hide Server.BroadcastExcept;
      var uid := TakeNpcUid();
      SetNpc(i, Npc(uid, x % MAP_SIZE, y % MAP_SIZE, NPC_HP, true));
      BroadcastExcept(None, SpawnMsg(npcs[i]));
    }

    /** The first dead NPC comes back as a new one. */
    method SpawnOne(x: nat, y: nat)
      requires Valid()
      modifies this`nextNpcUid, npcs, sessions.Values
      ensures World() == Respawn(old(World()), x, y)
    {
      hide Server.BroadcastExcept;
      var i := 0;
      while i < npcs.Length && npcs[i].alive
        invariant 0 <= i <= npcs.Length
        invariant forall j | 0 <= j < i :: npcs[j].alive
      {
        i := i + 1;
      }
      assert DeadIndex(npcs[..]) == i;
      if i < npcs.Length {
        SpawnNPC(i, x, y);
      }
    }

    method OnKill(s: SessionId, i: nat, luck: Luck)
      requires Valid() && s in sessions && i < npcs.Length
      requires Sharers(World(), s).Some? ==> |Sharers(World(), s).value| > 0
      modifies this`questRows, this`nextNpcUid, npcs, sessions.Values
      ensures World() == Killed(tables, old(World()), s, i, luck)
    {
      hide Death, PayKill, CreditQuests, Loot, Respawn;
      Die(i);
      Reward(s);
      UpdateQuestProgress(s);
      DropItem(s, luck);
      SpawnOne(luck.x, luck.y);
    }

    method OnAttack(s: SessionId, uid: nat, luck: Luck)
      requires Valid() && s in sessions
      requires Sharers(World(), s).Some? ==> |Sharers(World(), s).value| > 0
      modifies this`questRows, this`nextNpcUid, npcs, sessions.Values
      ensures World() == Server.OnAttack(tables, old(World()), s, uid, luck)
    {
      hide Target, Hit, Killed, Server.SendTo;
      var i := FindTarget(s, uid);
      if i < npcs.Length {
        HitNpc(s, i);
        if npcs[i].hp == 0 {
          OnKill(s, i, luck);
        }
      } else {
        SendTo(s, AttackResult(false, 0, 0, 0));
      }
    }

    // ---------------------------------------------------------------- parties

    /** The character a party member plays; 0 when the session is gone. */
    method CharOf(m: SessionId) returns (charUid: uint64)
      requires Valid()
      ensures charUid == if m in States() then States()[m].player.charUid else 0
    {
      charUid := if m in sessions then sessions[m].player.charUid else 0;
    }

    method ListMembers(members: seq<SessionId>) returns (chars: seq<uint64>)
      requires Valid()
      ensures chars == MemberChars(World(), members)
    {
      hide MemberChars;
      ghost var w := World();
      chars := [];
      NoneListed(w, members);
      while |chars| < |members|
        invariant |chars| <= |members|
        invariant chars + MemberChars(w, members[|chars|..]) == MemberChars(w, members)
      {
        var charUid := CharOf(members[|chars|]);
        OneListed(w, members, chars, charUid);
        chars := chars + [charUid];
      }
      AllListed(w, members, chars);
    }

    method SendPartyUpdate(p: Party.PartyId)
      requires Valid()
      modifies sessions.Values
      ensures World() == Server.SendPartyUpdate(old(World()), p)
    {
      hide MemberChars, Server.SendEach;
      if p in parties {
        var members := parties[p].members;
        var chars := ListMembers(if |members| <= MAX_PARTY then members else members[..MAX_PARTY]);
        SendEach(members, PartyUpdate(U8(|members|), chars));
      }
    }

    method Strike(s: SessionId)
      requires Valid() && s in playerParty && playerParty[s] in parties
      modifies this`parties, this`playerParty
      ensures World() == old(World()).(parties := Struck(old(PartyMaps()), s))
    {
      var p := playerParty[s];
      playerParty := playerParty - {s};
      parties := parties[p := parties[p].(members := Party.Without(parties[p].members, s))];
    }

    method Disband(p: Party.PartyId, rest: seq<SessionId>)
      requires Valid()
      modifies this`parties, this`playerParty
      ensures World() == old(World()).(parties := Disbanded(old(PartyMaps()), p, rest))
    {
      playerParty := playerParty - Party.Elements(rest);
      parties := parties - {p};
    }

    method RemoveFromParty(s: SessionId)
      requires Valid()
      modifies this`parties, this`playerParty, sessions.Values
      ensures World() == Server.RemoveFromParty(old(World()), s)
    {
      if s !in playerParty {
        return;
      }
      if playerParty[s] in parties {
        hide Server.RemoveFromParty;
        LeaveGroup(s);
      } else {
        playerParty := playerParty - {s};
      }
    }

    /** The disband notice to whoever is left. */
    method TellLast(rest: seq<SessionId>)
      requires Valid() && |rest| <= 1
      modifies sessions.Values
      ensures World() == Server.SendEach(old(World()), rest, PartyLeave(0))
    {
      hide Server.SendTo;
      if rest != [] {
        SendTo(rest[0], PartyLeave(0));
      }
    }

    /** Off the list, and a notice to the rest. */
    method StrikeAndTell(s: SessionId) returns (rest: seq<SessionId>)
      requires Valid() && s in playerParty && playerParty[s] in parties
      modifies this`parties, this`playerParty, sessions.Values
      ensures rest == Party.Without(old(parties[playerParty[s]].members), s)
      ensures var w := old(World());
              var leave := PartyLeave(if s in w.sessions then w.sessions[s].player.charUid else 0);
              World() == Server.SendEach(w.(parties := Struck(w.parties, s)), rest, leave)
    {
      hide Struck, Party.Without, Server.SendEach;
      rest := Party.Without(parties[playerParty[s]].members, s);
      Strike(s);
      SendEach(rest, PartyLeave(if s in sessions then sessions[s].player.charUid else 0));
    }

    method LeaveGroup(s: SessionId)
      requires Valid() && s in playerParty && playerParty[s] in parties
      modifies this`parties, this`playerParty, sessions.Values
      ensures World() == Server.RemoveFromParty(old(World()), s)
    {
      hide Server.SendPartyUpdate, Server.SendTo, Struck, Disbanded, Party.Without, Server.RemoveFromParty,
        Server.SendEach;
      RemoveForm(World(), s);
      var p := playerParty[s];
      var rest := StrikeAndTell(s);
      if |rest| <= 1 {
        TellLast(rest);
        Disband(p, rest);
      } else {
        SendPartyUpdate(p);
      }
    }

    /** The last session, in id order, with this name. */
    method FindByName(name: string) returns (target: Option<SessionId>)
      requires Valid()
      ensures target == Named(States(), sessions.Keys, name, None)
    {
      target := None;
      var ids := sessions.Keys;
      while ids != {}
        invariant ids <= sessions.Keys
        invariant Named(States(), ids, name, target) == Named(States(), sessions.Keys, name, None)
        decreases ids
      {
        var o := Least(ids);
        if sessions[o].player.name == name {
          target := Some(o);
        }
        ids := ids - {o};
      }
    }

    method RecordInvite(invitee: SessionId, inviter: SessionId)
      requires Valid()
      modifies this`pendingInvites
      ensures World() == old(World()).(parties := old(PartyMaps()).(pending := old(pendingInvites)[invitee := inviter]))
    {
      pendingInvites := pendingInvites[invitee := inviter];
    }

    method OnPartyInvite(s: SessionId, name: string)
      requires Valid() && s in sessions
      modifies this`pendingInvites, sessions.Values
      ensures World() == Server.OnPartyInvite(old(World()), s, name)
    {
      hide Named, Server.SendTo, Clip, Party.InviterFull;
      if Party.InviterFull(Party.State(parties, playerParty, pendingInvites, nextPartyId), s) {
        SendTo(s, Error(4));
        return;
      }
      var target := FindByName(name);
      if target.None? || target.value == s || target.value in playerParty {
        SendTo(s, Error(4));
        return;
      }
      RecordInvite(target.value, s);
      SendTo(target.value, PartyInvite(Clip(sessions[s].player.name, 19)));
    }

    method EnsureParty(inviter: SessionId)
      requires Valid()
      modifies this`parties, this`playerParty, this`nextPartyId
      ensures PartyMaps() == Party.WithParty(old(PartyMaps()), inviter)
      ensures World() == old(World()).(parties := PartyMaps())
    {
      if inviter !in playerParty {
        var p := nextPartyId;
        nextPartyId := nextPartyId + 1;
        parties := parties[p := Party.Group(p, [inviter])];
        playerParty := playerParty[inviter := p];
      }
    }

    method PutMember(p: Party.PartyId, party: Party.Group, s: SessionId)
      requires Valid()
      modifies this`parties, this`playerParty
      ensures PartyMaps()
              == old(PartyMaps()).(parties := old(parties)[p := party], playerParty := old(playerParty)[s := p])
      ensures World() == old(World()).(parties := PartyMaps())
    {
      parties := parties[p := party];
      playerParty := playerParty[s := p];
    }

    /** The bookkeeping of an answer: the party joined, if any. */
    method Join(s: SessionId, accept: bool) returns (joined: Option<Party.PartyId>)
      requires Valid()
      modifies this`parties, this`playerParty, this`pendingInvites, this`nextPartyId
      ensures PartyMaps() == Party.Accept(old(PartyMaps()), s, accept, sessions.Keys)
      ensures joined.Some? ==> s in playerParty
      ensures World() == old(World()).(parties := PartyMaps())
      ensures joined == if Party.Joins(old(PartyMaps()), s, accept, sessions.Keys) then Some(playerParty[s]) else None
    {
      joined := None;
      if s !in pendingInvites {
        return;
      }
      var inviter := pendingInvites[s];
      DropInvite(s);
      if !accept || inviter !in sessions {
        return;
      }
      EnsureParty(inviter);
      var partyId := playerParty[inviter];
      var party := if partyId in parties then parties[partyId] else Party.Group(0, []);
      if |party.members| >= MAX_PARTY {
        return;
      }
      PutMember(partyId, party.(members := party.members + [s]), s);
      joined := Some(partyId);
    }

    method OnPartyAccept(s: SessionId, accept: bool)
      requires Valid()
      modifies this`parties, this`playerParty, this`pendingInvites, this`nextPartyId, sessions.Values
      ensures World() == Server.OnPartyAccept(old(World()), s, accept)
    {
      hide Server.SendPartyUpdate, Party.Accept, Party.Joins;
      var joined := Join(s, accept);
      if joined.Some? {
        SendPartyUpdate(joined.value);
      }
    }

    // ---------------------------------------------------------------- connections

    method AddSession(session: Session)
      requires Valid() && session.id !in sessions
      modifies this`sessions
      ensures Valid() && sessions == old(sessions)[session.id := session]
      ensures World() == Put(old(World()), session.id, session.State())
    {
      ghost var before := States();
      sessions := sessions[session.id := session];
      assert States() == before[session.id := session.State()];
    }

    method OnConnect()
      requires Valid() && nextSessionId !in sessions
      modifies this`sessions, this`nextSessionId
      ensures Valid() && World() == Server.OnConnect(old(World()))
      ensures fresh(sessions.Values - old(sessions.Values))
    {
      var id := nextSessionId;
      nextSessionId := nextSessionId + 1;
      var session := new Session(id);
      AddSession(session);
    }

    method RemoveSession(s: SessionId)
      requires Valid()
      modifies this`sessions
      ensures Valid() && sessions == old(sessions) - {s}
      ensures World() == old(World()).(sessions := old(World()).sessions - {s})
    {
      ghost var before := States();
      sessions := sessions - {s};
      assert States() == before - {s};
    }

    method DropInvite(s: SessionId)
      requires Valid()
      modifies this`pendingInvites
      ensures World() == old(World()).(parties := old(PartyMaps()).(pending := old(pendingInvites) - {s}))
    {
      pendingInvites := pendingInvites - {s};
    }

    method OnDisconnect(s: SessionId)
      requires Valid() && s in sessions
      modifies this`sessions, this`parties, this`playerParty, this`pendingInvites, sessions.Values
      ensures Valid() && World() == Server.OnDisconnect(old(World()), s)
      ensures sessions == old(sessions) - {s}
    {
      hide Server.RemoveFromParty, Server.BroadcastExcept;
      LeavingKeepsPlayer(World(), s);
      RemoveFromParty(s);
      DropInvite(s);
      if sessions[s].player.loggedIn {
        BroadcastExcept(Some(s), CharLeave(sessions[s].player.accountUid));
      }
      RemoveSession(s);
    }

    // ---------------------------------------------------------------- packets

    /** The packet table: one packet, one handler. */
    method HandlePacket(e: Event)
      requires Valid() && Enabled(World(), e) && !e.Connect? && !e.WriteFails? && !e.Disconnect?
      modifies this`parties, this`playerParty, this`pendingInvites, this`nextPartyId, this`nextNpcUid, this`questRows
      modifies npcs, sessions.Values
      ensures World() == Step(tables, old(World()), e)
    {
      hide Server.OnLogin, Server.SendTo, Server.OnCharSelect, Server.OnMove, Server.OnAttack, Server.OnItemUse,
        Sharers, Splittable;
      hide OnQuestAcceptW, OnQuestCompleteW, Server.OnPartyInvite, Server.OnPartyAccept, Server.RemoveFromParty;
      hide Character.OnItemEquip, Character.OnShopBuy, Character.OnShopSell, Character.OnQuestList;
      SplitAttack(World(), e);
      if e.Login? {
        OnLogin(e.s, e.account);
      } else if e.AskCharList? {
        SendTo(e.s, CharList);
      } else if e.Select? {
        OnCharSelect(e.s, e.charUid, e.found, e.x, e.y);
      } else if e.Move? {
        OnMove(e.s, e.dx, e.dy);
      } else if e.Attack? {
        OnAttack(e.s, e.uid, e.luck);
      } else if e.UseItem? {
        OnItemUse(e.s, e.slot);
      } else if e.EquipItem? {
        OnItemEquip(e.s, e.slot);
      } else if e.Buy? {
        OnShopBuy(e.s, e.tid, e.itemUid);
      } else if e.Sell? {
        OnShopSell(e.s, e.slot);
      } else if e.AskQuests? {
        OnQuestList(e.s);
      } else if e.AcceptQuest? {
        OnQuestAccept(e.s, e.quest);
      } else if e.CompleteQuest? {
        OnQuestComplete(e.s, e.quest, e.itemUid);
      } else if e.InviteTo? {
        OnPartyInvite(e.s, e.name);
      } else if e.Answer? {
        OnPartyAccept(e.s, e.accept);
      } else {
        RemoveFromParty(e.s);
      }
    }

    /** Every event, packet or connection event: the server takes exactly the modelled step. */
    method Handle(e: Event)
      requires Valid() && Enabled(World(), e) && nextSessionId !in sessions
      modifies this, npcs, sessions.Values
      ensures Valid() && World() == Step(tables, old(World()), e)
      ensures fresh(sessions.Values - old(sessions.Values))
    {
      hide Server.OnConnect, Server.OnDisconnect, Server.OnLogin, Server.SendTo, Server.OnCharSelect, Server.OnMove,
        Server.OnAttack, Server.OnItemUse, OnQuestAcceptW, OnQuestCompleteW, Server.OnPartyInvite, Server.OnPartyAccept,
        Server.RemoveFromParty, Character.OnItemEquip, Character.OnShopBuy, Character.OnShopSell, Character.OnQuestList;
      if e.Connect? {
        OnConnect();
      } else if e.WriteFails? {
        OnWriteError(e.s);
      } else if e.Disconnect? {
        OnDisconnect(e.s);
      } else {
        hide Step;
        HandlePacket(e);
      }
    }

    /** The event loop: from any reachable state, handling a whole run arrives where the run says. */
    method Serve(es: seq<Event>, ghost rules: Runs.Rules)
      requires Valid() && (rules.disciplined ==> WellFormed(tables))
      requires Runs.Invariant(tables, World(), rules) && Runs.Run(tables, World(), es, rules)
      modifies this, npcs, sessions.Values
      ensures Valid() && World() == Runs.After(tables, old(World()), es, rules)
      ensures Runs.Invariant(tables, World(), rules)
    {
      hide Step, Runs.Allowed, Runs.Invariant;
      var i := 0;
      while i < |es|
        invariant Valid() && 0 <= i <= |es| && fresh(sessions.Values - old(sessions.Values))
        invariant Runs.Invariant(tables, World(), rules) && Runs.Run(tables, World(), es[i..], rules)
        invariant Runs.After(tables, World(), es[i..], rules) == Runs.After(tables, old(World()), es, rules)
      {
        assert es[i..][0] == es[i] && es[i..][1..] == es[i + 1..];
        Runs.StepKeeps(tables, World(), es[i], rules);
        NextIdFree(rules, es[i]);
        Handle(es[i]);
        i := i + 1;
      }
    }

    lemma NextIdFree(rules: Runs.Rules, e: Event)
      requires Runs.Invariant(tables, World(), rules) && Runs.Allowed(tables, World(), e, rules)
      ensures nextSessionId !in sessions && Enabled(World(), e)
    {
    }
  }
}

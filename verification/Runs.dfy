/** Runs of the whole server: what holds in every reachable state, and what holds when clients keep to the protocol. */
module Runs {
  import opened Machine
  import opened Tables
  import opened Protocol
  import opened Client
  import opened Character
  import opened Replica
  import opened Server
  import opened Frames
  import opened Replication
  import Party

  // ---------------------------------------------------------------- one step's frame

  /** What a step does to the party maps. */
  function PartyEffect(w: World, e: Event): Party.State {
    match e
    case Disconnect(s) => Party.Disconnect(w.parties, s)
    case InviteTo(s, name) => Party.Invite(w.parties, s, Named(w.sessions, w.sessions.Keys, name, None))
    case Answer(s, accept) => Party.Accept(w.parties, s, accept, w.sessions.Keys)
    case Leave(s) => Party.RemoveFromParty(w.parties, s)
    case _ => w.parties
  }

  function LiveAfter(w: World, e: Event): set<SessionId> {
    match e
    case Connect => w.sessions.Keys + {w.nextSessionId}
    case Disconnect(s) => w.sessions.Keys - {s}
    case _ => w.sessions.Keys
  }

  lemma StepFrame(t: Data, w: World, e: Event)
    requires Enabled(w, e)
    ensures var r := Step(t, w, e);
            && r.parties == PartyEffect(w, e) && r.sessions.Keys == LiveAfter(w, e)
            && r.nextSessionId == (if e.Connect? then w.nextSessionId + 1 else w.nextSessionId)
            && (!e.Attack? ==> r.npcs == w.npcs && r.nextNpcUid == w.nextNpcUid)
            && (!e.Attack? && !e.AcceptQuest? && !e.CompleteQuest? ==> r.quests == w.quests)
  {
    if e.Disconnect? || e.InviteTo? || e.Answer? || e.Leave? {
      hide Step;
      PartyFrame(t, w, e);
    } else if e.Select? || e.Attack? || e.UseItem? || e.Move? {
      hide Step;
      FieldFrame(t, w, e);
    } else {
      hide OnItemEquip, OnShopBuy, OnShopSell, OnQuestList, OnQuestAccept, OnQuestComplete, OnCharSelect, OnAttack,
        OnItemUse, OnMove, OnDisconnect, OnPartyInvite, OnPartyAccept, RemoveFromParty;
    }
  }

  lemma FieldFrame(t: Data, w: World, e: Event)
    requires Enabled(w, e) && (e.Select? || e.Attack? || e.UseItem? || e.Move?)
    ensures var r := Step(t, w, e);
            && r.parties == w.parties && r.sessions.Keys == w.sessions.Keys && r.nextSessionId == w.nextSessionId
            && (!e.Attack? ==> r.npcs == w.npcs && r.nextNpcUid == w.nextNpcUid && r.quests == w.quests)
  {
    hide Killed, LoadInventory, SendAllNpcs, SendPlayers, SendTo, BroadcastExcept, Target, Entered, SendCharInfo,
      Usable, AfterUse, Consume, Moved;
  }

  /** The events that touch the party maps touch nothing but them, the logs and the session map. */
  lemma PartyFrame(t: Data, w: World, e: Event)
    requires Enabled(w, e) && (e.Disconnect? || e.InviteTo? || e.Answer? || e.Leave?)
    ensures var r := Step(t, w, e);
            && r.parties == PartyEffect(w, e) && r.sessions.Keys == LiveAfter(w, e)
            && r.nextSessionId == w.nextSessionId && r.npcs == w.npcs && r.nextNpcUid == w.nextNpcUid
            && r.quests == w.quests
  {
    hide SendTo, BroadcastExcept, SendPartyUpdate, RemoveFromParty, Named, Party.RemoveFromParty, Party.Accept,
      Party.Joins;
  }

  // ---------------------------------------------------------------- NPCs

  /** Between steps five NPCs are alive, with distinct uids already handed out, 1 to 30 hit points, on the map. */
  ghost predicate NpcsOk(npcs: seq<Npc>, next: nat) {
    && |npcs| == MAX_NPC && DistinctUids(npcs)
    && forall i | 0 <= i < MAX_NPC ::
         npcs[i].alive && npcs[i].uid < next && 1 <= npcs[i].hp <= NPC_HP
         && 0 <= npcs[i].x < MAP_SIZE && 0 <= npcs[i].y < MAP_SIZE
  }

  predicate Hits(w: World, e: Event) { e.Attack? && e.s in w.sessions && Target(w, e.s, e.uid).Some? }

  predicate Kills(w: World, e: Event) {
    Hits(w, e) && HpAfter(w.sessions[e.s].player, w.npcs[Target(w, e.s, e.uid).value]) == 0
  }

  /** What a step does to the NPC list. */
  function NpcsAfter(w: World, e: Event): seq<Npc> {
    if !Hits(w, e) then w.npcs
    else
      var i := Target(w, e.s, e.uid).value;
      var n := w.npcs[i];
      if Kills(w, e) then w.npcs[i := Npc(w.nextNpcUid, e.luck.x % MAP_SIZE, e.luck.y % MAP_SIZE, NPC_HP, true)]
      else w.npcs[i := n.(hp := HpAfter(w.sessions[e.s].player, n))]
  }

  lemma StepNpcs(t: Data, w: World, e: Event)
    requires Enabled(w, e) && NpcsOk(w.npcs, w.nextNpcUid)
    ensures var r := Step(t, w, e);
            && r.npcs == NpcsAfter(w, e) && NpcsOk(r.npcs, r.nextNpcUid)
            && r.nextNpcUid == w.nextNpcUid + (if Kills(w, e) then 1 else 0)
  {
    hide NpcsOk, Killed;
    if !e.Attack? {
      StepFrame(t, w, e);
    } else if Hits(w, e) {
      var i := Target(w, e.s, e.uid).value;
      NpcReplaced(w.npcs, w.nextNpcUid, i, NpcsAfter(w, e)[i], Kills(w, e));
      if Kills(w, e) { KillNpcs(t, Hit(w, e.s, i), e.s, i, e.luck); }
    }
  }

  lemma NpcReplaced(npcs: seq<Npc>, next: nat, i: nat, n: Npc, born: bool)
    requires NpcsOk(npcs, next) && i < |npcs|
    requires if born then n.uid == next && n.hp == NPC_HP && n.alive && 0 <= n.x < MAP_SIZE && 0 <= n.y < MAP_SIZE
             else n == npcs[i].(hp := n.hp) && 1 <= n.hp <= npcs[i].hp
    ensures NpcsOk(npcs[i := n], if born then next + 1 else next)
    ensures forall j | 0 <= j < |npcs| :: npcs[j].alive
  {
  }

  lemma KillNpcs(t: Data, w: World, s: SessionId, i: nat, luck: Luck)
    requires s in w.sessions && i < |w.npcs| && (Sharers(w, s).Some? ==> |Sharers(w, s).value| > 0)
    requires forall j | 0 <= j < |w.npcs| :: w.npcs[j].alive
    ensures var r := Killed(t, w, s, i, luck);
            && r.npcs == w.npcs[i := Npc(w.nextNpcUid, luck.x % MAP_SIZE, luck.y % MAP_SIZE, NPC_HP, true)]
            && r.nextNpcUid == w.nextNpcUid + 1
  {
    hide PayKill, CreditQuests;
    var dead := w.npcs[i := w.npcs[i].(alive := false)];
    var paid := CreditQuests(t, PayKill(t, Death(w, i), s), s);
    var looted := Loot(t, paid, s, luck);
    assert looted.npcs == dead;
    assert dead[i].alive == false && DeadIndex(dead) == i;
    assert dead[i := Npc(w.nextNpcUid, luck.x % MAP_SIZE, luck.y % MAP_SIZE, NPC_HP, true)]
        == w.npcs[i := Npc(w.nextNpcUid, luck.x % MAP_SIZE, luck.y % MAP_SIZE, NPC_HP, true)];
  }

  /** The hit points the living NPCs have lost. */
  function Missing(npcs: seq<Npc>): int {
    if npcs == [] then 0 else NPC_HP - npcs[0].hp + Missing(npcs[1..])
  }

  lemma {:induction false} MissingUpdate(npcs: seq<Npc>, i: nat, n: Npc)
    requires i < |npcs|
    ensures Missing(npcs[i := n]) == Missing(npcs) + npcs[i].hp - n.hp
    decreases |npcs|
  {
    if i == 0 {
      assert npcs[i := n][1..] == npcs[1..];
    } else {
      assert npcs[i := n][1..] == npcs[1..][i - 1 := n];
      MissingUpdate(npcs[1..], i - 1, n);
    }
  }

  function Count(b: bool): nat { if b then 1 else 0 }

  /** Every successful attack takes at least one hit point. */
  lemma StepDamage(t: Data, w: World, e: Event)
    requires Enabled(w, e) && NpcsOk(w.npcs, w.nextNpcUid)
    ensures Count(Hits(w, e)) <= NPC_HP * Count(Kills(w, e)) + Missing(Step(t, w, e).npcs) - Missing(w.npcs)
  {
    StepNpcs(t, w, e);
    if Hits(w, e) {
      var i := Target(w, e.s, e.uid).value;
      MissingUpdate(w.npcs, i, NpcsAfter(w, e)[i]);
    }
  }

  // ---------------------------------------------------------------- runs

  /** Which promises the clients of a run keep. */
  datatype Rules = Rules(disciplined: bool, uncrossed: bool)

  /** The client's own discipline (GameClient/main.cpp:672-696): select-screen requests only before the select, which
      follows a login; everything else only after it. At a select the server's data is sound: the account and the
      character are not in the game yet, and the loaded items are known. */
  ghost predicate Disciplined(t: Data, w: World, e: Event) {
    match e
    case Connect => true
    case WriteFails(_) => true
    case Disconnect(_) => true
    case Login(s, account) => s in w.sessions && !w.sessions[s].player.loggedIn && account != 0
    case AskCharList(s) => s in w.sessions && !w.sessions[s].player.loggedIn && w.sessions[s].player.accountUid != 0
    case Select(s, charUid, found, _, _) =>
      s in w.sessions && (found.Some? ==> Selectable(w, s) && BagKnown(t, found.value) && CharFree(w, charUid))
    case _ => Playing(w, e.s)
  }

  predicate Playing(w: World, s: SessionId) { s in w.sessions && w.sessions[s].player.loggedIn }

  ghost predicate CharFree(w: World, charUid: uint64) {
    forall o | o in w.sessions && Present(w.sessions, o) :: w.sessions[o].player.charUid != charUid
  }

  /** No session joins a second party (checkable before the answer is delivered). */
  predicate Uncrossed(w: World, e: Event) {
    e.Answer? ==> !(Party.Joins(w.parties, e.s, e.accept, w.sessions.Keys) && e.s in w.parties.playerParty)
  }

  ghost predicate Allowed(t: Data, w: World, e: Event, rules: Rules) {
    Enabled(w, e) && (rules.disciplined ==> Disciplined(t, w, e)) && (rules.uncrossed ==> Uncrossed(w, e))
  }

  ghost predicate Run(t: Data, w: World, es: seq<Event>, rules: Rules)
    decreases |es|
  {
    es == [] || (Allowed(t, w, es[0], rules) && Run(t, Step(t, w, es[0]), es[1..], rules))
  }

  ghost function After(t: Data, w: World, es: seq<Event>, rules: Rules): World
    requires Run(t, w, es, rules)
    decreases |es|
  {
    if es == [] then w else After(t, Step(t, w, es[0]), es[1..], rules)
  }

  /** The state invariant of the runs that keep the given rules. */
  ghost predicate Invariant(t: Data, w: World, rules: Rules) {
    && NpcsOk(w.npcs, w.nextNpcUid)
    && Party.Safe(w.parties, w.sessions.Keys) && Party.NoSelfInvite(w.parties)
    && (forall s | s in w.sessions :: s < w.nextSessionId)
    && (rules.uncrossed ==> Party.Partition(w.parties))
    && (rules.disciplined ==> Agreement(t, w))
  }

  lemma PartyStep(w: World, e: Event, uncrossed: bool)
    requires Enabled(w, e) && Party.Safe(w.parties, w.sessions.Keys) && Party.NoSelfInvite(w.parties)
    requires uncrossed ==> Party.Partition(w.parties) && Uncrossed(w, e)
    ensures Party.Safe(PartyEffect(w, e), LiveAfter(w, e)) && Party.NoSelfInvite(PartyEffect(w, e))
    ensures uncrossed ==> Party.Partition(PartyEffect(w, e))
  {
    hide Party.Safe, Party.Partition, Party.NoSelfInvite, Party.RemoveFromParty, Party.Disconnect, Party.Invite,
      Party.Accept, Party.Joins, Named;
    var ps, live := w.parties, w.sessions.Keys;
    match e {
      case Connect => SafeGrows(ps, live, live + {w.nextSessionId});
      case Disconnect(s) =>
        Party.DisconnectSafe(ps, s, live);
        Party.NoSelfKept(ps, s, false, live, None);
        if uncrossed { Party.DisconnectPartition(ps, s, live); }
      case InviteTo(s, name) =>
        var target := Named(w.sessions, live, name, None);
        Party.InviteSafe(ps, s, target, live);
        Party.NoSelfKept(ps, s, false, live, target);
        if uncrossed { Party.InvitePartition(ps, s, target); }
      case Answer(s, accept) =>
        Party.AcceptSafe(ps, s, accept, live);
        Party.NoSelfKept(ps, s, accept, live, None);
        if uncrossed { Party.AcceptPartitionIff(ps, s, accept, live); }
      case Leave(s) =>
        Party.RemoveSafe(ps, s, live);
        Party.NoSelfKept(ps, s, false, live, None);
        if uncrossed { Party.RemovePartition(ps, s, live); }
      case _ =>
    }
  }

  lemma SafeGrows(ps: Party.State, live: set<SessionId>, more: set<SessionId>)
    requires Party.Safe(ps, live) && live <= more
    ensures Party.Safe(ps, more)
  {
  }

  // ---------------------------------------------------------------- agreement, step by step

  /** Rewards, quest credits and the drop stay inside the sessions they concern. */
  lemma RewardLocally(t: Data, w: World, s: SessionId, luck: Luck)
    requires WellFormed(t) && s in w.sessions && w.sessions[s].player.loggedIn
    requires Sharers(w, s).Some? ==> |Sharers(w, s).value| > 0
    ensures Locally(t, w, Loot(t, CreditQuests(t, PayKill(t, w, s), s), s, luck))
  {
    hide Local, PayKill, CreditQuests, Loot;
    PayLocally(t, w, s);
    var paid := PayKill(t, w, s);
    CreditLocally(t, paid, s);
    var credited := CreditQuests(t, paid, s);
    LocallyTrans(t, w, paid, credited);
    assert credited.sessions[s].player.loggedIn by { LocallyPlaying(t, w, credited, s); }
    LootLocally(t, credited, s, luck);
    LocallyTrans(t, w, credited, Loot(t, credited, s, luck));
  }

  lemma LocallyPlaying(t: Data, w: World, v: World, s: SessionId)
    requires Locally(t, w, v) && s in w.sessions
    ensures v.sessions[s].player.loggedIn == w.sessions[s].player.loggedIn
  {
    hide Synced, Replay, ListSent;
  }

  lemma KillAgrees(t: Data, w: World, s: SessionId, i: nat, luck: Luck)
    requires WellFormed(t) && Agreement(t, w) && s in w.sessions && w.sessions[s].player.loggedIn
    requires DistinctUids(w.npcs) && (forall j | 0 <= j < |w.npcs| :: w.npcs[j].uid < w.nextNpcUid)
    requires i < |w.npcs| && w.npcs[i].alive && (Sharers(w, s).Some? ==> |Sharers(w, s).value| > 0)
    ensures Agreement(t, Killed(t, w, s, i, luck))
  {
    hide Agreement, Local, PayKill, CreditQuests, Receive, Death, Respawn, Sharers;
    DeathAgrees(t, w, i);
    var dead := Death(w, i);
    DeathKeeps(w, i, s);
    RewardLocally(t, dead, s, luck);
    var looted := Loot(t, CreditQuests(t, PayKill(t, dead, s), s), s, luck);
    LocallyKeeps(t, dead, looted);
    RespawnAgrees(t, looted, luck.x, luck.y);
  }

  lemma DeathKeeps(w: World, i: nat, s: SessionId)
    requires i < |w.npcs| && s in w.sessions
    ensures Death(w, i).sessions[s].player == w.sessions[s].player && Sharers(Death(w, i), s) == Sharers(w, s)
    ensures Death(w, i).nextNpcUid == w.nextNpcUid && Death(w, i).npcs == w.npcs[i := w.npcs[i].(alive := false)]
  {
  }

  lemma LootLocally(t: Data, w: World, s: SessionId, luck: Luck)
    requires s in w.sessions && w.sessions[s].player.loggedIn
    ensures Locally(t, w, Loot(t, w, s, luck))
  {
    hide Synced, Replay, ListSent, Receive;
    ReceiveLocal(t, w.sessions[s], Dropped(t.drops, luck.rand), luck.itemUid);
    PutLocally(t, w, s, Receive(t, w.sessions[s], Dropped(t.drops, luck.rand), luck.itemUid));
  }

  lemma AttackAgrees(t: Data, w: World, s: SessionId, uid: nat, luck: Luck)
    requires WellFormed(t) && Agreement(t, w) && NpcsOk(w.npcs, w.nextNpcUid) && s in w.sessions
             && w.sessions[s].player.loggedIn
    requires Sharers(w, s).Some? ==> |Sharers(w, s).value| > 0
    ensures Agreement(t, OnAttack(t, w, s, uid, luck))
  {
    hide Agreement, Synced, Killed;
    match Target(w, s, uid)
    case None =>
      SendToTold(w, s, AttackResult(false, 0, 0, 0));
      ToldAgrees(t, w, OnAttack(t, w, s, uid, luck));
    case Some(i) =>
      HitAgrees(t, w, s, i);
      var hit := Hit(w, s, i);
      if hit.npcs[i].hp == 0 {
        KillAgrees(t, hit, s, i, luck);
      }
  }

  lemma ConnectAgrees(t: Data, w: World)
    requires WellFormed(t) && Agreement(t, w) && w.nextSessionId !in w.sessions
    ensures Agreement(t, OnConnect(w))
  {
    hide Mirrors, Synced;
    var r := OnConnect(w);
    NewSynced(t);
    forall s | s in r.sessions ensures Synced(t, r.sessions[s]) && Sees(r, s) {
      if s != w.nextSessionId {
        assert Synced(t, w.sessions[s]) && Sees(w, s);
        if r.sessions[s].connected && r.sessions[s].player.loggedIn {
          AbsentMirror(Replay(r.sessions[s].sent).others, w.sessions, r.sessions, s);
        }
      }
    }
  }

  lemma NewSynced(t: Data)
    requires WellFormed(t)
    ensures Synced(t, NEW_SESSION)
  {
    assert Replay([]) == NEW_VIEW;
  }

  /** Sessions that are not in the game are not mirrored. */
  lemma AbsentMirror(shown: map<uint64, Other>, sessions: Sessions, later: Sessions, s: SessionId)
    requires OthersMirror(shown, sessions, s)
    requires forall o | o in sessions :: o in later && later[o] == sessions[o]
    requires forall o | o in later && o !in sessions :: !later[o].player.loggedIn
    ensures OthersMirror(shown, later, s)
  {
    forall a | a in shown
      ensures exists o :: o in later && Present(later, o) && o != s && later[o].player.accountUid == a
    {
      var o :| o in sessions && Present(sessions, o) && o != s && sessions[o].player.accountUid == a;
      assert Present(later, o);
    }
  }

  /** A change inside a session that is not in the game. */
  lemma OutsideAgrees(t: Data, w: World, s: SessionId, c: State)
    requires Agreement(t, w) && s in w.sessions && !w.sessions[s].player.loggedIn && !c.player.loggedIn && Synced(t, c)
    ensures Agreement(t, Put(w, s, c))
  {
    hide Mirrors, Synced, Replay, ListSent;
    var r := Put(w, s, c);
    forall o | o in r.sessions ensures Synced(t, r.sessions[o]) && Sees(r, o) {
      assert Synced(t, w.sessions[o]) && Sees(w, o);
      if r.sessions[o].connected && r.sessions[o].player.loggedIn {
        var shown := Replay(r.sessions[o].sent).others;
        forall a | a in shown
          ensures exists x ::
                    x in r.sessions && Present(r.sessions, x) && x != o && r.sessions[x].player.accountUid == a
        {
          var x :| x in w.sessions && Present(w.sessions, x) && x != o && w.sessions[x].player.accountUid == a;
          assert Present(r.sessions, x);
        }
      }
    }
  }

  lemma LoginSynced(t: Data, c: State, account: uint64)
    requires Synced(t, c) && !c.player.loggedIn && account != 0
    ensures Synced(t, Send(Send(c.(player := c.player.(accountUid := account)), LoginResult(account)), CharList))
  {
    hide Replay, ListSent;
  }

  lemma CharListSynced(t: Data, c: State)
    requires Synced(t, c) && !c.player.loggedIn && c.player.accountUid != 0
    ensures Synced(t, Send(c, CharList))
  {
    hide Replay, ListSent;
  }

  /** A session whose writes fail is no longer compared, and the others keep mirroring it. */
  lemma CutOffAgrees(t: Data, w: World, s: SessionId)
    requires Agreement(t, w) && s in w.sessions
    ensures Agreement(t, Put(w, s, w.sessions[s].(connected := false)))
  {
    hide Mirrors, OthersMirror, Replay, ListSent, Synced;
    var r := Put(w, s, w.sessions[s].(connected := false));
    NotCompared(t, r.sessions[s]);
    forall o | o in r.sessions ensures Synced(t, r.sessions[o]) && Sees(r, o) {
      assert Synced(t, w.sessions[o]) && Sees(w, o);
      if r.sessions[o].connected && r.sessions[o].player.loggedIn {
        OthersMirrorKept(Replay(r.sessions[o].sent).others, w.sessions, w.sessions, o);
        CutOffMirror(Replay(r.sessions[o].sent).others, w.sessions, r.sessions, s, o);
      }
    }
  }

  lemma NotCompared(t: Data, c: State)
    requires !c.connected
    ensures Synced(t, c)
  {
  }

  lemma CutOffMirror(shown: map<uint64, Other>, sessions: Sessions, later: Sessions, s: SessionId, o: SessionId)
    requires OthersMirror(shown, sessions, o) && later.Keys == sessions.Keys
    requires forall x | x in sessions :: later[x].player == sessions[x].player
    ensures OthersMirror(shown, later, o)
  {
    forall a | a in shown
      ensures exists x :: x in later && Present(later, x) && x != o && later[x].player.accountUid == a
    {
      var x :| x in sessions && Present(sessions, x) && x != o && sessions[x].player.accountUid == a;
      assert Present(later, x);
    }
  }

  /** Party clean-up, leave notice and removal. */
  lemma DisconnectAgrees(t: Data, w: World, s: SessionId)
    requires Agreement(t, w) && s in w.sessions
    ensures Agreement(t, OnDisconnect(w, s))
  {
    hide Agreement, RemoveFromParty;
    RemoveTold(w, s);
    var left := RemoveFromParty(w, s);
    ToldAgrees(t, w, left);
    RemoveOnlySent(w, s);
    var cleared := left.(parties := left.parties.(pending := left.parties.pending - {s}));
    assert Agreement(t, cleared) by { SameSessions(t, left, cleared); }
    assert left.sessions[s].player.loggedIn == w.sessions[s].player.loggedIn
        && left.sessions[s].player.accountUid == w.sessions[s].player.accountUid;
    GoneAgrees(t, cleared, s);
  }

  lemma SameSessions(t: Data, w: World, v: World)
    requires Agreement(t, w) && v.sessions == w.sessions && v.npcs == w.npcs
    ensures Agreement(t, v)
  {
    hide Mirrors, OthersMirror, Synced;
    forall s | s in v.sessions ensures Synced(t, v.sessions[s]) && Sees(v, s) {
      assert Synced(t, w.sessions[s]) && Sees(w, s);
    }
  }

  /** Telling everyone that session s is leaving and dropping it from the map. */
  function Gone(w: World, s: SessionId): World
    requires s in w.sessions
  {
    var p := w.sessions[s].player;
    var told := if p.loggedIn then BroadcastExcept(w, Some(s), CharLeave(p.accountUid)) else w;
    told.(sessions := told.sessions - {s})
  }

  lemma GoneAgrees(t: Data, w: World, s: SessionId)
    requires Agreement(t, w) && s in w.sessions
    ensures Agreement(t, Gone(w, s))
  {
    hide Mirrors, OthersMirror, Synced, Replay, ListSent;
    var r := Gone(w, s);
    var p := w.sessions[s].player;
    forall o | o in r.sessions ensures Synced(t, r.sessions[o]) && Sees(r, o) {
      var c, d := w.sessions[o], r.sessions[o];
      assert Synced(t, c) && Sees(w, o);
      if p.loggedIn && c.player.loggedIn {
        LeaveSynced(t, c, p.accountUid);
        if c.connected { GoneMirror(Replay(c.sent).others, w.sessions, r.sessions, s, o); }
      } else if c.player.loggedIn && c.connected {
        GoneMirror(Replay(c.sent).others, w.sessions, r.sessions, s, o);
      }
    }
  }

  lemma LeaveSynced(t: Data, c: State, account: uint64)
    requires Synced(t, c) && c.player.loggedIn
    ensures var d := Send(c, CharLeave(account));
            && Synced(t, d) && (c.connected ==> Replay(d.sent).others == Replay(c.sent).others - {account}
                                                && Replay(d.sent).npcs == Replay(c.sent).npcs)
  {
    hide Replay, ListSent;
  }

  lemma GoneMirror(shown: map<uint64, Other>, sessions: Sessions, later: Sessions, s: SessionId, o: SessionId)
    requires OthersMirror(shown, sessions, o) && AccountsDistinct(sessions) && s in sessions && o in sessions && o != s
    requires later.Keys == sessions.Keys - {s} && forall x | x in later :: later[x].player == sessions[x].player
    ensures OthersMirror(if Present(sessions, s) then shown - {sessions[s].player.accountUid} else shown, later, o)
  {
    var now := if Present(sessions, s) then shown - {sessions[s].player.accountUid} else shown;
    forall a | a in now
      ensures exists x :: x in later && Present(later, x) && x != o && later[x].player.accountUid == a
    {
      var x :| x in sessions && Present(sessions, x) && x != o && sessions[x].player.accountUid == a;
      assert x in later && Present(later, x);
    }
    forall x | x in later && x != o && Present(later, x)
      ensures later[x].player.accountUid in now && now[later[x].player.accountUid] == Face(later[x].player)
    {
      assert Present(sessions, x);
    }
  }

  /** Every disciplined step keeps every replica. */
  lemma StepAgrees(t: Data, w: World, e: Event)
    requires WellFormed(t) && Enabled(w, e) && Disciplined(t, w, e) && Agreement(t, w)
    requires NpcsOk(w.npcs, w.nextNpcUid) && w.nextSessionId !in w.sessions
    ensures Agreement(t, Step(t, w, e))
  {
    hide Agreement, Synced, OnAttack, OnCharSelect, OnItemUse, OnItemEquip, OnShopBuy, OnShopSell, OnQuestList,
      OnQuestAccept, OnQuestComplete, OnDisconnect, RemoveFromParty, OnPartyInvite, OnPartyAccept, OnMove, SendTo,
      Local;
    if e.Connect? {
      ConnectAgrees(t, w);
    } else if e.WriteFails? {
      CutOffAgrees(t, w, e.s);
    } else if e.Disconnect? {
      DisconnectAgrees(t, w, e.s);
    } else if e.Login? {
      AgreementAt(t, w, e.s);
      LoginSynced(t, w.sessions[e.s], e.account);
      OutsideAgrees(t, w, e.s, OnLogin(w, e.s, e.account).sessions[e.s]);
      assert OnLogin(w, e.s, e.account) == Put(w, e.s, OnLogin(w, e.s, e.account).sessions[e.s]);
    } else if e.AskCharList? {
      AgreementAt(t, w, e.s);
      CharListSynced(t, w.sessions[e.s]);
      OutsideAgrees(t, w, e.s, Send(w.sessions[e.s], CharList));
      SendToLive(w, e.s, CharList);
    } else if e.Select? {
      SelectAgrees(t, w, e.s, e.charUid, e.found, e.x, e.y);
    } else if e.Move? {
      MoveAgrees(t, w, e.s, e.dx, e.dy);
    } else if e.Attack? {
      AttackAgrees(t, w, e.s, e.uid, e.luck);
    } else if e.UseItem? {
      UseLocally(t, w, e.s, e.slot);
      LocallyKeeps(t, w, OnItemUse(t, w, e.s, e.slot));
    } else if e.EquipItem? {
      EquipLocal(t, w.sessions[e.s], e.slot);
      LocalPutAgrees(t, w, e.s, OnItemEquip(t, w.sessions[e.s], e.slot));
    } else if e.Buy? {
      BuyLocal(t, w.sessions[e.s], e.tid, e.itemUid);
      LocalPutAgrees(t, w, e.s, OnShopBuy(t, w.sessions[e.s], e.tid, e.itemUid));
    } else if e.Sell? {
      SellLocal(t, w.sessions[e.s], e.slot);
      LocalPutAgrees(t, w, e.s, OnShopSell(t, w.sessions[e.s], e.slot));
    } else if e.AskQuests? {
      ListLocal(t, w.sessions[e.s]);
      LocalPutAgrees(t, w, e.s, OnQuestList(t, w.sessions[e.s]));
    } else if e.AcceptQuest? {
      AcceptLocal(t, w.sessions[e.s], e.quest);
      LocalPutAgrees(t, w, e.s, OnQuestAccept(t, w.sessions[e.s], e.quest));
      SameSessions(t, Put(w, e.s, OnQuestAccept(t, w.sessions[e.s], e.quest)), OnQuestAcceptW(t, w, e.s, e.quest));
    } else if e.CompleteQuest? {
      CompleteLocal(t, w.sessions[e.s], e.quest, e.itemUid);
      LocalPutAgrees(t, w, e.s, OnQuestComplete(t, w.sessions[e.s], e.quest, e.itemUid));
      SameSessions(t, Put(w, e.s, OnQuestComplete(t, w.sessions[e.s], e.quest, e.itemUid)),
          OnQuestCompleteW(t, w, e.s, e.quest, e.itemUid));
    } else {
      PartyOnlySent(t, w, e);
      ToldAgrees(t, w, Step(t, w, e));
    }
  }

  lemma AgreementAt(t: Data, w: World, s: SessionId)
    requires Agreement(t, w) && s in w.sessions
    ensures Synced(t, w.sessions[s]) && Sees(w, s)
  {
  }

  lemma SendToLive(w: World, s: SessionId, m: Msg)
    requires s in w.sessions
    ensures SendTo(w, s, m) == Put(w, s, Send(w.sessions[s], m))
  {
  }

  lemma LocalPutAgrees(t: Data, w: World, s: SessionId, c: State)
    requires Agreement(t, w) && s in w.sessions && Local(t, w.sessions[s], c)
    ensures Agreement(t, Put(w, s, c))
  {
    PutLocally(t, w, s, c);
    LocallyKeeps(t, w, Put(w, s, c));
  }

  // ---------------------------------------------------------------- the main theorems

  lemma StepKeeps(t: Data, w: World, e: Event, rules: Rules)
    requires (rules.disciplined ==> WellFormed(t)) && Invariant(t, w, rules) && Allowed(t, w, e, rules)
    ensures Invariant(t, Step(t, w, e), rules)
  {
    hide Agreement, Step, Disciplined, Party.Safe, Party.Partition, NpcsOk;
    StepNpcs(t, w, e);
    StepFrame(t, w, e);
    PartyStep(w, e, rules.uncrossed);
    if rules.disciplined { StepAgrees(t, w, e); }
  }

  lemma {:induction false} RunKeeps(t: Data, w: World, es: seq<Event>, rules: Rules)
    requires (rules.disciplined ==> WellFormed(t)) && Invariant(t, w, rules) && Run(t, w, es, rules)
    ensures Invariant(t, After(t, w, es, rules), rules)
    decreases |es|
  {
    hide Invariant, Step, Disciplined;
    if es != [] {
      StepKeeps(t, w, es[0], rules);
      RunKeeps(t, Step(t, w, es[0]), es[1..], rules);
    }
  }

  lemma InitialInvariant(t: Data, w: World, rules: Rules)
    requires Initial(w)
    ensures Invariant(t, w, rules)
  {
  }

  /** In every reachable state, whatever the clients do: five living NPCs, and party maps whose lookups never miss,
      so the next event is always possible and the reward split never divides by zero. */
  lemma ServerSafety(t: Data, w: World, es: seq<Event>, rules: Rules)
    requires (rules.disciplined ==> WellFormed(t)) && Initial(w) && Run(t, w, es, rules)
    ensures var r := After(t, w, es, rules);
            && NpcsOk(r.npcs, r.nextNpcUid) && Party.Safe(r.parties, r.sessions.Keys)
            && forall e: Event | e.Connect? || e.s in r.sessions :: Enabled(r, e)
  {
    InitialInvariant(t, w, rules);
    RunKeeps(t, w, es, rules);
    SafeSplits(After(t, w, es, rules));
  }

  lemma SafeSplits(w: World)
    requires Party.Safe(w.parties, w.sessions.Keys)
    ensures Splittable(w)
  {
  }

  /** Over runs without crossed accepts: the two party maps partition the partied sessions, every member is live, and
      the sizes add up. */
  lemma PartyPartition(t: Data, w: World, es: seq<Event>, rules: Rules)
    requires (rules.disciplined ==> WellFormed(t)) && Initial(w) && Run(t, w, es, rules) && rules.uncrossed
    ensures var r := After(t, w, es, rules);
            && Party.Partition(r.parties) && Party.Sizes(r.parties.parties) == |r.parties.playerParty|
            && forall p, m | p in r.parties.parties && m in r.parties.parties[p].members :: m in r.sessions
  {
    InitialInvariant(t, w, rules);
    RunKeeps(t, w, es, rules);
    var r := After(t, w, es, rules);
    Party.SizesCount(r.parties, r.sessions.Keys);
    forall p, m | p in r.parties.parties && m in r.parties.parties[p].members ensures m in r.sessions {
      Party.MembersLive(r.parties, r.sessions.Keys, p, m);
    }
  }

  /** A client view shows its own session: stats, slots and equipment, and from the first quest list sent on the list
      the server would send now, before that none. */
  ghost predicate ShowsOwn(t: Data, v: View, c: State) {
    && StatsAgree(v, c.player) && ItemsAgree(t, v, c.inv) && ScreenAgrees(v, c.player)
    && v.quests == (if exists m :: m in c.sent && m.QuestList? then Entries(t.quests, c.quests, Listed(t)) else [])
  }

  /** It also shows, in the game, exactly the living NPCs and the other players, where they are. */
  ghost predicate Faithful(t: Data, v: View, w: World, s: SessionId)
    requires s in w.sessions
  {
    var c := w.sessions[s];
    && ShowsOwn(t, v, c)
    && (c.player.loggedIn ==> Mirrors(Places(v.npcs), w.npcs) && OthersMirror(v.others, w.sessions, s))
  }

  /** Replication: in every reachable state of a disciplined run, a connected client that has handled any prefix of what
      it was sent shows, once its queue is drained, what it should. */
  lemma Replicas(t: Data, w: World, es: seq<Event>, rules: Rules, s: SessionId, handled: nat)
    requires WellFormed(t) && Initial(w) && Run(t, w, es, rules) && rules.disciplined
    requires s in After(t, w, es, rules).sessions && After(t, w, es, rules).sessions[s].connected
    requires handled <= |After(t, w, es, rules).sessions[s].sent|
    ensures var r := After(t, w, es, rules); var log := r.sessions[s].sent;
            Faithful(t, ApplyAll(Replay(log[..handled]), log[handled..]), r, s)
  {
    hide Invariant;
    InitialInvariant(t, w, rules);
    RunKeeps(t, w, es, rules);
    InvariantAgrees(t, After(t, w, es, rules), rules, s);
    DrainedView(After(t, w, es, rules).sessions[s].sent, handled);
    ListSentIff(After(t, w, es, rules).sessions[s].sent);
  }

  lemma InvariantAgrees(t: Data, w: World, rules: Rules, s: SessionId)
    requires Invariant(t, w, rules) && rules.disciplined && s in w.sessions
    ensures Synced(t, w.sessions[s]) && Sees(w, s)
  {
  }

  // ---------------------------------------------------------------- one session's stay

  /** Events after which session o is still there with the bag it had loaded. */
  predicate Continues(e: Event, o: SessionId) { !(e.Disconnect? && e.s == o) && !(e.Select? && e.s == o) }

  lemma StepLive(t: Data, w: World, e: Event, o: SessionId)
    requires Enabled(w, e) && o in w.sessions && Continues(e, o)
    ensures o in Step(t, w, e).sessions
  {
    hide Step;
    StepFrame(t, w, e);
  }

  /** Neither belongings nor gold, level and stats have changed. */
  predicate SameWorth(c: State, d: State) {
    && d.inv == c.inv && d.player.gold == c.player.gold && d.player.exp == c.player.exp
    && d.player.level == c.player.level && d.player.maxExp == c.player.maxExp && d.player.maxHp == c.player.maxHp
    && d.player.atk == c.player.atk && d.player.def == c.player.def
  }

  lemma QuietQuests(t: Data, c: State, q: uint16)
    ensures SameWorth(c, OnQuestList(t, c)) && SameWorth(c, OnQuestAccept(t, c, q))
  {
  }

  lemma UseSpares(t: Data, w: World, s: SessionId, slot: nat, o: SessionId)
    requires s in w.sessions && o in w.sessions && o != s
    ensures SameWorth(w.sessions[o], OnItemUse(t, w, s, slot).sessions[o])
  {
    hide BroadcastExcept, UsedMsg, AfterUse;
    match Usable(t, w.sessions[s], slot)
    case None =>
    case Some(it) =>
      var c := Consume(w.sessions[s], slot, it);
      BroadcastOnlySent(Put(w, s, c), None, UsedMsg(c.player, it));
  }

  /** Connections, the select screen and moves. */
  lemma ConnectionStep(t: Data, w: World, e: Event, o: SessionId)
    requires Enabled(w, e) && o in w.sessions && Continues(e, o) && w.nextSessionId !in w.sessions
    requires e.Connect? || e.WriteFails? || e.Login? || e.AskCharList? || e.Select? || e.Disconnect? || e.Move?
    ensures SameWorth(w.sessions[o], StayedIn(t, w, e, o))
  {
    hide OnCharSelect, OnDisconnect, OnMove;
    StepLive(t, w, e, o);
    if e.Disconnect? {
      DisconnectOnlySent(w, e.s, o);
    } else if e.Select? {
      SelectOthers(t, w, e.s, e.charUid, e.found, e.x, e.y, o);
    } else if e.Move? {
      MoveKeepsWorth(w, e.s, e.dx, e.dy, o);
    }
  }

  lemma MoveKeepsWorth(w: World, s: SessionId, dx: int, dy: int, o: SessionId)
    requires s in w.sessions && o in w.sessions
    ensures o in OnMove(w, s, dx, dy).sessions && SameWorth(w.sessions[o], OnMove(w, s, dx, dy).sessions[o])
  {
    hide BroadcastExcept, I16;
    var c := Moved(w.sessions[s], dx, dy);
    BroadcastOnlySent(Put(w, s, c), Some(s), OtherInfo(c.player));
  }

  /** Session o after a step it stays through. */
  function StayedIn(t: Data, w: World, e: Event, o: SessionId): State
    requires Enabled(w, e) && o in w.sessions && Continues(e, o)
  {
    StepLive(t, w, e, o);
    Step(t, w, e).sessions[o]
  }

  /** Every event but attacks, completed quests and o's own dealings with items. */
  lemma PlainStep(t: Data, w: World, e: Event, o: SessionId)
    requires Enabled(w, e) && o in w.sessions && Continues(e, o) && w.nextSessionId !in w.sessions
    requires !e.Attack? && !e.CompleteQuest?
    requires (e.UseItem? || e.EquipItem? || e.Buy? || e.Sell?) ==> e.s != o
    ensures o in Step(t, w, e).sessions && SameWorth(w.sessions[o], Step(t, w, e).sessions[o])
  {
    hide OnItemUse, OnItemEquip, OnShopBuy, OnShopSell, OnQuestList, OnQuestAccept, OnDisconnect, OnCharSelect,
      RemoveFromParty, OnPartyInvite, OnPartyAccept, OnMove, OnLogin, SendTo, Acceptable;
    StepLive(t, w, e, o);
    if e.UseItem? {
      UseSpares(t, w, e.s, e.slot, o);
    } else if e.AskQuests? {
      QuietQuests(t, w.sessions[e.s], 0);
    } else if e.AcceptQuest? {
      QuietQuests(t, w.sessions[e.s], e.quest);
    } else if e.InviteTo? || e.Answer? || e.Leave? {
      hide Step;
      PartyOnlySent(t, w, e);
    } else if !e.EquipItem? && !e.Buy? && !e.Sell? {
      hide Step;
      ConnectionStep(t, w, e, o);
    }
  }

  /** Session o stays through the whole run, after its load. */
  predicate Stays(es: seq<Event>, o: SessionId) { forall i | 0 <= i < |es| :: Continues(es[i], o) }

  /** A run during which session o stays, from a state that is as reachable states are. */
  ghost predicate StayingRun(t: Data, w: World, es: seq<Event>, rules: Rules, o: SessionId) {
    WellFormed(t) && Invariant(t, w, rules) && Run(t, w, es, rules) && o in w.sessions && Stays(es, o)
  }

  lemma StepStays(t: Data, w: World, es: seq<Event>, rules: Rules, o: SessionId)
    requires es != [] && StayingRun(t, w, es, rules, o)
    ensures Enabled(w, es[0]) && Continues(es[0], o) && w.nextSessionId !in w.sessions
    ensures StayingRun(t, Step(t, w, es[0]), es[1..], rules, o)
  {
    hide Step, Disciplined;
    assert Continues(es[0], o);
    StepFrame(t, w, es[0]);
    StepKeeps(t, w, es[0], rules);
  }

  // ---------------------------------------------------------------- NPC bookkeeping over a run

  ghost function HitCount(t: Data, w: World, es: seq<Event>, rules: Rules): nat
    requires Run(t, w, es, rules)
    decreases |es|
  {
    if es == [] then 0 else Count(Hits(w, es[0])) + HitCount(t, Step(t, w, es[0]), es[1..], rules)
  }

  /** The uids of the NPCs killed, in order. */
  ghost function KilledUids(t: Data, w: World, es: seq<Event>, rules: Rules): seq<nat>
    requires Run(t, w, es, rules)
    decreases |es|
  {
    if es == [] then []
    else (if Kills(w, es[0]) then [es[0].uid] else []) + KilledUids(t, Step(t, w, es[0]), es[1..], rules)
  }

  /** Successful attacks are paid for in hit points: thirty a kill, plus what the living have lost. */
  lemma {:induction false} HitsBounded(t: Data, w: World, es: seq<Event>, rules: Rules)
    requires (rules.disciplined ==> WellFormed(t)) && Invariant(t, w, rules) && Run(t, w, es, rules)
    ensures HitCount(t, w, es, rules)
         <= NPC_HP * |KilledUids(t, w, es, rules)| + Missing(After(t, w, es, rules).npcs) - Missing(w.npcs)
    decreases |es|
  {
    hide Step, Disciplined, Agreement, Hits, Kills, Party.Safe, Party.Partition;
    if es != [] {
      StepDamage(t, w, es[0]);
      StepKeeps(t, w, es[0], rules);
      HitsBounded(t, Step(t, w, es[0]), es[1..], rules);
    }
  }

  predicate Alive(npcs: seq<Npc>, uid: nat) { NpcIndex(npcs, uid) < |npcs| }

  /** After a step: a killed uid is gone, no living uid is older than the ones handed out, and nobody else came back. */
  lemma StepUids(t: Data, w: World, e: Event, uid: nat)
    requires Enabled(w, e) && NpcsOk(w.npcs, w.nextNpcUid)
    requires Alive(Step(t, w, e).npcs, uid) || uid >= Step(t, w, e).nextNpcUid
    ensures Alive(w.npcs, uid) || uid >= w.nextNpcUid
    ensures Kills(w, e) ==> uid != e.uid && Alive(w.npcs, e.uid)
  {
    hide Step;
    StepNpcs(t, w, e);
    var r := Step(t, w, e);
    if Kills(w, e) {
      var i := Target(w, e.s, e.uid).value;
      assert w.npcs[i].alive && w.npcs[i].uid == e.uid;
    }
    if Alive(r.npcs, uid) {
      var j := NpcIndex(r.npcs, uid);
      assert w.npcs[j].alive;
      assert r.npcs[j].uid == w.npcs[j].uid || uid == w.nextNpcUid;
    }
  }

  /** A uid that was handed out and is not alive never comes back. */
  lemma {:induction false} GoneForGood(t: Data, w: World, es: seq<Event>, rules: Rules, uid: nat)
    requires (rules.disciplined ==> WellFormed(t)) && Invariant(t, w, rules) && Run(t, w, es, rules)
    requires !Alive(w.npcs, uid) && uid < w.nextNpcUid
    ensures !Alive(After(t, w, es, rules).npcs, uid) && uid < After(t, w, es, rules).nextNpcUid
    decreases |es|
  {
    hide Step, Disciplined, Agreement, Kills, Alive, Party.Safe, Party.Partition, NpcsOk;
    if es != [] {
      var v := Step(t, w, es[0]);
      StepKeeps(t, w, es[0], rules);
      if Alive(v.npcs, uid) || uid >= v.nextNpcUid { StepUids(t, w, es[0], uid); }
      GoneForGood(t, v, es[1..], rules, uid);
    }
  }

  /** No uid is killed, and so pays a reward, twice; a killed uid is never alive or handed out again. */
  lemma {:induction false} KillsDistinct(t: Data, w: World, es: seq<Event>, rules: Rules)
    requires (rules.disciplined ==> WellFormed(t)) && Invariant(t, w, rules) && Run(t, w, es, rules)
    ensures var ks := KilledUids(t, w, es, rules); var r := After(t, w, es, rules);
            && Party.Distinct(ks)
            && (forall u | u in ks :: Alive(w.npcs, u) || u >= w.nextNpcUid)
            && (forall u | u in ks :: !Alive(r.npcs, u) && u < r.nextNpcUid)
    decreases |es|
  {
    hide Step, Disciplined, Agreement, Kills, Alive, Party.Safe, Party.Partition, Party.Distinct, NpcsOk;
    if es == [] {
      assert Party.Distinct([]) by { NoneDistinct(); }
    } else {
      var v := Step(t, w, es[0]);
      StepKeeps(t, w, es[0], rules);
      KillsDistinct(t, v, es[1..], rules);
      forall u | u in KilledUids(t, v, es[1..], rules)
        ensures (Alive(w.npcs, u) || u >= w.nextNpcUid) && !(Kills(w, es[0]) && es[0].Attack? && u == es[0].uid)
      {
        StepUids(t, w, es[0], u);
      }
      if Kills(w, es[0]) {
        KilledAlive(w, es[0]);
        if Alive(v.npcs, es[0].uid) || es[0].uid >= v.nextNpcUid { StepUids(t, w, es[0], es[0].uid); }
        GoneForGood(t, v, es[1..], rules, es[0].uid);
        Party.DistinctParts(es[0].uid, KilledUids(t, v, es[1..], rules));
      } else {
        assert [] + KilledUids(t, v, es[1..], rules) == KilledUids(t, v, es[1..], rules);
      }
    }
  }

  lemma NoneDistinct()
    ensures Party.Distinct([])
  {
  }

  lemma KilledAlive(w: World, e: Event)
    requires Kills(w, e)
    ensures e.Attack? && Alive(w.npcs, e.uid)
  {
  }
}

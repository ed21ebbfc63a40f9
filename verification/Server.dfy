/** The whole server as one state, and every packet or connection event as one atomic step (GameServer/main.cpp,
    TcpServer.cpp). */
module Server {
  import opened Machine
  import opened Tables
  import opened Protocol
  import opened Character
  import Party

  datatype Npc = Npc(uid: nat, x: int, y: int, hp: uint16, alive: bool)

  const NPC_HP := 30
  const NPC_EXP := 30
  const NPC_GOLD := 10

  type Sessions = map<SessionId, State>

  datatype World = World(sessions: Sessions, nextSessionId: SessionId, npcs: seq<Npc>, nextNpcUid: nat,
                         parties: Party.State, quests: QuestTable)

  // ---------------------------------------------------------------- sending

  function Put(w: World, s: SessionId, c: State): World { w.(sessions := w.sessions[s := c]) }

  /** A message to a session that may be gone by now. */
  function SendTo(w: World, s: SessionId, m: Msg): (r: World)
    ensures r == w.(sessions := r.sessions) && r.sessions.Keys == w.sessions.Keys
  {
    if s in w.sessions then Put(w, s, Send(w.sessions[s], m)) else w
  }

  function BroadcastExcept(w: World, except: Option<SessionId>, m: Msg): (r: World)
    ensures r == w.(sessions := r.sessions) && r.sessions.Keys == w.sessions.Keys
  {
    w.(sessions := map s | s in w.sessions ::
      if w.sessions[s].player.loggedIn && except != Some(s) then Send(w.sessions[s], m) else w.sessions[s])
  }

  function Broadcast(w: World, m: Msg): World { BroadcastExcept(w, None, m) }

  function SendEach(w: World, ids: seq<SessionId>, m: Msg): (r: World)
    ensures r == w.(sessions := r.sessions) && r.sessions.Keys == w.sessions.Keys
    decreases |ids|
  {
    if ids == [] then w else SendEach(SendTo(w, ids[0], m), ids[1..], m)
  }

  // ---------------------------------------------------------------- entering

  function SpawnMsg(n: Npc): Msg { NpcSpawn(n.uid, n.x, n.y, n.hp, NPC_HP) }

  function SendAllNpcs(c: State, npcs: seq<Npc>): State
    decreases |npcs|
  {
    if npcs == [] then c
    else SendAllNpcs(if npcs[0].alive then Send(c, SpawnMsg(npcs[0])) else c, npcs[1..])
  }

  /** The new session is told about each logged-in session in `ids`, in ascending order. */
  function SendPlayers(c: State, sessions: Sessions, ids: set<SessionId>): State
    requires ids <= sessions.Keys
    decreases |ids|
  {
    if ids == {} then c
    else
      var o := Least(ids);
      var p := sessions[o].player;
      SendPlayers(if p.loggedIn then Send(c, OtherInfo(p)) else c, sessions, ids - {o})
  }

  function OnCharSelect(t: Data, w: World, s: SessionId, charUid: uint64, found: Option<Record>, x: nat, y: nat): World
    requires s in w.sessions
  {
    match found
    case None => SendTo(w, s, Error(1))
    case Some(r) =>
      var entered := SendAllNpcs(SendCharInfo(Entered(w.sessions[s], charUid, r, x, y)), w.npcs);
      var met := SendPlayers(entered, w.sessions, w.sessions.Keys - {s});
      var announced := BroadcastExcept(Put(w, s, met), Some(s), OtherInfo(met.player));
      var loaded := LoadInventory(t, Send(met, AttendanceInfo), r);
      Put(announced, s, loaded.(quests := Rows(w.quests, charUid)))
  }

  function OnLogin(w: World, s: SessionId, account: uint64): World
    requires s in w.sessions
  {
    var c := w.sessions[s].(player := w.sessions[s].player.(accountUid := account));
    Put(w, s, Send(Send(c, LoginResult(account)), CharList))
  }

  // ---------------------------------------------------------------- in the game

  function OnMove(w: World, s: SessionId, dx: int, dy: int): World
    requires s in w.sessions
  {
    var c := Moved(w.sessions[s], dx, dy);
    BroadcastExcept(Put(w, s, c), Some(s), OtherInfo(c.player))
  }

  function OnItemUse(t: Data, w: World, s: SessionId, slot: nat): World
    requires s in w.sessions
  {
    match Usable(t, w.sessions[s], slot)
    case None => w
    case Some(it) =>
      var c := Consume(w.sessions[s], slot, it);
      var told := Broadcast(Put(w, s, c), UsedMsg(c.player, it));
      Put(told, s, AfterUse(t, told.sessions[s], slot))
  }

  function CreditQuests(t: Data, w: World, s: SessionId): (r: World)
    requires s in w.sessions
    ensures r == w.(sessions := r.sessions, quests := r.quests) && r.sessions.Keys == w.sessions.Keys
  {
    var (c, db) := UpdateQuestProgress(t, w.sessions[s], w.quests);
    Put(w, s, c).(quests := db)
  }

  /** A party's share of a kill, member by member. The killer's quests are credited later. */
  function Share(t: Data, w: World, members: seq<SessionId>, killer: SessionId, exp: nat, gold: nat): (r: World)
    ensures r == w.(sessions := r.sessions, quests := r.quests) && r.sessions.Keys == w.sessions.Keys
    decreases |members|
  {
    if members == [] then w
    else
      var m := members[0];
      if m !in w.sessions then Share(t, w, members[1..], killer, exp, gold)
      else
        var paid := Put(w, m, Award(w.sessions[m], exp, gold));
        Share(t, if m != killer then CreditQuests(t, paid, m) else paid, members[1..], killer, exp, gold)
  }

  /** The sessions a kill by s is shared among; None when s is in no party. */
  function Sharers(w: World, s: SessionId): Option<seq<SessionId>> {
    if s in w.parties.playerParty then
      var p := w.parties.playerParty[s];
      Some(if p in w.parties.parties then w.parties.parties[p].members else [])
    else None
  }

  /** One of n equal parts, rounded down. */
  function Part(reward: nat, n: nat): nat
    requires n > 0
  {
    reward / n
  }

  function PayKill(t: Data, w: World, s: SessionId): (r: World)
    requires s in w.sessions
    requires Sharers(w, s).Some? ==> |Sharers(w, s).value| > 0
    ensures r == w.(sessions := r.sessions, quests := r.quests) && r.sessions.Keys == w.sessions.Keys
  {
    match Sharers(w, s)
    case Some(members) => Share(t, w, members, s, Part(NPC_EXP, |members|), Part(NPC_GOLD, |members|))
    case None => Put(w, s, Award(w.sessions[s], NPC_EXP, NPC_GOLD))
  }

  /** The index of the first living NPC with this uid, or the number of NPCs. */
  function NpcIndex(npcs: seq<Npc>, uid: nat): (i: nat)
    ensures i <= |npcs|
    ensures i < |npcs| ==> npcs[i].alive && npcs[i].uid == uid
    ensures forall j | 0 <= j < i :: !(npcs[j].alive && npcs[j].uid == uid)
  {
    if npcs == [] || (npcs[0].alive && npcs[0].uid == uid) then 0 else 1 + NpcIndex(npcs[1..], uid)
  }

  predicate InReach(p: Player, n: Npc) { -1 <= n.x - p.x <= 1 && -1 <= n.y - p.y <= 1 }

  /** The NPC an attack hits, if any. */
  function Target(w: World, s: SessionId, uid: nat): (r: Option<nat>)
    requires s in w.sessions
    ensures r.Some? ==> r.value < |w.npcs| && w.npcs[r.value].alive && w.npcs[r.value].uid == uid
  {
    var i := NpcIndex(w.npcs, uid);
    if i < |w.npcs| && InReach(w.sessions[s].player, w.npcs[i]) then Some(i) else None
  }

  function HpAfter(p: Player, n: Npc): uint16 { if n.hp > Damage(p) then n.hp - Damage(p) else 0 }

  /** The index of the first dead NPC, or the number of NPCs. */
  function DeadIndex(npcs: seq<Npc>): (i: nat)
    ensures i <= |npcs|
    ensures i < |npcs| ==> !npcs[i].alive
    ensures forall j | 0 <= j < i :: npcs[j].alive
  {
    if npcs == [] || !npcs[0].alive then 0 else 1 + DeadIndex(npcs[1..])
  }

  function Respawn(w: World, x: nat, y: nat): (r: World)
    ensures r == w.(sessions := r.sessions, npcs := r.npcs, nextNpcUid := r.nextNpcUid)
            && r.sessions.Keys == w.sessions.Keys
  {
    var i := DeadIndex(w.npcs);
    if i >= |w.npcs| then w
    else
      var n := Npc(w.nextNpcUid, x % MAP_SIZE, y % MAP_SIZE, NPC_HP, true);
      Broadcast(w.(npcs := w.npcs[i := n], nextNpcUid := w.nextNpcUid + 1), SpawnMsg(n))
  }

  /** The first entry whose accumulated weight exceeds the roll. */
  function Pick(drops: seq<DropEntry>, roll: int): uint16
  {
    if drops == [] then 0
    else if roll < drops[0].weight then drops[0].itemId
    else Pick(drops[1..], roll - drops[0].weight)
  }

  /** The drop for a random number. The program divides by zero for a non-empty table of total weight 0. */
  function Dropped(drops: seq<DropEntry>, rand: nat): uint16 {
    if drops == [] || TotalWeight(drops) == 0 then 0 else Pick(drops, rand % TotalWeight(drops))
  }

  /** What the oracle supplies for one attack: a random number, the new item's uid, the next spawn point. */
  datatype Luck = Luck(rand: nat, itemUid: uint64, x: nat, y: nat)

  /** NPC i dies, and everyone in the game is told. */
  function Death(w: World, i: nat): (r: World)
    requires i < |w.npcs|
    ensures r == w.(sessions := r.sessions, npcs := r.npcs) && r.sessions.Keys == w.sessions.Keys
  {
    Broadcast(w, NpcDeath(w.npcs[i].uid, NPC_EXP, NPC_GOLD)).(npcs := w.npcs[i := w.npcs[i].(alive := false)])
  }

  function Loot(t: Data, w: World, s: SessionId, luck: Luck): (r: World)
    requires s in w.sessions
    ensures r == w.(sessions := r.sessions) && r.sessions.Keys == w.sessions.Keys
  {
    Put(w, s, Receive(t, w.sessions[s], Dropped(t.drops, luck.rand), luck.itemUid))
  }

  /** What follows when NPC i, hit by s, is out of hit points: death notice, rewards, quests, drop, respawn. */
  function Killed(t: Data, w: World, s: SessionId, i: nat, luck: Luck): (r: World)
    requires s in w.sessions && i < |w.npcs|
    requires Sharers(w, s).Some? ==> |Sharers(w, s).value| > 0
    ensures r.parties == w.parties && r.nextSessionId == w.nextSessionId && r.sessions.Keys == w.sessions.Keys
  {
    var paid := CreditQuests(t, PayKill(t, Death(w, i), s), s);
    Respawn(Loot(t, paid, s, luck), luck.x, luck.y)
  }

  function Hit(w: World, s: SessionId, i: nat): World
    requires s in w.sessions && i < |w.npcs|
  {
    var n := w.npcs[i];
    var p := w.sessions[s].player;
    SendTo(w.(npcs := w.npcs[i := n.(hp := HpAfter(p, n))]), s, AttackResult(true, n.uid, Damage(p), HpAfter(p, n)))
  }

  function OnAttack(t: Data, w: World, s: SessionId, uid: nat, luck: Luck): World
    requires s in w.sessions
    requires Sharers(w, s).Some? ==> |Sharers(w, s).value| > 0
  {
    match Target(w, s, uid)
    case None => SendTo(w, s, AttackResult(false, 0, 0, 0))
    case Some(i) =>
      var hit := Hit(w, s, i);
      if hit.npcs[i].hp > 0 then hit else Killed(t, hit, s, i, luck)
  }

  // ---------------------------------------------------------------- parties

  /** The characters of up to four members; 0 for a member that is gone. */
  function MemberChars(w: World, members: seq<SessionId>): seq<uint64> {
    if members == [] then []
    else [if members[0] in w.sessions then w.sessions[members[0]].player.charUid else 0] + MemberChars(w, members[1..])
  }

  function SendPartyUpdate(w: World, p: nat): (r: World)
    ensures r == w.(sessions := r.sessions) && r.sessions.Keys == w.sessions.Keys
  {
    if p !in w.parties.parties then w
    else
      var members := w.parties.parties[p].members;
      var shown := if |members| <= MAX_PARTY then members else members[..MAX_PARTY];
      SendEach(w, members, PartyUpdate(U8(|members|), MemberChars(w, shown)))
  }

  function RemoveFromParty(w: World, s: SessionId): (r: World)
    ensures r == w.(sessions := r.sessions, parties := Party.RemoveFromParty(w.parties, s))
            && r.sessions.Keys == w.sessions.Keys
  {
    var left := w.(parties := Party.RemoveFromParty(w.parties, s));
    if s !in w.parties.playerParty || w.parties.playerParty[s] !in w.parties.parties then left
    else
      var p := w.parties.playerParty[s];
      var rest := Party.Without(w.parties.parties[p].members, s);
      var told := SendEach(left, rest, PartyLeave(if s in w.sessions then w.sessions[s].player.charUid else 0));
      if |rest| <= 1 then SendEach(told, rest, PartyLeave(0)) else SendPartyUpdate(told, p)
  }

  /** The last session, in id order, whose player has this name. */
  function Named(sessions: Sessions, ids: set<SessionId>, name: string,
          found: Option<SessionId>): (r: Option<SessionId>)
    requires ids <= sessions.Keys
    ensures r == found || (r.Some? && r.value in ids && sessions[r.value].player.name == name)
    decreases |ids|
  {
    if ids == {} then found
    else
      var o := Least(ids);
      Named(sessions, ids - {o}, name, if sessions[o].player.name == name then Some(o) else found)
  }

  function OnPartyInvite(w: World, s: SessionId, name: string): World
    requires s in w.sessions
  {
    var target := Named(w.sessions, w.sessions.Keys, name, None);
    if !Party.CanInvite(w.parties, s, target) then SendTo(w, s, Error(4))
    else SendTo(w.(parties := Party.Invite(w.parties, s, target)), target.value,
        PartyInvite(Clip(w.sessions[s].player.name, 19)))
  }

  function OnPartyAccept(w: World, s: SessionId, accept: bool): World
  {
    var after := w.(parties := Party.Accept(w.parties, s, accept, w.sessions.Keys));
    if Party.Joins(w.parties, s, accept, w.sessions.Keys) && s in after.parties.playerParty
    then SendPartyUpdate(after, after.parties.playerParty[s])
    else after
  }

  // ---------------------------------------------------------------- connections

  function OnConnect(w: World): World {
    Put(w, w.nextSessionId, NEW_SESSION).(nextSessionId := w.nextSessionId + 1)
  }

  function OnDisconnect(w: World, s: SessionId): World
    requires s in w.sessions
  {
    var left := RemoveFromParty(w, s);
    var cleared := left.(parties := left.parties.(pending := left.parties.pending - {s}));
    var p := w.sessions[s].player;
    var told := if p.loggedIn then BroadcastExcept(cleared, Some(s), CharLeave(p.accountUid)) else cleared;
    told.(sessions := told.sessions - {s})
  }

  // ---------------------------------------------------------------- steps

  datatype Event =
    | Connect
    | WriteFails(s: SessionId)
    | Disconnect(s: SessionId)
    | Login(s: SessionId, account: uint64)
    | AskCharList(s: SessionId)
    | Select(s: SessionId, charUid: uint64, found: Option<Record>, x: nat, y: nat)
    | Move(s: SessionId, dx: int8, dy: int8)
    | Attack(s: SessionId, uid: nat, luck: Luck)
    | UseItem(s: SessionId, slot: nat)
    | EquipItem(s: SessionId, slot: nat)
    | Buy(s: SessionId, tid: uint16, itemUid: uint64)
    | Sell(s: SessionId, slot: nat)
    | AskQuests(s: SessionId)
    | AcceptQuest(s: SessionId, quest: uint16)
    | CompleteQuest(s: SessionId, quest: uint16, itemUid: uint64)
    | InviteTo(s: SessionId, name: string)
    | Answer(s: SessionId, accept: bool)
    | Leave(s: SessionId)

  /** No partied session's party is missing or empty, so a kill can be split without a division by zero. */
  predicate Splittable(w: World) { forall s | s in w.parties.playerParty :: Sharers(w, s) != Some([]) }

  /** Only sessions in the session map act. */
  predicate Enabled(w: World, e: Event) { (e.Connect? || e.s in w.sessions) && Splittable(w) }

  function Step(t: Data, w: World, e: Event): World
    requires Enabled(w, e)
  {
    match e
    case Connect => OnConnect(w)
    case WriteFails(s) => Put(w, s, w.sessions[s].(connected := false))
    case Disconnect(s) => OnDisconnect(w, s)
    case Login(s, account) => OnLogin(w, s, account)
    case AskCharList(s) => SendTo(w, s, CharList)
    case Select(s, charUid, found, x, y) => OnCharSelect(t, w, s, charUid, found, x, y)
    case Move(s, dx, dy) => OnMove(w, s, dx, dy)
    case Attack(s, uid, luck) => OnAttack(t, w, s, uid, luck)
    case UseItem(s, slot) => OnItemUse(t, w, s, slot)
    case EquipItem(s, slot) => Put(w, s, OnItemEquip(t, w.sessions[s], slot))
    case Buy(s, tid, uid) => Put(w, s, OnShopBuy(t, w.sessions[s], tid, uid))
    case Sell(s, slot) => Put(w, s, OnShopSell(t, w.sessions[s], slot))
    case AskQuests(s) => Put(w, s, OnQuestList(t, w.sessions[s]))
    case AcceptQuest(s, q) => OnQuestAcceptW(t, w, s, q)
    case CompleteQuest(s, q, uid) => OnQuestCompleteW(t, w, s, q, uid)
    case InviteTo(s, name) => OnPartyInvite(w, s, name)
    case Answer(s, accept) => OnPartyAccept(w, s, accept)
    case Leave(s) => RemoveFromParty(w, s)
  }

  /** Accepting and completing also write the quest's row. */
  function OnQuestAcceptW(t: Data, w: World, s: SessionId, q: uint16): World
    requires s in w.sessions
  {
    var c := w.sessions[s];
    var w' := Put(w, s, OnQuestAccept(t, c, q));
    if Acceptable(t, c, q) then w'.(quests := Save(w.quests, c.player.charUid, q, Quest(1, 0))) else w'
  }

  function OnQuestCompleteW(t: Data, w: World, s: SessionId, q: uint16, uid: uint64): World
    requires s in w.sessions
  {
    var c := w.sessions[s];
    var w' := Put(w, s, OnQuestComplete(t, c, q, uid));
    if Completable(t, c, q) then w'.(quests := Save(w.quests, c.player.charUid, q, c.quests[q].(status := 3))) else w'
  }

  /** The freshly started server: five NPCs, no session. */
  ghost predicate Initial(w: World) {
    && w.sessions == map[] && w.nextSessionId == 1 && w.parties == Party.NO_PARTIES
    && |w.npcs| == MAX_NPC && w.nextNpcUid == MAX_NPC + 1
    && forall i | 0 <= i < MAX_NPC :: w.npcs[i].uid == i + 1 && w.npcs[i].hp == NPC_HP && w.npcs[i].alive
                                      && 0 <= w.npcs[i].x < MAP_SIZE && 0 <= w.npcs[i].y < MAP_SIZE
  }
}

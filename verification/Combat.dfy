/** What an attack does: which NPC it hits and how hard, what a kill pays whom, and every message of it. */
module Combat {
  import opened Machine
  import opened Tables
  import opened Protocol
  import opened Character
  import opened Server
  import opened Frames
  import opened Progress
  import opened Runs
  import opened Effects

  lemma LogAfter(c: State, d: State, ms: seq<Msg>, ns: seq<Msg>)
    requires d.sent == Log(c, ms) && d.connected == c.connected
    ensures Log(d, ns) == Log(c, ms + ns)
  {
    assert c.sent + ms + ns == c.sent + (ms + ns);
  }

  // ---------------------------------------------------------------- crediting quests

  /** The progress messages of one kill: each accepted quest of the table, in id order, one further. */
  function TickLog(t: Data, quests: map<uint16, Quest>, ids: set<uint16>): seq<Msg>
    decreases |ids|
  {
    if ids == {} then []
    else
      var id := Least(ids);
      (if id in quests && quests[id].status == 1 && FindQuest(t, id).Some? then
         [QuestProgressed(id, (quests[id].progress + 1) % 0x1_0000, FindQuest(t, id).value.target)]
       else [])
      + TickLog(t, quests, ids - {id})
  }

  lemma {:induction false} TickLogAlike(t: Data, quests: map<uint16, Quest>, later: map<uint16, Quest>,
          ids: set<uint16>)
    requires forall id | id in ids :: (id in later <==> id in quests) && (id in quests ==> later[id] == quests[id])
    ensures TickLog(t, later, ids) == TickLog(t, quests, ids)
    decreases |ids|
  {
    if ids != {} { TickLogAlike(t, quests, later, ids - {Least(ids)}); }
  }

  lemma {:induction false} TicksTold(t: Data, c: State, db: QuestTable, ids: set<uint16>)
    ensures TickAll(t, c, db, ids).0.sent == Log(c, TickLog(t, c.quests, ids))
    ensures TickAll(t, c, db, ids).0.connected == c.connected
    decreases |ids|
  {
    hide Send, FindQuest, Save, Log;
    if ids != {} {
      var id := Least(ids);
      var (d, db') := TickOne(t, c, db, id);
      TicksTold(t, d, db', ids - {id});
      TickLogAlike(t, c.quests, d.quests, ids - {id});
      if Counting(t, c.quests, id) {
        var q := Ticked(t, c.quests[id], id);
        var m := QuestProgressed(id, q.progress, FindQuest(t, id).value.target);
        var e := c.(quests := c.quests[id := q]);
        SendLog(e, [], m);
        LogsAlike(c, e, [m]);
        LogAfter(c, d, [m], TickLog(t, c.quests, ids - {id}));
      } else {
        assert [] + TickLog(t, c.quests, ids - {id}) == TickLog(t, c.quests, ids - {id});
      }
    } else {
      NothingLogged(c);
    }
  }

  /** What a credit does to the quests: an accepted one of the table moves by one and is completable at its target. */
  lemma TickedIs(t: Data, quests: map<uint16, Quest>, id: uint16)
    requires id in quests
    ensures TickedAll(t, quests).Keys == quests.Keys
    ensures var progress := (quests[id].progress + 1) % 0x1_0000;
            TickedAll(t, quests)[id] ==
              if quests[id].status != 1 || FindQuest(t, id).None? then quests[id]
              else Quest(if progress >= FindQuest(t, id).value.target then 2 else 1, progress)
  {
  }

  lemma CreditTold(t: Data, w: World, s: SessionId)
    requires s in w.sessions
    ensures var c, d := w.sessions[s], CreditQuests(t, w, s).sessions[s];
            d.sent == Log(c, TickLog(t, c.quests, c.quests.Keys)) && d.connected == c.connected
  {
    TicksTold(t, w.sessions[s], w.quests, w.sessions[s].quests.Keys);
  }

  // ---------------------------------------------------------------- sharing

  /** What a session hears of k shares: each with its levels, and for anyone but the killer a credit. */
  function ShareLog(t: Data, p: Player, quests: map<uint16, Quest>, exp: nat, gold: nat, k: nat, killer: bool): seq<Msg>
    decreases k
  {
    if k == 0 then []
    else
      PayLog(p, exp, gold) + (if killer then [] else TickLog(t, quests, quests.Keys))
      + ShareLog(t, Levels(Richer(p, exp, gold)), if killer then quests else TickedAll(t, quests), exp, gold, k - 1,
                 killer)
  }

  lemma PaidIs(p: Player, exp: nat, gold: nat)
    ensures Paid(p, exp, gold) == Levels(Richer(p, exp, gold))
  {
  }

  lemma AwardTells(c: State, exp: nat, gold: nat)
    ensures Award(c, exp, gold).sent == Log(c, PayLog(c.player, exp, gold))
    ensures Award(c, exp, gold).connected == c.connected && Award(c, exp, gold).player == Paid(c.player, exp, gold)
    ensures Award(c, exp, gold).quests == c.quests
  {
    hide Award, PayLog, Levels;
    NothingLogged(c);
    AwardTold(c, [], exp, gold);
    assert [] + PayLog(c.player, exp, gold) == PayLog(c.player, exp, gold);
    PaidIs(c.player, exp, gold);
  }

  /** One member's share. */
  function Shared(t: Data, w: World, m: SessionId, killer: SessionId, exp: nat, gold: nat): World
    requires m in w.sessions
  {
    var paid := Put(w, m, Award(w.sessions[m], exp, gold));
    if m != killer then CreditQuests(t, paid, m) else paid
  }

  lemma SharedTells(t: Data, w: World, m: SessionId, killer: SessionId, exp: nat, gold: nat)
    requires m in w.sessions
    ensures var v, c := Shared(t, w, m, killer, exp, gold), w.sessions[m];
            && v.sessions == w.sessions[m := v.sessions[m]] && v.sessions[m].connected == c.connected
            && v.sessions[m].player == Paid(c.player, exp, gold)
            && v.sessions[m].quests == (if m == killer then c.quests else TickedAll(t, c.quests))
            && v.sessions[m].sent == Log(c, PayLog(c.player, exp, gold)
                                            + if m == killer then [] else TickLog(t, c.quests, c.quests.Keys))
  {
    hide Award, PayLog, Paid, CreditQuests, TickedAll;
    var c := w.sessions[m];
    var d := Award(c, exp, gold);
    AwardTells(c, exp, gold);
    assert PayLog(c.player, exp, gold) + [] == PayLog(c.player, exp, gold);
    var paid := Put(w, m, d);
    CreditIs(t, paid, m);
    CreditTold(t, paid, m);
    LogAfter(c, d, PayLog(c.player, exp, gold), TickLog(t, c.quests, c.quests.Keys));
  }

  lemma {:induction false} SharesTold(t: Data, w: World, members: seq<SessionId>, killer: SessionId, exp: nat,
          gold: nat, o: SessionId)
    requires o in w.sessions
    ensures var c, d := w.sessions[o], Share(t, w, members, killer, exp, gold).sessions[o];
            && d.connected == c.connected
            && d.sent == Log(c, ShareLog(t, c.player, c.quests, exp, gold, Listings(members, o), o == killer))
    decreases |members|
  {
    hide TickedAll, Paid, Award, CreditQuests, PayLog, TickLog, Levels;
    var c := w.sessions[o];
    if members == [] {
      NothingLogged(c);
    } else if members[0] !in w.sessions {
      SharesTold(t, w, members[1..], killer, exp, gold, o);
    } else {
      var m := members[0];
      var v := Shared(t, w, m, killer, exp, gold);
      SharedTells(t, w, m, killer, exp, gold);
      SharesTold(t, v, members[1..], killer, exp, gold, o);
      if o == m {
        PaidIs(c.player, exp, gold);
        var first := PayLog(c.player, exp, gold) + if o == killer then [] else TickLog(t, c.quests, c.quests.Keys);
        LogAfter(c, v.sessions[o], first,
            ShareLog(t, v.sessions[o].player, v.sessions[o].quests, exp, gold, Listings(members[1..], o), o == killer));
      }
    }
  }

  // ---------------------------------------------------------------- a kill

  lemma {:induction false} ListingsAre(members: seq<SessionId>, o: SessionId)
    ensures Listings(members, o) == multiset(members)[o]
    decreases |members|
  {
    if members != [] {
      assert members == [members[0]] + members[1..];
      ListingsAre(members[1..], o);
    }
  }

  lemma PayTold(t: Data, w: World, s: SessionId, o: SessionId, n: nat)
    requires s in w.sessions && o in w.sessions && n == |Takers(w, s)| > 0
    ensures var c, d := w.sessions[o], PayKill(t, w, s).sessions[o];
            var k := Listings(Takers(w, s), o);
            && d.connected == c.connected && d.player.loggedIn == c.player.loggedIn
            && d.sent == Log(c, ShareLog(t, c.player, c.quests, Part(30, n), Part(10, n), k, o == s))
            && (o == s ==> d.quests == c.quests && d.inv == c.inv)
  {
    hide TickedAll, Paid, Award, PayLog, TickLog, Log, Share, Levels, CreditQuests;
    var c := w.sessions[o];
    if Sharers(w, s).Some? {
      SharesTold(t, w, Takers(w, s), s, Part(30, n), Part(10, n), o);
      ShareGives(t, w, Takers(w, s), s, Part(30, n), Part(10, n), o);
      PaidTimesStays(c.player, Part(30, n), Part(10, n), Listings(Takers(w, s), o));
    } else {
      LoneLog(t, c, o == s);
      AwardTells(c, 30, 10);
      AwardPlayer(c, 30, 10);
      PaidStays(c.player, 30, 10);
    }
  }

  lemma LoneLog(t: Data, c: State, killer: bool)
    ensures ShareLog(t, c.player, c.quests, 30, 10, 1, true) == PayLog(c.player, 30, 10)
    ensures ShareLog(t, c.player, c.quests, 30, 10, 0, false) == []
    ensures c.sent == Log(c, [])
  {
    hide PayLog, Levels;
    var p := Levels(Richer(c.player, 30, 10));
    assert ShareLog(t, p, c.quests, 30, 10, 0, true) == [];
    assert PayLog(c.player, 30, 10) + [] + [] == PayLog(c.player, 30, 10);
  }

  lemma PaidStays(p: Player, exp: nat, gold: nat)
    ensures var q := Paid(p, exp, gold);
            q.loggedIn == p.loggedIn && q.x == p.x && q.y == p.y && q.charUid == p.charUid && q.name == p.name
            && q.accountUid == p.accountUid
  {
    LevelUpStats(p.(exp := U64(p.exp + exp), gold := U64(p.gold + gold)));
  }

  lemma {:induction false} PaidTimesStays(p: Player, exp: nat, gold: nat, k: nat)
    ensures var q := PaidTimes(p, exp, gold, k);
            q.loggedIn == p.loggedIn && q.x == p.x && q.y == p.y && q.charUid == p.charUid && q.name == p.name
            && q.accountUid == p.accountUid
    decreases k
  {
    hide Paid;
    if k > 0 {
      PaidStays(p, exp, gold);
      PaidTimesStays(Paid(p, exp, gold), exp, gold, k - 1);
    }
  }

  /** The session entries a kill by s is shared among. */
  function Band(w: World, s: SessionId): seq<SessionId> {
    if s in w.parties.playerParty && w.parties.playerParty[s] in w.parties.parties
    then w.parties.parties[w.parties.playerParty[s]].members else [s]
  }

  /** The notice and the shares. */
  function PayoutLog(t: Data, w: World, s: SessionId, n: Npc, o: SessionId): seq<Msg>
    requires o in w.sessions && |Band(w, s)| > 0
  {
    var c, size := w.sessions[o], |Band(w, s)|;
    (if c.player.loggedIn then [NpcDeath(n.uid, 30, 10)] else [])
    + ShareLog(t, c.player, c.quests, Part(30, size), Part(10, size), multiset(Band(w, s))[o], o == s)
  }

  /** Everything session o hears of the death of NPC n, killed by s: the notice, its shares, for the killer the credit
      and the drop, and the replacement. */
  function KillLog(t: Data, w: World, s: SessionId, n: Npc, luck: Luck, o: SessionId): seq<Msg>
    requires o in w.sessions && |Band(w, s)| > 0
  {
    var c := w.sessions[o];
    PayoutLog(t, w, s, n, o)
    + (if o == s then TickLog(t, c.quests, c.quests.Keys) + PocketLog(t, c.inv, Dropped(t.drops, luck.rand)) else [])
    + if c.player.loggedIn then [NpcSpawn(w.nextNpcUid, luck.x % 20, luck.y % 20, 30, 30)] else []
  }

  lemma DeathTold(w: World, i: nat, o: SessionId)
    requires i < |w.npcs| && o in w.sessions
    ensures var c := w.sessions[o];
            Death(w, i).sessions[o] ==
              c.(sent := Log(c, if c.player.loggedIn then [NpcDeath(w.npcs[i].uid, 30, 10)] else []))
  {
    hide Send, Log;
    Hearing(w.sessions[o], NpcDeath(w.npcs[i].uid, 30, 10));
  }

  lemma RespawnTold(w: World, x: nat, y: nat, o: SessionId)
    requires o in w.sessions && DeadIndex(w.npcs) < |w.npcs|
    ensures var c := w.sessions[o];
            Respawn(w, x, y).sessions[o] ==
              c.(sent := Log(c, if c.player.loggedIn then [NpcSpawn(w.nextNpcUid, x % 20, y % 20, 30, 30)] else []))
    ensures var r, born := Respawn(w, x, y), Npc(w.nextNpcUid, x % 20, y % 20, 30, true);
            r.npcs == w.npcs[DeadIndex(w.npcs) := born] && r.nextNpcUid == w.nextNpcUid + 1
  {
    hide Send, Log, DeadIndex;
    Hearing(w.sessions[o], NpcSpawn(w.nextNpcUid, x % 20, y % 20, 30, 30));
  }

  /** The killer's credit and drop, seen from session o. */
  lemma LootTold(t: Data, w: World, s: SessionId, luck: Luck, o: SessionId)
    requires s in w.sessions && o in w.sessions
    ensures var c, d := w.sessions[o], Loot(t, CreditQuests(t, w, s), s, luck).sessions[o];
            var drop := Dropped(t.drops, luck.rand);
            && d.connected == c.connected && d.player == c.player
            && d.sent == (if o == s then Log(c, TickLog(t, c.quests, c.quests.Keys) + PocketLog(t, c.inv, drop))
                          else c.sent)
            && d.inv == if o == s then Pocketed(t, c.inv, drop, luck.itemUid) else c.inv
  {
    hide CreditQuests, TickedAll, TickLog, Receive, Dropped, Pocketed, PocketLog, Log;
    var c := w.sessions[o];
    CreditIs(t, w, s);
    if o == s {
      var d := CreditQuests(t, w, s).sessions[s];
      CreditTold(t, w, s);
      NothingLogged(d);
      ReceiveTold(t, d, [], Dropped(t.drops, luck.rand), luck.itemUid);
      var drop := PocketLog(t, c.inv, Dropped(t.drops, luck.rand));
      assert [] + drop == drop;
      LogAfter(c, d, TickLog(t, c.quests, c.quests.Keys), drop);
    }
  }

  lemma PayoutTold(t: Data, w: World, s: SessionId, i: nat, o: SessionId)
    requires s in w.sessions && o in w.sessions && i < |w.npcs| && Takers(w, s) == Band(w, s) && |Band(w, s)| > 0
    ensures var c, d := w.sessions[o], PayKill(t, Death(w, i), s).sessions[o];
            && d.connected == c.connected && d.player.loggedIn == c.player.loggedIn
            && (o == s ==> d.quests == c.quests && d.inv == c.inv)
            && d.sent == Log(c, PayoutLog(t, w, s, w.npcs[i], o))
  {
    hide Death, PayKill, Log, ShareLog;
    var c, n := w.sessions[o], |Band(w, s)|;
    var dead := Death(w, i);
    DeathTold(w, i, o);
    PayTold(t, dead, s, o, n);
    ListingsAre(Band(w, s), o);
    var shares := ShareLog(t, c.player, c.quests, Part(30, n), Part(10, n), multiset(Band(w, s))[o], o == s);
    LogAfter(c, dead.sessions[o], if c.player.loggedIn then [NpcDeath(w.npcs[i].uid, 30, 10)] else [], shares);
  }

  lemma KillTold(t: Data, w: World, s: SessionId, i: nat, luck: Luck, o: SessionId)
    requires s in w.sessions && o in w.sessions && i < |w.npcs| && Takers(w, s) == Band(w, s) && |Band(w, s)| > 0
    ensures var c, d := w.sessions[o], Killed(t, w, s, i, luck).sessions[o];
            d.connected == c.connected && d.sent == Log(c, KillLog(t, w, s, w.npcs[i], luck, o))
  {
    hide Death, PayKill, CreditQuests, Loot, Respawn, Log, TickLog, PayoutLog, PocketLog, Dropped;
    var c := w.sessions[o];
    var dead := Death(w, i);
    assert dead.npcs == w.npcs[i := w.npcs[i].(alive := false)] by { DeathNpcs(w, i); }
    PayoutTold(t, w, s, i, o);
    var paid := PayKill(t, dead, s);
    LootTold(t, paid, s, luck, o);
    var looted := Loot(t, CreditQuests(t, paid, s), s, luck);
    assert !looted.npcs[i].alive;
    RespawnTold(looted, luck.x, luck.y, o);
    var payout := PayoutLog(t, w, s, w.npcs[i], o);
    var loot := if o == s then TickLog(t, c.quests, c.quests.Keys) + PocketLog(t, c.inv, Dropped(t.drops, luck.rand))
                else [];
    var born := if c.player.loggedIn then [NpcSpawn(w.nextNpcUid, luck.x % 20, luck.y % 20, 30, 30)] else [];
    NothingLogged(paid.sessions[o]);
    LogAfter(c, paid.sessions[o], payout, loot);
    LogAfter(c, looted.sessions[o], payout + loot, born);
  }

  lemma DeathNpcs(w: World, i: nat)
    requires i < |w.npcs|
    ensures Death(w, i).npcs == w.npcs[i := w.npcs[i].(alive := false)]
  {
  }

  lemma KillWorld(t: Data, w: World, s: SessionId, i: nat, luck: Luck)
    requires s in w.sessions && i < |w.npcs| && Takers(w, s) == Band(w, s) && |Band(w, s)| > 0
    ensures var v := Killed(t, w, s, i, luck);
            var dead := w.npcs[i := w.npcs[i].(alive := false)];
            && v == w.(sessions := v.sessions, npcs := v.npcs, nextNpcUid := w.nextNpcUid + 1, quests := v.quests)
            && DeadIndex(dead) <= i
            && v.npcs == dead[DeadIndex(dead) := Npc(w.nextNpcUid, luck.x % 20, luck.y % 20, 30, true)]
  {
    hide PayKill, CreditQuests, Loot, Respawn, DeadIndex;
    var dead := Death(w, i);
    var looted := Loot(t, CreditQuests(t, PayKill(t, dead, s), s), s, luck);
    assert !looted.npcs[i].alive;
    RespawnTold(looted, luck.x, luck.y, s);
  }

  // ---------------------------------------------------------------- an attack

  /** The first living NPC with this uid stands within one step of the player. */
  ghost predicate InReachOf(npcs: seq<Npc>, uid: nat, p: Player, i: nat) {
    && i < |npcs| && npcs[i].alive && npcs[i].uid == uid
    && (forall j | 0 <= j < i :: !(npcs[j].alive && npcs[j].uid == uid))
    && p.x - 1 <= npcs[i].x <= p.x + 1 && p.y - 1 <= npcs[i].y <= p.y + 1
  }

  lemma TargetIff(w: World, s: SessionId, uid: nat, i: nat)
    requires s in w.sessions
    ensures Target(w, s, uid) == Some(i) <==> InReachOf(w.npcs, uid, w.sessions[s].player, i)
  {
  }

  /** A session once the killed NPC n has been paid for. */
  function PaidOff(t: Data, w: World, s: SessionId, n: Npc, luck: Luck, o: SessionId): State
    requires o in w.sessions && |Band(w, s)| > 0
  {
    var c, size, k := w.sessions[o], |Band(w, s)|, multiset(Band(w, s))[o];
    State(PaidTimes(c.player, Part(30, size), Part(10, size), k),
          if o == s then Pocketed(t, c.inv, Dropped(t.drops, luck.rand), luck.itemUid) else c.inv,
          TickedTimes(t, c.quests, if o == s then 1 else k), c.connected, Log(c, KillLog(t, w, s, n, luck, o)))
  }

  lemma PaidOffIs(t: Data, w: World, s: SessionId, i: nat, luck: Luck, v: World, o: SessionId)
    requires s in w.sessions && i < |w.npcs| && o in w.sessions && Avenged(t, w, s, i, luck, v)
    ensures var c, size, k := w.sessions[o], |Band(w, s)|, multiset(Band(w, s))[o];
            && size > 0 && o in v.sessions && v.sessions[o].connected == c.connected
            && v.sessions[o].player == PaidTimes(c.player, Part(30, size), Part(10, size), k)
            && v.sessions[o].sent == Log(c, KillLog(t, w, s, w.npcs[i], luck, o))
  {
    hide PaidTimes, TickedTimes, Pocketed, Dropped, KillLog, DeadIndex, Log;
    assert v.sessions[o] == PaidOff(t, w, s, w.npcs[i], luck, o);
  }

  lemma KilledIs(t: Data, w: World, s: SessionId, i: nat, luck: Luck, o: SessionId)
    requires s in w.sessions && o in w.sessions && i < |w.npcs| && Takers(w, s) == Band(w, s) && |Band(w, s)| > 0
    ensures Killed(t, w, s, i, luck).sessions[o] == PaidOff(t, w, s, w.npcs[i], luck, o)
  {
    hide Killed, KillLog, PaidTimes, TickedTimes, Receive, Pocketed, Dropped, Log, PocketLog;
    var c := w.sessions[o];
    KillGives(t, w, s, i, luck, o, |Band(w, s)|);
    KillTold(t, w, s, i, luck, o);
    ListingsAre(Band(w, s), o);
    NothingLogged(c);
    ReceiveTold(t, c, [], Dropped(t.drops, luck.rand), luck.itemUid);
  }

  /** The world after the blow itself: max(1, attack - 2) off the hit points, down to 0 at the least, and the attacker
      told so. */
  function Struck(w: World, s: SessionId, i: nat): (r: World)
    requires s in w.sessions && i < |w.npcs|
    ensures |r.npcs| == |w.npcs| && r.sessions.Keys == w.sessions.Keys && r.parties == w.parties
  {
    var c, n := w.sessions[s], w.npcs[i];
    var damage := if c.player.atk >= 3 then c.player.atk - 2 else 1;
    var hp := if n.hp >= damage then n.hp - damage else 0;
    w.(npcs := w.npcs[i := n.(hp := hp)],
       sessions := w.sessions[s := c.(sent := Log(c, [AttackResult(true, n.uid, damage, hp)]))])
  }

  /** The world after NPC i has died of a blow by s: it is gone, the first dead NPC is replaced under a new uid, and
      every session is paid and told. */
  ghost predicate Avenged(t: Data, w: World, s: SessionId, i: nat, luck: Luck, v: World)
    requires s in w.sessions && i < |w.npcs|
  {
    var dead := w.npcs[i := w.npcs[i].(alive := false)];
    && |Band(w, s)| > 0 && DeadIndex(dead) <= i
    && v == w.(sessions := v.sessions, npcs := v.npcs, nextNpcUid := w.nextNpcUid + 1, quests := v.quests)
    && v.npcs == dead[DeadIndex(dead) := Npc(w.nextNpcUid, luck.x % 20, luck.y % 20, 30, true)]
    && v.sessions.Keys == w.sessions.Keys
    && forall o | o in w.sessions :: v.sessions[o] == PaidOff(t, w, s, w.npcs[i], luck, o)
  }

  /** An attack hits the first living NPC of that uid if it stands within one step, kills it exactly when no hit points
      are left, and otherwise only tells the attacker that it missed. */
  lemma AttackEffect(t: Data, w: World, s: SessionId, uid: nat, luck: Luck)
    requires Enabled(w, Attack(s, uid, luck))
    ensures var v, p := Step(t, w, Attack(s, uid, luck)), w.sessions[s].player;
            if exists i: nat :: InReachOf(w.npcs, uid, p, i) then
              forall i: nat | InReachOf(w.npcs, uid, p, i) ::
                var hit := Struck(w, s, i);
                if hit.npcs[i].hp > 0 then v == hit else Avenged(t, hit, s, i, luck, v)
            else Answered(w, v, s, [AttackResult(false, 0, 0, 0)])
  {
    hide Send, Log, InReachOf, Avenged, Target, Struck, Hit, Killed;
    forall i: nat { TargetIff(w, s, uid, i); }
    SendLog(w.sessions[s], [], AttackResult(false, 0, 0, 0));
    var target := Target(w, s, uid);
    if target.Some? {
      HitIs(w, s, target.value);
      DeathAvenged(t, w, s, target.value, luck);
    }
  }

  lemma HitIs(w: World, s: SessionId, i: nat)
    requires s in w.sessions && i < |w.npcs|
    ensures Hit(w, s, i) == Struck(w, s, i)
  {
    hide Send, Log;
    var damage := Damage(w.sessions[s].player);
    SendLog(w.sessions[s], [], AttackResult(true, w.npcs[i].uid, damage, HpAfter(w.sessions[s].player, w.npcs[i])));
  }

  lemma DeathAvenged(t: Data, w: World, s: SessionId, i: nat, luck: Luck)
    requires s in w.sessions && i < |w.npcs| && Splittable(w)
    ensures Avenged(t, Struck(w, s, i), s, i, luck, Killed(t, Struck(w, s, i), s, i, luck))
  {
    hide Killed, PaidOff, Log;
    var hit := Struck(w, s, i);
    assert s in w.parties.playerParty ==> Sharers(w, s) != Some([]);
    KillWorld(t, hit, s, i, luck);
    forall o | o in hit.sessions { KilledIs(t, hit, s, i, luck, o); }
  }
}

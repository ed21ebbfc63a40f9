/** Server and client agree, for every connected session, after every step of a disciplined run. */
module Replication {
  import opened Machine
  import opened Tables
  import opened Protocol
  import opened Client
  import opened Character
  import opened Replica
  import opened Server
  import opened Frames

  // ---------------------------------------------------------------- what is mirrored

  /** The uids and positions a client shows are those of the living NPCs. */
  ghost predicate Mirrors(shown: map<nat, (int, int)>, npcs: seq<Npc>) {
    && (forall i | 0 <= i < |npcs| && npcs[i].alive ::
          npcs[i].uid in shown && shown[npcs[i].uid] == (npcs[i].x, npcs[i].y))
    && (forall u | u in shown :: NpcIndex(npcs, u) < |npcs|)
  }

  ghost predicate DistinctUids(npcs: seq<Npc>) { forall i, j | 0 <= i < j < |npcs| :: npcs[i].uid != npcs[j].uid }

  function Face(p: Player): Other { Other(Clip(p.name, 31), p.x, p.y) }

  predicate Present(sessions: Sessions, o: SessionId) { o in sessions && sessions[o].player.loggedIn }

  /** The other players a client shows are the other logged-in sessions, by account. */
  ghost predicate OthersMirror(shown: map<uint64, Other>, sessions: Sessions, s: SessionId) {
    && (forall o | o in sessions && o != s && Present(sessions, o) ::
          sessions[o].player.accountUid in shown && shown[sessions[o].player.accountUid] == Face(sessions[o].player))
    && (forall a | a in shown ::
          exists o :: o in sessions && Present(sessions, o) && o != s && sessions[o].player.accountUid == a)
  }

  ghost predicate AccountsDistinct(sessions: Sessions) {
    forall a, b | a in sessions && b in sessions && a != b && Present(sessions, a) && Present(sessions, b) ::
      sessions[a].player.accountUid != sessions[b].player.accountUid
  }

  /** What session s's drained client shows of the rest of the world. */
  ghost predicate Sees(w: World, s: SessionId)
    requires s in w.sessions
  {
    var c := w.sessions[s];
    c.connected && c.player.loggedIn ==>
      Mirrors(Places(Replay(c.sent).npcs), w.npcs) && OthersMirror(Replay(c.sent).others, w.sessions, s)
  }

  /** All replicas of all sessions. */
  ghost predicate Agreement(t: Data, w: World) {
    && AccountsDistinct(w.sessions)
    && forall s | s in w.sessions :: Synced(t, w.sessions[s]) && Sees(w, s)
  }

  // ---------------------------------------------------------------- steps inside sessions

  /** Every session takes a local step, the NPCs stay. */
  ghost predicate Locally(t: Data, w: World, v: World) {
    && v.sessions.Keys == w.sessions.Keys && v.npcs == w.npcs
    && forall s | s in w.sessions :: Local(t, w.sessions[s], v.sessions[s])
  }

  lemma LocallyTrans(t: Data, w: World, v: World, u: World)
    requires Locally(t, w, v) && Locally(t, v, u)
    ensures Locally(t, w, u)
  {
    hide Synced, Replay, ListSent;
    forall s | s in w.sessions ensures Local(t, w.sessions[s], u.sessions[s]) {
      LocalTrans(t, w.sessions[s], v.sessions[s], u.sessions[s]);
    }
  }

  lemma OthersMirrorKept(shown: map<uint64, Other>, sessions: Sessions, later: Sessions, s: SessionId)
    requires OthersMirror(shown, sessions, s) && later.Keys == sessions.Keys
    requires forall o | o in sessions && o != s :: SameFace(sessions[o], later[o])
    ensures OthersMirror(shown, later, s)
  {
    forall a | a in shown
      ensures exists o :: o in later && Present(later, o) && o != s && later[o].player.accountUid == a
    {
      var o :| o in sessions && Present(sessions, o) && o != s && sessions[o].player.accountUid == a;
      assert o in later && Present(later, o);
    }
  }

  lemma LocallyKeeps(t: Data, w: World, v: World)
    requires Agreement(t, w) && Locally(t, w, v)
    ensures Agreement(t, v)
  {
    hide Synced, Replay, ListSent, Mirrors, OthersMirror;
    forall s | s in v.sessions ensures Synced(t, v.sessions[s]) && Sees(v, s) {
      assert Local(t, w.sessions[s], v.sessions[s]) && Sees(w, s);
      var c := v.sessions[s];
      if c.connected && c.player.loggedIn {
        OthersMirrorKept(Replay(c.sent).others, w.sessions, v.sessions, s);
      }
    }
  }

  lemma PutLocally(t: Data, w: World, s: SessionId, c: State)
    requires s in w.sessions && Local(t, w.sessions[s], c)
    ensures Locally(t, w, Put(w, s, c))
  {
    hide Synced, Replay, ListSent;
  }

  lemma {:induction false} ToldLocal(t: Data, c: State, d: State)
    requires Told(c, d)
    ensures Local(t, c, d)
    decreases |d.sent|
  {
    hide Local;
    if |d.sent| == |c.sent| {
      assert d == c;
      SelfLocal(t, c);
    } else {
      var n := |d.sent| - 1;
      var front := d.(sent := d.sent[..n]);
      assert d.sent == d.sent[..n] + [d.sent[n]];
      ToldLocal(t, c, front);
      SendNeutral(t, front, d.sent[n]);
      LocalTrans(t, c, front, d);
    }
  }

  lemma SelfLocal(t: Data, c: State)
    ensures Local(t, c, c)
  {
  }

  lemma ToldLocally(t: Data, w: World, v: World)
    requires AllTold(w, v)
    ensures Locally(t, w, v)
  {
    hide Local, Told;
    forall s | s in w.sessions ensures Local(t, w.sessions[s], v.sessions[s]) {
      ToldLocal(t, w.sessions[s], v.sessions[s]);
    }
  }

  lemma ToldAgrees(t: Data, w: World, v: World)
    requires Agreement(t, w) && AllTold(w, v)
    ensures Agreement(t, v)
  {
    hide Agreement, Local, Told;
    ToldLocally(t, w, v);
    LocallyKeeps(t, w, v);
  }

  lemma CreditLocally(t: Data, w: World, s: SessionId)
    requires WellFormed(t) && s in w.sessions
    ensures Locally(t, w, CreditQuests(t, w, s))
  {
    hide Synced, Replay, ListSent;
    TicksLocal(t, w.sessions[s], w.quests, w.sessions[s].quests.Keys);
  }

  lemma {:induction false} ShareLocally(t: Data, w: World, members: seq<SessionId>, killer: SessionId, exp: nat,
          gold: nat)
    requires WellFormed(t)
    ensures Locally(t, w, Share(t, w, members, killer, exp, gold))
    decreases |members|
  {
    hide Synced, Replay, ListSent, Award, CreditQuests;
    if members != [] {
      var m, r := members[0], Share(t, w, members, killer, exp, gold);
      if m !in w.sessions {
        ShareLocally(t, w, members[1..], killer, exp, gold);
      } else {
        var paid := Put(w, m, Award(w.sessions[m], exp, gold));
        AwardLocal(t, w.sessions[m], exp, gold);
        PutLocally(t, w, m, Award(w.sessions[m], exp, gold));
        CreditLocally(t, paid, m);
        var next := if m != killer then CreditQuests(t, paid, m) else paid;
        LocallyTrans(t, w, paid, next);
        ShareLocally(t, next, members[1..], killer, exp, gold);
        LocallyTrans(t, w, next, r);
      }
    }
  }

  lemma PayLocally(t: Data, w: World, s: SessionId)
    requires WellFormed(t) && s in w.sessions
    requires Sharers(w, s).Some? ==> |Sharers(w, s).value| > 0
    ensures Locally(t, w, PayKill(t, w, s))
  {
    match Sharers(w, s)
    case Some(members) => ShareLocally(t, w, members, s, Part(NPC_EXP, |members|), Part(NPC_GOLD, |members|));
    case None =>
      AwardLocal(t, w.sessions[s], NPC_EXP, NPC_GOLD);
      PutLocally(t, w, s, Award(w.sessions[s], NPC_EXP, NPC_GOLD));
  }

  lemma UseLocally(t: Data, w: World, s: SessionId, slot: nat)
    requires s in w.sessions && w.sessions[s].player.loggedIn
    ensures Locally(t, w, OnItemUse(t, w, s, slot))
  {
    hide Synced, Replay, ListSent, AfterUse;
    match Usable(t, w.sessions[s], slot)
    case None =>
    case Some(it) =>
      var c := Consume(w.sessions[s], slot, it);
      var m := UsedMsg(c.player, it);
      UseLocal(t, w.sessions[s], slot, it, m);
      var r := OnItemUse(t, w, s, slot);
      assert r.sessions[s] == AfterUse(t, Send(c, m), slot);
      forall o | o in w.sessions && o != s ensures Local(t, w.sessions[o], r.sessions[o]) {
        SendNeutral(t, w.sessions[o], m);
      }
  }

  // ---------------------------------------------------------------- NPCs

  lemma IndexKept(npcs: seq<Npc>, i: nat, n: Npc, u: nat)
    requires i < |npcs| && NpcIndex(npcs, u) < |npcs|
    requires NpcIndex(npcs, u) == i ==> n.alive && n.uid == u
    ensures NpcIndex(npcs[i := n], u) < |npcs|
  {
    var j := NpcIndex(npcs, u);
    assert npcs[i := n][j].alive && npcs[i := n][j].uid == u;
  }

  /** A hit, a death and a spawn, as changes of entry i and of the map that mirrors the list. */
  lemma HitMirrored(shown: map<nat, (int, int)>, npcs: seq<Npc>, i: nat, n: Npc)
    requires Mirrors(shown, npcs) && i < |npcs| && n == npcs[i].(hp := n.hp)
    ensures Mirrors(shown, npcs[i := n])
  {
    forall u | u in shown ensures NpcIndex(npcs[i := n], u) < |npcs| { IndexKept(npcs, i, n, u); }
  }

  lemma DeathMirrored(shown: map<nat, (int, int)>, npcs: seq<Npc>, i: nat)
    requires Mirrors(shown, npcs) && i < |npcs| && DistinctUids(npcs)
    ensures Mirrors(shown - {npcs[i].uid}, npcs[i := npcs[i].(alive := false)])
  {
    var n := npcs[i].(alive := false);
    forall u | u in shown - {n.uid} ensures NpcIndex(npcs[i := n], u) < |npcs| { IndexKept(npcs, i, n, u); }
  }

  lemma SpawnMirrored(shown: map<nat, (int, int)>, npcs: seq<Npc>, i: nat, n: Npc)
    requires Mirrors(shown, npcs) && i < |npcs| && !npcs[i].alive && n.alive
    requires forall j | 0 <= j < |npcs| :: npcs[j].uid != n.uid
    ensures Mirrors(shown[n.uid := (n.x, n.y)], npcs[i := n])
  {
    forall u | u in shown ensures NpcIndex(npcs[i := n], u) < |npcs| { IndexKept(npcs, i, n, u); }
    assert npcs[i := n][i].alive && npcs[i := n][i].uid == n.uid;
  }

  lemma PlacesOf(npcs: map<nat, NpcView>, u: nat, n: NpcView)
    ensures Places(npcs[u := n]) == Places(npcs)[u := (n.x, n.y)]
    ensures Places(npcs - {u}) == Places(npcs) - {u}
  {
  }

  lemma OthersMirrorBroadcast(w: World, m: Msg, s: SessionId, shown: map<uint64, Other>)
    requires OthersMirror(shown, w.sessions, s)
    ensures OthersMirror(shown, Broadcast(w, m).sessions, s)
  {
    OthersMirrorKept(shown, w.sessions, Broadcast(w, m).sessions, s);
  }

  /** Notices about NPCs reach the map of NPCs and nothing else that is compared. */
  lemma NpcNoticeSynced(t: Data, c: State, m: Msg)
    requires Synced(t, c) && c.player.loggedIn && (m.NpcSpawn? || m.NpcDeath?)
    ensures Synced(t, Send(c, m))
    ensures c.connected ==>
              Replay(Send(c, m).sent).others == Replay(c.sent).others
              && Replay(Send(c, m).sent).npcs == (
                if m.NpcSpawn? then Replay(c.sent).npcs[m.npc := NpcView(m.x, m.y, m.hp, m.maxHp)]
                    else Replay(c.sent).npcs - {m.npc})
  {
    hide Replay, ListSent;
  }

  /** A death notice and the death itself. */
  lemma DeathAgrees(t: Data, w: World, i: nat)
    requires Agreement(t, w) && i < |w.npcs| && w.npcs[i].alive && DistinctUids(w.npcs)
    ensures Agreement(t, Death(w, i))
  {
    hide Replay, ListSent, Mirrors, OthersMirror, Synced;
    var m := NpcDeath(w.npcs[i].uid, NPC_EXP, NPC_GOLD);
    var n := w.npcs[i].(alive := false);
    var r := Death(w, i);
    forall s | s in r.sessions ensures Synced(t, r.sessions[s]) && Sees(r, s) {
      var c := w.sessions[s];
      assert Synced(t, c) && Sees(w, s);
      if c.player.loggedIn { NpcNoticeSynced(t, c, m); }
      if c.connected && c.player.loggedIn {
        PlacesOf(Replay(c.sent).npcs, n.uid, NpcView(0, 0, 0, 0));
        DeathMirrored(Places(Replay(c.sent).npcs), w.npcs, i);
        OthersMirrorBroadcast(w, m, s, Replay(c.sent).others);
      }
    }
  }

  /** A spawn and its notice. */
  lemma RespawnAgrees(t: Data, w: World, x: nat, y: nat)
    requires Agreement(t, w) && DistinctUids(w.npcs) && forall j | 0 <= j < |w.npcs| :: w.npcs[j].uid < w.nextNpcUid
    ensures Agreement(t, Respawn(w, x, y))
  {
    hide Replay, ListSent, Mirrors, OthersMirror, Synced;
    var i := DeadIndex(w.npcs);
    if i < |w.npcs| {
      var n := Npc(w.nextNpcUid, x % MAP_SIZE, y % MAP_SIZE, NPC_HP, true);
      var m := SpawnMsg(n);
      var r := Respawn(w, x, y);
      forall s | s in r.sessions ensures Synced(t, r.sessions[s]) && Sees(r, s) {
        var c := w.sessions[s];
        assert Synced(t, c) && Sees(w, s);
        if c.player.loggedIn { NpcNoticeSynced(t, c, m); }
        if c.connected && c.player.loggedIn {
          PlacesOf(Replay(c.sent).npcs, n.uid, NpcView(n.x, n.y, n.hp, NPC_HP));
          SpawnMirrored(Places(Replay(c.sent).npcs), w.npcs, i, n);
          OthersMirrorBroadcast(w, m, s, Replay(c.sent).others);
        }
      }
    }
  }

  /** A hit that leaves hit points or not: positions stay. */
  lemma HitAgrees(t: Data, w: World, s: SessionId, i: nat)
    requires Agreement(t, w) && s in w.sessions && i < |w.npcs| && DistinctUids(w.npcs)
    ensures Agreement(t, Hit(w, s, i))
  {
    hide Replay, ListSent, Mirrors, OthersMirror, Synced;
    var n := w.npcs[i].(hp := HpAfter(w.sessions[s].player, w.npcs[i]));
    var hurt := w.(npcs := w.npcs[i := n]);
    forall o | o in hurt.sessions ensures Sees(hurt, o) {
      var c := w.sessions[o];
      assert Sees(w, o);
      if c.connected && c.player.loggedIn { HitMirrored(Places(Replay(c.sent).npcs), w.npcs, i, n); }
    }
    assert Agreement(t, hurt);
    var m := AttackResult(true, n.uid, Damage(w.sessions[s].player), n.hp);
    SendToTold(hurt, s, m);
    ToldAgrees(t, hurt, SendTo(hurt, s, m));
  }

  // ---------------------------------------------------------------- other players

  /** Telling everyone else about session s: after a move, or when it enters. */
  lemma AnnounceAgrees(t: Data, w: World, s: SessionId, c: State)
    requires Agreement(t, w) && s in w.sessions && c.player.loggedIn && Synced(t, c)
    requires c.connected ==>
               Mirrors(Places(Replay(c.sent).npcs), w.npcs) && OthersMirror(Replay(c.sent).others, w.sessions, s)
    requires w.sessions[s].player.loggedIn ==> w.sessions[s].player.accountUid == c.player.accountUid
    requires forall o | o in w.sessions && o != s && Present(w.sessions, o) ::
               w.sessions[o].player.accountUid != c.player.accountUid
    ensures Agreement(t, BroadcastExcept(Put(w, s, c), Some(s), OtherInfo(c.player)))
  {
    hide Replay, ListSent, Mirrors, OthersMirror, Synced;
    var m := OtherInfo(c.player);
    var r := BroadcastExcept(Put(w, s, c), Some(s), m);
    assert r.sessions[s] == c;
    forall o | o in r.sessions ensures Synced(t, r.sessions[o]) && Sees(r, o) {
      assert Synced(t, w.sessions[o]) && Sees(w, o);
      if o == s {
        if c.connected { OthersMirrorKept(Replay(c.sent).others, w.sessions, r.sessions, s); }
      } else if w.sessions[o].connected && w.sessions[o].player.loggedIn {
        OtherTold(t, w, s, c, o);
      }
    }
  }

  /** Another player's data reaching a client in the game. */
  lemma ForeignInfo(t: Data, d: State, p: Player)
    requires Synced(t, d) && d.connected && d.player.loggedIn && p.accountUid != d.player.accountUid
    ensures var e := Send(d, OtherInfo(p));
            && Synced(t, e) && Replay(e.sent).npcs == Replay(d.sent).npcs
            && Replay(e.sent).others == Replay(d.sent).others[p.accountUid := Face(p)]
  {
    hide Replay, ListSent;
  }

  /** Session s is in the game with an account of its own, and the others are as they were. */
  ghost predicate Joined(sessions: Sessions, later: Sessions, s: SessionId) {
    && later.Keys == sessions.Keys && s in sessions && Present(later, s)
    && (Present(sessions, s) ==> sessions[s].player.accountUid == later[s].player.accountUid)
    && (forall x | x in sessions && x != s :: SameFace(sessions[x], later[x]))
    && (forall x | x in sessions && x != s && Present(sessions, x) ::
          sessions[x].player.accountUid != later[s].player.accountUid)
  }

  lemma JoinedFace(sessions: Sessions, later: Sessions, s: SessionId, x: SessionId)
    requires Joined(sessions, later, s) && x in sessions && x != s && Present(later, x)
    ensures Present(sessions, x) && later[x].player.accountUid == sessions[x].player.accountUid
    ensures Face(later[x].player) == Face(sessions[x].player)
    ensures sessions[x].player.accountUid != later[s].player.accountUid
  {
  }

  lemma JoinedOwner(sessions: Sessions, later: Sessions, s: SessionId, x: SessionId)
    requires Joined(sessions, later, s) && Present(sessions, x)
    ensures x in later && Present(later, x) && later[x].player.accountUid == sessions[x].player.accountUid
  {
  }

  /** Adding or refreshing session s in the mirror of the others. */
  lemma MirrorAnnounced(shown: map<uint64, Other>, sessions: Sessions, later: Sessions, s: SessionId, o: SessionId)
    requires OthersMirror(shown, sessions, o) && Joined(sessions, later, s) && s != o
    ensures OthersMirror(shown[later[s].player.accountUid := Face(later[s].player)], later, o)
  {
    var account := later[s].player.accountUid;
    var now := shown[account := Face(later[s].player)];
    assert s in later && Present(later, s) && later.Keys == sessions.Keys;
    hide Joined, Face;
    forall x | x in later && x != o && Present(later, x)
      ensures later[x].player.accountUid in now && now[later[x].player.accountUid] == Face(later[x].player)
    {
      if x != s { JoinedFace(sessions, later, s, x); }
    }
    forall a | a in now
      ensures exists x :: x in later && Present(later, x) && x != o && later[x].player.accountUid == a
    {
      if a != account {
        var x :| x in sessions && Present(sessions, x) && x != o && sessions[x].player.accountUid == a;
        JoinedOwner(sessions, later, s, x);
      }
    }
  }

  /** One of the sessions told. */
  lemma OtherTold(t: Data, w: World, s: SessionId, c: State, o: SessionId)
    requires Agreement(t, w) && s in w.sessions && c.player.loggedIn
    requires w.sessions[s].player.loggedIn ==> w.sessions[s].player.accountUid == c.player.accountUid
    requires o in w.sessions && o != s && w.sessions[o].connected && w.sessions[o].player.loggedIn
    requires forall x | x in w.sessions && x != s && Present(w.sessions, x) ::
               w.sessions[x].player.accountUid != c.player.accountUid
    ensures var r := BroadcastExcept(Put(w, s, c), Some(s), OtherInfo(c.player));
            Synced(t, r.sessions[o]) && Sees(r, o)
  {
    hide Replay, ListSent, Mirrors, OthersMirror, Synced;
    var r := BroadcastExcept(Put(w, s, c), Some(s), OtherInfo(c.player));
    assert Synced(t, w.sessions[o]) && Sees(w, o) && Present(w.sessions, o);
    ForeignInfo(t, w.sessions[o], c.player);
    MirrorAnnounced(Replay(w.sessions[o].sent).others, w.sessions, r.sessions, s, o);
  }

  lemma MoveSynced(t: Data, c: State, dx: int, dy: int)
    requires Synced(t, c)
    ensures Synced(t, Moved(c, dx, dy))
    ensures c.connected ==> SameSurroundings(c, Moved(c, dx, dy))
  {
    hide Replay, ListSent;
  }

  lemma MoveAgrees(t: Data, w: World, s: SessionId, dx: int, dy: int)
    requires Agreement(t, w) && s in w.sessions && w.sessions[s].player.loggedIn
    ensures Agreement(t, OnMove(w, s, dx, dy))
  {
    hide Replay, ListSent, Mirrors, OthersMirror, Synced;
    var c := Moved(w.sessions[s], dx, dy);
    assert Synced(t, w.sessions[s]) && Sees(w, s);
    MoveSynced(t, w.sessions[s], dx, dy);
    AnnounceAgrees(t, w, s, c);
  }

  // ---------------------------------------------------------------- entering

  function AddNpcs(shown: map<nat, NpcView>, npcs: seq<Npc>): map<nat, NpcView>
    decreases |npcs|
  {
    if npcs == [] then shown
    else
      var n := npcs[0];
      AddNpcs(if n.alive then shown[n.uid := NpcView(n.x, n.y, n.hp, NPC_HP)] else shown, npcs[1..])
  }

  lemma {:induction false} NpcsSent(c: State, npcs: seq<Npc>)
    ensures var d := SendAllNpcs(c, npcs);
            && d == c.(sent := d.sent)
            && (c.connected ==> Replay(d.sent) == Replay(c.sent).(npcs := AddNpcs(Replay(c.sent).npcs, npcs)))
            && ListSent(d.sent) == ListSent(c.sent)
    decreases |npcs|
  {
    hide Replay, ListSent;
    if npcs != [] { NpcsSent(if npcs[0].alive then Send(c, SpawnMsg(npcs[0])) else c, npcs[1..]); }
  }

  lemma {:induction false} NpcsShown(shown: map<nat, NpcView>, npcs: seq<Npc>, u: nat)
    requires DistinctUids(npcs)
    ensures var all := AddNpcs(shown, npcs); var i := NpcIndex(npcs, u);
            && (u in all <==> u in shown || i < |npcs|)
            && (i < |npcs| ==> all[u] == NpcView(npcs[i].x, npcs[i].y, npcs[i].hp, NPC_HP))
            && (i == |npcs| && u in shown ==> all[u] == shown[u])
    decreases |npcs|
  {
    if npcs != [] {
      var n := npcs[0];
      var next := if n.alive then shown[n.uid := NpcView(n.x, n.y, n.hp, NPC_HP)] else shown;
      assert DistinctUids(npcs[1..]) by {
        forall i, j | 0 <= i < j < |npcs| - 1 ensures npcs[1..][i].uid != npcs[1..][j].uid {
          assert npcs[i + 1].uid != npcs[j + 1].uid;
        }
      }
      NpcsShown(next, npcs[1..], u);
      var k := NpcIndex(npcs[1..], u);
      assert k < |npcs| - 1 ==> npcs[k + 1].uid == u && npcs[0].uid != npcs[k + 1].uid;
    }
  }

  lemma AllNpcsMirrored(shown: map<nat, NpcView>, npcs: seq<Npc>)
    requires DistinctUids(npcs) && forall u | u in shown :: NpcIndex(npcs, u) < |npcs|
    ensures Mirrors(Places(AddNpcs(shown, npcs)), npcs)
  {
    var all := AddNpcs(shown, npcs);
    forall u ensures u in all <==> NpcIndex(npcs, u) < |npcs| { NpcsShown(shown, npcs, u); }
    forall i | 0 <= i < |npcs| && npcs[i].alive
      ensures npcs[i].uid in all && (all[npcs[i].uid].x, all[npcs[i].uid].y) == (npcs[i].x, npcs[i].y)
    {
      NpcsShown(shown, npcs, npcs[i].uid);
      var j := NpcIndex(npcs, npcs[i].uid);
      assert j <= i && npcs[j].uid == npcs[i].uid;
    }
  }

  function AddPlayers(shown: map<uint64, Other>, sessions: Sessions, ids: set<SessionId>): map<uint64, Other>
    requires ids <= sessions.Keys
    decreases |ids|
  {
    if ids == {} then shown
    else
      var o := Least(ids);
      var p := sessions[o].player;
      AddPlayers(if p.loggedIn then shown[p.accountUid := Face(p)] else shown, sessions, ids - {o})
  }

  lemma {:induction false} PlayersSent(c: State, sessions: Sessions, ids: set<SessionId>)
    requires ids <= sessions.Keys
    requires c.connected ==> Replay(c.sent).screen == InGame
    requires c.connected ==> forall o | o in ids && Present(sessions, o) ::
               sessions[o].player.accountUid != Replay(c.sent).me.uid
    ensures var d := SendPlayers(c, sessions, ids);
            && d == c.(sent := d.sent)
            && (c.connected
                ==> Replay(d.sent) == Replay(c.sent).(others := AddPlayers(Replay(c.sent).others, sessions, ids)))
            && ListSent(d.sent) == ListSent(c.sent)
    decreases |ids|
  {
    hide Replay, ListSent;
    if ids != {} {
      var o := Least(ids);
      var p := sessions[o].player;
      assert p.loggedIn ==> Present(sessions, o);
      PlayersSent(if p.loggedIn then Send(c, OtherInfo(p)) else c, sessions, ids - {o});
    }
  }

  /** The map holds exactly the faces of the logged-in sessions in `ids`. */
  ghost predicate FacesOf(shown: map<uint64, Other>, sessions: Sessions, ids: set<SessionId>)
    requires ids <= sessions.Keys
  {
    && (forall o | o in ids && Present(sessions, o) ::
          sessions[o].player.accountUid in shown && shown[sessions[o].player.accountUid] == Face(sessions[o].player))
    && (forall a | a in shown :: exists o :: o in ids && Present(sessions, o) && sessions[o].player.accountUid == a)
  }

  lemma {:induction false} PlayersShown(shown: map<uint64, Other>, sessions: Sessions, done: set<SessionId>,
          ids: set<SessionId>)
    requires done + ids <= sessions.Keys && done !! ids && AccountsDistinct(sessions)
    requires FacesOf(shown, sessions, done)
    ensures FacesOf(AddPlayers(shown, sessions, ids), sessions, done + ids)
    decreases |ids|
  {
    hide FacesOf, AccountsDistinct;
    if ids == {} {
      assert done + ids == done;
    } else {
      var o := Least(ids);
      var p := sessions[o].player;
      var next := if p.loggedIn then shown[p.accountUid := Face(p)] else shown;
      OneMoreFace(shown, sessions, done, o);
      PlayersShown(next, sessions, done + {o}, ids - {o});
      assert (done + {o}) + (ids - {o}) == done + ids;
    }
  }

  lemma OneMoreFace(shown: map<uint64, Other>, sessions: Sessions, done: set<SessionId>, o: SessionId)
    requires done <= sessions.Keys && o in sessions && o !in done && AccountsDistinct(sessions)
             && FacesOf(shown, sessions, done)
    ensures var p := sessions[o].player;
            FacesOf(if p.loggedIn then shown[p.accountUid := Face(p)] else shown, sessions, done + {o})
  {
    var p := sessions[o].player;
    var next := if p.loggedIn then shown[p.accountUid := Face(p)] else shown;
    forall a | a in next
      ensures exists x :: x in done + {o} && Present(sessions, x) && sessions[x].player.accountUid == a
    {
      if a in shown {
        var x :| x in done && Present(sessions, x) && sessions[x].player.accountUid == a;
        assert x in done + {o};
      } else {
        assert o in done + {o} && Present(sessions, o);
      }
    }
  }

  /** The state session s has after a successful select. */
  function Selected(t: Data, w: World, s: SessionId, charUid: uint64, r: Record, x: nat, y: nat): State
    requires s in w.sessions
  {
    var entered := SendAllNpcs(SendCharInfo(Entered(w.sessions[s], charUid, r, x, y)), w.npcs);
    var met := SendPlayers(entered, w.sessions, w.sessions.Keys - {s});
    LoadInventory(t, Send(met, AttendanceInfo), r).(quests := Rows(w.quests, charUid))
  }

  lemma RefusedForm(t: Data, w: World, s: SessionId, charUid: uint64, x: nat, y: nat)
    requires s in w.sessions
    ensures OnCharSelect(t, w, s, charUid, None, x, y) == SendTo(w, s, Error(1))
  {
  }

  lemma SelectForm(t: Data, w: World, s: SessionId, charUid: uint64, r: Record, x: nat, y: nat)
    requires s in w.sessions
    ensures var c := Selected(t, w, s, charUid, r, x, y);
            && OnCharSelect(t, w, s, charUid, Some(r), x, y)
                == BroadcastExcept(Put(w, s, c), Some(s), OtherInfo(c.player))
            && c.connected == w.sessions[s].connected && c.player.loggedIn && c.player.charUid == charUid
            && c.player.accountUid == w.sessions[s].player.accountUid && c.quests == Rows(w.quests, charUid)
            && c.player.name == Clip(r.name, 19)
  {
    hide Replay, ListSent, Send, SendAllNpcs, SendPlayers, LoadInventory, BroadcastExcept, Rows;
    var first := SendCharInfo(Entered(w.sessions[s], charUid, r, x, y));
    SentOnly(first, w.npcs, w.sessions, w.sessions.Keys - {s});
    var met := SendPlayers(SendAllNpcs(first, w.npcs), w.sessions, w.sessions.Keys - {s});
    LoadKeeps(t, Send(met, AttendanceInfo), r);
    var c := Selected(t, w, s, charUid, r, x, y);
    assert OtherInfo(c.player) == OtherInfo(met.player);
    PutAround(w, s, met, c, OtherInfo(met.player));
  }

  /** What the announced session does afterwards does not matter to the others. */
  lemma PutAround(w: World, s: SessionId, met: State, c: State, m: Msg)
    requires s in w.sessions
    ensures Put(BroadcastExcept(Put(w, s, met), Some(s), m), s, c) == BroadcastExcept(Put(w, s, c), Some(s), m)
  {
    hide Send;
    assert Put(BroadcastExcept(Put(w, s, met), Some(s), m), s, c).sessions
        == BroadcastExcept(Put(w, s, c), Some(s), m).sessions;
  }

  lemma {:induction false} PlayersSentOnly(c: State, sessions: Sessions, ids: set<SessionId>)
    requires ids <= sessions.Keys
    ensures SendPlayers(c, sessions, ids) == c.(sent := SendPlayers(c, sessions, ids).sent)
    decreases |ids|
  {
    hide Replay, ListSent;
    if ids != {} {
      var o := Least(ids);
      var p := sessions[o].player;
      PlayersSentOnly(if p.loggedIn then Send(c, OtherInfo(p)) else c, sessions, ids - {o});
    }
  }

  lemma SentOnly(c: State, npcs: seq<Npc>, sessions: Sessions, ids: set<SessionId>)
    requires ids <= sessions.Keys
    ensures var d := SendAllNpcs(c, npcs); var e := SendPlayers(d, sessions, ids);
            d == c.(sent := d.sent) && e == c.(sent := e.sent)
  {
    NpcsSent(c, npcs);
    PlayersSentOnly(SendAllNpcs(c, npcs), sessions, ids);
  }

  lemma NothingShown(t: Data, v: View)
    requires WellFormed(t) && ItemsAgree(t, v, EMPTY_INVENTORY)
    ensures v.slots == EMPTY_SLOTS && v.weapon == "" == v.armor
  {
  }

  /** The selecting client ends up with its own character, its bag, all NPCs and all other players. */
  lemma SelectedSynced(t: Data, w: World, s: SessionId, charUid: uint64, r: Record, x: nat, y: nat)
    requires WellFormed(t) && AccountsDistinct(w.sessions) && DistinctUids(w.npcs)
    requires s in w.sessions && Synced(t, w.sessions[s]) && Selectable(w, s) && BagKnown(t, r)
    ensures var c := Selected(t, w, s, charUid, r, x, y);
            && Synced(t, c)
            && (c.connected ==>
                  Mirrors(Places(Replay(c.sent).npcs), w.npcs) && OthersMirror(Replay(c.sent).others, w.sessions, s))
  {
    hide Replay, ListSent, Mirrors, OthersMirror, LoadInventory, AddNpcs, AddPlayers, BagKnown;
    var c := Selected(t, w, s, charUid, r, x, y);
    var first := SendCharInfo(Entered(w.sessions[s], charUid, r, x, y));
    var entered := SendAllNpcs(first, w.npcs);
    var ids := w.sessions.Keys - {s};
    SelectForm(t, w, s, charUid, r, x, y);
    if c.connected {
      SentOnly(first, w.npcs, w.sessions, ids);
      NpcsSent(first, w.npcs);
      PlayersSent(entered, w.sessions, ids);
      var met := Send(SendPlayers(entered, w.sessions, ids), AttendanceInfo);
      NothingShown(t, Replay(w.sessions[s].sent));
      LoadAgreesIff(t, met, r);
      LoadKeeps(t, met, r);
      AllNpcsMirrored(map[], w.npcs);
      PlayersShown(map[], w.sessions, {}, ids);
      FacesMirror(AddPlayers(map[], w.sessions, ids), w.sessions, s);
    }
  }

  lemma FacesMirror(shown: map<uint64, Other>, sessions: Sessions, s: SessionId)
    requires FacesOf(shown, sessions, {} + (sessions.Keys - {s}))
    ensures OthersMirror(shown, sessions, s)
  {
    assert {} + (sessions.Keys - {s}) == sessions.Keys - {s};
  }

  lemma LoadKeeps(t: Data, c: State, r: Record)
    ensures var l := LoadInventory(t, c, r);
            && l == c.(inv := l.inv, player := c.player.(atk := l.player.atk, def := l.player.def), sent := l.sent)
            && ListSent(l.sent) == ListSent(c.sent)
            && (c.connected ==>
                  var v, u := Replay(c.sent), Replay(l.sent);
                  u == v.(me := v.me.(atk := u.me.atk, def := u.me.def), slots := u.slots, weapon := u.weapon,
                      armor := u.armor))
  {
    hide Replay, ListSent;
  }

  /** What a caller can check before a select: the session has logged in, not yet selected, and its account is not in
      the game. */
  ghost predicate Selectable(w: World, s: SessionId)
    requires s in w.sessions
  {
    var p := w.sessions[s].player;
    && !p.loggedIn && p.accountUid != 0
    && forall o | o in w.sessions && o != s && Present(w.sessions, o) :: w.sessions[o].player.accountUid != p.accountUid
  }

  lemma SelectAgrees(t: Data, w: World, s: SessionId, charUid: uint64, found: Option<Record>, x: nat, y: nat)
    requires WellFormed(t) && Agreement(t, w) && DistinctUids(w.npcs)
    requires s in w.sessions && (found.Some? ==> Selectable(w, s) && BagKnown(t, found.value))
    ensures Agreement(t, OnCharSelect(t, w, s, charUid, found, x, y))
  {
    hide Synced, Replay, ListSent, Mirrors, OthersMirror, BagKnown, Selected, OnCharSelect;
    match found
    case None =>
      SendToTold(w, s, Error(1));
      ToldAgrees(t, w, SendTo(w, s, Error(1)));
      RefusedForm(t, w, s, charUid, x, y);
    case Some(r) =>
      assert Synced(t, w.sessions[s]);
      SelectForm(t, w, s, charUid, r, x, y);
      SelectedSynced(t, w, s, charUid, r, x, y);
      AnnounceAgrees(t, w, s, Selected(t, w, s, charUid, r, x, y));
  }
}

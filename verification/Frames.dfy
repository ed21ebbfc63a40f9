/** Which steps only append messages. */
module Frames {
  import opened Machine
  import opened Tables
  import opened Protocol
  import opened Client
  import opened Character
  import opened Server
  import Party

  /** No session but its message log changes. */
  ghost predicate OnlySent(w: World, v: World) {
    v.sessions.Keys == w.sessions.Keys
    && forall s | s in w.sessions :: v.sessions[s] == w.sessions[s].(sent := v.sessions[s].sent)
  }

  lemma BroadcastOnlySent(w: World, except: Option<SessionId>, m: Msg)
    ensures OnlySent(w, BroadcastExcept(w, except, m))
  {
  }

  /** The session a broadcast leaves out. */
  lemma ExceptedUntouched(w: World, s: SessionId, m: Msg)
    requires s in w.sessions
    ensures BroadcastExcept(w, Some(s), m).sessions[s] == w.sessions[s]
  {
  }

  lemma DeathOnlySent(w: World, i: nat)
    requires i < |w.npcs|
    ensures OnlySent(w, Death(w, i)) && Death(w, i).quests == w.quests
  {
  }

  lemma RespawnOnlySent(w: World, x: nat, y: nat)
    ensures OnlySent(w, Respawn(w, x, y)) && Respawn(w, x, y).quests == w.quests
  {
  }

  // ---------------------------------------------------------------- handlers that only tell

  /** Only neutral messages are appended, and none to a session known to be cut off. */
  ghost predicate Told(c: State, d: State) {
    && d == c.(sent := d.sent) && c.sent <= d.sent && (!c.connected ==> d == c)
    && forall i | |c.sent| <= i < |d.sent| :: Neutral(d.sent[i])
  }

  /** Every session is only told, and the NPCs and the quest rows stay. */
  ghost predicate AllTold(w: World, v: World) {
    && v.sessions.Keys == w.sessions.Keys && v.npcs == w.npcs && v.quests == w.quests
    && forall s | s in w.sessions :: Told(w.sessions[s], v.sessions[s])
  }

  lemma ToldOnlySent(w: World, v: World)
    requires AllTold(w, v)
    ensures OnlySent(w, v)
  {
    hide Told;
    forall s | s in w.sessions ensures v.sessions[s] == w.sessions[s].(sent := v.sessions[s].sent) {
      assert Told(w.sessions[s], v.sessions[s]);
      ToldForm(w.sessions[s], v.sessions[s]);
    }
  }

  lemma ToldForm(c: State, d: State)
    requires Told(c, d)
    ensures d == c.(sent := d.sent)
  {
  }

  lemma ToldTrans(c: State, d: State, e: State)
    requires Told(c, d) && Told(d, e)
    ensures Told(c, e)
  {
  }

  lemma AllToldTrans(w: World, v: World, u: World)
    requires AllTold(w, v) && AllTold(v, u)
    ensures AllTold(w, u)
  {
    hide Told;
    forall s | s in w.sessions ensures Told(w.sessions[s], u.sessions[s]) {
      ToldTrans(w.sessions[s], v.sessions[s], u.sessions[s]);
    }
  }

  lemma SelfTold(w: World)
    ensures AllTold(w, w)
  {
  }

  lemma SendToTold(w: World, s: SessionId, m: Msg)
    requires Neutral(m)
    ensures AllTold(w, SendTo(w, s, m))
  {
  }

  lemma {:induction false} SendEachTold(w: World, ids: seq<SessionId>, m: Msg)
    requires Neutral(m)
    ensures AllTold(w, SendEach(w, ids, m))
    decreases |ids|
  {
    hide Told, SendTo;
    SelfTold(w);
    if ids != [] {
      SendToTold(w, ids[0], m);
      SendEachTold(SendTo(w, ids[0], m), ids[1..], m);
      AllToldTrans(w, SendTo(w, ids[0], m), SendEach(w, ids, m));
    }
  }

  lemma PartyUpdateTold(w: World, p: nat)
    ensures AllTold(w, SendPartyUpdate(w, p))
  {
    hide Told, SendEach;
    SelfTold(w);
    if p in w.parties.parties {
      var members := w.parties.parties[p].members;
      var shown := if |members| <= MAX_PARTY then members else members[..MAX_PARTY];
      SendEachTold(w, members, PartyUpdate(U8(|members|), MemberChars(w, shown)));
    }
  }

  lemma RemoveTold(w: World, s: SessionId)
    ensures AllTold(w, RemoveFromParty(w, s))
  {
    hide Told, SendEach, SendPartyUpdate, Party.Without, Party.RemoveFromParty;
    SelfTold(w);
    if s in w.parties.playerParty && w.parties.playerParty[s] in w.parties.parties {
      var left := w.(parties := Party.RemoveFromParty(w.parties, s));
      var p := w.parties.playerParty[s];
      var rest := Party.Without(w.parties.parties[p].members, s);
      var m := PartyLeave(if s in w.sessions then w.sessions[s].player.charUid else 0);
      var told := SendEach(left, rest, m);
      SendEachTold(left, rest, m);
      SendEachTold(told, rest, PartyLeave(0));
      PartyUpdateTold(told, p);
      AllToldTrans(left, told, RemoveFromParty(w, s));
    }
  }

  lemma InviteTold(w: World, s: SessionId, name: string)
    requires s in w.sessions
    ensures AllTold(w, OnPartyInvite(w, s, name))
  {
    hide Told, SendTo, Named;
    var target := Named(w.sessions, w.sessions.Keys, name, None);
    if !Party.CanInvite(w.parties, s, target) {
      SendToTold(w, s, Error(4));
    } else {
      var m := PartyInvite(Clip(w.sessions[s].player.name, 19));
      SendToTold(w.(parties := Party.Invite(w.parties, s, target)), target.value, m);
    }
  }

  lemma AnswerTold(w: World, s: SessionId, accept: bool)
    ensures AllTold(w, OnPartyAccept(w, s, accept))
  {
    hide Told, SendPartyUpdate, Party.Accept, Party.Joins;
    SelfTold(w);
    var after := w.(parties := Party.Accept(w.parties, s, accept, w.sessions.Keys));
    if s in after.parties.playerParty { PartyUpdateTold(after, after.parties.playerParty[s]); }
  }

  lemma RemoveOnlySent(w: World, s: SessionId)
    ensures OnlySent(w, RemoveFromParty(w, s))
  {
    hide RemoveFromParty;
    RemoveTold(w, s);
    ToldOnlySent(w, RemoveFromParty(w, s));
  }

  /** Inviting, answering and leaving. */
  lemma PartyOnlySent(t: Data, w: World, e: Event)
    requires Enabled(w, e) && (e.InviteTo? || e.Answer? || e.Leave?)
    ensures AllTold(w, Step(t, w, e)) && OnlySent(w, Step(t, w, e))
  {
    hide AllTold, OnlySent, RemoveFromParty, OnPartyInvite, OnPartyAccept;
    if e.InviteTo? {
      InviteTold(w, e.s, e.name);
    } else if e.Answer? {
      AnswerTold(w, e.s, e.accept);
    } else {
      RemoveTold(w, e.s);
    }
    ToldOnlySent(w, Step(t, w, e));
  }

  /** The sessions that stay keep everything but their logs. */
  lemma DisconnectOnlySent(w: World, s: SessionId, o: SessionId)
    requires s in w.sessions && o in w.sessions && o != s
    ensures var r := OnDisconnect(w, s);
            o in r.sessions && r.sessions[o] == w.sessions[o].(sent := r.sessions[o].sent)
  {
    hide RemoveFromParty;
    RemoveOnlySent(w, s);
    var left := RemoveFromParty(w, s);
    assert left.sessions[o] == w.sessions[o].(sent := left.sessions[o].sent);
  }

  /** A select only sends messages to the other sessions. */
  lemma SelectOthers(t: Data, w: World, s: SessionId, charUid: uint64, found: Option<Record>, x: nat, y: nat,
          o: SessionId)
    requires s in w.sessions && o in w.sessions && o != s
    ensures var r := OnCharSelect(t, w, s, charUid, found, x, y);
            o in r.sessions && r.sessions[o] == w.sessions[o].(sent := r.sessions[o].sent)
  {
    hide LoadInventory, SendPlayers, SendAllNpcs;
  }
}

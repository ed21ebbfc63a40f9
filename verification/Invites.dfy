/** What inviting, answering, leaving and disconnecting do to the party maps, and what each session hears of it. */
module Invites {
  import opened Machine
  import opened Tables
  import opened Protocol
  import opened Character
  import opened Server
  import opened Frames
  import opened Runs
  import opened Effects
  import Party

  // ---------------------------------------------------------------- inviting

  /** Of the sessions whose player has this name, the one with the greatest id. */
  ghost predicate Bearer(sessions: Sessions, name: string, o: SessionId) {
    o in sessions && sessions[o].player.name == name
    && forall q | q in sessions && sessions[q].player.name == name :: q <= o
  }

  lemma {:induction false} NamedLast(sessions: Sessions, ids: set<SessionId>, name: string, found: Option<SessionId>)
    requires ids <= sessions.Keys
    ensures var r := Named(sessions, ids, name, found);
            if forall o | o in ids :: sessions[o].player.name != name then r == found
            else r.Some? && r.value in ids && sessions[r.value].player.name == name
                 && forall q | q in ids && sessions[q].player.name == name :: q <= r.value
    decreases |ids|
  {
    if ids != {} {
      var o := Least(ids);
      NamedLast(sessions, ids - {o}, name, if sessions[o].player.name == name then Some(o) else found);
    }
  }

  lemma NamedIff(w: World, name: string, o: SessionId)
    ensures Named(w.sessions, w.sessions.Keys, name, None) == Some(o) <==> Bearer(w.sessions, name, o)
  {
    NamedLast(w.sessions, w.sessions.Keys, name, None);
  }

  /** An invite is recorded exactly when the inviter's party, if it has one, has fewer than four entries and the last
      session of that name is another one and in no party. Then only that session is told; otherwise the inviter gets
      error 4 and nothing changes. */
  lemma InviteEffect(t: Data, w: World, s: SessionId, name: string)
    requires Enabled(w, InviteTo(s, name))
    ensures var v, ps := Step(t, w, InviteTo(s, name)), w.parties;
            var full := s in ps.playerParty && ps.playerParty[s] in ps.parties
                        && |ps.parties[ps.playerParty[s]].members| >= 4;
            if !full && exists o :: Bearer(w.sessions, name, o) && o != s && o !in ps.playerParty then
              forall o | Bearer(w.sessions, name, o) ::
                Answered(w.(parties := ps.(pending := ps.pending[o := s])), v, o,
                         [PartyInvite(Clip(w.sessions[s].player.name, 19))])
            else Answered(w, v, s, [Error(4)])
  {
    hide Send, Log, Named, Bearer;
    forall o { NamedIff(w, name, o); }
    SendLog(w.sessions[s], [], Error(4));
    var target := Named(w.sessions, w.sessions.Keys, name, None);
    if target.Some? {
      SendLog(w.sessions[target.value], [], PartyInvite(Clip(w.sessions[s].player.name, 19)));
    }
  }

  /** Over every step: an invite is only ever recorded for another session that is in no party and has the name the
      invite asks for. */
  lemma PendingUnpartied(t: Data, w: World, e: Event, x: SessionId)
    requires Enabled(w, e) && x in Step(t, w, e).parties.pending
    ensures var v := Step(t, w, e);
            (x in w.parties.pending && v.parties.pending[x] == w.parties.pending[x])
            || (e.InviteTo? && v.parties.pending[x] == e.s && x != e.s && x !in w.parties.playerParty
                && Bearer(w.sessions, e.name, x))
  {
    hide Step, Named, Bearer, Party.InviterFull;
    StepFrame(t, w, e);
    if e.InviteTo? { NamedIff(w, e.name, x); }
  }

  // ---------------------------------------------------------------- telling a party

  /** Every session hears m once for each time it is listed. */
  ghost predicate ListedHear(w: World, v: World, ids: seq<SessionId>, m: Msg) {
    v == w.(sessions := v.sessions) && v.sessions.Keys == w.sessions.Keys
    && forall o | o in w.sessions ::
         v.sessions[o] == w.sessions[o].(sent := Log(w.sessions[o], Repeat(m, multiset(ids)[o])))
  }

  lemma {:induction false} SendEachTells(w: World, ids: seq<SessionId>, m: Msg)
    ensures ListedHear(w, SendEach(w, ids, m), ids, m)
    decreases |ids|
  {
    hide Send, Log;
    if ids == [] {
      forall o | o in w.sessions { NothingLogged(w.sessions[o]); }
    } else {
      var v := SendTo(w, ids[0], m);
      SendEachTells(v, ids[1..], m);
      assert ids == [ids[0]] + ids[1..];
      forall o | o in w.sessions
        ensures SendEach(v, ids[1..], m).sessions[o]
             == w.sessions[o].(sent := Log(w.sessions[o], Repeat(m, multiset(ids)[o])))
      {
        var k := multiset(ids[1..])[o];
        assert multiset(ids)[o] == (if o == ids[0] then 1 else 0) + k;
        if o == ids[0] {
          SendLog(w.sessions[o], [], m);
          LogTwice(w.sessions[o], [m], Repeat(m, k));
          assert [m] + Repeat(m, k) == Repeat(m, k + 1);
        }
      }
    }
  }

  lemma LogTwice(c: State, ms: seq<Msg>, ns: seq<Msg>)
    ensures Log(c.(sent := Log(c, ms)), ns) == Log(c, ms + ns)
  {
    assert c.sent + ms + ns == c.sent + (ms + ns);
  }

  /** The characters an update names: those of the first four entries, 0 for a session that is gone. */
  function Chars(w: World, members: seq<SessionId>): seq<uint64> {
    seq(if |members| < 4 then |members| else 4,
        i requires 0 <= i < |members| =>
          if members[i] in w.sessions then w.sessions[members[i]].player.charUid else 0)
  }

  lemma {:induction false} MemberCharsAre(w: World, members: seq<SessionId>)
    ensures |MemberChars(w, members)| == |members|
    ensures forall i | 0 <= i < |members| :: MemberChars(w, members)[i] ==
              if members[i] in w.sessions then w.sessions[members[i]].player.charUid else 0
    decreases |members|
  {
    if members != [] { MemberCharsAre(w, members[1..]); }
  }

  lemma UpdateTells(w: World, p: Party.PartyId)
    requires p in w.parties.parties
    ensures var members := w.parties.parties[p].members;
            ListedHear(w, SendPartyUpdate(w, p), members, PartyUpdate(|members| % 0x100, Chars(w, members)))
  {
    hide ListedHear, SendEach;
    var members := w.parties.parties[p].members;
    var shown := if |members| <= 4 then members else members[..4];
    MemberCharsAre(w, shown);
    assert MemberChars(w, shown) == Chars(w, members);
    SendEachTells(w, members, PartyUpdate(|members| % 0x100, Chars(w, members)));
  }

  // ---------------------------------------------------------------- answering

  /** Whether an answer makes s a member: it accepts, the inviter is still there, and its party, if any, has fewer than
      four entries. */
  predicate Joining(ps: Party.State, s: SessionId, accept: bool, live: set<SessionId>) {
    s in ps.pending && accept
    && var inviter := ps.pending[s];
       && inviter in live
       && (inviter in ps.playerParty ==>
             ps.playerParty[inviter] in ps.parties && |ps.parties[ps.playerParty[inviter]].members| < 4)
  }

  /** The party maps once s has answered; the party is the inviter's, a new one if it has none. */
  function Answering(ps: Party.State, s: SessionId, accept: bool, live: set<SessionId>): (r: Party.State)
    ensures Joining(ps, s, accept, live) ==> s in r.playerParty && r.playerParty[s] in r.parties
  {
    var answered := ps.(pending := ps.pending - {s});
    if !Joining(ps, s, accept, live) then answered
    else
      var inviter := ps.pending[s];
      if inviter in ps.playerParty then
        var p := ps.playerParty[inviter];
        answered.(parties := ps.parties[p := Party.Group(ps.parties[p].id, ps.parties[p].members + [s])],
                  playerParty := ps.playerParty[s := p])
      else
        var p := ps.nextPartyId;
        answered.(nextPartyId := p + 1, parties := ps.parties[p := Party.Group(p, [inviter, s])],
                  playerParty := ps.playerParty[inviter := p][s := p])
  }

  lemma AcceptIs(w: World, s: SessionId, accept: bool)
    requires Splittable(w)
    ensures var ps, live := w.parties, w.sessions.Keys;
            && Party.Accept(ps, s, accept, live) == Answering(ps, s, accept, live)
            && Party.Joins(ps, s, accept, live) == Joining(ps, s, accept, live)
  {
    var ps := w.parties;
    if s in ps.pending && accept && ps.pending[s] in w.sessions {
      var inviter := ps.pending[s];
      assert [inviter] + [s] == [inviter, s];
      if inviter in ps.playerParty { assert Sharers(w, inviter) != Some([]); }
    }
    if s !in ps.pending { assert ps.pending - {s} == ps.pending; }
  }

  /** An answer removes the invite; one that joins puts s at the end of the inviter's party, founding it with the
      inviter first if there is none, and then exactly the listed sessions hear the party's new state. */
  lemma AnswerEffect(t: Data, w: World, s: SessionId, accept: bool)
    requires Enabled(w, Answer(s, accept))
    ensures var v, ps := Step(t, w, Answer(s, accept)), w.parties;
            var after := Answering(ps, s, accept, w.sessions.Keys);
            if Joining(ps, s, accept, w.sessions.Keys) then
              var members := after.parties[after.playerParty[s]].members;
              ListedHear(w.(parties := after), v, members, PartyUpdate(|members|, Chars(w, members)))
            else v == w.(parties := after)
  {
    hide ListedHear, SendPartyUpdate, Chars, Answering, Joining, Party.Accept, Party.Joins;
    AcceptIs(w, s, accept);
    var after := w.(parties := Answering(w.parties, s, accept, w.sessions.Keys));
    if Joining(w.parties, s, accept, w.sessions.Keys) {
      JoinedSize(w.parties, s, accept, w.sessions.Keys);
      UpdateTells(after, after.parties.playerParty[s]);
      CharsAlike(w, after, after.parties.parties[after.parties.playerParty[s]].members);
    }
  }

  lemma JoinedSize(ps: Party.State, s: SessionId, accept: bool, live: set<SessionId>)
    requires Joining(ps, s, accept, live)
    ensures var r := Answering(ps, s, accept, live); |r.parties[r.playerParty[s]].members| <= 4
  {
  }

  lemma CharsAlike(w: World, v: World, members: seq<SessionId>)
    requires OnlySent(w, v)
    ensures Chars(v, members) == Chars(w, members)
  {
  }

  // ---------------------------------------------------------------- leaving

  /** What is left of a member list when s goes, entry by entry. */
  lemma WithoutSnoc(members: seq<SessionId>, x: SessionId, s: SessionId)
    ensures Party.Without([], s) == []
    ensures Party.Without(members + [x], s) == Party.Without(members, s) + if x == s then [] else [x]
    decreases |members|
  {
    if members != [] {
      assert (members + [x])[1..] == members[1..] + [x];
      WithoutSnoc(members[1..], x, s);
    }
  }

  /** The party maps without s: a party left with one entry or none is dissolved. */
  function Left(ps: Party.State, s: SessionId): Party.State
    requires s in ps.playerParty && ps.playerParty[s] in ps.parties
  {
    var p := ps.playerParty[s];
    var rest := Party.Without(ps.parties[p].members, s);
    if |rest| <= 1 then
      ps.(parties := ps.parties - {p}, playerParty := map o | o in ps.playerParty && o != s && o !in rest
                                                         :: ps.playerParty[o])
    else
      ps.(parties := ps.parties[p := Party.Group(ps.parties[p].id, rest)],
          playerParty := map o | o in ps.playerParty && o != s :: ps.playerParty[o])
  }

  /** What session o hears when s leaves its party: who left, and then the end of the party or its new state, each once
      for every time o is listed. */
  function LeaveLog(w: World, s: SessionId, o: SessionId): seq<Msg>
    requires s in w.sessions && s in w.parties.playerParty
    requires w.parties.playerParty[s] in w.parties.parties
  {
    var rest := Party.Without(w.parties.parties[w.parties.playerParty[s]].members, s);
    var k := multiset(rest)[o];
    Repeat(PartyLeave(w.sessions[s].player.charUid), k)
    + Repeat(if |rest| <= 1 then PartyLeave(0) else PartyUpdate(|rest| % 0x100, Chars(w, rest)), k)
  }

  lemma LeftIs(ps: Party.State, s: SessionId)
    requires s in ps.playerParty && ps.playerParty[s] in ps.parties
    ensures Party.RemoveFromParty(ps, s) == Left(ps, s)
  {
    hide Party.Without;
  }

  /** Leaving strikes every entry of s; the party goes on if at least two are left. Who was not in a party leaves
      nothing. */
  lemma LeaveEffect(t: Data, w: World, s: SessionId)
    requires Enabled(w, Leave(s))
    ensures var v, ps := Step(t, w, Leave(s)), w.parties;
            if s !in ps.playerParty then v == w
            else
              && ps.playerParty[s] in ps.parties && v == w.(sessions := v.sessions, parties := Left(ps, s))
              && v.sessions.Keys == w.sessions.Keys
              && forall o | o in w.sessions ::
                   v.sessions[o] == w.sessions[o].(sent := Log(w.sessions[o], LeaveLog(w, s, o)))
  {
    hide Left, LeaveLog, RemoveFromParty;
    RemoveTells(w, s);
  }

  lemma RemoveTells(w: World, s: SessionId)
    requires s in w.sessions && Splittable(w)
    ensures var v, ps := RemoveFromParty(w, s), w.parties;
            if s !in ps.playerParty then v == w
            else
              && ps.playerParty[s] in ps.parties && v == w.(sessions := v.sessions, parties := Left(ps, s))
              && v.sessions.Keys == w.sessions.Keys
              && forall o | o in w.sessions ::
                   v.sessions[o] == w.sessions[o].(sent := Log(w.sessions[o], LeaveLog(w, s, o)))
  {
    hide Left, Log, SendEach, SendPartyUpdate, Party.Without, Party.RemoveFromParty, Chars;
    if s in w.parties.playerParty {
      assert Sharers(w, s) != Some([]);
      var p := w.parties.playerParty[s];
      LeftIs(w.parties, s);
      var left := w.(parties := Left(w.parties, s));
      var rest := Party.Without(w.parties.parties[p].members, s);
      var leave := PartyLeave(w.sessions[s].player.charUid);
      SendEachTells(left, rest, leave);
      var told := SendEach(left, rest, leave);
      var last := if |rest| <= 1 then PartyLeave(0) else PartyUpdate(|rest| % 0x100, Chars(w, rest));
      if |rest| <= 1 {
        SendEachTells(told, rest, last);
      } else {
        CharsAlike(w, told, rest);
        RestListed(w.parties, s);
        UpdateTells(told, p);
      }
      forall o | o in w.sessions
        ensures var k := multiset(rest)[o]; var d := w.sessions[o].(sent := Log(w.sessions[o], Repeat(leave, k)));
                Log(d, Repeat(last, k)) == Log(w.sessions[o], LeaveLog(w, s, o))
      {
        var k := multiset(rest)[o];
        LogTwice(w.sessions[o], Repeat(leave, k), Repeat(last, k));
      }
    } else {
      assert Party.RemoveFromParty(w.parties, s) == w.parties by { NothingLeft(w.parties, s); }
    }
  }

  lemma NothingLeft(ps: Party.State, s: SessionId)
    requires s !in ps.playerParty
    ensures Party.RemoveFromParty(ps, s) == ps
  {
  }

  lemma RestListed(ps: Party.State, s: SessionId)
    requires s in ps.playerParty && ps.playerParty[s] in ps.parties
    ensures var p := ps.playerParty[s]; var rest := Party.Without(ps.parties[p].members, s);
            |rest| > 1 ==> p in Left(ps, s).parties && Left(ps, s).parties[p].members == rest
  {
  }

  /** A disconnect is that, then its invite goes, then everyone in the game hears of it if the player was, and the
      session is gone. */
  lemma DisconnectEffect(t: Data, w: World, s: SessionId)
    requires Enabled(w, Disconnect(s))
    ensures var v, ps, p := Step(t, w, Disconnect(s)), w.parties, w.sessions[s].player;
            && (s in ps.playerParty ==> ps.playerParty[s] in ps.parties)
            && v == w.(sessions := v.sessions, parties := v.parties)
            && v.parties == (if s in ps.playerParty then Left(ps, s) else ps).(pending := ps.pending - {s})
            && v.sessions.Keys == w.sessions.Keys - {s}
            && forall o | o in w.sessions && o != s ::
                 var heard := (if s in ps.playerParty then LeaveLog(w, s, o) else [])
                              + if p.loggedIn && w.sessions[o].player.loggedIn then [CharLeave(p.accountUid)] else [];
                 v.sessions[o] == w.sessions[o].(sent := Log(w.sessions[o], heard))
  {
    hide Left, Log, LeaveLog, RemoveFromParty, Send;
    RemoveTells(w, s);
    LeftPending(w.parties, s);
    forall o | o in w.sessions && o != s
      ensures var heard := (if s in w.parties.playerParty then LeaveLog(w, s, o) else [])
                           + if w.sessions[s].player.loggedIn && w.sessions[o].player.loggedIn
                             then [CharLeave(w.sessions[s].player.accountUid)] else [];
              OnDisconnect(w, s).sessions[o] == w.sessions[o].(sent := Log(w.sessions[o], heard))
    {
      var c := w.sessions[o];
      var before := if s in w.parties.playerParty then LeaveLog(w, s, o) else [];
      NothingLogged(c);
      SendLog(c, before, CharLeave(w.sessions[s].player.accountUid));
      assert before + [] == before;
    }
  }

  lemma LeftPending(ps: Party.State, s: SessionId)
    requires s in ps.playerParty ==> ps.playerParty[s] in ps.parties
    ensures s in ps.playerParty ==> Left(ps, s).pending == ps.pending
  {
    hide Party.Without;
  }
}

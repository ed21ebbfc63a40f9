/** The run of the whole server that breaks one party per player: two clients, each well behaved, invite each other. */
module Crossing {
  import opened Machine
  import opened Tables
  import opened Character
  import opened Replica
  import opened Server
  import opened Frames
  import opened Replication
  import opened Runs
  import Party

  lemma {:induction false} RunSnoc(t: Data, w: World, es: seq<Event>, e: Event, rules: Rules)
    requires Run(t, w, es, rules) && Allowed(t, After(t, w, es, rules), e, rules)
    ensures Run(t, w, es + [e], rules) && After(t, w, es + [e], rules) == Step(t, After(t, w, es, rules), e)
    decreases |es|
  {
    hide Disciplined, Step;
    if es == [] {
      assert [] + [e] == [e] && [e][1..] == [];
    } else {
      assert (es + [e])[1..] == es[1..] + [e] && (es + [e])[0] == es[0];
      RunSnoc(t, Step(t, w, es[0]), es[1..], e, rules);
    }
  }

  function Newcomer(name: string): Record { Record(1, 0, 0, name, [], NO_ITEM, NO_ITEM) }

  const ENTERING: seq<Event> := [
    Connect, Connect, Login(1, 101), Login(2, 102),
    Select(1, 11, Some(Newcomer("a")), 0, 0), Select(2, 12, Some(Newcomer("b")), 0, 0)]

  const CROSSED_EVENTS: seq<Event> := ENTERING + [InviteTo(1, "b"), InviteTo(2, "a"), Answer(2, true), Answer(1, true)]

  /** Who sits in a session; account 0 before the login, character 0 before the select. */
  predicate Seat(w: World, s: SessionId, account: uint64, charUid: uint64, name: string) {
    && s in w.sessions && w.sessions[s].player.accountUid == account && w.sessions[s].player.charUid == charUid
    && w.sessions[s].player.loggedIn == (charUid != 0) && w.sessions[s].player.name == name
  }

  /** The two sessions and the party maps. */
  predicate Table(w: World, account1: uint64, char1: uint64, name1: string, account2: uint64, char2: uint64,
          name2: string, ps: Party.State) {
    && w.sessions.Keys == {1, 2} && w.parties == ps
    && Seat(w, 1, account1, char1, name1) && Seat(w, 2, account2, char2, name2)
  }

  const POLITE := Rules(true, false)

  lemma NobodyPartied(t: Data, w: World, e: Event)
    requires w.parties.playerParty == map[] && Disciplined(t, w, e) && (e.Connect? || e.s in w.sessions)
    ensures Allowed(t, w, e, POLITE)
  {
    hide Disciplined;
  }

  lemma BothConnected(t: Data, w: World)
    requires Initial(w)
    ensures var es := [Connect, Connect];
            Run(t, w, es, POLITE) && Table(After(t, w, es, POLITE), 0, 0, "", 0, 0, "", Party.NO_PARTIES)
  {
    var v := Step(t, w, Connect);
    NobodyPartied(t, w, Connect);
    NobodyPartied(t, v, Connect);
    RunSnoc(t, w, [], Connect, POLITE);
    assert [] + [Connect] == [Connect] && [Connect] + [Connect] == [Connect, Connect];
    RunSnoc(t, w, [Connect], Connect, POLITE);
  }

  lemma LoginSeats(t: Data, w: World, s: SessionId, account: uint64)
    requires s in w.sessions && w.parties.playerParty == map[] && !w.sessions[s].player.loggedIn && account != 0
    ensures var e := Login(s, account); var v := Step(t, w, e);
            && Allowed(t, w, e, POLITE) && v.sessions.Keys == w.sessions.Keys && v.parties == w.parties
            && v.sessions[s].player == w.sessions[s].player.(accountUid := account)
            && forall o | o in w.sessions && o != s :: v.sessions[o].player == w.sessions[o].player
  {
    NobodyPartied(t, w, Login(s, account));
  }

  lemma NoBag(t: Data, name: string)
    ensures BagKnown(t, Newcomer(name))
  {
  }

  lemma SelectSeats(t: Data, w: World, s: SessionId, charUid: uint64, name: string)
    requires s in w.sessions && w.parties.playerParty == map[] && Selectable(w, s) && CharFree(w, charUid)
             && |name| <= 19
    ensures var e := Select(s, charUid, Some(Newcomer(name)), 0, 0); var v := Step(t, w, e);
            && Allowed(t, w, e, POLITE) && v.sessions.Keys == w.sessions.Keys && v.parties == w.parties
            && v.sessions[s].player.accountUid == w.sessions[s].player.accountUid
                && v.sessions[s].player.charUid == charUid
            && v.sessions[s].player.loggedIn && v.sessions[s].player.name == name
            && forall o | o in w.sessions && o != s :: v.sessions[o].player == w.sessions[o].player
  {
    hide Selected, OnCharSelect, BagKnown, Selectable, CharFree;
    var e := Select(s, charUid, Some(Newcomer(name)), 0, 0);
    NoBag(t, name);
    NobodyPartied(t, w, e);
    SelectForm(t, w, s, charUid, Newcomer(name), 0, 0);
  }

  lemma BothEnter(t: Data, w: World)
    requires Initial(w)
    ensures Run(t, w, ENTERING, POLITE)
    ensures Table(After(t, w, ENTERING, POLITE), 101, 11, "a", 102, 12, "b", Party.NO_PARTIES)
  {
    hide Step, Run, After, Allowed;
    var connected := [Connect, Connect];
    BothConnected(t, w);
    var w2 := After(t, w, connected, POLITE);
    var e3, e4 := Login(1, 101), Login(2, 102);
    LoginSeats(t, w2, 1, 101);
    RunSnoc(t, w, connected, e3, POLITE);
    var w3 := Step(t, w2, e3);
    LoginSeats(t, w3, 2, 102);
    RunSnoc(t, w, connected + [e3], e4, POLITE);
    var w4 := Step(t, w3, e4);
    var e5, e6 := Select(1, 11, Some(Newcomer("a")), 0, 0), Select(2, 12, Some(Newcomer("b")), 0, 0);
    SelectSeats(t, w4, 1, 11, "a");
    RunSnoc(t, w, connected + [e3] + [e4], e5, POLITE);
    var w5 := Step(t, w4, e5);
    SelectSeats(t, w5, 2, 12, "b");
    RunSnoc(t, w, connected + [e3] + [e4] + [e5], e6, POLITE);
    assert ENTERING == connected + [e3] + [e4] + [e5] + [e6];
  }

  lemma NamedPair(sessions: Sessions)
    requires sessions.Keys == {1, 2} && sessions[1].player.name == "a" && sessions[2].player.name == "b"
    ensures Named(sessions, {1, 2}, "b", None) == Some(2) && Named(sessions, {1, 2}, "a", None) == Some(1)
  {
    assert Least({1, 2}) == 1 && {1, 2} - {1} == {2};
    assert Least({2}) == 2 && {2} - {2} == {};
    assert "a" != "b";
  }

  /** A party event between the two seats keeps them. */
  lemma PartySeats(t: Data, w: World, e: Event, ps: Party.State)
    requires Table(w, 101, 11, "a", 102, 12, "b", ps) && Enabled(w, e) && (e.InviteTo? || e.Answer?)
    ensures Allowed(t, w, e, POLITE) && Table(Step(t, w, e), 101, 11, "a", 102, 12, "b", PartyEffect(w, e))
  {
    hide Step, PartyEffect, Splittable;
    StepFrame(t, w, e);
    PartyOnlySent(t, w, e);
    var v := Step(t, w, e);
    assert v.sessions[1] == w.sessions[1].(sent := v.sessions[1].sent)
        && v.sessions[2] == w.sessions[2].(sent := v.sessions[2].sent);
  }

  const BOTH_INVITED: Party.State := Party.Invite(Party.Invite(Party.NO_PARTIES, 1, Some(2)), 2, Some(1))

  const INVITING: seq<Event> := ENTERING + [InviteTo(1, "b")] + [InviteTo(2, "a")]

  lemma BothInvite(t: Data, w: World)
    requires Initial(w)
    ensures Run(t, w, INVITING, POLITE)
    ensures Table(After(t, w, INVITING, POLITE), 101, 11, "a", 102, 12, "b", BOTH_INVITED)
  {
    hide Step, Run, After, Allowed, ENTERING;
    BothEnter(t, w);
    var i1, i2 := InviteTo(1, "b"), InviteTo(2, "a");
    var w6 := After(t, w, ENTERING, POLITE);
    NamedPair(w6.sessions);
    PartySeats(t, w6, i1, Party.NO_PARTIES);
    RunSnoc(t, w, ENTERING, i1, POLITE);
    var w7 := Step(t, w6, i1);
    NamedPair(w7.sessions);
    PartySeats(t, w7, i2, Party.Invite(Party.NO_PARTIES, 1, Some(2)));
    RunSnoc(t, w, ENTERING + [i1], i2, POLITE);
  }

  /** Both clients keep to the protocol, and in the end the first inviter is listed twice. */
  lemma CrossedRun(t: Data, w: World)
    requires Initial(w)
    ensures Run(t, w, CROSSED_EVENTS, POLITE)
    ensures var r := After(t, w, CROSSED_EVENTS, POLITE);
            1 in r.parties.parties && r.parties.parties[1].members == [1, 2, 1] && !Party.Partition(r.parties)
  {
    hide Step, Run, After, Allowed, INVITING, BOTH_INVITED, Party.Accept, Party.Partition;
    BothInvite(t, w);
    Crossed();
    var a1, a2 := Answer(2, true), Answer(1, true);
    var w8 := After(t, w, INVITING, POLITE);
    PartySeats(t, w8, a1, BOTH_INVITED);
    RunSnoc(t, w, INVITING, a1, POLITE);
    var w9 := Step(t, w8, a1);
    PartySeats(t, w9, a2, Party.Accept(BOTH_INVITED, 2, true, {1, 2}));
    RunSnoc(t, w, INVITING + [a1], a2, POLITE);
    EventsAre();
  }

  lemma EventsAre()
    ensures CROSSED_EVENTS == INVITING + [Answer(2, true)] + [Answer(1, true)]
  {
  }

  lemma Crossed()
    ensures var p9 := Party.Accept(BOTH_INVITED, 2, true, {1, 2}); var p10 := Party.Accept(p9, 1, true, {1, 2});
            && BOTH_INVITED.playerParty == map[] && p9.playerParty == map[1 := 1, 2 := 1]
            && p9.parties == map[1 := Party.Group(1, [1, 2])]
            && 1 in p10.parties && p10.parties[1].members == [1, 2, 1] && !Party.Partition(p10)
  {
    Party.CrossedInvites();
    assert BOTH_INVITED.pending == map[2 := 1, 1 := 2] && [1] + [2] == [1, 2];
    assert Party.WithParty(BOTH_INVITED.(pending := BOTH_INVITED.pending - {2}), 1).parties
        == map[1 := Party.Group(1, [1])];
  }
}

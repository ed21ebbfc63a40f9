/** The party maps: parties, the party of each session and pending invites (GameServer/main.cpp:77-85, 1148-1271). */
module Party {
  import opened Machine

  type PartyId = nat

  datatype Group = Group(id: PartyId, members: seq<SessionId>)

  datatype State = State(parties: map<PartyId, Group>, playerParty: map<SessionId, PartyId>,
                         pending: map<SessionId, SessionId>, nextPartyId: PartyId)

  const NO_PARTIES := State(map[], map[], map[], 1)

  /** `std::remove` and `erase`: every occurrence goes. */
  function Without(members: seq<SessionId>, sid: SessionId): (r: seq<SessionId>)
    ensures |r| <= |members| && sid !in r
    ensures forall m :: m in r <==> m in members && m != sid
  {
    if members == [] then []
    else (if members[0] == sid then [] else [members[0]]) + Without(members[1..], sid)
  }

  function Elements(members: seq<SessionId>): set<SessionId> { set m | m in members }

  function RemoveFromParty(ps: State, sid: SessionId): (r: State)
    ensures r.pending == ps.pending && r.nextPartyId == ps.nextPartyId
  {
    if sid !in ps.playerParty then ps
    else
      var p := ps.playerParty[sid];
      var left := ps.(playerParty := ps.playerParty - {sid});
      if p !in ps.parties then left
      else
        var rest := Without(ps.parties[p].members, sid);
        if |rest| <= 1 then
          left.(playerParty := left.playerParty - Elements(rest), parties := ps.parties - {p})
        else left.(parties := ps.parties[p := ps.parties[p].(members := rest)])
  }

  predicate InviterFull(ps: State, sid: SessionId) {
    sid in ps.playerParty && ps.playerParty[sid] in ps.parties && |ps.parties[ps.playerParty[sid]].members| >= MAX_PARTY
  }

  /** An invite is recorded when the inviter's party has room and the target is another, unpartied session. */
  predicate CanInvite(ps: State, from: SessionId, target: Option<SessionId>) {
    !InviterFull(ps, from) && target.Some? && target.value != from && target.value !in ps.playerParty
  }

  function Invite(ps: State, from: SessionId, target: Option<SessionId>): State {
    if CanInvite(ps, from, target) then ps.(pending := ps.pending[target.value := from]) else ps
  }

  /** The inviter's party, created on first use. */
  function WithParty(ps: State, inviter: SessionId): State {
    if inviter in ps.playerParty then ps
    else ps.(nextPartyId := ps.nextPartyId + 1,
             parties := ps.parties[ps.nextPartyId := Group(ps.nextPartyId, [inviter])],
             playerParty := ps.playerParty[inviter := ps.nextPartyId])
  }

  /** Whether this answer adds the session to the inviter's party. */
  predicate Joins(ps: State, sid: SessionId, accept: bool, live: set<SessionId>) {
    accept && sid in ps.pending && ps.pending[sid] in live && !InviterFull(ps, ps.pending[sid])
  }

  /** The accepter's own party is not looked at again. */
  function Accept(ps: State, sid: SessionId, accept: bool, live: set<SessionId>): State {
    if sid !in ps.pending then ps
    else
      var inviter := ps.pending[sid];
      var answered := ps.(pending := ps.pending - {sid});
      if !accept || inviter !in live then answered
      else
        var w := WithParty(answered, inviter);
        var p := w.playerParty[inviter];
        // The map lookup would create an empty party for an id that is not there; Safe rules that out.
        var g := if p in w.parties then w.parties[p] else Group(0, []);
        if |g.members| >= MAX_PARTY then w
        else w.(parties := w.parties[p := g.(members := g.members + [sid])], playerParty := w.playerParty[sid := p])
  }

  function Disconnect(ps: State, sid: SessionId): State {
    var r := RemoveFromParty(ps, sid);
    r.(pending := r.pending - {sid})
  }

  // ---------------------------------------------------------------- safety over every run

  /** Holds in every run, crossed invites included. */
  ghost predicate Safe(ps: State, live: set<SessionId>) {
    && (forall s | s in ps.playerParty ::
          s in live && ps.playerParty[s] in ps.parties && s in ps.parties[ps.playerParty[s]].members)
    && (forall p | p in ps.parties ::
          2 <= |ps.parties[p].members| <= MAX_PARTY && ps.parties[p].id == p && p < ps.nextPartyId)
  }

  lemma RemoveSafe(ps: State, sid: SessionId, live: set<SessionId>)
    requires Safe(ps, live)
    ensures Safe(RemoveFromParty(ps, sid), live) && sid !in RemoveFromParty(ps, sid).playerParty
  {
    if sid in ps.playerParty {
      var p := ps.playerParty[sid];
      var rest := Without(ps.parties[p].members, sid);
      var r := RemoveFromParty(ps, sid);
      forall s | s in r.playerParty
        ensures r.playerParty[s] in r.parties && s in r.parties[r.playerParty[s]].members
      {
        assert s in ps.playerParty && s != sid;
        if ps.playerParty[s] == p { assert s in rest; }
      }
    }
  }

  lemma AcceptSafe(ps: State, sid: SessionId, accept: bool, live: set<SessionId>)
    requires Safe(ps, live) && sid in live
    ensures Safe(Accept(ps, sid, accept, live), live)
  {
  }

  lemma InviteSafe(ps: State, from: SessionId, target: Option<SessionId>, live: set<SessionId>)
    requires Safe(ps, live)
    ensures Safe(Invite(ps, from, target), live)
  {
  }

  lemma DisconnectSafe(ps: State, sid: SessionId, live: set<SessionId>)
    requires Safe(ps, live)
    ensures Safe(Disconnect(ps, sid), live - {sid})
  {
    RemoveSafe(ps, sid, live);
  }

  ghost predicate NoSelfInvite(ps: State) { forall s | s in ps.pending :: ps.pending[s] != s }

  lemma NoSelfKept(ps: State, sid: SessionId, accept: bool, live: set<SessionId>, target: Option<SessionId>)
    requires NoSelfInvite(ps)
    ensures NoSelfInvite(Invite(ps, sid, target)) && NoSelfInvite(Accept(ps, sid, accept, live))
    ensures NoSelfInvite(RemoveFromParty(ps, sid)) && NoSelfInvite(Disconnect(ps, sid))
  {
    hide RemoveFromParty;
  }

  // ---------------------------------------------------------------- one party per player

  ghost predicate Distinct(members: seq<SessionId>) { forall i, j | 0 <= i < j < |members| :: members[i] != members[j] }

  /** The two maps are inverse to each other: no member is listed twice or in two parties. */
  ghost predicate Partition(ps: State) {
    forall p | p in ps.parties ::
      Distinct(ps.parties[p].members)
      && forall m | m in ps.parties[p].members :: m in ps.playerParty && ps.playerParty[m] == p
  }

  lemma DistinctParts(x: SessionId, rest: seq<SessionId>)
    ensures Distinct([x] + rest) <==> x !in rest && Distinct(rest)
  {
    var all := [x] + rest;
    if Distinct(all) {
      forall i | 0 <= i < |rest| ensures rest[i] != x { assert all[0] == x && all[i + 1] == rest[i]; }
      assert forall i, j | 0 <= i < j < |rest| :: rest[i] == all[i + 1] && rest[j] == all[j + 1];
    }
  }

  lemma {:induction false} WithoutDistinct(members: seq<SessionId>, sid: SessionId)
    requires Distinct(members)
    ensures Distinct(Without(members, sid))
    ensures sid in members ==> |Without(members, sid)| == |members| - 1
    decreases |members|
  {
    if members != [] {
      var tail := members[1..];
      assert members == [members[0]] + tail;
      DistinctParts(members[0], tail);
      WithoutDistinct(tail, sid);
      if members[0] == sid {
        WithoutAbsent(tail, sid);
      } else {
        DistinctParts(members[0], Without(tail, sid));
      }
    }
  }

  lemma {:induction false} WithoutAbsent(members: seq<SessionId>, sid: SessionId)
    requires sid !in members
    ensures Without(members, sid) == members
    decreases |members|
  {
    if members != [] { WithoutAbsent(members[1..], sid); }
  }

  lemma RemovePartition(ps: State, sid: SessionId, live: set<SessionId>)
    requires Safe(ps, live) && Partition(ps)
    ensures Partition(RemoveFromParty(ps, sid))
  {
    if sid in ps.playerParty {
      var p := ps.playerParty[sid];
      WithoutDistinct(ps.parties[p].members, sid);
      var r := RemoveFromParty(ps, sid);
      forall q, m | q in r.parties && m in r.parties[q].members
        ensures m in r.playerParty && r.playerParty[m] == q
      {
        assert m in ps.parties[q].members && ps.playerParty[m] == q;
        if q != p && sid == m { assert false; }
      }
    }
  }

  lemma DisconnectPartition(ps: State, sid: SessionId, live: set<SessionId>)
    requires Safe(ps, live) && Partition(ps)
    ensures Partition(Disconnect(ps, sid))
  {
    hide RemoveFromParty;
    RemovePartition(ps, sid, live);
  }

  lemma InvitePartition(ps: State, from: SessionId, target: Option<SessionId>)
    requires Partition(ps)
    ensures Partition(Invite(ps, from, target))
  {
  }

  /** Accepting keeps one party per player exactly when it does not add a session that is already in a party. */
  lemma AcceptPartitionIff(ps: State, sid: SessionId, accept: bool, live: set<SessionId>)
    requires Safe(ps, live) && Partition(ps) && sid in live
    requires NoSelfInvite(ps)
    ensures Partition(Accept(ps, sid, accept, live)) <==> !(Joins(ps, sid, accept, live) && sid in ps.playerParty)
  {
    if Joins(ps, sid, accept, live) {
      var inviter := ps.pending[sid];
      var w := WithParty(ps.(pending := ps.pending - {sid}), inviter);
      var p := w.playerParty[inviter];
      var before := w.parties[p].members;
      var r := Accept(ps, sid, accept, live);
      assert r.parties[p].members == before + [sid];
      if sid in ps.playerParty {
        var q := ps.playerParty[sid];
        if q == p {
          var i :| 0 <= i < |before| && before[i] == sid;
          assert !Distinct(before + [sid]) by { assert (before + [sid])[i] == (before + [sid])[|before|]; }
        } else {
          assert sid in r.parties[q].members;
        }
        assert !Partition(r);
      } else {
        assert sid !in before;
        forall q | q in r.parties
          ensures Distinct(r.parties[q].members)
          ensures forall m | m in r.parties[q].members :: m in r.playerParty && r.playerParty[m] == q
        {
          if q != p { assert q in ps.parties && r.parties[q] == ps.parties[q]; }
        }
      }
    }
  }

  /** With one party per player every listed member is live. */
  lemma MembersLive(ps: State, live: set<SessionId>, p: PartyId, m: SessionId)
    requires Safe(ps, live) && Partition(ps) && p in ps.parties && m in ps.parties[p].members
    ensures m in live
  {
    assert m in ps.playerParty;
  }

  /** The number of member entries over all parties. */
  ghost function Sizes(parties: map<PartyId, Group>): nat
    decreases |parties|
  {
    if parties == map[] then 0
    else
      var p := Least(parties.Keys);
      |parties[p].members| + Sizes(parties - {p})
  }

  lemma {:induction false} DistinctCount(members: seq<SessionId>)
    requires Distinct(members)
    ensures |Elements(members)| == |members|
    decreases |members|
  {
    if members != [] {
      assert members == [members[0]] + members[1..];
      DistinctParts(members[0], members[1..]);
      DistinctCount(members[1..]);
      assert Elements(members) == {members[0]} + Elements(members[1..]);
    }
  }

  /** Forgetting one party together with its members. */
  function Forget(ps: State, p: PartyId): State
    requires p in ps.parties
  {
    ps.(parties := ps.parties - {p}, playerParty := ps.playerParty - Elements(ps.parties[p].members))
  }

  lemma ForgetKeeps(ps: State, live: set<SessionId>, p: PartyId)
    requires Safe(ps, live) && Partition(ps) && p in ps.parties
    ensures Safe(Forget(ps, p), live) && Partition(Forget(ps, p))
  {
    var mine := Elements(ps.parties[p].members);
    assert forall s | s in ps.playerParty && s !in mine :: ps.playerParty[s] != p;
  }

  lemma ForgetCount(ps: State, p: PartyId)
    requires Partition(ps) && p in ps.parties
    ensures |ps.playerParty| == |Forget(ps, p).playerParty| + |ps.parties[p].members|
  {
    hide Distinct;
    var mine := Elements(ps.parties[p].members);
    DistinctCount(ps.parties[p].members);
    var keys := (ps.playerParty - mine).Keys;
    assert ps.playerParty.Keys == keys + mine;
    assert |keys + mine| == |keys| + |mine|;
  }

  /** Party sizes add up to the number of partied sessions. */
  lemma {:induction false} SizesCount(ps: State, live: set<SessionId>)
    requires Safe(ps, live) && Partition(ps)
    ensures Sizes(ps.parties) == |ps.playerParty|
    decreases |ps.parties|
  {
    if ps.parties == map[] {
      assert ps.playerParty == map[];
    } else {
      var p := Least(ps.parties.Keys);
      ForgetKeeps(ps, live, p);
      ForgetCount(ps, p);
      SizesCount(Forget(ps, p), live);
    }
  }

  /** Two sessions that invite each other and both accept: the first inviter is listed twice, in one party. */
  lemma CrossedInvites()
    ensures var invited := Invite(Invite(NO_PARTIES, 1, Some(2)), 2, Some(1));
            var r := Accept(Accept(invited, 2, true, {1, 2}), 1, true, {1, 2});
            r.parties[1].members == [1, 2, 1] && !Partition(r)
  {
    var invited := Invite(Invite(NO_PARTIES, 1, Some(2)), 2, Some(1));
    var first := Accept(invited, 2, true, {1, 2});
    assert invited.pending == map[2 := 1, 1 := 2] && [1] + [2] == [1, 2] && [1, 2] + [1] == [1, 2, 1];
    assert WithParty(invited.(pending := invited.pending - {2}), 1).parties == map[1 := Group(1, [1])];
    assert first.pending == map[1 := 2];
    assert first.parties == map[1 := Group(1, [1, 2])] && first.playerParty == map[1 := 1, 2 := 1];
    var r := Accept(first, 1, true, {1, 2});
    assert r.parties[1].members[0] == r.parties[1].members[2];
  }
}

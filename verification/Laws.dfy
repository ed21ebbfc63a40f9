/** Laws of the handlers' effects over several steps and over runs. */
module Laws {
  import opened Machine
  import opened Tables
  import opened Protocol
  import opened Character
  import opened Server
  import opened Frames
  import opened Progress
  import opened Replication
  import opened Runs
  import opened Effects
  import opened Combat
  import opened Invites
  import Party

  // ---------------------------------------------------------------- moving

  predicate OnMap(p: Player) { 0 <= p.x < 20 && 0 <= p.y < 20 }

  /** A step and the opposite step lead back, if the first one stays on the map. */
  lemma MoveBack(t: Data, w: World, s: SessionId, dx: int8, dy: int8)
    requires Enabled(w, Move(s, dx, dy)) && -0x80 < dx && -0x80 < dy && OnMap(w.sessions[s].player)
    ensures var v := Step(t, w, Move(s, dx, dy));
            && Enabled(v, Move(s, -dx, -dy))
            && var p, q := w.sessions[s].player, Step(t, v, Move(s, -dx, -dy)).sessions[s].player;
               if 0 <= p.x + dx < 20 && 0 <= p.y + dy < 20 then q == p
               else v.sessions[s].player == p
  {
    hide Step, Log;
    MoveEffect(t, w, s, dx, dy);
    var v := Step(t, w, Move(s, dx, dy));
    SplitsAlike(w, v);
    MoveEffect(t, v, s, -dx, -dy);
  }

  lemma SplitsAlike(w: World, v: World)
    requires Splittable(w) && v.parties == w.parties
    ensures Splittable(v)
  {
    assert forall s :: Sharers(v, s) == Sharers(w, s);
  }

  // ---------------------------------------------------------------- hitting

  /** What one hit takes. */
  function Force(p: Player): uint16 { if p.atk >= 3 then p.atk - 2 else 1 }

  predicate Volley(es: seq<Event>, s: SessionId, uid: nat) {
    forall j | 0 <= j < |es| :: es[j].Attack? && es[j].s == s && es[j].uid == uid
  }

  /** Nothing has changed but the hit points of NPC i and the log of s. */
  ghost predicate Wounded(w: World, v: World, s: SessionId, i: nat, hp: int)
    requires s in w.sessions && i < |w.npcs|
  {
    && 0 <= hp < 0x1_0000 && s in v.sessions
    && v == w.(npcs := w.npcs[i := w.npcs[i].(hp := hp)],
               sessions := w.sessions[s := w.sessions[s].(sent := v.sessions[s].sent)])
  }

  lemma StillInReach(w: World, v: World, s: SessionId, uid: nat, i: nat, hp: int)
    requires s in w.sessions && InReachOf(w.npcs, uid, w.sessions[s].player, i) && Wounded(w, v, s, i, hp)
    ensures s in v.sessions && v.sessions[s].player == w.sessions[s].player
    ensures InReachOf(v.npcs, uid, v.sessions[s].player, i)
    ensures v.npcs[i].hp == hp && v.npcs[i].alive
  {
  }

  /** One hit that leaves hit points over. */
  lemma OneHit(t: Data, w: World, s: SessionId, uid: nat, luck: Luck, i: nat)
    requires Enabled(w, Attack(s, uid, luck)) && InReachOf(w.npcs, uid, w.sessions[s].player, i)
    requires Force(w.sessions[s].player) < w.npcs[i].hp
    ensures Wounded(w, Step(t, w, Attack(s, uid, luck)), s, i, w.npcs[i].hp - Force(w.sessions[s].player))
  {
    hide Step, Avenged, Log, InReachOf;
    AttackEffect(t, w, s, uid, luck);
    assert i < |w.npcs| by { TargetIff(w, s, uid, i); }
  }

  /** What so many hits take. */
  function Toll(hits: nat, force: nat): nat { hits * force }

  lemma TollStep(hits: nat, force: nat)
    requires hits > 0
    ensures Toll(hits, force) == force + Toll(hits - 1, force) && Toll(0, force) == 0
  {
  }

  /** A run of nothing but attacks by s on an NPC it can reach. */
  ghost predicate Siege(t: Data, w: World, es: seq<Event>, rules: Rules, s: SessionId, uid: nat, i: nat) {
    && Run(t, w, es, rules) && s in w.sessions && Volley(es, s, uid)
    && InReachOf(w.npcs, uid, w.sessions[s].player, i)
  }

  /** The first hit of a siege, when it leaves hit points over. */
  lemma FirstHit(t: Data, w: World, es: seq<Event>, rules: Rules, s: SessionId, uid: nat, i: nat) returns (v: World)
    requires Siege(t, w, es, rules, s, uid, i) && es != [] && Force(w.sessions[s].player) < w.npcs[i].hp
    ensures Allowed(t, w, es[0], rules) && v == Step(t, w, es[0]) && Siege(t, v, es[1..], rules, s, uid, i)
    ensures Hurt(w.npcs, v.npcs, i, Force(w.sessions[s].player))
    ensures v.npcs[i].hp == w.npcs[i].hp - Force(w.sessions[s].player)
    ensures v.parties == w.parties && v.quests == w.quests
    ensures Force(v.sessions[s].player) == Force(w.sessions[s].player)
    ensures v.nextNpcUid == w.nextNpcUid
    ensures After(t, w, es, rules) == After(t, v, es[1..], rules)
  {
    assert i < |w.npcs|;
    hide Step, Wounded, InReachOf, Disciplined, Uncrossed, Force;
    assert es[0] == Attack(s, uid, es[0].luck);
    v := Step(t, w, es[0]);
    OneHit(t, w, s, uid, es[0].luck, i);
    StillInReach(w, v, s, uid, i, w.npcs[i].hp - Force(w.sessions[s].player));
    WoundForm(w, v, s, i, w.npcs[i].hp - Force(w.sessions[s].player));
  }

  lemma SiegeForm(t: Data, w: World, es: seq<Event>, rules: Rules, s: SessionId, uid: nat, i: nat)
    requires Siege(t, w, es, rules, s, uid, i)
    ensures Run(t, w, es, rules) && s in w.sessions && i < |w.npcs| && w.npcs[i].alive && w.npcs[i].uid == uid
  {
  }

  /** Only NPC i has changed, and only by losing so many hit points. */
  predicate Hurt(npcs: seq<Npc>, later: seq<Npc>, i: nat, lost: nat) {
    i < |npcs| && lost <= npcs[i].hp && later == npcs[i := npcs[i].(hp := npcs[i].hp - lost)]
  }

  lemma HurtsAddUp(npcs: seq<Npc>, later: seq<Npc>, last: seq<Npc>, i: nat, lost: nat, more: nat)
    requires Hurt(npcs, later, i, lost) && Hurt(later, last, i, more)
    ensures Hurt(npcs, last, i, lost + more)
  {
  }

  /** Hits that leave hit points over take exactly their sum. */
  lemma {:induction false} HitsAddUp(t: Data, w: World, es: seq<Event>, rules: Rules, s: SessionId, uid: nat, i: nat)
    requires Siege(t, w, es, rules, s, uid, i) && Toll(|es|, Force(w.sessions[s].player)) < w.npcs[i].hp
    ensures var v := After(t, w, es, rules);
            && Hurt(w.npcs, v.npcs, i, Toll(|es|, Force(w.sessions[s].player)))
            && v.nextNpcUid == w.nextNpcUid && v.parties == w.parties && v.quests == w.quests
    decreases |es|
  {
    hide Siege, Step, Toll, Force, After, Run, Hurt;
    SiegeForm(t, w, es, rules, s, uid, i);
    if es == [] {
      AfterNothing(t, w, rules, i, Force(w.sessions[s].player));
    } else {
      var force := Force(w.sessions[s].player);
      TollStep(|es|, force);
      var v := FirstHit(t, w, es, rules, s, uid, i);
      HitsAddUp(t, v, es[1..], rules, s, uid, i);
      HurtsAddUp(w.npcs, v.npcs, After(t, w, es, rules).npcs, i, force, Toll(|es[1..]|, force));
      assert Hurt(w.npcs, After(t, w, es, rules).npcs, i, Toll(|es|, force));
    }
  }

  lemma AfterNothing(t: Data, w: World, rules: Rules, i: nat, force: nat)
    requires i < |w.npcs|
    ensures Run(t, w, [], rules) && After(t, w, [], rules) == w && Hurt(w.npcs, w.npcs, i, Toll(0, force))
  {
  }

  /** The hit that takes the last hit points kills: the uid is gone and a new NPC has come. */
  lemma LastHit(t: Data, w: World, s: SessionId, uid: nat, luck: Luck, i: nat)
    requires Enabled(w, Attack(s, uid, luck)) && InReachOf(w.npcs, uid, w.sessions[s].player, i)
    requires Force(w.sessions[s].player) >= w.npcs[i].hp && NpcsOk(w.npcs, w.nextNpcUid)
    ensures var v := Step(t, w, Attack(s, uid, luck));
            v.nextNpcUid == w.nextNpcUid + 1 && forall j | 0 <= j < |v.npcs| :: v.npcs[j].uid != uid
  {
    hide Step, Log, InReachOf, PaidOff;
    AttackEffect(t, w, s, uid, luck);
    assert i < |w.npcs| && w.npcs[i].uid == uid by { TargetIff(w, s, uid, i); }
    assert DeadIndex(Struck(w, s, i).npcs[i := Struck(w, s, i).npcs[i].(alive := false)]) == i;
  }

  /** A siege whose last hit takes the last hit points. */
  lemma {:induction false} SiegeKills(t: Data, w: World, es: seq<Event>, rules: Rules, s: SessionId, uid: nat, i: nat)
    requires (rules.disciplined ==> WellFormed(t)) && Invariant(t, w, rules)
    requires Siege(t, w, es, rules, s, uid, i) && es != []
    requires Toll(|es| - 1, Force(w.sessions[s].player)) < w.npcs[i].hp <= Toll(|es|, Force(w.sessions[s].player))
    ensures var v := After(t, w, es, rules);
            v.nextNpcUid == w.nextNpcUid + 1 && forall j | 0 <= j < |v.npcs| :: v.npcs[j].uid != uid
    decreases |es|
  {
    hide Siege, Step, Toll, Force, After, Run, Invariant, Hurt, Allowed, NpcsOk, WellFormed;
    SiegeForm(t, w, es, rules, s, uid, i);
    var force := Force(w.sessions[s].player);
    TollStep(|es|, force);
    if |es| == 1 {
      InvariantNpcs(t, w, rules);
      OnlyHit(t, w, es, rules, s, uid, i);
    } else {
      TollStep(|es| - 1, force);
      var v := FirstHit(t, w, es, rules, s, uid, i);
      StepKeeps(t, w, es[0], rules);
      SiegeKills(t, v, es[1..], rules, s, uid, i);
    }
  }

  lemma OnlyHit(t: Data, w: World, es: seq<Event>, rules: Rules, s: SessionId, uid: nat, i: nat)
    requires NpcsOk(w.npcs, w.nextNpcUid) && Siege(t, w, es, rules, s, uid, i) && |es| == 1
    requires Force(w.sessions[s].player) >= w.npcs[i].hp
    ensures var v := After(t, w, es, rules);
            v.nextNpcUid == w.nextNpcUid + 1 && forall j | 0 <= j < |v.npcs| :: v.npcs[j].uid != uid
  {
    assert i < |w.npcs|;
    hide Step, InReachOf, NpcsOk, Force, Disciplined, Uncrossed;
    assert es[0] == Attack(s, uid, es[0].luck);
    LastHit(t, w, s, uid, es[0].luck, i);
    assert After(t, w, es, rules) == Step(t, w, es[0]);
  }

  /** The n-th hit of a siege kills exactly when n times the attacker's force reaches the NPC's hit points and n - 1
      times did not; before that, exactly the sum of the hits is missing. */
  lemma HitsToKill(t: Data, w: World, es: seq<Event>, rules: Rules, s: SessionId, uid: nat, i: nat)
    requires (rules.disciplined ==> WellFormed(t)) && Invariant(t, w, rules)
    requires Siege(t, w, es, rules, s, uid, i) && es != []
    requires Toll(|es| - 1, Force(w.sessions[s].player)) < w.npcs[i].hp
    ensures var v, toll := After(t, w, es, rules), Toll(|es|, Force(w.sessions[s].player));
            if toll < w.npcs[i].hp then
              i < |v.npcs| && v.npcs[i].uid == uid && v.npcs[i].alive && v.nextNpcUid == w.nextNpcUid
              && v.npcs[i].hp == w.npcs[i].hp - toll
            else v.nextNpcUid == w.nextNpcUid + 1 && forall j | 0 <= j < |v.npcs| :: v.npcs[j].uid != uid
  {
    SiegeForm(t, w, es, rules, s, uid, i);
    hide Siege, Invariant, Toll, Force, After, Run, Wounded;
    var toll := Toll(|es|, Force(w.sessions[s].player));
    if toll < w.npcs[i].hp {
      HitsAddUp(t, w, es, rules, s, uid, i);
    } else {
      SiegeKills(t, w, es, rules, s, uid, i);
    }
  }

  lemma WoundForm(w: World, v: World, s: SessionId, i: nat, hp: int)
    requires s in w.sessions && i < |w.npcs| && Wounded(w, v, s, i, hp)
    ensures v.npcs == w.npcs[i := w.npcs[i].(hp := hp)] && v.nextNpcUid == w.nextNpcUid
    ensures v.parties == w.parties && v.quests == w.quests
  {
  }

  lemma InvariantNpcs(t: Data, w: World, rules: Rules)
    requires Invariant(t, w, rules)
    ensures NpcsOk(w.npcs, w.nextNpcUid)
  {
  }

  /** A new player (attack 15) needs three hits for an NPC of 30: the second leaves 4, the third kills. */
  lemma ThirdHitKills(t: Data, w: World, es: seq<Event>, rules: Rules, s: SessionId, uid: nat, i: nat)
    requires (rules.disciplined ==> WellFormed(t)) && Invariant(t, w, rules)
    requires Siege(t, w, es, rules, s, uid, i) && 2 <= |es| <= 3
    requires w.sessions[s].player.atk == 15 && w.npcs[i].hp == 30
    ensures var v := After(t, w, es, rules);
            if |es| == 2 then i < |v.npcs| && v.npcs[i].uid == uid && v.npcs[i].hp == 4
            else forall j | 0 <= j < |v.npcs| :: v.npcs[j].uid != uid
  {
    SiegeForm(t, w, es, rules, s, uid, i);
    assert Force(w.sessions[s].player) == 13 && Toll(1, 13) == 13 && Toll(2, 13) == 26 && Toll(3, 13) == 39;
    hide Run, After, Invariant, Siege, Toll, Force;
    HitsToKill(t, w, es, rules, s, uid, i);
  }

  // ---------------------------------------------------------------- hit points and places over runs

  /** The step is the use of a consumable by o that takes the sum past the 16-bit field. */
  predicate Overflows(t: Data, w: World, e: Event, o: SessionId)
    requires o in w.sessions
  {
    var c := w.sessions[o];
    && e.UseItem? && e.s == o && e.slot < 20 && c.inv.slots[e.slot].tid != 0
    && var item := FindItem(t, c.inv.slots[e.slot].tid);
       item.Some? && item.value.kind == Consumable && c.player.hp + item.value.hp >= 0x1_0000
  }

  /** How a player's place and hit points may move. */
  predicate Well(p: Player, q: Player, over: bool) {
    && (OnMap(p) ==> OnMap(q)) && (p.hp <= p.maxHp ==> q.hp <= q.maxHp)
    && (p.hp == p.maxHp ==> (q.hp == q.maxHp <==> !over))
  }

  /** A use never lowers the hit points, unless the sum leaves the field; then it always does. */
  lemma UseHealsIff(t: Data, w: World, s: SessionId, slot: nat)
    requires Enabled(w, UseItem(s, slot)) && w.sessions[s].player.hp <= w.sessions[s].player.maxHp
    ensures var v := Step(t, w, UseItem(s, slot));
            && s in v.sessions
            && (v.sessions[s].player.hp < w.sessions[s].player.hp <==> Overflows(t, w, UseItem(s, slot), s))
            && Well(w.sessions[s].player, v.sessions[s].player, Overflows(t, w, UseItem(s, slot), s))
  {
    hide Step, FindItem, Log;
    UseEffect(t, w, s, slot);
  }

  lemma LevelsWell(p: Player)
    ensures Well(p, Levels(p), false)
  {
    LevelUpStats(p);
  }

  lemma {:induction false} PaidTimesWell(p: Player, exp: nat, gold: nat, k: nat)
    ensures Well(p, PaidTimes(p, exp, gold, k), false)
    decreases k
  {
    hide Levels;
    if k > 0 {
      LevelsWell(p.(exp := U64(p.exp + exp), gold := U64(p.gold + gold)));
      PaidTimesWell(Paid(p, exp, gold), exp, gold, k - 1);
    }
  }

  /** The struck world has everybody's player as before, and a reward is a number of awards. */
  lemma RewardWell(t: Data, w: World, s: SessionId, i: nat, luck: Luck, v: World, o: SessionId)
    requires s in w.sessions && i < |w.npcs| && o in w.sessions && Avenged(t, w, s, i, luck, v)
    ensures o in v.sessions && Well(w.sessions[o].player, v.sessions[o].player, false)
  {
    hide PaidTimes, Well, KillLog, Avenged, Log;
    PaidOffIs(t, w, s, i, luck, v, o);
    var n := |Band(w, s)|;
    PaidTimesWell(w.sessions[o].player, Part(30, n), Part(10, n), multiset(Band(w, s))[o]);
  }

  lemma StruckPlayers(w: World, s: SessionId, i: nat, o: SessionId)
    requires s in w.sessions && i < |w.npcs| && o in w.sessions
    ensures Struck(w, s, i).sessions[o].player == w.sessions[o].player
  {
  }

  lemma AttackWell(t: Data, w: World, e: Event, o: SessionId)
    requires Enabled(w, e) && e.Attack? && o in w.sessions
    ensures o in Step(t, w, e).sessions && Well(w.sessions[o].player, Step(t, w, e).sessions[o].player, false)
  {
    hide Step, InReachOf, Log, Well, Avenged, Struck, Target;
    var c := w.sessions[o];
    AttackEffect(t, w, e.s, e.uid, e.luck);
    SameWell(c.player);
    if i: nat :| InReachOf(w.npcs, e.uid, w.sessions[e.s].player, i) {
      TargetIff(w, e.s, e.uid, i);
      StruckPlayers(w, e.s, i, o);
      if Struck(w, e.s, i).npcs[i].hp == 0 { RewardWell(t, Struck(w, e.s, i), e.s, i, e.luck, Step(t, w, e), o); }
    }
  }

  lemma SameWell(p: Player)
    ensures Well(p, p, false)
  {
  }

  lemma DealWell(t: Data, w: World, e: Event, o: SessionId)
    requires Enabled(w, e) && o in w.sessions
    requires e.EquipItem? || e.Buy? || e.Sell? || e.AskQuests? || e.AcceptQuest? || e.CompleteQuest?
    ensures o in Step(t, w, e).sessions && Well(w.sessions[o].player, Step(t, w, e).sessions[o].player, false)
  {
    hide Step, Log, FindItem, FindQuest, Levels, FindEmpty, Pocketed, PocketLog, PayLog, ItemName;
    if e.EquipItem? {
      EquipEffect(t, w, e.s, e.slot);
    } else if e.Buy? {
      BuyEffect(t, w, e.s, e.tid, e.itemUid);
    } else if e.Sell? {
      SellEffect(t, w, e.s, e.slot);
    } else if e.AskQuests? {
      ListEffect(t, w, e.s);
    } else if e.AcceptQuest? {
      AcceptEffect(t, w, e.s, e.quest);
    } else {
      CompleteEffect(t, w, e.s, e.quest, e.itemUid);
      if FindQuest(t, e.quest).Some? {
        var q := FindQuest(t, e.quest).value;
        LevelsWell(Richer(w.sessions[e.s].player, q.rewardExp, q.rewardGold));
      }
    }
  }

  lemma MoveWell(t: Data, w: World, e: Event, o: SessionId)
    requires Enabled(w, e) && o in w.sessions && (e.Move? || e.Select?)
    ensures o in Step(t, w, e).sessions && Well(w.sessions[o].player, Step(t, w, e).sessions[o].player, false)
  {
    hide Step, Log, Greeting, PackLog, Unpacked, FindItem;
    if e.Move? {
      MoveEffect(t, w, e.s, e.dx, e.dy);
    } else {
      SelectEffect(t, w, e.s, e.charUid, e.found, e.x, e.y);
    }
  }

  lemma ConnectionWell(t: Data, w: World, e: Event, o: SessionId)
    requires Enabled(w, e) && o in w.sessions && o in Step(t, w, e).sessions
    requires e.Connect? || e.WriteFails? || e.Disconnect? || e.Login? || e.AskCharList?
    ensures Well(w.sessions[o].player, Step(t, w, e).sessions[o].player, false)
  {
    if e.Disconnect? {
      assert o != e.s;
      DisconnectOnlySent(w, e.s, o);
    } else if e.Connect? {
      ConnectEffect(t, w);
    } else if !e.WriteFails? {
      hide Step, Log;
      LoginEffect(t, w, e.s, if e.Login? then e.account else 0);
    }
  }

  /** Over any step a player on the map stays on it, hit points stay within the maximum, and a player at full health
      loses it exactly through a use that overflows. */
  lemma StepWell(t: Data, w: World, e: Event, o: SessionId)
    requires Enabled(w, e) && o in w.sessions && o in Step(t, w, e).sessions
    ensures Well(w.sessions[o].player, Step(t, w, e).sessions[o].player, Overflows(t, w, e, o))
  {
    hide Step, Well, FindItem;
    if e.Attack? {
      AttackWell(t, w, e, o);
    } else if e.UseItem? {
      UseWell(t, w, e, o);
    } else if e.InviteTo? || e.Answer? || e.Leave? {
      PartyOnlySent(t, w, e);
      SameWell(w.sessions[o].player);
    } else if e.EquipItem? || e.Buy? || e.Sell? || e.AskQuests? || e.AcceptQuest? || e.CompleteQuest? {
      DealWell(t, w, e, o);
    } else if e.Move? || e.Select? {
      MoveWell(t, w, e, o);
    } else {
      ConnectionWell(t, w, e, o);
    }
  }

  lemma UseWell(t: Data, w: World, e: Event, o: SessionId)
    requires Enabled(w, e) && e.UseItem? && o in w.sessions && o in Step(t, w, e).sessions
    ensures Well(w.sessions[o].player, Step(t, w, e).sessions[o].player, Overflows(t, w, e, o))
  {
    hide Step, FindItem, Log;
    UseEffect(t, w, e.s, e.slot);
  }

  ghost predicate AllWell(w: World) {
    forall s | s in w.sessions :: OnMap(w.sessions[s].player) && w.sessions[s].player.hp <= w.sessions[s].player.maxHp
  }

  ghost predicate AllFull(w: World) {
    forall s | s in w.sessions :: w.sessions[s].player.hp == w.sessions[s].player.maxHp
  }

  /** Some use of the step overflows. */
  ghost predicate AnyOverflow(t: Data, w: World, e: Event) { exists o :: o in w.sessions && Overflows(t, w, e, o) }

  lemma StepAllWell(t: Data, w: World, e: Event)
    requires Enabled(w, e)
    ensures AllWell(w) ==> AllWell(Step(t, w, e))
    ensures AllFull(w) ==> (AllFull(Step(t, w, e)) <==> !AnyOverflow(t, w, e))
  {
    hide Step, Overflows;
    StepFrame(t, w, e);
    if e.Connect? { ConnectEffect(t, w); }
    forall o | o in w.sessions && o in Step(t, w, e).sessions
      ensures Well(w.sessions[o].player, Step(t, w, e).sessions[o].player, Overflows(t, w, e, o))
    {
      StepWell(t, w, e, o);
    }
    forall o | o in w.sessions && Overflows(t, w, e, o) ensures o in Step(t, w, e).sessions {
      OverflowStays(t, w, e, o);
    }
  }

  lemma OverflowStays(t: Data, w: World, e: Event, o: SessionId)
    requires Enabled(w, e) && o in w.sessions && Overflows(t, w, e, o)
    ensures o in Step(t, w, e).sessions && !e.Connect?
  {
    hide Step;
    StepFrame(t, w, e);
  }

  ghost predicate NeverOverflows(t: Data, w: World, es: seq<Event>, rules: Rules)
    requires Run(t, w, es, rules)
    decreases |es|
  {
    es == [] || (!AnyOverflow(t, w, es[0]) && NeverOverflows(t, Step(t, w, es[0]), es[1..], rules))
  }

  lemma {:induction false} RunWell(t: Data, w: World, es: seq<Event>, rules: Rules)
    requires Run(t, w, es, rules) && AllWell(w)
    ensures AllWell(After(t, w, es, rules))
    ensures AllFull(w) && NeverOverflows(t, w, es, rules) ==> AllFull(After(t, w, es, rules))
    decreases |es|
  {
    hide Step, AllWell, AllFull, AnyOverflow, Disciplined, Uncrossed;
    if es != [] {
      StepAllWell(t, w, es[0]);
      RunWell(t, Step(t, w, es[0]), es[1..], rules);
    }
  }

  /** In every reachable state every player is on the map with at most the maximum hit points; and as long as no use has
      overflowed, at full health, since nothing in the game takes hit points from a player. */
  lemma PlayersWell(t: Data, w: World, es: seq<Event>, rules: Rules)
    requires Initial(w) && Run(t, w, es, rules)
    ensures AllWell(After(t, w, es, rules))
    ensures NeverOverflows(t, w, es, rules) ==> AllFull(After(t, w, es, rules))
  {
    hide Run, After, NeverOverflows;
    RunWell(t, w, es, rules);
  }

  const WORN_OUT :=
    NEW_SESSION.(player := NEW_PLAYER.(level := 3272, hp := 65520, maxHp := 65520, loggedIn := true),
                 inv := EMPTY_INVENTORY.(slots := EMPTY_INVENTORY.slots[0 := InvSlot(9, 5)]))

  /** At level 3272, with the 65520 hit points of that level, the shipped potion leaves 34. */
  lemma PotionWraps(w: World)
    requires Enabled(w, UseItem(1, 0)) && w.sessions[1] == WORN_OUT
    ensures 1 in Step(SHIPPED, w, UseItem(1, 0)).sessions
    ensures Step(SHIPPED, w, UseItem(1, 0)).sessions[1].player.hp == 34
  {
    hide Step, FindItem;
    PotionFound();
    assert WORN_OUT.inv.slots[0].tid == 5 && WORN_OUT.player.hp == WORN_OUT.player.maxHp == 65520;
    Potion(SHIPPED, w, 1, 0, ItemData(5, "HP Potion", Consumable, 0, 0, 50, 30));
  }

  lemma Potion(t: Data, w: World, s: SessionId, slot: nat, it: ItemData)
    requires Enabled(w, UseItem(s, slot)) && slot < 20 && w.sessions[s].inv.slots[slot].tid != 0
    requires FindItem(t, w.sessions[s].inv.slots[slot].tid) == Some(it) && it.kind == Consumable
    ensures var p, v := w.sessions[s].player, Step(t, w, UseItem(s, slot));
            var hp := (p.hp + it.hp) % 0x1_0000;
            s in v.sessions && v.sessions[s].player.hp == if hp <= p.maxHp then hp else p.maxHp
  {
    hide Step, Log, FindItem;
    UseEffect(t, w, s, slot);
  }

  lemma PotionFound()
    ensures FindItem(SHIPPED, 5) == Some(ItemData(5, "HP Potion", Consumable, 0, 0, 50, 30))
  {
    var items := SHIPPED.items;
    assert items[0].id == 1 && items[1].id == 2 && items[2].id == 3 && items[3].id == 4 && items[4].id == 5;
    hide ItemIn;
    var i := ItemPlace(items, 5);
    assert i == 4;
  }
}

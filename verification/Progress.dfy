/** What a kill is worth to whom, and the level-up loop's laws. */
module Progress {
  import opened Machine
  import opened Tables
  import opened Protocol
  import opened Character
  import opened Server
  import opened Frames
  import opened Replication
  import opened Runs
  import Party

  // ---------------------------------------------------------------- levels

  /** The level-up loop on the player alone. */
  function Levels(p: Player): (r: Player)
    decreases p.exp, ZeroTurns(p)
  {
    if p.exp < p.maxExp then p else Levels(LevelOnce(p))
  }

  lemma {:induction false} LevelUpsPlayer(c: State)
    ensures CheckLevelUp(c).player == Levels(c.player)
    decreases c.player.exp, ZeroTurns(c.player)
  {
    if c.player.exp >= c.player.maxExp {
      LevelUpsPlayer(Send(c.(player := LevelOnce(c.player)), LevelUpMsg(LevelOnce(c.player))));
    }
  }

  lemma LevelOnceSmaller(p: Player)
    requires p.exp >= p.maxExp
    ensures LevelOnce(p).exp < p.exp || (LevelOnce(p).exp == p.exp && ZeroTurns(LevelOnce(p)) < ZeroTurns(p))
  {
  }

  function MoreExp(c: State, b: nat): State
    requires c.player.exp + b < 0x1_0000_0000_0000_0000
  {
    c.(player := c.player.(exp := c.player.exp + b))
  }

  /** One turn of the loop on a session. */
  function Turn(c: State): State
    requires c.player.exp >= c.player.maxExp
  {
    Send(c.(player := LevelOnce(c.player)), LevelUpMsg(LevelOnce(c.player)))
  }

  lemma TurnCommutes(c: State, b: nat)
    requires c.player.exp >= c.player.maxExp && c.player.exp + b < 0x1_0000_0000_0000_0000
    ensures CheckLevelUp(c) == CheckLevelUp(Turn(c)) && Turn(c).player == LevelOnce(c.player)
    ensures CheckLevelUp(MoreExp(c, b)) == CheckLevelUp(Turn(MoreExp(c, b)))
    ensures Turn(c).player.exp <= c.player.exp && Turn(MoreExp(c, b)) == MoreExp(Turn(c), b)
  {
    hide U16, LevelUpMsg;
    assert LevelUpMsg(LevelOnce(MoreExp(c, b).player)) == LevelUpMsg(LevelOnce(c.player)) by {
      SameMsg(LevelOnce(c.player), LevelOnce(MoreExp(c, b).player));
    }
  }

  lemma SameMsg(p: Player, q: Player)
    requires q == p.(exp := q.exp)
    ensures LevelUpMsg(p) == LevelUpMsg(q)
  {
  }

  /** Experience added after the loop might as well have been there before it. */
  lemma {:induction false} LevelUpAbsorbs(c: State, b: nat)
    requires c.player.exp + b < 0x1_0000_0000_0000_0000
    ensures CheckLevelUp(c).player.exp <= c.player.exp
    ensures CheckLevelUp(MoreExp(CheckLevelUp(c), b)) == CheckLevelUp(MoreExp(c, b))
    decreases c.player.exp, ZeroTurns(c.player)
  {
    hide LevelOnce, Turn, ZeroTurns;
    if c.player.exp >= c.player.maxExp {
      TurnCommutes(c, b);
      LevelOnceSmaller(c.player);
      LevelUpAbsorbs(Turn(c), b);
    }
  }

  lemma GainPlain(c: State, a: nat)
    requires c.player.exp + a < 0x1_0000_0000_0000_0000
    ensures Gain(c, a, 0) == MoreExp(c, a)
  {
  }

  /** Awarding in two instalments, checking the level after each, is awarding the sum once: the same player, and
      the same level-up messages in the same order. */
  lemma LevelUpPathIndependent(c: State, a: nat, b: nat)
    requires c.player.exp + a + b < 0x1_0000_0000_0000_0000
    ensures CheckLevelUp(Gain(CheckLevelUp(Gain(c, a, 0)), b, 0)) == CheckLevelUp(Gain(c, a + b, 0))
  {
    hide Gain, CheckLevelUp;
    GainPlain(c, a);
    GainPlain(c, a + b);
    LevelUpAbsorbs(MoreExp(c, a), b);
    GainPlain(CheckLevelUp(MoreExp(c, a)), b);
    assert MoreExp(MoreExp(c, a), b) == MoreExp(c, a + b);
  }

  /** How often the loop turns. */
  function Turns(p: Player): nat
    decreases p.exp, ZeroTurns(p)
  {
    if p.exp < p.maxExp then 0 else 1 + Turns(LevelOnce(p))
  }

  /** The loop ends for every machine state, wrapped levels included, below the next threshold; n turns add n levels
      and 20, 3 and 2 a level to the stats, each modulo its 16-bit field, and touch nothing else. */
  lemma {:induction false} LevelUpStats(p: Player)
    ensures var r, n := Levels(p), Turns(p);
            && r.exp < r.maxExp && (n == 0 ==> r == p) && (n > 0 ==> r.hp == r.maxHp && r.maxExp == 100 * r.level)
            && r == p.(exp := r.exp, maxExp := r.maxExp, hp := r.hp,
                       level := U16(p.level + n), maxHp := U16(p.maxHp + 20 * n),
                       atk := U16(p.atk + 3 * n), def := U16(p.def + 2 * n))
    decreases p.exp, ZeroTurns(p)
  {
    hide U16;
    if p.exp >= p.maxExp {
      LevelOnceSmaller(p);
      var n := Turns(LevelOnce(p));
      WrapTwice(p.level, 1, n);
      WrapTwice(p.maxHp, 20, 20 * n);
      WrapTwice(p.atk, 3, 3 * n);
      WrapTwice(p.def, 2, 2 * n);
      LevelUpStats(LevelOnce(p));
    } else {
      NoWrap(p.level);
      NoWrap(p.maxHp);
      NoWrap(p.atk);
      NoWrap(p.def);
    }
  }

  lemma WrapTwice(x: int, a: int, b: int)
    ensures U16(U16(x + a) + b) == U16(x + (a + b))
  {
  }

  lemma NoWrap(x: uint16)
    ensures U16(x) == x
  {
  }

  /** The experience all levels below L cost together, when level l costs 100 * l. */
  function Cost(level: int): int { 50 * level * (level - 1) }

  function TotalExp(p: Player): int { Cost(p.level) + p.exp }

  lemma CostStep(level: int)
    ensures Cost(level + 1) == Cost(level) + 100 * level
  {
  }

  /** From a threshold that fits the level, and with too little experience to leave level 65535, total experience is
      conserved; so the level reached is the one whose cost range holds the total. */
  lemma {:induction false} LevelUpConserves(p: Player)
    requires p.maxExp == 100 * p.level && p.level > 0 && TotalExp(p) < Cost(0x1_0000)
    ensures var r := Levels(p);
            && r.level == p.level + Turns(p) && TotalExp(r) == TotalExp(p) && r.maxExp == 100 * r.level
            && Cost(r.level) <= TotalExp(p) < Cost(r.level + 1)
    decreases p.exp, ZeroTurns(p)
  {
    hide Cost;
    CostStep(p.level);
    if p.exp >= p.maxExp {
      assert p.level < 0xFFFF;
      LevelUpConserves(LevelOnce(p));
    }
  }

  /** A select sets the level but leaves the new session's threshold at 100: after any first award the threshold fits
      the level exactly when the character was loaded at level 1 or the award brings it to 100 experience. */
  lemma ThresholdFitsIff(c: State, charUid: uint64, r: Record, x: nat, y: nat, exp: nat, gold: nat)
    requires c.player.maxExp == NEW_PLAYER.maxExp
    ensures var e := Entered(c, charUid, r, x, y).player;
            var q := Paid(e, exp, gold);
            q.maxExp == 100 * q.level <==> r.level == 1 || U64(r.exp + exp) >= 100
  {
    var e := Entered(c, charUid, r, x, y).player;
    LevelUpStats(e.(exp := U64(e.exp + exp), gold := U64(e.gold + gold)));
  }

  /** A character loaded at level 5 without experience: its next level costs 100, not 500. */
  lemma ThresholdStays()
    ensures var e := Entered(NEW_SESSION, 1, Record(5, 0, 0, "a", [], NO_ITEM, NO_ITEM), 0, 0).player;
            e.level == 5 && e.maxExp == 100 && Levels(e.(exp := 100)).level == 6
  {
    var e := Entered(NEW_SESSION, 1, Record(5, 0, 0, "a", [], NO_ITEM, NO_ITEM), 0, 0).player;
    assert LevelOnce(e.(exp := 100)).exp == 0 && LevelOnce(e.(exp := 100)).maxExp == 600;
  }

  lemma {:induction false} TurnsIgnoreAtk(p: Player, q: Player)
    requires q == p.(atk := q.atk)
    ensures Turns(q) == Turns(p)
    decreases p.exp, ZeroTurns(p)
  {
    if p.exp >= p.maxExp {
      LevelOnceSmaller(p);
      TurnsIgnoreAtk(LevelOnce(p), LevelOnce(q));
    }
  }

  /** Equipping sets the attack value from the base, so what levels added is forgotten: levelling up and then taking
      up a weapon gives the attack of the other order exactly when the levels' bonus wraps to nothing, as with none. */
  lemma EquipForgetsLevels(c: State, slot: nat, it: ItemData)
    requires slot < MAX_INVENTORY && it.kind == Weapon
    ensures var levelsFirst := Wear(c.(player := Levels(c.player)), slot, it).player.atk;
            var equipFirst := Levels(Wear(c, slot, it).player).atk;
            levelsFirst == equipFirst <==> U16(3 * Turns(c.player)) == 0
  {
    hide Levels, Turns;
    var worn := Wear(c, slot, it).player;
    TurnsIgnoreAtk(c.player, worn);
    LevelUpStats(worn);
    WrapsAway(U16(15 + it.atk), 3 * Turns(c.player));
  }

  lemma WrapsAway(x: uint16, n: nat)
    ensures U16(x + n) == x <==> U16(n) == 0
  {
  }

  // ---------------------------------------------------------------- one member's share

  /** A player after being awarded experience and gold. */
  function Paid(p: Player, exp: nat, gold: nat): Player {
    Levels(p.(exp := U64(p.exp + exp), gold := U64(p.gold + gold)))
  }

  lemma AwardPlayer(c: State, exp: nat, gold: nat)
    ensures Award(c, exp, gold) == c.(player := Paid(c.player, exp, gold), sent := Award(c, exp, gold).sent)
  {
    var g := Gain(c, exp, gold);
    LevelUpsPlayer(Send(g, ExpUpdate(U32(g.player.exp), g.player.maxExp)));
  }

  /** Every accepted quest one kill further. */
  function TickedAll(t: Data, quests: map<uint16, Quest>): map<uint16, Quest> {
    map q | q in quests :: if Counting(t, quests, q) then Ticked(t, quests[q], q) else quests[q]
  }

  /** The credit loop: which quests move, and that the table rows move with them and nobody else's do. */
  lemma {:induction false} TicksAre(t: Data, c: State, db: QuestTable, ids: set<uint16>)
    requires ids <= c.quests.Keys
    ensures var (d, db') := TickAll(t, c, db, ids);
            && d == c.(quests := d.quests, sent := d.sent) && d.quests.Keys == c.quests.Keys
            && (forall q | q in c.quests ::
                  d.quests[q] == if q in ids && Counting(t, c.quests, q) then Ticked(t, c.quests[q], q)
                      else c.quests[q])
            && (c.quests == Rows(db, c.player.charUid) ==> d.quests == Rows(db', c.player.charUid))
            && (forall other | other != c.player.charUid :: Rows(db', other) == Rows(db, other))
    decreases |ids|
  {
    if ids != {} {
      var id := Least(ids);
      var (c', db') := TickOne(t, c, db, id);
      assert c' == c.(quests := c'.quests, sent := c'.sent);
      assert forall q | q in c.quests && q != id :: Counting(t, c'.quests, q) == Counting(t, c.quests, q);
      TicksAre(t, c', db', ids - {id});
    }
  }

  lemma CreditIs(t: Data, w: World, s: SessionId)
    requires s in w.sessions
    ensures var r := CreditQuests(t, w, s); var c := w.sessions[s];
            && r == Put(w, s, r.sessions[s]).(quests := r.quests)
            && r.sessions[s] == c.(quests := TickedAll(t, c.quests), sent := r.sessions[s].sent)
            && (c.quests == Rows(w.quests, c.player.charUid)
                ==> r.sessions[s].quests == Rows(r.quests, c.player.charUid))
            && (forall other | other != c.player.charUid :: Rows(r.quests, other) == Rows(w.quests, other))
  {
    var c := w.sessions[s];
    TicksAre(t, c, w.quests, c.quests.Keys);
    assert CreditQuests(t, w, s).sessions[s].quests == TickedAll(t, c.quests);
  }

  // ---------------------------------------------------------------- sharing

  /** How often a session is listed; more than once only after a crossed accept. */
  function Listings(members: seq<SessionId>, o: SessionId): nat {
    if members == [] then 0 else (if members[0] == o then 1 else 0) + Listings(members[1..], o)
  }

  lemma {:induction false} ListingsOnce(members: seq<SessionId>, o: SessionId)
    requires Party.Distinct(members)
    ensures Listings(members, o) == if o in members then 1 else 0
    decreases |members|
  {
    if members != [] {
      assert members == [members[0]] + members[1..];
      Party.DistinctParts(members[0], members[1..]);
      ListingsOnce(members[1..], o);
    }
  }

  function PaidTimes(p: Player, exp: nat, gold: nat, k: nat): Player
    decreases k
  {
    if k == 0 then p else PaidTimes(Paid(p, exp, gold), exp, gold, k - 1)
  }

  function TickedTimes(t: Data, quests: map<uint16, Quest>, k: nat): map<uint16, Quest>
    decreases k
  {
    if k == 0 then quests else TickedTimes(t, TickedAll(t, quests), k - 1)
  }

  /** The effect of a shared kill on one session: a share and a credit for every listing, the killer's credit
      excepted. */
  lemma {:induction false} ShareGives(t: Data, w: World, members: seq<SessionId>, killer: SessionId, exp: nat,
          gold: nat, o: SessionId)
    requires o in w.sessions
    ensures var r := Share(t, w, members, killer, exp, gold).sessions[o]; var c := w.sessions[o];
            var k := Listings(members, o);
            && r == c.(player := PaidTimes(c.player, exp, gold, k), sent := r.sent,
                       quests := TickedTimes(t, c.quests, if o != killer then k else 0))
            && (k == 0 ==> r == c)
    decreases |members|
  {
    hide TickedAll, Paid, Award, CreditQuests;
    if members != [] {
      var m := members[0];
      if m !in w.sessions {
        ShareGives(t, w, members[1..], killer, exp, gold, o);
      } else {
        var paid := Put(w, m, Award(w.sessions[m], exp, gold));
        AwardPlayer(w.sessions[m], exp, gold);
        CreditIs(t, paid, m);
        ShareGives(t, if m != killer then CreditQuests(t, paid, m) else paid, members[1..], killer, exp, gold, o);
      }
    }
  }

  /** The sessions a kill by s pays: its party, or itself. */
  function Takers(w: World, s: SessionId): seq<SessionId> {
    match Sharers(w, s) case Some(members) => members case None => [s]
  }

  /** Paying and crediting a kill, seen from one session. */
  lemma PayGives(t: Data, w: World, s: SessionId, o: SessionId, n: nat)
    requires s in w.sessions && o in w.sessions && n == |Takers(w, s)| > 0
    ensures var r := CreditQuests(t, PayKill(t, w, s), s).sessions[o]; var c := w.sessions[o];
            var k := Listings(Takers(w, s), o);
            && r == c.(player := PaidTimes(c.player, Part(NPC_EXP, n), Part(NPC_GOLD, n), k), sent := r.sent,
                       quests := TickedTimes(t, c.quests, if o == s then 1 else k))
            && (k == 0 && o != s ==> r == c)
  {
    hide TickedAll, Paid, Award, CreditQuests, Share;
    var members := Takers(w, s);
    if Sharers(w, s).Some? {
      ShareGives(t, w, members, s, Part(NPC_EXP, n), Part(NPC_GOLD, n), o);
    } else {
      AwardPlayer(w.sessions[s], NPC_EXP, NPC_GOLD);
      ListedAlone(t, w.sessions[o], s, o);
    }
    CreditIs(t, PayKill(t, w, s), s);
    OneTick(t, w.sessions[s].quests);
  }

  lemma ListedAlone(t: Data, c: State, s: SessionId, o: SessionId)
    ensures Listings([s], o) == (if o == s then 1 else 0) && Part(NPC_EXP, 1) == NPC_EXP
            && Part(NPC_GOLD, 1) == NPC_GOLD
    ensures PaidTimes(c.player, NPC_EXP, NPC_GOLD, 1) == Paid(c.player, NPC_EXP, NPC_GOLD)
    ensures PaidTimes(c.player, NPC_EXP, NPC_GOLD, 0) == c.player && TickedTimes(t, c.quests, 0) == c.quests
  {
    hide Paid;
    assert PaidTimes(Paid(c.player, NPC_EXP, NPC_GOLD), NPC_EXP, NPC_GOLD, 0) == Paid(c.player, NPC_EXP, NPC_GOLD);
  }

  lemma OneTick(t: Data, quests: map<uint16, Quest>)
    ensures TickedTimes(t, quests, 1) == TickedAll(t, quests) && TickedTimes(t, quests, 0) == quests
  {
    hide TickedAll;
    assert TickedTimes(t, TickedAll(t, quests), 0) == TickedAll(t, quests);
  }

  /** A drop changes the bag and the log, and the bag by what was in it. */
  lemma ReceiveForm(t: Data, c: State, d: State, tid: uint16, uid: uint64)
    requires d.inv == c.inv
    ensures var r := Receive(t, c, tid, uid);
            r == c.(inv := r.inv, sent := r.sent) && r.inv == Receive(t, d, tid, uid).inv
  {
    hide SlotMsg;
  }

  /** A kill in full, seen from one session: a share for every listing, one tick on every accepted quest for every
      listing (exactly one for the killer), the drop for the killer, and messages. */
  lemma KillGives(t: Data, w: World, s: SessionId, i: nat, luck: Luck, o: SessionId, n: nat)
    requires s in w.sessions && i < |w.npcs| && o in w.sessions && n == |Takers(w, s)| > 0
    ensures var r := Killed(t, w, s, i, luck).sessions[o]; var c := w.sessions[o]; var k := Listings(Takers(w, s), o);
            r == c.(player := PaidTimes(c.player, Part(NPC_EXP, n), Part(NPC_GOLD, n), k),
                    quests := TickedTimes(t, c.quests, if o == s then 1 else k),
                    inv := if o == s then Receive(t, c, Dropped(t.drops, luck.rand), luck.itemUid).inv else c.inv,
                    sent := r.sent)
  {
    hide TickedAll, Paid, PayKill, CreditQuests, Respawn, Death, Receive, Dropped, TickedTimes, PaidTimes;
    var dead := Death(w, i);
    DeathOnlySent(w, i);
    assert dead.sessions[o] == w.sessions[o].(sent := dead.sessions[o].sent) && Takers(dead, s) == Takers(w, s);
    PayGives(t, dead, s, o, n);
    var paid := CreditQuests(t, PayKill(t, dead, s), s);
    if o == s { ReceiveForm(t, paid.sessions[s], w.sessions[s], Dropped(t.drops, luck.rand), luck.itemUid); }
    RespawnOnlySent(Loot(t, paid, s, luck), luck.x, luck.y);
  }

  lemma SharesLose(reward: nat, n: nat)
    requires n > 0
    ensures n * Part(reward, n) <= reward < n * Part(reward, n) + n
  {
  }

  /** What a killing step does to session o: one floored share and one tick for every time the killer's party lists o,
      for the killer one tick in all and the drop, and otherwise only messages. The shares together stay below the
      reward by less than one unit an entry. */
  ghost predicate KillShared(t: Data, w: World, e: Event, o: SessionId)
    requires Enabled(w, e) && Kills(w, e) && o in w.sessions
  {
    var r := Step(t, w, e).sessions;
    var c := w.sessions[o];
    var n, k := |Takers(w, e.s)|, Listings(Takers(w, e.s), o);
    && n > 0 && o in r
    && r[o] == c.(player := PaidTimes(c.player, Part(NPC_EXP, n), Part(NPC_GOLD, n), k),
                  quests := TickedTimes(t, c.quests, if o == e.s then 1 else k),
                  inv := if o == e.s then Receive(t, c, Dropped(t.drops, e.luck.rand), e.luck.itemUid).inv else c.inv,
                  sent := r[o].sent)
    && n * Part(NPC_EXP, n) <= NPC_EXP < n * Part(NPC_EXP, n) + n
    && n * Part(NPC_GOLD, n) <= NPC_GOLD < n * Part(NPC_GOLD, n) + n
  }

  /** Every killing step of every run, crossed accepts included. */
  lemma KillShares(t: Data, w: World, e: Event, o: SessionId)
    requires Enabled(w, e) && Kills(w, e) && o in w.sessions
    ensures KillShared(t, w, e, o)
  {
    hide TickedTimes, PaidTimes, Receive, Dropped, Killed, Damage, HpAfter;
    var i := Target(w, e.s, e.uid).value;
    var hit := Hit(w, e.s, i);
    assert Takers(hit, e.s) == Takers(w, e.s);
    assert hit.sessions[o] == w.sessions[o].(sent := hit.sessions[o].sent);
    KillGives(t, hit, e.s, i, e.luck, o, |Takers(w, e.s)|);
    ReceiveForm(t, hit.sessions[o], w.sessions[o], Dropped(t.drops, e.luck.rand), e.luck.itemUid);
    SharesLose(NPC_EXP, |Takers(w, e.s)|);
    SharesLose(NPC_GOLD, |Takers(w, e.s)|);
  }

  /** What it does when everybody is listed once: a member gets exactly one share and one tick. */
  ghost predicate KillSplit(t: Data, w: World, e: Event, o: SessionId)
    requires Enabled(w, e) && Kills(w, e) && o in w.sessions
  {
    var r := Step(t, w, e).sessions;
    var c := w.sessions[o];
    var n := |Takers(w, e.s)|;
    && n > 0 && o in r && e.s in Takers(w, e.s)
    && if o in Takers(w, e.s) then
         && r[o].player == Paid(c.player, Part(NPC_EXP, n), Part(NPC_GOLD, n))
         && r[o].quests == TickedAll(t, c.quests) && (o != e.s ==> r[o].inv == c.inv)
       else r[o] == c.(sent := r[o].sent)
  }

  /** Every killing step of every run without crossed accepts. */
  lemma KillDistribution(t: Data, w: World, es: seq<Event>, rules: Rules, v: World, e: Event, o: SessionId)
    requires (rules.disciplined ==> WellFormed(t)) && Initial(w) && Run(t, w, es, rules) && rules.uncrossed
    requires v == After(t, w, es, rules) && Enabled(v, e) && Kills(v, e) && o in v.sessions
    ensures KillSplit(t, v, e, o)
  {
    hide Invariant, TickedAll, Paid, Receive, Dropped, Step, Party.Distinct;
    InitialInvariant(t, w, rules);
    RunKeeps(t, w, es, rules);
    TakersDistinct(t, v, rules, e.s);
    KillShares(t, v, e, o);
    var n := |Takers(v, e.s)|;
    ListingsOnce(Takers(v, e.s), o);
    OneShare(v.sessions[o].player, Part(NPC_EXP, n), Part(NPC_GOLD, n));
    OneTick(t, v.sessions[o].quests);
  }

  lemma OneShare(p: Player, exp: nat, gold: nat)
    ensures PaidTimes(p, exp, gold, 1) == Paid(p, exp, gold) && PaidTimes(p, exp, gold, 0) == p
  {
    hide Paid;
    assert PaidTimes(Paid(p, exp, gold), exp, gold, 0) == Paid(p, exp, gold);
  }

  lemma TakersDistinct(t: Data, v: World, rules: Rules, s: SessionId)
    requires Invariant(t, v, rules) && rules.uncrossed && s in v.sessions
    ensures Party.Distinct(Takers(v, s)) && s in Takers(v, s)
  {
    hide Agreement;
  }
}

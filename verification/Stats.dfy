/** Attack, defence, hit points and the level threshold: when they follow from level and equipment, and what a stay
    keeps. */
module Stats {
  import opened Machine
  import opened Tables
  import opened Character
  import opened Server
  import opened Frames
  import opened Replication
  import opened Runs
  import opened Progress
  import Protocol

  // ---------------------------------------------------------------- the expected formulas

  function AtkOf(t: Data, tid: uint16): uint16 { match FindItem(t, tid) case Some(it) => it.atk case None => 0 }

  function DefOf(t: Data, tid: uint16): uint16 { match FindItem(t, tid) case Some(it) => it.def case None => 0 }

  /** Base, weapon and three a level. */
  predicate AtkFollows(t: Data, c: State) {
    c.player.atk == U16(15 + AtkOf(t, c.inv.weapon.tid) + 3 * (c.player.level - 1))
  }

  /** Base, armor and two a level. */
  predicate DefFollows(t: Data, c: State) {
    c.player.def == U16(5 + DefOf(t, c.inv.armor.tid) + 2 * (c.player.level - 1))
  }

  /** A hundred a level. */
  predicate ThresholdFollows(p: Player) { p.maxExp == 100 * p.level }

  lemma ThreeBonus(x: uint16, level: uint16)
    ensures U16(x) == U16(x + 3 * (level - 1)) <==> level == 1
  {
  }

  lemma TwoBonus(x: uint16, level: uint16)
    ensures U16(x) == U16(x + 2 * (level - 1)) <==> level == 1 || level == 0x8001
  {
  }

  lemma BonusBase(x: int, bonus: int)
    ensures U16(U16(x) + bonus) == U16(x + bonus) && U16(U16(x)) == U16(x)
  {
  }

  /** The item that an equip of this slot puts on. */
  function Worn(t: Data, c: State, slot: nat): (r: Option<ItemData>)
    ensures r.Some? ==> r.value.kind != Consumable && slot < MAX_INVENTORY
  {
    if !Occupied(c, slot) then None
    else match FindItem(t, c.inv.slots[slot].tid)
         case Some(it) => if it.kind == Consumable then None else Some(it)
         case None => None
  }

  /** What an equip request leaves behind, besides messages. */
  lemma EquipForm(t: Data, c: State, slot: nat)
    ensures var d := OnItemEquip(t, c, slot);
            match Worn(t, c, slot)
            case None => d.player == c.player && d.inv == c.inv
            case Some(it) =>
              slot < MAX_INVENTORY && d.player == Wear(c, slot, it).player && d.inv == Wear(c, slot, it).inv
  {
    hide Send, SlotMsg, EquipMsg, Wear;
    if Worn(t, c, slot).Some? {
      var w := Wear(c, slot, Worn(t, c, slot).value);
      assert Send(w, EquipMsg(t, w)).inv == w.inv;
    }
  }

  /** Right after a weapon is put on, attack follows exactly at level 1. */
  lemma EquipAtkIff(t: Data, c: State, slot: nat)
    requires Worn(t, c, slot).Some? && Worn(t, c, slot).value.kind == Weapon
    ensures AtkFollows(t, OnItemEquip(t, c, slot)) <==> c.player.level == 1
  {
    hide OnItemEquip;
    EquipForm(t, c, slot);
    var it := Worn(t, c, slot).value;
    ThreeBonus(U16(15 + it.atk), c.player.level);
    BonusBase(15 + it.atk, 3 * (c.player.level - 1));
  }

  /** Right after an armor is put on, defence follows exactly at level 1 and at the one level whose bonus wraps to 0. */
  lemma EquipDefIff(t: Data, c: State, slot: nat)
    requires Worn(t, c, slot).Some? && Worn(t, c, slot).value.kind == Armor
    ensures DefFollows(t, OnItemEquip(t, c, slot)) <==> c.player.level == 1 || c.player.level == 0x8001
  {
    hide OnItemEquip;
    EquipForm(t, c, slot);
    var it := Worn(t, c, slot).value;
    TwoBonus(U16(5 + it.def), c.player.level);
    BonusBase(5 + it.def, 2 * (c.player.level - 1));
  }

  /** What the load of a new session leaves behind, besides slots and messages. */
  lemma LoadForm(t: Data, c: State, r: Record)
    requires c.player.atk == NEW_PLAYER.atk && c.player.def == NEW_PLAYER.def
    ensures var l := LoadInventory(t, c, r);
            && l.inv.weapon == r.weapon && l.inv.armor == r.armor && l.player.level == c.player.level
            && l.player.atk == U16(15 + AtkOf(t, r.weapon.tid)) && l.player.def == U16(5 + DefOf(t, r.armor.tid))
  {
    hide Send, BagEntries, LoadedSlots, EquipMsg;
  }

  /** The same right after the load of a new session, whether or not anything is worn. */
  lemma LoadStatsIff(t: Data, c: State, r: Record)
    requires c.player.atk == NEW_PLAYER.atk && c.player.def == NEW_PLAYER.def
    ensures var l := LoadInventory(t, c, r);
            && (AtkFollows(t, l) <==> c.player.level == 1)
            && (DefFollows(t, l) <==> c.player.level == 1 || c.player.level == 0x8001)
  {
    hide LoadInventory, AtkOf, DefOf;
    LoadForm(t, c, r);
    ThreeBonus(U16(15 + AtkOf(t, r.weapon.tid)), c.player.level);
    BonusBase(15 + AtkOf(t, r.weapon.tid), 3 * (c.player.level - 1));
    TwoBonus(U16(5 + DefOf(t, r.armor.tid)), c.player.level);
    BonusBase(5 + DefOf(t, r.armor.tid), 2 * (c.player.level - 1));
  }

  /** So a new session's character enters the game with the expected attack and defence exactly at those levels. */
  lemma SelectStatsIff(t: Data, w: World, s: SessionId, charUid: uint64, r: Record, x: nat, y: nat)
    requires s in w.sessions && w.sessions[s].player.atk == NEW_PLAYER.atk && w.sessions[s].player.def == NEW_PLAYER.def
    ensures var v := OnCharSelect(t, w, s, charUid, Some(r), x, y);
            && s in v.sessions && v.sessions[s].player.level == r.level
            && v.sessions[s].player.maxExp == w.sessions[s].player.maxExp
            && (AtkFollows(t, v.sessions[s]) <==> r.level == 1)
            && (DefFollows(t, v.sessions[s]) <==> r.level == 1 || r.level == 0x8001)
  {
    hide Send, SendAllNpcs, SendPlayers, LoadInventory, BroadcastExcept, AtkFollows, DefFollows, OnCharSelect;
    var first := SendCharInfo(Entered(w.sessions[s], charUid, r, x, y));
    SentOnly(first, w.npcs, w.sessions, w.sessions.Keys - {s});
    var met := SendPlayers(SendAllNpcs(first, w.npcs), w.sessions, w.sessions.Keys - {s});
    SelectForm(t, w, s, charUid, r, x, y);
    LoadStatsIff(t, Send(met, Protocol.AttendanceInfo), r);
    LoadKeeps(t, Send(met, Protocol.AttendanceInfo), r);
    var c := Selected(t, w, s, charUid, r, x, y);
    SameFollows(t, LoadInventory(t, Send(met, Protocol.AttendanceInfo), r), c);
    ExceptedUntouched(Put(w, s, c), s, OtherInfo(c.player));
  }

  lemma SameFollows(t: Data, c: State, d: State)
    requires d.player == c.player && d.inv == c.inv
    ensures AtkFollows(t, d) == AtkFollows(t, c) && DefFollows(t, d) == DefFollows(t, c)
  {
  }

  // ---------------------------------------------------------------- what growing keeps

  /** Levels move attack by three, defence by two and maximum hit points by twenty each, so these stay. */
  predicate SameRests(p: Player, q: Player) {
    && U16(q.atk - 3 * q.level) == U16(p.atk - 3 * p.level)
    && U16(q.def - 2 * q.level) == U16(p.def - 2 * p.level)
    && U16(q.maxHp - 20 * q.level) == U16(p.maxHp - 20 * p.level)
  }

  /** After a turn of the level-up loop the threshold follows; without one, level and threshold are as before. */
  predicate Leveled(p: Player, q: Player, up: bool) {
    if up then ThresholdFollows(q) else q.level == p.level && q.maxExp == p.maxExp
  }

  lemma RestKept(x: uint16, level: uint16, n: nat, per: nat)
    ensures U16(U16(x + per * n) - per * U16(level + n)) == U16(x - per * level)
  {
    var i, j := (x + per * n) / 0x1_0000, (level + n) / 0x1_0000;
    assert U16(x + per * n) == x + per * n - 0x1_0000 * i && U16(level + n) == level + n - 0x1_0000 * j;
    MulOut(per, level, n, j);
    Shifted(x - per * level, per * j - i);
  }

  lemma MulOut(per: nat, level: int, n: int, j: int)
    ensures per * (level + n - 0x1_0000 * j) == per * level + per * n - 0x1_0000 * (per * j)
  {
  }

  lemma Shifted(x: int, k: int)
    ensures U16(x + 0x1_0000 * k) == U16(x)
  {
  }

  /** Whether the guard of the level-up loop is met by one of k awards. */
  predicate MeetsGuard(p: Player, exp: nat, gold: nat, k: nat)
    decreases k
  {
    k > 0 && (U64(p.exp + exp) >= p.maxExp || MeetsGuard(Paid(p, exp, gold), exp, gold, k - 1))
  }

  lemma PaidGrows(p: Player, exp: nat, gold: nat)
    ensures SameRests(p, Paid(p, exp, gold)) && Leveled(p, Paid(p, exp, gold), U64(p.exp + exp) >= p.maxExp)
  {
    hide U16;
    var g := p.(exp := U64(p.exp + exp), gold := U64(p.gold + gold));
    var n := Turns(g);
    LevelUpStats(g);
    RestKept(p.atk, p.level, n, 3);
    RestKept(p.def, p.level, n, 2);
    RestKept(p.maxHp, p.level, n, 20);
  }

  lemma {:induction false} PaidTimesGrows(p: Player, exp: nat, gold: nat, k: nat)
    ensures SameRests(p, PaidTimes(p, exp, gold, k))
    ensures Leveled(p, PaidTimes(p, exp, gold, k), MeetsGuard(p, exp, gold, k))
    decreases k
  {
    hide Paid, U16;
    if k > 0 {
      PaidGrows(p, exp, gold);
      PaidTimesGrows(Paid(p, exp, gold), exp, gold, k - 1);
    }
  }

  // ---------------------------------------------------------------- one step

  /** An award of this step to session o meets the guard of the level-up loop. */
  predicate LevelsUp(t: Data, w: World, e: Event, o: SessionId)
    requires o in w.sessions
  {
    var p := w.sessions[o].player;
    || (e.CompleteQuest? && e.s == o && Completable(t, w.sessions[o], e.quest)
        && U64(p.exp + FindQuest(t, e.quest).value.rewardExp) >= p.maxExp)
    || (Kills(w, e) && var n := |Takers(w, e.s)|;
        n > 0 && MeetsGuard(p, Part(NPC_EXP, n), Part(NPC_GOLD, n), Listings(Takers(w, e.s), o)))
  }

  /** The step puts a weapon, or an armor, on session o. */
  predicate Rearms(t: Data, w: World, e: Event, o: SessionId, kind: Kind)
    requires o in w.sessions
  {
    && e.EquipItem? && e.s == o
    && Worn(t, w.sessions[o], e.slot).Some? && Worn(t, w.sessions[o], e.slot).value.kind == kind
  }

  predicate SameAtk(c: State, d: State) {
    d.inv.weapon == c.inv.weapon
    && U16(d.player.atk - 3 * d.player.level) == U16(c.player.atk - 3 * c.player.level)
  }

  predicate SameDef(c: State, d: State) {
    d.inv.armor == c.inv.armor
    && U16(d.player.def - 2 * d.player.level) == U16(c.player.def - 2 * c.player.level)
  }

  predicate SameHp(c: State, d: State) {
    U16(d.player.maxHp - 20 * d.player.level) == U16(c.player.maxHp - 20 * c.player.level)
  }

  /** What one step does to session o's stats. */
  ghost predicate Grown(t: Data, w: World, e: Event, o: SessionId, d: State)
    requires o in w.sessions
  {
    var c := w.sessions[o];
    && Leveled(c.player, d.player, LevelsUp(t, w, e, o)) && SameHp(c, d)
    && (Rearms(t, w, e, o, Weapon) || SameAtk(c, d)) && (Rearms(t, w, e, o, Armor) || SameDef(c, d))
  }

  /** Stats, level, threshold and equipment all stay. */
  predicate Untouched(c: State, d: State) {
    && d.player.level == c.player.level && d.player.maxExp == c.player.maxExp && d.player.maxHp == c.player.maxHp
    && d.player.atk == c.player.atk && d.player.def == c.player.def
    && d.inv.weapon == c.inv.weapon && d.inv.armor == c.inv.armor
  }

  lemma ReceiveKeepsWorn(t: Data, c: State, tid: uint16, uid: uint64)
    ensures Untouched(c, Receive(t, c, tid, uid)) && Receive(t, c, tid, uid).player == c.player
  {
    hide SlotMsg;
  }

  /** A quest's rewards pay like any other award and leave the equipment alone. */
  lemma RewardsPay(t: Data, c: State, q: QuestData, uid: uint64)
    ensures var d := Rewards(t, c, q, uid);
            && d.player == Paid(c.player, q.rewardExp, q.rewardGold)
            && d.inv.weapon == c.inv.weapon && d.inv.armor == c.inv.armor
  {
    hide Receive, Levels, U16, U32, U64, Turns;
    var gained := Gain(c, q.rewardExp, q.rewardGold);
    ReceiveKeepsWorn(t, gained, q.rewardItemId, uid);
    var given := Receive(t, gained, q.rewardItemId, uid);
    LevelUpsPlayer(Send(given, Protocol.ExpUpdate(U32(given.player.exp), given.player.maxExp)));
  }

  lemma CompleteGrown(t: Data, w: World, e: Event, o: SessionId)
    requires e.CompleteQuest? && e.s == o && o in w.sessions
    ensures Grown(t, w, e, o, OnQuestComplete(t, w.sessions[o], e.quest, e.itemUid))
  {
    hide Rewards, U16, U64, Paid;
    var c := w.sessions[o];
    if Completable(t, c, e.quest) {
      var q := FindQuest(t, e.quest).value;
      RewardsPay(t, c.(quests := c.quests[e.quest := c.quests[e.quest].(status := 3)]), q, e.itemUid);
      PaidGrows(c.player, q.rewardExp, q.rewardGold);
    }
  }

  lemma SharesGrown(t: Data, w: World, e: Event, o: SessionId, d: State, n: nat, k: nat)
    requires Kills(w, e) && o in w.sessions && n == |Takers(w, e.s)| > 0 && k == Listings(Takers(w, e.s), o)
    requires d.player == PaidTimes(w.sessions[o].player, Part(NPC_EXP, n), Part(NPC_GOLD, n), k)
    requires d.inv.weapon == w.sessions[o].inv.weapon && d.inv.armor == w.sessions[o].inv.armor
    ensures Grown(t, w, e, o, d)
  {
    hide PaidTimes, U16, MeetsGuard, Takers, Listings, Target, HpAfter;
    PaidTimesGrows(w.sessions[o].player, Part(NPC_EXP, n), Part(NPC_GOLD, n), k);
  }

  lemma KillGrown(t: Data, w: World, e: Event, o: SessionId)
    requires Enabled(w, e) && Kills(w, e) && o in w.sessions
    ensures o in Step(t, w, e).sessions && Grown(t, w, e, o, Step(t, w, e).sessions[o])
  {
    hide Step, PaidTimes, TickedTimes, Receive, Dropped, Takers, Listings, Grown, Target, HpAfter;
    KillShares(t, w, e, o);
    ReceiveKeepsWorn(t, w.sessions[o], Dropped(t.drops, e.luck.rand), e.luck.itemUid);
    SharesGrown(t, w, e, o, Step(t, w, e).sessions[o], |Takers(w, e.s)|, Listings(Takers(w, e.s), o));
  }

  lemma AttackGrown(t: Data, w: World, e: Event, o: SessionId)
    requires Enabled(w, e) && e.Attack? && o in w.sessions
    ensures o in Step(t, w, e).sessions && Grown(t, w, e, o, Step(t, w, e).sessions[o])
  {
    hide Killed, U16, Takers, Grown;
    if Kills(w, e) {
      hide Step, Kills;
      KillGrown(t, w, e, o);
    } else {
      UntouchedGrown(t, w, e, o, Step(t, w, e).sessions[o]);
    }
  }

  lemma EquipGrown(t: Data, w: World, e: Event, o: SessionId)
    requires e.EquipItem? && e.s == o && o in w.sessions
    ensures Grown(t, w, e, o, OnItemEquip(t, w.sessions[o], e.slot))
  {
    hide OnItemEquip, U16, Worn;
    EquipForm(t, w.sessions[o], e.slot);
  }

  lemma TradeUntouched(t: Data, c: State, slot: nat, tid: uint16, uid: uint64)
    ensures Untouched(c, OnShopBuy(t, c, tid, uid)) && Untouched(c, OnShopSell(t, c, slot))
  {
    hide SlotMsg, FindEmpty, Price;
  }

  lemma UseUntouched(t: Data, w: World, s: SessionId, slot: nat)
    requires s in w.sessions
    ensures Untouched(w.sessions[s], OnItemUse(t, w, s, slot).sessions[s])
  {
    hide BroadcastExcept, UsedMsg, SlotMsg;
    match Usable(t, w.sessions[s], slot)
    case None =>
    case Some(it) =>
      var c := Consume(w.sessions[s], slot, it);
      BroadcastOnlySent(Put(w, s, c), None, UsedMsg(c.player, it));
  }

  lemma UntouchedGrown(t: Data, w: World, e: Event, o: SessionId, d: State)
    requires o in w.sessions && Untouched(w.sessions[o], d) && !Kills(w, e) && !(e.CompleteQuest? && e.s == o)
    ensures Grown(t, w, e, o, d)
  {
    hide U16;
  }

  lemma StepGrown(t: Data, w: World, e: Event, o: SessionId)
    requires Enabled(w, e) && o in w.sessions && Continues(e, o) && w.nextSessionId !in w.sessions
    ensures o in Step(t, w, e).sessions && Grown(t, w, e, o, Step(t, w, e).sessions[o])
  {
    hide OnItemUse, OnItemEquip, OnShopBuy, OnShopSell, OnQuestComplete, Grown;
    StepLive(t, w, e, o);
    var d := Step(t, w, e).sessions[o];
    if e.Attack? {
      hide Step;
      AttackGrown(t, w, e, o);
    } else if e.CompleteQuest? && e.s == o {
      CompleteGrown(t, w, e, o);
    } else if e.EquipItem? && e.s == o {
      EquipGrown(t, w, e, o);
    } else {
      if e.UseItem? && e.s == o {
        UseUntouched(t, w, o, e.slot);
      } else if e.Sell? && e.s == o {
        TradeUntouched(t, w.sessions[o], e.slot, 0, 0);
      } else if e.Buy? && e.s == o {
        TradeUntouched(t, w.sessions[o], 0, e.tid, e.itemUid);
      } else if !e.CompleteQuest? {
        hide Step;
        PlainStep(t, w, e, o);
      }
      UntouchedGrown(t, w, e, o, d);
    }
  }

  // ---------------------------------------------------------------- a whole stay

  /** Nothing of this kind is put on session o during the run. */
  ghost predicate NeverRearms(t: Data, w: World, es: seq<Event>, rules: Rules, o: SessionId, kind: Kind)
    requires StayingRun(t, w, es, rules, o)
    decreases |es|
  {
    if es == [] then true
    else
      StepStays(t, w, es, rules, o);
      !Rearms(t, w, es[0], o, kind) && NeverRearms(t, Step(t, w, es[0]), es[1..], rules, o, kind)
  }

  /** Some award of the run to session o meets the guard of the level-up loop. */
  ghost predicate EverLevelsUp(t: Data, w: World, es: seq<Event>, rules: Rules, o: SessionId)
    requires StayingRun(t, w, es, rules, o)
    decreases |es|
  {
    if es == [] then false
    else
      StepStays(t, w, es, rules, o);
      LevelsUp(t, w, es[0], o) || EverLevelsUp(t, Step(t, w, es[0]), es[1..], rules, o)
  }

  /** Over a whole stay in the game, whatever happens: the level's share of maximum hit points, of attack as long as no
      weapon and of defence as long as no armor is put on, is all that ever changes, modulo their width. */
  lemma {:induction false} StayKeepsRests(t: Data, w: World, es: seq<Event>, rules: Rules, o: SessionId)
    requires StayingRun(t, w, es, rules, o)
    ensures o in After(t, w, es, rules).sessions
    ensures var c, d := w.sessions[o], After(t, w, es, rules).sessions[o];
            && SameHp(c, d)
            && (NeverRearms(t, w, es, rules, o, Weapon) ==> SameAtk(c, d))
            && (NeverRearms(t, w, es, rules, o, Armor) ==> SameDef(c, d))
    decreases |es|
  {
    hide Step, Invariant, Disciplined, U16, Rearms, LevelsUp;
    if es != [] {
      StepStays(t, w, es, rules, o);
      StepGrown(t, w, es[0], o);
      StayKeepsRests(t, Step(t, w, es[0]), es[1..], rules, o);
    }
  }

  lemma RestDecides(t: Data, c: State, d: State)
    ensures SameAtk(c, d) ==> (AtkFollows(t, d) <==> AtkFollows(t, c))
    ensures SameDef(c, d) ==> (DefFollows(t, d) <==> DefFollows(t, c))
  {
    hide FindItem;
    var atk: int := AtkOf(t, c.inv.weapon.tid);
    var def: int := DefOf(t, c.inv.armor.tid);
    RestIff(c.player.atk, 12 + atk, 3 * c.player.level);
    RestIff(d.player.atk, 12 + atk, 3 * d.player.level);
    RestIff(c.player.def, 3 + def, 2 * c.player.level);
    RestIff(d.player.def, 3 + def, 2 * d.player.level);
  }

  lemma RestIff(x: uint16, base: int, bonus: int)
    ensures x == U16(base + bonus) <==> U16(x - bonus) == U16(base)
  {
    if x == U16(base + bonus) {
      var k := (base + bonus) / 0x1_0000;
      assert x - bonus == base + 0x1_0000 * (-k);
      Shifted(base, -k);
    } else if U16(x - bonus) == U16(base) {
      var i, j := (x - bonus) / 0x1_0000, base / 0x1_0000;
      assert x == base + bonus + 0x1_0000 * (i - j);
      Shifted(base + bonus, i - j);
    }
  }

  /** Attack follows from level and weapon at any later time exactly when it did at the start, as long as no weapon is
      put on; defence and armor alike. With the two lemmas on equipping and loading: exactly when the level was 1 at the
      last load or equip, for defence also 32769. */
  lemma StatsOverStay(t: Data, w: World, es: seq<Event>, rules: Rules, o: SessionId)
    requires StayingRun(t, w, es, rules, o)
    ensures o in After(t, w, es, rules).sessions
    ensures var c, d := w.sessions[o], After(t, w, es, rules).sessions[o];
            && (NeverRearms(t, w, es, rules, o, Weapon) ==> (AtkFollows(t, d) <==> AtkFollows(t, c)))
            && (NeverRearms(t, w, es, rules, o, Armor) ==> (DefFollows(t, d) <==> DefFollows(t, c)))
  {
    hide AtkFollows, DefFollows, SameAtk, SameDef, Step;
    StayKeepsRests(t, w, es, rules, o);
    RestDecides(t, w.sessions[o], After(t, w, es, rules).sessions[o]);
  }

  /** After a weapon is put on, whatever happens until the next: attack follows exactly when the level was 1 then. */
  lemma AtkSinceEquip(t: Data, w: World, es: seq<Event>, rules: Rules, o: SessionId)
    requires es != [] && StayingRun(t, w, es, rules, o) && Rearms(t, w, es[0], o, Weapon)
    requires StayingRun(t, Step(t, w, es[0]), es[1..], rules, o)
    requires NeverRearms(t, Step(t, w, es[0]), es[1..], rules, o, Weapon)
    ensures o in After(t, w, es, rules).sessions
    ensures AtkFollows(t, After(t, w, es, rules).sessions[o]) <==> w.sessions[o].player.level == 1
  {
    hide AtkFollows, OnItemEquip, Invariant;
    EquipAtkIff(t, w.sessions[o], es[0].slot);
    StatsOverStay(t, Step(t, w, es[0]), es[1..], rules, o);
  }

  /** After an armor is put on, defence alike. */
  lemma DefSinceEquip(t: Data, w: World, es: seq<Event>, rules: Rules, o: SessionId)
    requires es != [] && StayingRun(t, w, es, rules, o) && Rearms(t, w, es[0], o, Armor)
    requires StayingRun(t, Step(t, w, es[0]), es[1..], rules, o)
    requires NeverRearms(t, Step(t, w, es[0]), es[1..], rules, o, Armor)
    ensures o in After(t, w, es, rules).sessions
    ensures DefFollows(t, After(t, w, es, rules).sessions[o])
       <==> w.sessions[o].player.level == 1 || w.sessions[o].player.level == 0x8001
  {
    hide DefFollows, OnItemEquip, Invariant;
    EquipDefIff(t, w.sessions[o], es[0].slot);
    StatsOverStay(t, Step(t, w, es[0]), es[1..], rules, o);
  }

  /** Over a whole stay the threshold follows from the level exactly when it did at the start, as for a character loaded
      at level 1, or some award has met the guard of the level-up loop since. */
  lemma {:induction false} ThresholdOverStay(t: Data, w: World, es: seq<Event>, rules: Rules, o: SessionId)
    requires StayingRun(t, w, es, rules, o)
    ensures o in After(t, w, es, rules).sessions
    ensures ThresholdFollows(After(t, w, es, rules).sessions[o].player)
       <==> ThresholdFollows(w.sessions[o].player) || EverLevelsUp(t, w, es, rules, o)
    decreases |es|
  {
    hide Step, Invariant, Disciplined, LevelsUp, Rearms, U16;
    if es != [] {
      StepStays(t, w, es, rules, o);
      StepGrown(t, w, es[0], o);
      ThresholdOverStay(t, Step(t, w, es[0]), es[1..], rules, o);
    }
  }

  /** From the select of a new session on: attack until a weapon and defence until an armor is put on follow exactly for
      a character loaded at level 1 (defence also at 32769), and the threshold exactly for level 1 or once some award
      has met the guard of the level-up loop. */
  lemma SinceSelect(t: Data, w: World, o: SessionId, charUid: uint64, r: Record, x: nat, y: nat, v: World,
          es: seq<Event>, rules: Rules)
    requires o in w.sessions && w.sessions[o].player == NEW_PLAYER.(accountUid := w.sessions[o].player.accountUid)
    requires v == OnCharSelect(t, w, o, charUid, Some(r), x, y) && StayingRun(t, v, es, rules, o)
    ensures o in After(t, v, es, rules).sessions
    ensures var d := After(t, v, es, rules).sessions[o];
            && (NeverRearms(t, v, es, rules, o, Weapon) ==> (AtkFollows(t, d) <==> r.level == 1))
            && (NeverRearms(t, v, es, rules, o, Armor) ==> (DefFollows(t, d) <==> r.level == 1 || r.level == 0x8001))
            && (ThresholdFollows(d.player) <==> r.level == 1 || EverLevelsUp(t, v, es, rules, o))
  {
    hide AtkFollows, DefFollows, OnCharSelect, Step, StayingRun;
    SelectStatsIff(t, w, o, charUid, r, x, y);
    StatsOverStay(t, v, es, rules, o);
    ThresholdOverStay(t, v, es, rules, o);
  }

  // ---------------------------------------------------------------- inputs that fail

  const RUSTY := InvSlot(9, 1)

  /** A level-1 character in the game with the shipped Rusty Sword in its first slot. */
  const ARMED := NEW_SESSION.(player := NEW_PLAYER.(accountUid := 1, charUid := 1, loggedIn := true),
                              inv := EMPTY_INVENTORY.(slots := EMPTY_INVENTORY.slots[0 := RUSTY]))

  lemma OneLevel(c: State)
    requires c.player.exp == 0 && c.player.maxExp == 100 && c.player.level == 1 && c.player.atk <= 100
    ensures var r := Award(c, 100, 0).player; r.level == 2 && r.atk == c.player.atk + 3
    ensures Award(c, 100, 0).inv == c.inv
  {
    AwardPlayer(c, 100, 0);
    var p := c.player.(exp := 100);
    assert U64(c.player.exp + 100) == 100 && U64(c.player.gold + 0) == c.player.gold;
    assert LevelOnce(p).exp == 0 && LevelOnce(p).maxExp == 200;
    assert Levels(p) == Levels(LevelOnce(p)) == LevelOnce(p);
  }

  lemma SwordWorn(c: State)
    requires c.inv.slots[0] == RUSTY
    ensures var r := OnItemEquip(SHIPPED, c, 0);
            r.inv.weapon == RUSTY && r.player == c.player.(atk := 20)
  {
    hide Send, SlotMsg, EquipMsg;
    assert FindItem(SHIPPED, 1) == Some(SHIPPED.items[0]);
  }

  /** Level 2 and then the Rusty Sword give attack 20, the sword and then the level 23: same level, same weapon. */
  lemma EquipOrderMatters()
    ensures var one := OnItemEquip(SHIPPED, Award(ARMED, 100, 0), 0);
            var other := Award(OnItemEquip(SHIPPED, ARMED, 0), 100, 0);
            && one.player.level == 2 == other.player.level && one.inv.weapon == RUSTY == other.inv.weapon
            && one.player.atk == 20 && other.player.atk == 23
            && !AtkFollows(SHIPPED, one) && AtkFollows(SHIPPED, other)
  {
    hide Award, OnItemEquip;
    OneLevel(ARMED);
    SwordWorn(Award(ARMED, 100, 0));
    SwordWorn(ARMED);
    OneLevel(OnItemEquip(SHIPPED, ARMED, 0));
    assert FindItem(SHIPPED, 1) == Some(SHIPPED.items[0]);
  }

  /** A level-2 character loaded with that sword has attack 20 as well, without having equipped anything. */
  lemma LoadForgetsLevels()
    ensures var r := Record(2, 0, 0, "a", [RUSTY], RUSTY, NO_ITEM);
            var l := LoadInventory(SHIPPED, Entered(NEW_SESSION, 1, r, 0, 0), r);
            l.player.level == 2 && l.player.atk == 20 && !AtkFollows(SHIPPED, l)
  {
    var r := Record(2, 0, 0, "a", [RUSTY], RUSTY, NO_ITEM);
    var c := Entered(NEW_SESSION, 1, r, 0, 0);
    hide Send, EquipMsg, BagEntries, LoadedSlots;
    LoadStatsIff(SHIPPED, c, r);
    assert FindItem(SHIPPED, 1) == Some(SHIPPED.items[0]);
  }
}

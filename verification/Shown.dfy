/** What a client shows of gold, experience and an NPC's hit points: exactly when it is what the server has. */
module Shown {
  import opened Machine
  import opened Tables
  import opened Protocol
  import opened Client
  import opened Character
  import opened Replica
  import opened Server
  import opened Progress
  import opened Replication
  import opened Runs
  import opened Effects
  import opened Combat
  import NpcReplica

  /** The view of a client that has handled its whole log. */
  function Display(c: State): View { Replay(c.sent) }

  lemma Replayed(c: State, ms: seq<Msg>)
    requires c.connected
    ensures Replay(Log(c, ms)) == ApplyAll(Display(c), ms)
  {
    var log := c.sent + ms;
    assert log[..|c.sent|] == c.sent && log[|c.sent|..] == ms;
    DrainedView(log, |c.sent|);
  }

  lemma {:induction false} ApplyBoth(v: View, ms: seq<Msg>, ns: seq<Msg>)
    ensures ApplyAll(v, ms + ns) == ApplyAll(ApplyAll(v, ms), ns)
    decreases |ms|
  {
    if ms == [] {
      assert ms + ns == ns;
    } else {
      assert (ms + ns)[1..] == ms[1..] + ns;
      ApplyBoth(Apply(v, ms[0]), ms[1..], ns);
    }
  }

  lemma ApplyOne(v: View, m: Msg)
    ensures ApplyAll(v, [m]) == Apply(v, m)
  {
    assert ApplyAll(Apply(v, m), []) == Apply(v, m);
  }

  // ---------------------------------------------------------------- an NPC's hit points

  lemma HitTold(t: Data, w: World, s: SessionId, uid: nat, luck: Luck, i: nat)
    requires Enabled(w, Attack(s, uid, luck)) && w.sessions[s].connected
    requires InReachOf(w.npcs, uid, w.sessions[s].player, i) && Struck(w, s, i).npcs[i].hp > 0
    requires uid in Display(w.sessions[s]).npcs
    ensures var v := Step(t, w, Attack(s, uid, luck));
            && s in v.sessions && uid in Display(v.sessions[s]).npcs && i < |v.npcs|
            && Display(v.sessions[s]).npcs[uid].hp == v.npcs[i].hp
  {
    assert i < |w.npcs| && w.npcs[i].uid == uid;
    hide Step, InReachOf, Log, Avenged, Replay;
    AttackEffect(t, w, s, uid, luck);
    var c := w.sessions[s];
    var m := AttackResult(true, uid, if c.player.atk >= 3 then c.player.atk - 2 else 1, Struck(w, s, i).npcs[i].hp);
    Replayed(c, [m]);
    ApplyOne(Display(c), m);
  }

  /** In every reachable state a hit that leaves hit points over is shown to the attacker exactly. */
  lemma HitShown(t: Data, w: World, es: seq<Event>, rules: Rules, v: World, s: SessionId, uid: nat, luck: Luck, i: nat)
    requires (rules.disciplined ==> WellFormed(t)) && Initial(w) && Run(t, w, es, rules) && v == After(t, w, es, rules)
    requires Enabled(v, Attack(s, uid, luck)) && v.sessions[s].connected && v.sessions[s].player.loggedIn
    requires InReachOf(v.npcs, uid, v.sessions[s].player, i) && Struck(v, s, i).npcs[i].hp > 0
    ensures var u := Step(t, v, Attack(s, uid, luck));
            && s in u.sessions && uid in Display(u.sessions[s]).npcs && i < |u.npcs|
            && Display(u.sessions[s]).npcs[uid].hp == u.npcs[i].hp
  {
    assert i < |v.npcs| && v.npcs[i].alive && v.npcs[i].uid == uid;
    hide Step, After, Run, Initial, InReachOf, Mirrors, Replay, Struck;
    var c := v.sessions[s];
    NpcReplica.NpcReplicas(t, w, es, rules, s, |c.sent|);
    assert c.sent[..|c.sent|] == c.sent && c.sent[|c.sent|..] == [];
    assert Mirrors(Places(Display(c).npcs), v.npcs);
    MirroredAt(Display(c), v.npcs, i);
    HitTold(t, v, s, uid, luck, i);
  }

  lemma MirroredAt(v: View, npcs: seq<Npc>, i: nat)
    requires i < |npcs| && npcs[i].alive && Mirrors(Places(v.npcs), npcs)
    ensures npcs[i].uid in v.npcs
  {
  }

  /** After a kill every connected client in the game shows the replacement with all its hit points. */
  lemma SpawnShown(t: Data, w: World, s: SessionId, i: nat, luck: Luck, v: World, o: SessionId)
    requires s in w.sessions && i < |w.npcs| && Avenged(t, w, s, i, luck, v) && o in w.sessions
    requires w.sessions[o].connected && w.sessions[o].player.loggedIn
    ensures o in v.sessions && w.nextNpcUid in Display(v.sessions[o]).npcs
    ensures Display(v.sessions[o]).npcs[w.nextNpcUid] == NpcView(luck.x % 20, luck.y % 20, 30, 30)
  {
    hide PaidTimes, Avenged, PayoutLog, TickLog, PocketLog, Dropped;
    var c := w.sessions[o];
    PaidOffIs(t, w, s, i, luck, v, o);
    var loot := if o == s then TickLog(t, c.quests, c.quests.Keys) + PocketLog(t, c.inv, Dropped(t.drops, luck.rand))
                else [];
    var before := PayoutLog(t, w, s, w.npcs[i], o) + loot;
    var m := NpcSpawn(w.nextNpcUid, luck.x % 20, luck.y % 20, 30, 30);
    assert v.sessions[o].sent == c.sent + before + [m];
    ReplaySnoc(c.sent + before, m);
  }

  // ---------------------------------------------------------------- gold

  /** Messages that leave the gold shown alone. */
  predicate Purseless(m: Msg) {
    m.AttackResult? || m.ExpUpdate? || m.LevelUp? || m.QuestProgressed? || m.ItemDrop? || m.NpcSpawn?
  }

  predicate AllPurseless(ms: seq<Msg>) { forall k | 0 <= k < |ms| :: Purseless(ms[k]) }

  lemma {:induction false} PurselessKeep(v: View, ms: seq<Msg>)
    requires AllPurseless(ms)
    ensures ApplyAll(v, ms).me.gold == v.me.gold
    decreases |ms|
  {
    if ms != [] { PurselessKeep(Apply(v, ms[0]), ms[1..]); }
  }

  lemma {:induction false} TicksPurseless(t: Data, quests: map<uint16, Quest>, ids: set<uint16>)
    ensures AllPurseless(TickLog(t, quests, ids))
    decreases |ids|
  {
    if ids != {} { TicksPurseless(t, quests, ids - {Least(ids)}); }
  }

  lemma {:induction false} SharesPurseless(t: Data, p: Player, quests: map<uint16, Quest>, exp: nat, gold: nat,
          k: nat, killer: bool)
    ensures AllPurseless(ShareLog(t, p, quests, exp, gold, k, killer))
    decreases k
  {
    hide Levels, TickedAll, TickLog;
    if k > 0 {
      TicksPurseless(t, quests, quests.Keys);
      var q := Levels(Richer(p, exp, gold));
      SharesPurseless(t, q, if killer then quests else TickedAll(t, quests), exp, gold, k - 1, killer);
    }
  }

  lemma {:induction false} PaidTimesGold(p: Player, exp: nat, gold: nat, k: nat)
    ensures PaidTimes(p, exp, gold, k).gold == (p.gold + k * gold) % 0x1_0000_0000_0000_0000
    decreases k
  {
    hide Levels, Paid;
    if k > 0 {
      PaidGold(p, exp, gold);
      PaidTimesGold(Paid(p, exp, gold), exp, gold, k - 1);
      assert k * gold == gold + (k - 1) * gold;
      GoldTwice(p.gold, gold, (k - 1) * gold);
    }
  }

  lemma PaidGold(p: Player, exp: nat, gold: nat)
    ensures Paid(p, exp, gold).gold == (p.gold + gold) % 0x1_0000_0000_0000_0000
  {
    LevelUpStats(p.(exp := U64(p.exp + exp), gold := U64(p.gold + gold)));
  }

  lemma GoldTwice(x: int, a: int, b: int)
    ensures ((x + a) % 0x1_0000_0000_0000_0000 + b) % 0x1_0000_0000_0000_0000
         == (x + (a + b)) % 0x1_0000_0000_0000_0000
  {
  }

  /** The messages of a kill around its notice. */
  lemma KillGoldTold(t: Data, w: World, s: SessionId, n: Npc, luck: Luck, o: SessionId)
    requires o in w.sessions && |Band(w, s)| > 0 && w.sessions[o].player.loggedIn
    ensures var ms := KillLog(t, w, s, n, luck, o);
            ms != [] && ms[0] == NpcDeath(n.uid, 30, 10) && AllPurseless(ms[1..])
  {
    hide ShareLog, TickLog, Dropped;
    var c, size := w.sessions[o], |Band(w, s)|;
    SharesPurseless(t, c.player, c.quests, Part(30, size), Part(10, size), multiset(Band(w, s))[o], o == s);
    TicksPurseless(t, c.quests, c.quests.Keys);
  }

  /** Every kill adds ten to the gold every client in the game shows. */
  lemma KillGold(t: Data, w: World, s: SessionId, i: nat, luck: Luck, v: World, o: SessionId)
    requires s in w.sessions && i < |w.npcs| && Avenged(t, w, s, i, luck, v) && o in w.sessions
    requires w.sessions[o].connected && w.sessions[o].player.loggedIn
    ensures o in v.sessions
    ensures Display(v.sessions[o]).me.gold == (Display(w.sessions[o]).me.gold + 10) % 0x1_0000_0000_0000_0000
  {
    hide PaidTimes, KillLog, Avenged, Replay, AllPurseless;
    var c := w.sessions[o];
    PaidOffIs(t, w, s, i, luck, v, o);
    var ms := KillLog(t, w, s, w.npcs[i], luck, o);
    KillGoldTold(t, w, s, w.npcs[i], luck, o);
    Replayed(c, ms);
    PurselessKeep(Apply(Display(c), ms[0]), ms[1..]);
  }

  /** So a client whose gold was in step stays in step exactly when its session was given all of the ten: for a killer
      without a party, but for no bystander and no member of a party of two to four. */
  lemma GoldInStepIff(t: Data, w: World, s: SessionId, i: nat, luck: Luck, v: World, o: SessionId)
    requires s in w.sessions && i < |w.npcs| && Avenged(t, w, s, i, luck, v) && o in w.sessions
    requires w.sessions[o].connected && w.sessions[o].player.loggedIn
    requires Display(w.sessions[o]).me.gold == w.sessions[o].player.gold
    ensures o in v.sessions
    ensures Display(v.sessions[o]).me.gold == v.sessions[o].player.gold
       <==> multiset(Band(w, s))[o] * Part(10, |Band(w, s)|) == 10
    ensures Band(w, s) == [o] ==> Display(v.sessions[o]).me.gold == v.sessions[o].player.gold
    ensures o !in Band(w, s) ==> Display(v.sessions[o]).me.gold != v.sessions[o].player.gold
  {
    hide PaidTimes, KillLog, Avenged, Replay;
    var c := w.sessions[o];
    var band: seq<SessionId> := Band(w, s);
    KillGold(t, w, s, i, luck, v, o);
    PaidOffIs(t, w, s, i, luck, v, o);
    var k := multiset(band)[o];
    PaidTimesGold(c.player, Part(30, |band|), Part(10, |band|), k);
    ListingsAtMost(band, o);
    assert 0 <= k * Part(10, |band|) <= 10 by { ShareBound(|band|, k); }
    SameSum(c.player.gold, k * Part(10, |band|));
  }

  lemma {:induction false} ListingsAtMost(members: seq<SessionId>, o: SessionId)
    ensures multiset(members)[o] <= |members|
    decreases |members|
  {
    if members != [] {
      assert members == [members[0]] + members[1..];
      ListingsAtMost(members[1..], o);
    }
  }

  lemma ShareBound(n: nat, k: nat)
    requires 0 < n && k <= n
    ensures 0 <= k * Part(10, n) <= 10
  {
    SharesLose(10, n);
    assert k * Part(10, n) <= n * Part(10, n);
  }

  lemma SameSum(x: uint64, a: nat)
    requires a <= 10
    ensures (x + 10) % 0x1_0000_0000_0000_0000 == (x + a) % 0x1_0000_0000_0000_0000 <==> a == 10
  {
  }

  /** Any answer to a purchase puts the gold shown in step. */
  lemma BuyGoldShown(t: Data, w: World, s: SessionId, tid: uint16, uid: uint64)
    requires Enabled(w, Buy(s, tid, uid)) && w.sessions[s].connected
    ensures var v := Step(t, w, Buy(s, tid, uid));
            s in v.sessions && Display(v.sessions[s]).me.gold == v.sessions[s].player.gold
  {
    hide Step, Replay, FindItem, ItemName, FindEmpty;
    BuyEffect(t, w, s, tid, uid);
    var c, d := w.sessions[s], Step(t, w, Buy(s, tid, uid)).sessions[s];
    var m := d.sent[|d.sent| - 1];
    assert d.sent == d.sent[..|d.sent| - 1] + [m];
    ReplaySnoc(d.sent[..|d.sent| - 1], m);
  }

  /** The answer to a sale does exactly when something was sold, or there is no gold: a failed sale reports 0. */
  lemma SellGoldShownIff(t: Data, w: World, s: SessionId, slot: nat)
    requires Enabled(w, Sell(s, slot)) && w.sessions[s].connected
    ensures var c, v := w.sessions[s], Step(t, w, Sell(s, slot));
            && s in v.sessions
            && (Display(v.sessions[s]).me.gold == v.sessions[s].player.gold
                <==> (slot < 20 && c.inv.slots[slot].tid != 0) || c.player.gold == 0)
  {
    hide Step, Replay, FindItem;
    SellEffect(t, w, s, slot);
    var c, d := w.sessions[s], Step(t, w, Sell(s, slot)).sessions[s];
    var m := d.sent[|d.sent| - 1];
    assert d.sent == d.sent[..|d.sent| - 1] + [m];
    ReplaySnoc(d.sent[..|d.sent| - 1], m);
  }

  // ---------------------------------------------------------------- experience

  /** Messages that leave the experience and the threshold shown alone. */
  predicate Artless(m: Msg) {
    m.AttackResult? || m.LevelUp? || m.QuestProgressed? || m.ItemDrop? || m.NpcSpawn? || m.NpcDeath?
  }

  predicate AllArtless(ms: seq<Msg>) { forall k | 0 <= k < |ms| :: Artless(ms[k]) }

  lemma {:induction false} ArtlessKeep(v: View, ms: seq<Msg>)
    requires AllArtless(ms)
    ensures ApplyAll(v, ms).me.exp == v.me.exp && ApplyAll(v, ms).me.maxExp == v.me.maxExp
    decreases |ms|
  {
    if ms != [] { ArtlessKeep(Apply(v, ms[0]), ms[1..]); }
  }

  lemma {:induction false} TicksArtless(t: Data, quests: map<uint16, Quest>, ids: set<uint16>)
    ensures AllArtless(TickLog(t, quests, ids))
    decreases |ids|
  {
    if ids != {} { TicksArtless(t, quests, ids - {Least(ids)}); }
  }

  /** The messages of a lone kill: the notice, the experience, and nothing about experience after that. */
  lemma LoneLogTold(t: Data, w: World, s: SessionId, n: Npc, luck: Luck)
    requires s in w.sessions && Band(w, s) == [s] && w.sessions[s].player.loggedIn
    ensures var ms, q := KillLog(t, w, s, n, luck, s), Richer(w.sessions[s].player, 30, 10);
            |ms| >= 2 && ms[0].NpcDeath? && ms[1] == ExpUpdate(q.exp % 0x1_0000_0000, q.maxExp) && AllArtless(ms[2..])
  {
    hide TickLog, Dropped, Levels;
    var c := w.sessions[s];
    assert multiset([s])[s] == 1;
    LoneLog(t, c, true);
    TicksArtless(t, c.quests, c.quests.Keys);
  }

  /** A player whose threshold fits its level gains at most one level by a kill: when thirty reach the threshold. */
  lemma LoneLevel(p: Player)
    requires p.maxExp == 100 * p.level && 0 < p.level < 0xFFFF && p.exp < p.maxExp
    ensures Paid(p, 30, 10).exp == if p.exp + 30 < p.maxExp then p.exp + 30 else p.exp + 30 - p.maxExp
    ensures Paid(p, 30, 10).maxExp == 100 * if p.exp + 30 < p.maxExp then p.level else p.level + 1
  {
    var q := p.(exp := p.exp + 30, gold := U64(p.gold + 10));
    if q.exp >= q.maxExp {
      var r := LevelOnce(q);
      assert r.exp < r.maxExp;
      assert Levels(q) == Levels(r) == r;
    }
  }

  /** A lone killer's client shows the experience and the threshold the server has exactly when the kill brought no
      level: they are sent before the level is taken off. */
  lemma ExpInStepIff(t: Data, w: World, s: SessionId, i: nat, luck: Luck, v: World)
    requires s in w.sessions && i < |w.npcs| && Avenged(t, w, s, i, luck, v) && Band(w, s) == [s]
    requires w.sessions[s].connected && w.sessions[s].player.loggedIn
    requires var p := w.sessions[s].player; p.maxExp == 100 * p.level && 0 < p.level < 0xFFFF && p.exp < p.maxExp
    ensures s in v.sessions
    ensures Display(v.sessions[s]).me.exp == v.sessions[s].player.exp
       <==> w.sessions[s].player.exp + 30 < w.sessions[s].player.maxExp
    ensures Display(v.sessions[s]).me.maxExp == v.sessions[s].player.maxExp
       <==> w.sessions[s].player.exp + 30 < w.sessions[s].player.maxExp
  {
    hide PaidTimes, KillLog, Avenged, Replay, Paid, AllArtless;
    var c := w.sessions[s];
    PaidOffIs(t, w, s, i, luck, v, s);
    var ms := KillLog(t, w, s, w.npcs[i], luck, s);
    LoneLogTold(t, w, s, w.npcs[i], luck);
    Replayed(c, ms);
    var shown := Apply(Apply(Display(c), ms[0]), ms[1]);
    assert ms[1..][0] == ms[1] && ms[1..][1..] == ms[2..];
    ArtlessKeep(shown, ms[2..]);
    assert multiset([s])[s] == 1;
    OneShare(c.player, 30, 10);
    LoneLevel(c.player);
  }

  // ---------------------------------------------------------------- a full status

  /** Messages that leave the screen and the player's own uid alone. */
  predicate AllFaceless(ms: seq<Msg>) { forall k | 0 <= k < |ms| :: !ms[k].CharList? && !ms[k].CharInfo? }

  lemma {:induction false} FacelessKeep(v: View, ms: seq<Msg>)
    requires AllFaceless(ms)
    ensures ApplyAll(v, ms).screen == v.screen && ApplyAll(v, ms).me.uid == v.me.uid
    decreases |ms|
  {
    if ms != [] { FacelessKeep(Apply(v, ms[0]), ms[1..]); }
  }

  /** A status sent to a player in the game puts its gold and experience in step. */
  lemma StatusShown(c: State, p: Player, before: seq<Msg>)
    requires c.connected && c.player.loggedIn && ScreenAgrees(Display(c), c.player) && AllFaceless(before)
    requires p.accountUid == c.player.accountUid
    ensures var v := Replay(Log(c, before + [ForSelf(p)]));
            v.me.gold == p.gold && v.me.exp == p.exp % 0x1_0000_0000
  {
    hide Replay, Log;
    Replayed(c, before + [ForSelf(p)]);
    ApplyBoth(Display(c), before, [ForSelf(p)]);
    ApplyOne(ApplyAll(Display(c), before), ForSelf(p));
    FacelessKeep(Display(c), before);
  }

  /** After using an item, equipping one or turning in a quest, gold and experience are shown as the server has them. */
  lemma UseStatusShown(t: Data, w: World, s: SessionId, slot: nat)
    requires Enabled(w, UseItem(s, slot)) && w.sessions[s].connected && w.sessions[s].player.loggedIn
    requires ScreenAgrees(Display(w.sessions[s]), w.sessions[s].player) && Step(t, w, UseItem(s, slot)) != w
    ensures var v := Step(t, w, UseItem(s, slot));
            && s in v.sessions && Display(v.sessions[s]).me.gold == v.sessions[s].player.gold
            && Display(v.sessions[s]).me.exp == v.sessions[s].player.exp % 0x1_0000_0000
  {
    hide Step, Log, Replay, FindItem;
    UseEffect(t, w, s, slot);
    var c, p := w.sessions[s], Step(t, w, UseItem(s, slot)).sessions[s].player;
    var it := FindItem(t, c.inv.slots[slot].tid).value;
    var before := [ItemUseResult(p.charUid, Clip(it.name, 31), it.hp), InventoryUpdate(SlotEntry(slot, 0, ""))];
    StatusShown(c, p, before);
    assert before + [ForSelf(p)] == [before[0]] + [before[1], ForSelf(p)];
  }

  lemma EquipStatusShown(t: Data, c: State, slot: nat, it: ItemData)
    requires c.connected && c.player.loggedIn && ScreenAgrees(Display(c), c.player) && slot < 20
    ensures var d := Equipped(t, c, slot, it);
            && Display(d).me.gold == d.player.gold && Display(d).me.exp == d.player.exp % 0x1_0000_0000
  {
    hide Log, Replay, ItemName;
    var p := Equipped(t, c, slot, it).player;
    var worn := if it.kind == Weapon then c.inv.weapon else c.inv.armor;
    var inv := Equipped(t, c, slot, it).inv;
    var m := EquipResult(true, p.atk, p.def, ItemName(t, inv.weapon.tid), ItemName(t, inv.armor.tid));
    var n := InventoryUpdate(SlotEntry(slot, worn.tid, if worn.tid == 0 then "" else ItemName(t, worn.tid)));
    StatusShown(c, p, [m, n]);
    assert [m, n] + [ForSelf(p)] == [m, n, ForSelf(p)];
  }

  lemma RewardStatusShown(t: Data, c: State, id: uint16, q: QuestData, uid: uint64)
    requires c.connected && c.player.loggedIn && ScreenAgrees(Display(c), c.player) && id in c.quests
    ensures var d := TurnedIn(t, c, id, q, uid);
            && Display(d).me.gold == d.player.gold && Display(d).me.exp == d.player.exp % 0x1_0000_0000
  {
    hide Replay, Levels, PayLog, PocketLog, Pocketed, Log;
    var g := Richer(c.player, q.rewardExp, q.rewardGold);
    var told := PocketLog(t, c.inv, q.rewardItemId) + PayLog(c.player, q.rewardExp, q.rewardGold);
    var m := QuestReward(true, id, q.rewardGold, q.rewardExp, q.rewardItemId);
    RewardFaceless(t, c, q);
    LevelUpStats(g);
    StatusShown(c, Levels(g), told);
    assert told + [ForSelf(Levels(g)), m] == told + [ForSelf(Levels(g))] + [m];
    Replayed(c, told + [ForSelf(Levels(g))]);
    Replayed(c, told + [ForSelf(Levels(g))] + [m]);
    ApplyBoth(Display(c), told + [ForSelf(Levels(g))], [m]);
    ApplyOne(ApplyAll(Display(c), told + [ForSelf(Levels(g))]), m);
  }

  lemma RewardFaceless(t: Data, c: State, q: QuestData)
    ensures AllFaceless(PocketLog(t, c.inv, q.rewardItemId) + PayLog(c.player, q.rewardExp, q.rewardGold))
  {
  }
}

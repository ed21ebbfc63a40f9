/** Items and gold over runs: every item is accounted for, and trading never makes money. */
module Economy {
  import opened Machine
  import opened Tables
  import opened Character
  import opened Server
  import opened Progress
  import opened Frames
  import opened Runs

  // ---------------------------------------------------------------- counting items

  /** Whether a place holds item x; empty places hold nothing. */
  function Is(place: InvSlot, x: InvSlot): nat { if place == x && x.tid != 0 then 1 else 0 }

  function Held(slots: seq<InvSlot>, x: InvSlot): nat {
    if slots == [] then 0 else Is(slots[0], x) + Held(slots[1..], x)
  }

  /** How often a session owns x: in the bag, as weapon, as armor. */
  function Copies(inv: Inventory, x: InvSlot): nat { Held(inv.slots, x) + Is(inv.weapon, x) + Is(inv.armor, x) }

  lemma {:induction false} HeldUpdate(slots: seq<InvSlot>, i: nat, item: InvSlot, x: InvSlot)
    requires i < |slots|
    ensures Held(slots[i := item], x) + Is(slots[i], x) == Held(slots, x) + Is(item, x)
    decreases |slots|
  {
    if i == 0 {
      assert slots[i := item][1..] == slots[1..];
    } else {
      assert slots[i := item][1..] == slots[1..][i - 1 := item];
      HeldUpdate(slots[1..], i - 1, item, x);
    }
  }

  /** The item a drop or reward puts into the bag; NO_ITEM when it is lost. */
  function Received(t: Data, c: State, tid: uint16, uid: uint64): InvSlot {
    if tid == 0 || FindEmpty(c.inv.slots) >= MAX_INVENTORY || FindItem(t, tid).None? then NO_ITEM else InvSlot(uid, tid)
  }

  predicate Buys(t: Data, c: State, tid: uint16) {
    match FindItem(t, tid)
    case Some(it) => c.player.gold >= it.price && FindEmpty(c.inv.slots) < MAX_INVENTORY
    case None => false
  }

  /** The item one event adds to session o's belongings, and the one it takes away. */
  function Added(t: Data, w: World, e: Event, o: SessionId): InvSlot
    requires o in w.sessions
  {
    var c := w.sessions[o];
    match e
    case Buy(s, tid, uid) => if s == o && Buys(t, c, tid) then InvSlot(uid, tid) else NO_ITEM
    case Attack(s, uid, luck) =>
      if s == o && Kills(w, e) then Received(t, c, Dropped(t.drops, luck.rand), luck.itemUid) else NO_ITEM
    case CompleteQuest(s, q, uid) =>
      if s == o && Completable(t, c, q) then Received(t, c, FindQuest(t, q).value.rewardItemId, uid) else NO_ITEM
    case _ => NO_ITEM
  }

  function Removed(t: Data, w: World, e: Event, o: SessionId): InvSlot
    requires o in w.sessions
  {
    var c := w.sessions[o];
    match e
    case Sell(s, slot) => if s == o && Occupied(c, slot) then c.inv.slots[slot] else NO_ITEM
    case UseItem(s, slot) => if s == o && Usable(t, c, slot).Some? then c.inv.slots[slot] else NO_ITEM
    case _ => NO_ITEM
  }

  // ---------------------------------------------------------------- one session's handlers

  lemma ReceiveItems(t: Data, c: State, tid: uint16, uid: uint64, x: InvSlot)
    ensures Copies(Receive(t, c, tid, uid).inv, x) == Copies(c.inv, x) + Is(Received(t, c, tid, uid), x)
  {
    hide ItemName;
    var slot := FindEmpty(c.inv.slots);
    if slot < MAX_INVENTORY { HeldUpdate(c.inv.slots, slot, InvSlot(uid, tid), x); }
  }

  /** Equipping swaps; nothing is lost and nothing appears. */
  lemma EquipItems(t: Data, c: State, slot: nat, x: InvSlot)
    ensures Copies(OnItemEquip(t, c, slot).inv, x) == Copies(c.inv, x)
  {
    hide ItemName, SlotMsg, EquipMsg, Held, Is;
    if slot < MAX_INVENTORY {
      HeldUpdate(c.inv.slots, slot, c.inv.weapon, x);
      HeldUpdate(c.inv.slots, slot, c.inv.armor, x);
    }
  }

  lemma BuyItems(t: Data, c: State, tid: uint16, uid: uint64, x: InvSlot)
    ensures Copies(OnShopBuy(t, c, tid, uid).inv, x) == Copies(c.inv, x) + if Buys(t, c, tid) then
            Is(InvSlot(uid, tid), x) else 0
  {
    hide ItemName;
    var slot := FindEmpty(c.inv.slots);
    if slot < MAX_INVENTORY { HeldUpdate(c.inv.slots, slot, InvSlot(uid, tid), x); }
  }

  lemma SellItems(t: Data, c: State, slot: nat, x: InvSlot)
    ensures Copies(OnShopSell(t, c, slot).inv, x) + (if Occupied(c, slot) then Is(c.inv.slots[slot], x) else 0)
            == Copies(c.inv, x)
  {
    hide ItemName;
    if slot < MAX_INVENTORY { HeldUpdate(c.inv.slots, slot, NO_ITEM, x); }
  }

  lemma ConsumeItems(c: State, slot: nat, it: ItemData, x: InvSlot)
    requires slot < MAX_INVENTORY
    ensures Copies(Consume(c, slot, it).inv, x) + Is(c.inv.slots[slot], x) == Copies(c.inv, x)
  {
    HeldUpdate(c.inv.slots, slot, NO_ITEM, x);
  }

  lemma AfterUseKeeps(t: Data, c: State, slot: nat)
    requires slot < MAX_INVENTORY
    ensures AfterUse(t, c, slot).inv == c.inv && AfterUse(t, c, slot).player == c.player
  {
  }

  lemma RewardsItems(t: Data, c: State, q: QuestData, uid: uint64, x: InvSlot)
    ensures Copies(Rewards(t, c, q, uid).inv, x) == Copies(c.inv, x) + Is(Received(t, c, q.rewardItemId, uid), x)
  {
    hide Receive, Received;
    var g := Gain(c, q.rewardExp, q.rewardGold);
    ReceiveItems(t, g, q.rewardItemId, uid, x);
    SameReceived(t, g, c, q.rewardItemId, uid);
  }

  lemma SameReceived(t: Data, c: State, d: State, tid: uint16, uid: uint64)
    requires c.inv == d.inv
    ensures Received(t, c, tid, uid) == Received(t, d, tid, uid)
  {
  }

  // ---------------------------------------------------------------- the ledger

  /** One step of any kind moves session o's items exactly by what it adds and removes. */
  lemma StepItems(t: Data, w: World, e: Event, o: SessionId, x: InvSlot)
    requires Enabled(w, e) && o in w.sessions && Continues(e, o) && w.nextSessionId !in w.sessions
    ensures var r := Step(t, w, e);
            && o in r.sessions
            && Copies(r.sessions[o].inv, x) + Is(Removed(t, w, e, o), x) == Copies(w.sessions[o].inv, x)
                + Is(Added(t, w, e, o), x)
  {
    hide Copies, OnAttack, OnCharSelect, OnItemUse, OnItemEquip, OnShopBuy, OnShopSell, OnQuestList, OnQuestAccept,
      OnQuestComplete, OnDisconnect, RemoveFromParty, OnPartyInvite, OnPartyAccept, Received, Usable, Buys, Occupied,
      Completable, Kills, Target, FindQuest, Dropped;
    StepLive(t, w, e, o);
    if e.Attack? {
      AttackItems(t, w, e, o, x);
    } else if e.UseItem? {
      UseItems(t, w, e.s, e.slot, o, x);
    } else if e.CompleteQuest? {
      CompleteItems(t, w.sessions[e.s], e.quest, e.itemUid, x);
    } else if e.EquipItem? && e.s == o {
      EquipItems(t, w.sessions[o], e.slot, x);
    } else if e.Buy? && e.s == o {
      BuyItems(t, w.sessions[o], e.tid, e.itemUid, x);
    } else if e.Sell? && e.s == o {
      SellItems(t, w.sessions[o], e.slot, x);
    } else {
      hide Step;
      PlainStep(t, w, e, o);
    }
  }

  lemma CompleteItems(t: Data, c: State, q: uint16, uid: uint64, x: InvSlot)
    ensures Copies(OnQuestComplete(t, c, q, uid).inv, x)
         == Copies(c.inv, x) + if Completable(t, c, q) then
             Is(Received(t, c, FindQuest(t, q).value.rewardItemId, uid), x) else 0
  {
    hide Copies, Rewards, Received;
    if Completable(t, c, q) {
      var done := c.(quests := c.quests[q := c.quests[q].(status := 3)]);
      RewardsItems(t, done, FindQuest(t, q).value, uid, x);
      SameReceived(t, done, c, FindQuest(t, q).value.rewardItemId, uid);
    }
  }

  lemma UseItems(t: Data, w: World, s: SessionId, slot: nat, o: SessionId, x: InvSlot)
    requires s in w.sessions && o in w.sessions
    ensures var r := OnItemUse(t, w, s, slot).sessions; var c := w.sessions[o];
            && o in r
            && Copies(r[o].inv, x) + (if s == o && Usable(t, c, slot).Some? then Is(c.inv.slots[slot], x) else 0)
                == Copies(c.inv, x)
  {
    hide Copies, Consume, AfterUse, BroadcastExcept, UsedMsg;
    match Usable(t, w.sessions[s], slot)
    case None =>
    case Some(it) =>
      var c := Consume(w.sessions[s], slot, it);
      var told := Broadcast(Put(w, s, c), UsedMsg(c.player, it));
      ConsumeItems(w.sessions[s], slot, it, x);
      BroadcastOnlySent(Put(w, s, c), None, UsedMsg(c.player, it));
      AfterUseKeeps(t, told.sessions[s], slot);
  }

  lemma AttackItems(t: Data, w: World, e: Event, o: SessionId, x: InvSlot)
    requires Enabled(w, e) && e.Attack? && o in w.sessions
    ensures var r := Step(t, w, e);
            && o in r.sessions
            && Copies(r.sessions[o].inv, x) == Copies(w.sessions[o].inv, x) + Is(Added(t, w, e, o), x)
  {
    hide Copies, Received, Dropped, Receive, Killed;
    if Kills(w, e) {
      KillShares(t, w, e, o);
      ReceiveItems(t, w.sessions[e.s], Dropped(t.drops, e.luck.rand), e.luck.itemUid, x);
    }
  }

  /** How many copies of x the run gives session o, and how many it takes. */
  ghost function TotalAdded(t: Data, w: World, es: seq<Event>, rules: Rules, o: SessionId, x: InvSlot): nat
    requires StayingRun(t, w, es, rules, o)
    decreases |es|
  {
    if es == [] then 0
    else
      StepStays(t, w, es, rules, o);
      Is(Added(t, w, es[0], o), x) + TotalAdded(t, Step(t, w, es[0]), es[1..], rules, o, x)
  }

  ghost function TotalRemoved(t: Data, w: World, es: seq<Event>, rules: Rules, o: SessionId, x: InvSlot): nat
    requires StayingRun(t, w, es, rules, o)
    decreases |es|
  {
    if es == [] then 0
    else
      StepStays(t, w, es, rules, o);
      Is(Removed(t, w, es[0], o), x) + TotalRemoved(t, Step(t, w, es[0]), es[1..], rules, o, x)
  }

  /** The ledger: over any run, and for every item, what a session owns is what it owned, plus what it was given, minus
      what it sold or used. */
  lemma {:induction false} ItemLedger(t: Data, w: World, es: seq<Event>, rules: Rules, o: SessionId, x: InvSlot)
    requires StayingRun(t, w, es, rules, o)
    ensures o in After(t, w, es, rules).sessions
    ensures Copies(After(t, w, es, rules).sessions[o].inv, x) + TotalRemoved(t, w, es, rules, o, x)
         == Copies(w.sessions[o].inv, x) + TotalAdded(t, w, es, rules, o, x)
    decreases |es|
  {
    hide Step, Copies, Added, Removed, Invariant, Disciplined;
    if es != [] {
      StepStays(t, w, es, rules, o);
      StepItems(t, w, es[0], o, x);
      ItemLedger(t, Step(t, w, es[0]), es[1..], rules, o, x);
    }
  }

  /** No two items of a session share a uid. */
  ghost predicate DistinctItems(inv: Inventory) {
    && (forall x :: Copies(inv, x) <= 1)
    && (forall a, b :: Copies(inv, a) > 0 && Copies(inv, b) > 0 && a.uid == b.uid ==> a == b)
  }

  /** An item handed out carries a uid that no owned item has. */
  ghost predicate Fresh(inv: Inventory, item: InvSlot) {
    item.tid != 0 ==> forall x :: Copies(inv, x) > 0 ==> x.uid != item.uid
  }

  /** Fresh uids from the database keep item uids distinct. */
  lemma StepUidsDistinct(t: Data, w: World, e: Event, o: SessionId)
    requires Enabled(w, e) && o in w.sessions && Continues(e, o) && w.nextSessionId !in w.sessions
    requires DistinctItems(w.sessions[o].inv)
    requires Fresh(w.sessions[o].inv, Added(t, w, e, o))
    ensures o in Step(t, w, e).sessions && DistinctItems(Step(t, w, e).sessions[o].inv)
  {
    hide Step, Copies, Added, Removed;
    StepItems(t, w, e, o, NO_ITEM);
    var before, after := w.sessions[o].inv, Step(t, w, e).sessions[o].inv;
    forall x ensures Copies(after, x) <= Copies(before, x) + Is(Added(t, w, e, o), x) { StepItems(t, w, e, o, x); }
  }

  /** Every uid the database hands to session o during the run is new among what it then owns. */
  ghost predicate FreshUids(t: Data, w: World, es: seq<Event>, rules: Rules, o: SessionId)
    requires StayingRun(t, w, es, rules, o)
    decreases |es|
  {
    if es == [] then true
    else
      StepStays(t, w, es, rules, o);
      Fresh(w.sessions[o].inv, Added(t, w, es[0], o)) && FreshUids(t, Step(t, w, es[0]), es[1..], rules, o)
  }

  /** Over any run with fresh uids, distinct items stay distinct. */
  lemma {:induction false} UidsStayDistinct(t: Data, w: World, es: seq<Event>, rules: Rules, o: SessionId)
    requires StayingRun(t, w, es, rules, o) && FreshUids(t, w, es, rules, o) && DistinctItems(w.sessions[o].inv)
    ensures o in After(t, w, es, rules).sessions && DistinctItems(After(t, w, es, rules).sessions[o].inv)
    decreases |es|
  {
    hide Step, Copies, Added, Invariant, Disciplined, DistinctItems, Fresh;
    if es != [] {
      StepStays(t, w, es, rules, o);
      StepUidsDistinct(t, w, es[0], o);
      UidsStayDistinct(t, Step(t, w, es[0]), es[1..], rules, o);
    }
  }

  lemma {:induction false} HeldIff(slots: seq<InvSlot>, x: InvSlot)
    ensures Held(slots, x) > 0 <==> x in slots && x.tid != 0
    decreases |slots|
  {
    if slots != [] {
      HeldIff(slots[1..], x);
      assert slots == [slots[0]] + slots[1..];
    }
  }

  /** No two occupied places share a uid. */
  ghost predicate UniqueUids(slots: seq<InvSlot>) {
    forall i, j | 0 <= i < j < |slots| && slots[i].tid != 0 && slots[j].tid != 0 :: slots[i].uid != slots[j].uid
  }

  lemma {:induction false} HeldOnce(slots: seq<InvSlot>, x: InvSlot)
    requires UniqueUids(slots)
    ensures Held(slots, x) <= 1
    decreases |slots|
  {
    if slots != [] {
      HeldOnce(slots[1..], x);
      HeldIff(slots[1..], x);
    }
  }

  lemma LoadedUnique(bag: seq<InvSlot>)
    requires UniqueUids(bag)
    ensures UniqueUids(LoadedSlots(bag))
    ensures forall x | x in LoadedSlots(bag) && x.tid != 0 :: x in bag
  {
  }

  lemma SameUidSame(bag: seq<InvSlot>, a: InvSlot, b: InvSlot)
    requires UniqueUids(bag) && a in bag && b in bag && a.tid != 0 && b.tid != 0 && a.uid == b.uid
    ensures a == b
  {
    var i :| 0 <= i < |bag| && bag[i] == a;
    var j :| 0 <= j < |bag| && bag[j] == b;
    assert i == j;
  }

  /** The loading query lists equipped items among the owned ones, so they are loaded into a slot as well: the loaded
      items are distinct exactly when no equipped item made it into the slots. */
  lemma LoadedDistinctIff(t: Data, c: State, r: Record)
    requires UniqueUids(r.bag) && (r.weapon.tid != 0 && r.armor.tid != 0 ==> r.weapon.uid != r.armor.uid)
    requires (r.weapon.tid != 0 ==> r.weapon in r.bag) && (r.armor.tid != 0 ==> r.armor in r.bag)
    ensures DistinctItems(LoadInventory(t, c, r).inv)
            <==> (r.weapon.tid == 0 || r.weapon !in LoadedSlots(r.bag))
                 && (r.armor.tid == 0 || r.armor !in LoadedSlots(r.bag))
  {
    hide LoadedSlots, Held, UniqueUids;
    var slots := LoadedSlots(r.bag);
    var inv := LoadInventory(t, c, r).inv;
    assert inv == Bag(slots, r.weapon, r.armor);
    LoadedUnique(r.bag);
    HeldIff(slots, r.weapon);
    HeldIff(slots, r.armor);
    if (r.weapon.tid == 0 || r.weapon !in slots) && (r.armor.tid == 0 || r.armor !in slots) {
      forall x ensures Copies(inv, x) <= 1 && (Copies(inv, x) > 0 ==> x in r.bag && x.tid != 0) {
        HeldOnce(slots, x);
        HeldIff(slots, x);
      }
      forall a, b | Copies(inv, a) > 0 && Copies(inv, b) > 0 && a.uid == b.uid ensures a == b {
        SameUidSame(r.bag, a, b);
      }
    } else {
      assert Copies(inv, r.weapon) > 1 || Copies(inv, r.armor) > 1;
    }
  }

  /** A character with one item, which it wears: after the load it owns two copies. */
  lemma WornLoadedTwice(t: Data)
    ensures var sword := InvSlot(9, 7);
            var l := LoadInventory(t, NEW_SESSION, Record(1, 0, 0, "a", [sword], sword, NO_ITEM));
            Copies(l.inv, sword) == 2 && !DistinctItems(l.inv)
  {
    var sword := InvSlot(9, 7);
    var r := Record(1, 0, 0, "a", [sword], sword, NO_ITEM);
    var slots := LoadedSlots(r.bag);
    assert slots[0] == sword && forall i | 1 <= i < MAX_INVENTORY :: slots[i] == NO_ITEM;
    HeldIff(slots[1..], sword);
    assert LoadInventory(t, NEW_SESSION, r).inv == Bag(slots, sword, NO_ITEM);
  }

  // ---------------------------------------------------------------- no money pump

  /** What the shop would pay for one item. */
  function Resale(t: Data, tid: uint16): nat { Price(t, tid) / 5 }

  function SlotsWorth(t: Data, slots: seq<InvSlot>): nat {
    if slots == [] then 0 else Resale(t, slots[0].tid) + SlotsWorth(t, slots[1..])
  }

  /** Gold plus the resale value of everything owned. */
  function Wealth(t: Data, c: State): nat {
    c.player.gold + SlotsWorth(t, c.inv.slots) + Resale(t, c.inv.weapon.tid) + Resale(t, c.inv.armor.tid)
  }

  lemma {:induction false} WorthUpdate(t: Data, slots: seq<InvSlot>, i: nat, item: InvSlot)
    requires i < |slots|
    ensures SlotsWorth(t, slots[i := item]) + Resale(t, slots[i].tid) == SlotsWorth(t, slots) + Resale(t, item.tid)
    decreases |slots|
  {
    if i == 0 {
      assert slots[i := item][1..] == slots[1..];
    } else {
      assert slots[i := item][1..] == slots[1..][i - 1 := item];
      WorthUpdate(t, slots[1..], i - 1, item);
    }
  }

  lemma NothingWorth(t: Data)
    requires WellFormed(t)
    ensures Resale(t, 0) == 0
  {
  }

  lemma EquipWealth(t: Data, c: State, slot: nat)
    ensures Wealth(t, OnItemEquip(t, c, slot)) == Wealth(t, c)
  {
    hide ItemName, Resale;
    if slot < MAX_INVENTORY {
      WorthUpdate(t, c.inv.slots, slot, c.inv.weapon);
      WorthUpdate(t, c.inv.slots, slot, c.inv.armor);
    }
  }

  lemma BuyWealth(t: Data, c: State, tid: uint16, uid: uint64)
    requires WellFormed(t)
    ensures Wealth(t, OnShopBuy(t, c, tid, uid)) <= Wealth(t, c)
  {
    hide ItemName, WellFormed;
    NothingWorth(t);
    var slot := FindEmpty(c.inv.slots);
    if slot < MAX_INVENTORY { WorthUpdate(t, c.inv.slots, slot, InvSlot(uid, tid)); }
  }

  /** A sale turns an item into its resale value, and gold that does not fit its 64 bits is lost. */
  lemma SellWealth(t: Data, c: State, slot: nat)
    requires WellFormed(t)
    ensures Wealth(t, OnShopSell(t, c, slot)) <= Wealth(t, c)
    ensures Wealth(t, c) < 0x1_0000_0000_0000_0000 ==> Wealth(t, OnShopSell(t, c, slot)) == Wealth(t, c)
    ensures Wealth(t, c) < 0x1_0000_0000_0000_0000 ==> OnShopSell(t, c, slot).player.gold >= c.player.gold
  {
    hide ItemName, WellFormed, FindItem, SlotsWorth, SlotMsg;
    NothingWorth(t);
    if slot < MAX_INVENTORY {
      WorthUpdate(t, c.inv.slots, slot, NO_ITEM);
      WorthCovers(t, c.inv.slots, slot);
    }
  }

  lemma {:induction false} WorthCovers(t: Data, slots: seq<InvSlot>, i: nat)
    requires i < |slots|
    ensures SlotsWorth(t, slots) >= Resale(t, slots[i].tid)
    decreases |slots|
  {
    if i > 0 { WorthCovers(t, slots[1..], i - 1); }
  }

  lemma ConsumeWealth(t: Data, c: State, slot: nat, it: ItemData)
    requires WellFormed(t) && slot < MAX_INVENTORY
    ensures Wealth(t, Consume(c, slot, it)) <= Wealth(t, c)
  {
    hide Resale, WellFormed;
    NothingWorth(t);
    WorthUpdate(t, c.inv.slots, slot, NO_ITEM);
  }

  /** What pays session o: a quest it completes, and a kill by it or shared with it. */
  predicate Pays(t: Data, w: World, e: Event, o: SessionId)
    requires o in w.sessions
  {
    || (e.CompleteQuest? && e.s == o && Completable(t, w.sessions[o], e.quest))
    || (Kills(w, e) && (e.s == o || o in Takers(w, e.s)))
  }

  lemma SameWealth(t: Data, c: State, d: State)
    requires d.inv == c.inv && d.player.gold == c.player.gold
    ensures Wealth(t, d) == Wealth(t, c)
  {
  }

  lemma UseWealth(t: Data, w: World, s: SessionId, slot: nat, o: SessionId)
    requires WellFormed(t) && s in w.sessions && o in w.sessions
    ensures Wealth(t, OnItemUse(t, w, s, slot).sessions[o]) <= Wealth(t, w.sessions[o])
  {
    hide Wealth, Consume, AfterUse, BroadcastExcept, UsedMsg;
    match Usable(t, w.sessions[s], slot)
    case None =>
    case Some(it) =>
      var c := Consume(w.sessions[s], slot, it);
      var told := Broadcast(Put(w, s, c), UsedMsg(c.player, it));
      ConsumeWealth(t, w.sessions[s], slot, it);
      BroadcastOnlySent(Put(w, s, c), None, UsedMsg(c.player, it));
      AfterUseKeeps(t, told.sessions[s], slot);
      var r := OnItemUse(t, w, s, slot);
      SameWealth(t, if o == s then c else w.sessions[o], r.sessions[o]);
  }

  lemma {:induction false} NotListed(members: seq<SessionId>, o: SessionId)
    requires o !in members
    ensures Listings(members, o) == 0
  {
    if members != [] { NotListed(members[1..], o); }
  }

  /** An attack that does not pay o only sends o messages. */
  lemma UnpaidAttack(t: Data, w: World, e: Event, o: SessionId)
    requires Enabled(w, e) && e.Attack? && o in w.sessions && !Pays(t, w, e, o)
    ensures var r := Step(t, w, e).sessions; o in r && r[o] == w.sessions[o].(sent := r[o].sent)
  {
    hide Killed, Receive, Dropped, Takers;
    if Kills(w, e) {
      KillShares(t, w, e, o);
      NotListed(Takers(w, e.s), o);
    }
  }

  lemma FailedGold(t: Data, c: State, q: uint16, uid: uint64)
    ensures !Completable(t, c, q) ==>
              OnQuestComplete(t, c, q, uid).inv == c.inv && OnQuestComplete(t, c, q, uid).player == c.player
  {
    hide Rewards;
  }

  /** The gold an event owes session o: what a sale brings, less what a purchase costs. */
  function GoldDue(t: Data, w: World, e: Event, o: SessionId): int
    requires o in w.sessions
  {
    var c := w.sessions[o];
    match e
    case Buy(s, tid, _) => if s == o && Buys(t, c, tid) then var price: int := Price(t, tid); -price else 0
    case Sell(s, slot) => if s == o && Occupied(c, slot) then Resale(t, c.inv.slots[slot].tid) else 0
    case _ => 0
  }

  lemma BuyGold(t: Data, c: State, tid: uint16, uid: uint64)
    ensures OnShopBuy(t, c, tid, uid).player.gold == c.player.gold - (if Buys(t, c, tid) then Price(t, tid) else 0)
  {
    hide SlotMsg, FindItem;
  }

  lemma SellGold(t: Data, c: State, slot: nat)
    requires Wealth(t, c) < 0x1_0000_0000_0000_0000
    ensures OnShopSell(t, c, slot).player.gold
         == c.player.gold + if Occupied(c, slot) then Resale(t, c.inv.slots[slot].tid) else 0
  {
    hide SlotMsg, FindItem, SlotsWorth;
    if Occupied(c, slot) { WorthCovers(t, c.inv.slots, slot); }
  }

  lemma UseGold(t: Data, w: World, s: SessionId, slot: nat, o: SessionId)
    requires s in w.sessions && o in w.sessions
    ensures OnItemUse(t, w, s, slot).sessions[o].player.gold == w.sessions[o].player.gold
  {
    hide AfterUse, BroadcastExcept, UsedMsg;
    match Usable(t, w.sessions[s], slot)
    case None =>
    case Some(it) =>
      var c := Consume(w.sessions[s], slot, it);
      var told := Broadcast(Put(w, s, c), UsedMsg(c.player, it));
      BroadcastOnlySent(Put(w, s, c), None, UsedMsg(c.player, it));
      AfterUseKeeps(t, told.sessions[s], slot);
  }

  /** One step that does not pay o: its wealth does not rise, and its gold moves by exactly what is due. */
  lemma StepWealth(t: Data, w: World, e: Event, o: SessionId)
    requires WellFormed(t) && Enabled(w, e) && o in w.sessions && Continues(e, o) && w.nextSessionId !in w.sessions
    requires !Pays(t, w, e, o)
    ensures o in Step(t, w, e).sessions && Wealth(t, Step(t, w, e).sessions[o]) <= Wealth(t, w.sessions[o])
    ensures Wealth(t, w.sessions[o]) < 0x1_0000_0000_0000_0000 ==>
              Step(t, w, e).sessions[o].player.gold == w.sessions[o].player.gold + GoldDue(t, w, e, o)
  {
    hide Wealth, OnItemUse, OnItemEquip, OnShopBuy, OnShopSell, OnQuestComplete, WellFormed, Price, Buys, Occupied;
    StepLive(t, w, e, o);
    var c := w.sessions[o];
    if e.UseItem? {
      UseWealth(t, w, e.s, e.slot, o);
      UseGold(t, w, e.s, e.slot, o);
    } else if e.EquipItem? && e.s == o {
      EquipWealth(t, c, e.slot);
      EquipGold(t, c, e.slot);
    } else if e.Buy? && e.s == o {
      BuyWealth(t, c, e.tid, e.itemUid);
      BuyGold(t, c, e.tid, e.itemUid);
    } else if e.Sell? && e.s == o {
      SellWealth(t, c, e.slot);
      if Wealth(t, c) < 0x1_0000_0000_0000_0000 { SellGold(t, c, e.slot); }
    } else {
      UnpaidPlain(t, w, e, o);
      hide Step, Pays;
      SameWealth(t, c, Step(t, w, e).sessions[o]);
    }
  }

  /** Anything but shopping, using and equipping by o itself. */
  lemma UnpaidPlain(t: Data, w: World, e: Event, o: SessionId)
    requires Enabled(w, e) && o in w.sessions && Continues(e, o) && w.nextSessionId !in w.sessions && !Pays(t, w, e, o)
    requires !e.UseItem? && !(e.EquipItem? && e.s == o) && !(e.Buy? && e.s == o) && !(e.Sell? && e.s == o)
    ensures var r := Step(t, w, e).sessions;
            o in r && r[o].inv == w.sessions[o].inv && r[o].player.gold == w.sessions[o].player.gold
  {
    hide OnAttack, OnQuestComplete, Kills, Takers, Completable;
    if e.Attack? {
      hide Step;
      UnpaidAttack(t, w, e, o);
    } else if e.CompleteQuest? {
      FailedGold(t, w.sessions[e.s], e.quest, e.itemUid);
    } else {
      hide Step;
      PlainStep(t, w, e, o);
    }
  }

  lemma EquipGold(t: Data, c: State, slot: nat)
    ensures OnItemEquip(t, c, slot).player.gold == c.player.gold
  {
    hide SlotMsg, ItemName;
  }

  /** A run that never pays session o; the others may do what they like. */
  ghost predicate Unpaid(t: Data, w: World, es: seq<Event>, rules: Rules, o: SessionId)
    requires StayingRun(t, w, es, rules, o)
    decreases |es|
  {
    if es == [] then true
    else
      StepStays(t, w, es, rules, o);
      !Pays(t, w, es[0], o) && Unpaid(t, Step(t, w, es[0]), es[1..], rules, o)
  }

  /** All that was due over a run. */
  ghost function TotalDue(t: Data, w: World, es: seq<Event>, rules: Rules, o: SessionId): int
    requires StayingRun(t, w, es, rules, o)
    decreases |es|
  {
    if es == [] then 0
    else
      StepStays(t, w, es, rules, o);
      GoldDue(t, w, es[0], o) + TotalDue(t, Step(t, w, es[0]), es[1..], rules, o)
  }

  /** No money pump: over any run that does not pay session o, its gold plus resale value never rises; so its gold never
      exceeds the initial gold plus the initial resale value. If that bound fits 64 bits, gold never wraps: it is the
      initial gold plus the sales less the purchases, as unbounded integers. */
  lemma {:induction false} NoMoneyPump(t: Data, w: World, es: seq<Event>, rules: Rules, o: SessionId)
    requires StayingRun(t, w, es, rules, o) && Unpaid(t, w, es, rules, o)
    ensures o in After(t, w, es, rules).sessions
    ensures Wealth(t, After(t, w, es, rules).sessions[o]) <= Wealth(t, w.sessions[o])
    ensures After(t, w, es, rules).sessions[o].player.gold <= Wealth(t, w.sessions[o])
    ensures Wealth(t, w.sessions[o]) < 0x1_0000_0000_0000_0000 ==>
              After(t, w, es, rules).sessions[o].player.gold == w.sessions[o].player.gold + TotalDue(t, w, es, rules, o)
    decreases |es|
  {
    hide Step, Invariant, Disciplined, Pays, GoldDue, SlotsWorth, Resale;
    if es != [] {
      StepStays(t, w, es, rules, o);
      StepWealth(t, w, es[0], o);
      NoMoneyPump(t, Step(t, w, es[0]), es[1..], rules, o);
    }
  }
}

/** The weighted drop roll (GameServer/main.cpp:157-166, 340-349). */
module Drops {
  import opened Machine
  import opened Tables
  import opened Server

  ghost predicate Weighted(drops: seq<DropEntry>) { forall i | 0 <= i < |drops| :: drops[i].weight >= 0 }

  /** The table position a roll selects: the first whose accumulated weight exceeds it; the table's length for none. */
  function Chosen(drops: seq<DropEntry>, roll: int): (i: nat)
    ensures i <= |drops|
    ensures Pick(drops, roll) == if i < |drops| then drops[i].itemId else 0
  {
    if drops == [] || roll < drops[0].weight then 0 else 1 + Chosen(drops[1..], roll - drops[0].weight)
  }

  /** Position i is selected by exactly the rolls in its own stretch of the weights before it. */
  lemma {:induction false} ChosenIff(drops: seq<DropEntry>, roll: int, i: nat)
    requires Weighted(drops) && 0 <= roll && i < |drops|
    ensures Chosen(drops, roll) == i <==> TotalWeight(drops[..i]) <= roll < TotalWeight(drops[..i]) + drops[i].weight
    decreases |drops|
  {
    var rest, left := drops[1..], roll - drops[0].weight;
    if i > 0 {
      assert drops[..i][1..] == rest[..i - 1];
      TotalPositive(rest[..i - 1]);
      if left >= 0 { ChosenIff(rest, left, i - 1); }
    }
  }

  lemma {:induction false} TotalPositive(drops: seq<DropEntry>)
    requires Weighted(drops)
    ensures TotalWeight(drops) >= 0
    decreases |drops|
  {
    if drops != [] { TotalPositive(drops[1..]); }
  }

  /** The rolls below n that select position i. */
  function Selecting(drops: seq<DropEntry>, i: nat, n: nat): nat {
    if n == 0 then 0 else Selecting(drops, i, n - 1) + if Chosen(drops, n - 1) == i then 1 else 0
  }

  lemma {:induction false} SelectingRange(drops: seq<DropEntry>, i: nat, n: nat)
    requires Weighted(drops) && i < |drops|
    ensures var lo := TotalWeight(drops[..i]); var hi := lo + drops[i].weight;
            Selecting(drops, i, n) == if n <= lo then 0 else if n <= hi then n - lo else hi - lo
    decreases n
  {
    TotalPositive(drops[..i]);
    if n > 0 {
      SelectingRange(drops, i, n - 1);
      ChosenIff(drops, n - 1, i);
    }
  }

  lemma {:induction false} TotalSplit(drops: seq<DropEntry>, i: nat)
    requires i <= |drops|
    ensures TotalWeight(drops) == TotalWeight(drops[..i]) + TotalWeight(drops[i..])
    decreases i
  {
    if i == 0 {
      assert drops[0..] == drops;
    } else {
      assert drops[..i][1..] == drops[1..][..i - 1] && drops[i..] == drops[1..][i - 1..];
      TotalSplit(drops[1..], i - 1);
    }
  }

  /** Exact odds: of the rolls 0 to total - 1, exactly `weight` many select an entry, and every one selects some entry,
      so the search never falls through. */
  lemma DropOdds(drops: seq<DropEntry>, i: nat)
    requires Weighted(drops) && TotalWeight(drops) > 0 && i < |drops|
    ensures Selecting(drops, i, TotalWeight(drops)) == drops[i].weight
    ensures forall roll | 0 <= roll < TotalWeight(drops) :: Chosen(drops, roll) < |drops|
  {
    TotalSplit(drops, i);
    assert drops[i..][1..] == drops[i + 1..];
    TotalPositive(drops[i + 1..]);
    TotalPositive(drops[..i]);
    SelectingRange(drops, i, TotalWeight(drops));
    forall roll | 0 <= roll < TotalWeight(drops) ensures Chosen(drops, roll) < |drops| { NeverThrough(drops, roll); }
  }

  lemma {:induction false} NeverThrough(drops: seq<DropEntry>, roll: int)
    requires roll < TotalWeight(drops)
    requires roll >= 0
    ensures Chosen(drops, roll) < |drops|
    decreases |drops|
  {
    if drops != [] && roll >= drops[0].weight {
      var left := roll - drops[0].weight;
      NeverThrough(drops[1..], if left >= 0 then left else 0);
    }
  }

  /** Whatever the random number, a table of positive total weight drops the entry its remainder selects. */
  lemma DroppedIsChosen(drops: seq<DropEntry>, rand: nat)
    requires Weighted(drops) && TotalWeight(drops) > 0
    ensures var i := Chosen(drops, rand % TotalWeight(drops));
            i < |drops| && drops[i].weight > 0 && Dropped(drops, rand) == drops[i].itemId
  {
    var roll := rand % TotalWeight(drops);
    NeverThrough(drops, roll);
    ChosenIff(drops, roll, Chosen(drops, roll));
  }

  /** One new entry's weight on top of the sum so far. */
  lemma {:induction false} TotalSnoc(drops: seq<DropEntry>, i: nat)
    requires i < |drops|
    ensures TotalWeight(drops[..i + 1]) == TotalWeight(drops[..i]) + drops[i].weight
    decreases i
  {
    assert drops[..i + 1][1..] == drops[1..][..i];
    if i > 0 {
      assert drops[..i][1..] == drops[1..][..i - 1];
      TotalSnoc(drops[1..], i - 1);
    }
  }

  /** The loader's running sum. */
  method SumWeights(drops: seq<DropEntry>) returns (total: int)
    ensures total == TotalWeight(drops)
  {
    total := 0;
    var i := 0;
    while i < |drops|
      invariant 0 <= i <= |drops| && total == TotalWeight(drops[..i])
    {
      TotalSnoc(drops, i);
      total := total + drops[i].weight;
      i := i + 1;
    }
    assert drops[..i] == drops;
  }

  /** The roll as the server makes it: the remainder of a random number, a running sum, and the first entry above the
      roll wins. */
  method RollDrop(drops: seq<DropEntry>, totalWeight: int, rand: nat) returns (itemId: uint16)
    requires totalWeight == TotalWeight(drops)
    ensures itemId == Dropped(drops, rand)
  {
    if drops == [] || totalWeight == 0 {
      return 0;
    }
    var roll := rand % totalWeight;
    var acc, i := 0, 0;
    while i < |drops|
      invariant 0 <= i <= |drops|
      invariant Pick(drops, roll) == Pick(drops[i..], roll - acc)
    {
      acc := acc + drops[i].weight;
      if roll < acc {
        return drops[i].itemId;
      }
      assert drops[i..][1..] == drops[i + 1..];
      i := i + 1;
    }
    itemId := 0;
  }
}

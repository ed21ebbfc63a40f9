/** Machine words, truncating stores and the few generic helpers every other module uses. */
module Machine {
  type int8 = x: int | -0x80 <= x < 0x80
  type int16 = x: int | -0x8000 <= x < 0x8000
  type uint8 = x: int | 0 <= x < 0x100
  type uint16 = x: int | 0 <= x < 0x1_0000
  type uint32 = x: int | 0 <= x < 0x1_0000_0000
  type uint64 = x: int | 0 <= x < 0x1_0000_0000_0000_0000

  /** Stores into an unsigned field keep the low bits. */
  function U8(x: int): uint8 { x % 0x100 }
  function U16(x: int): uint16 { x % 0x1_0000 }
  function U32(x: int): uint32 { x % 0x1_0000_0000 }
  function U64(x: int): uint64 { x % 0x1_0000_0000_0000_0000 }

  /** A store into an `int16_t` field. */
  function I16(x: int): int16 { (x + 0x8000) % 0x1_0000 - 0x8000 }

  datatype Option<+T> = None | Some(value: T)

  type SessionId = nat

  const MAP_SIZE := 20
  const MAX_NPC := 5
  const MAX_INVENTORY := 20
  const MAX_PARTY := 4
  const MAX_QUEST_LIST := 10

  /** `strncpy_s(dst, src, n)`: at most n characters are kept. */
  function Clip(s: string, n: nat): (r: string)
    ensures |r| <= n && r <= s
    ensures |r| == if |s| <= n then |s| else n
  {
    if |s| <= n then s else s[..n]
  }

  function Repeat<T>(x: T, n: nat): (r: seq<T>)
    ensures |r| == n
    ensures forall i | 0 <= i < n :: r[i] == x
  {
    if n == 0 then [] else [x] + Repeat(x, n - 1)
  }

  predicate IsLeast(s: set<nat>, m: nat) { m in s && forall k | k in s :: m <= k }

  lemma {:induction false} LeastBelow(s: set<nat>, x: nat)
    requires x in s
    ensures exists m :: IsLeast(s, m)
    decreases x
  {
    if y: nat :| y in s && y < x {
      LeastBelow(s, y);
    } else {
      assert IsLeast(s, x);
    }
  }

  /** The next key of an ordered map: `std::map` is walked in ascending key order. */
  function Least(s: set<nat>): (m: nat)
    requires s != {}
    ensures IsLeast(s, m)
  {
    assert exists m :: IsLeast(s, m) by { var x: nat :| x in s; LeastBelow(s, x); }
    var m :| IsLeast(s, m);
    m
  }
}

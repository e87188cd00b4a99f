/** Block arithmetic behind the timing wheel: the bits of a 64-bit tick above
    each level of the wheel, and the slot a deadline belongs to. */
module WheelArithmetic {

  const U64: nat := 0x1_0000_0000_0000_0000
  const LEAST_VALUE: nat := 16384
  const LEVEL_VALUE: nat := 1024
  const LEVEL_COUNT: nat := 5

  /** Powers of two; `x >> k` is `x / Pow2(k)` on non-negative integers. */
  function Pow2(k: nat): (p: nat)
    ensures p > 0
  {
    if k == 0 then 1 else 2 * Pow2(k - 1)
  }

  function Shr(x: nat, k: nat): int { x / Pow2(k) }

  /** `x | mask` for a mask of the form 2^k - 1. */
  function OrMask(x: nat, mask: nat): int { x / (mask + 1) * (mask + 1) + mask }

  /** The bits of `x` from level `l` upwards: x >> (14 + 10 * l). */
  function Block(l: nat, x: nat): nat
  {
    if l == 0 then x / 16384 else Block(l - 1, x) / 1024
  }

  /** Where a node waits: one of the 2^14 least slots, or a slot of a level. */
  datatype Slot = Least(index: nat) | Level(level: nat, index: nat)

  lemma Pow2Add10(k: nat)
    ensures Pow2(k + 10) == Pow2(k) * 1024
  {
    assert Pow2(k + 10) == 2 * Pow2(k + 9) == 4 * Pow2(k + 8) == 8 * Pow2(k + 7);
    assert Pow2(k + 7) == 2 * Pow2(k + 6) == 4 * Pow2(k + 5) == 8 * Pow2(k + 4);
    assert Pow2(k + 4) == 2 * Pow2(k + 3) == 4 * Pow2(k + 2) == 8 * Pow2(k + 1);
  }

  /** 2^(14 + 10 * l) written out, so that divisions by it stay linear. */
  lemma LevelUnit(l: nat)
    requires l <= 5
    ensures Pow2(14 + l * 10) == [0x4000, 0x100_0000, 0x4_0000_0000, 0x1000_0000_0000, 0x40_0000_0000_0000, U64][l]
  {
    if l == 0 {
      Pow2Add10(4);
      assert Pow2(4) == 2 * Pow2(3) == 4 * Pow2(2) == 8 * Pow2(1);
    } else {
      LevelUnit(l - 1);
      Pow2Add10(4 + l * 10);
    }
  }

  /** Shifting by 14 + 10 * l in one go, as `queue_node` does, and shifting
      level by level, as `tick` does, meet. */
  lemma ShiftIsBlock(l: nat, x: nat)
    requires l <= 5
    ensures Shr(x, 14 + l * 10) == Block(l, x)
  {
    LevelUnit(l);
    assert Block(1, x) == x / 0x100_0000;
    assert Block(2, x) == x / 0x4_0000_0000;
    assert Block(3, x) == x / 0x1000_0000_0000;
    assert Block(4, x) == x / 0x40_0000_0000_0000;
    assert Block(5, x) == x / U64;
  }

  /** `(x | mask) == (y | mask)` compares the bits above the mask. */
  lemma OrMaskCompares(l: nat, x: nat, y: nat)
    requires l <= 5
    ensures OrMask(x, Pow2(14 + l * 10) - 1) == OrMask(y, Pow2(14 + l * 10) - 1) <==> Block(l, x) == Block(l, y)
  {
    ShiftIsBlock(l, x);
    ShiftIsBlock(l, y);
    LevelUnit(l);
  }

  /** One round of the level search: the shifted power and the mask it gives. */
  lemma MaskOfLevel(l: nat, exp2: nat, mask: nat)
    requires l <= 4
    requires exp2 == Pow2(14 + l * 10) * 1024 % U64 && mask == (exp2 + U64 - 1) % U64
    ensures mask == Pow2(14 + (l + 1) * 10) - 1
    ensures l < 4 ==> exp2 == Pow2(14 + (l + 1) * 10)
  {
    LevelUnit(l);
    LevelUnit(l + 1);
  }

  lemma {:induction false} BlockMonotone(l: nat, x: nat, y: nat)
    requires x <= y
    ensures Block(l, x) <= Block(l, y)
  {
    if l > 0 { BlockMonotone(l - 1, x, y); }
  }

  lemma {:induction false} BlockAgreesUpwards(l: nat, k: nat, x: nat, y: nat)
    requires l <= k && Block(l, x) == Block(l, y)
    ensures Block(k, x) == Block(k, y)
  {
    if l < k { BlockAgreesUpwards(l, k - 1, x, y); }
  }

  /** The lowest level from `l` on whose upper bits agree. */
  function FindLevel(l: nat, time: nat, expire: nat): (r: nat)
    requires l <= 4 && time < U64 && expire < U64
    ensures l <= r <= 4
    ensures Block(r + 1, expire) == Block(r + 1, time)
    ensures forall k :: l < k <= r ==> Block(k, expire) != Block(k, time)
    decreases 4 - l
  {
    ShiftIsBlock(5, time);
    ShiftIsBlock(5, expire);
    LevelUnit(5);
    if Block(l + 1, expire) == Block(l + 1, time) then l else FindLevel(l + 1, time, expire)
  }

  /** The level a deadline that is too far ahead for the least wheel is queued at. */
  predicate LevelPlace(l: nat, index: nat, expire: nat, time: nat)
  {
    && Block(l + 1, expire) == Block(l + 1, time)
    && Block(l, expire) > Block(l, time)
    && Block(l, expire) % 1024 == index + 1
  }

  function SlotOf(time: nat, expire: nat): (s: Slot)
    requires time <= expire < U64
    ensures s.Least? ==> s.index < LEAST_VALUE && expire - time < LEAST_VALUE && s.index == expire % 16384
    ensures s.Level? ==> s.level < LEVEL_COUNT && s.index < 1023 && LevelPlace(s.level, s.index, expire, time)
  {
    if expire - time < LEAST_VALUE then
      Least(expire % 16384)
    else
      var l := FindLevel(0, time, expire);
      BlockMonotone(l, time, expire);
      assert Block(l, expire) != Block(l, time);
      assert Block(l, expire) % 1024 > 0;
      Level(l, Block(l, expire) % 1024 - 1)
  }

  /** One comparison of the level search settles whether the level is reached. */
  lemma SearchDecides(l: nat, time: nat, expire: nat)
    requires time + LEAST_VALUE <= expire < U64 && l <= SlotOf(time, expire).level
    ensures Block(l + 1, expire) == Block(l + 1, time) <==> SlotOf(time, expire).level == l
    ensures SlotOf(time, expire).level == l ==>
      Block(l, expire) % 1024 > 0 && SlotOf(time, expire) == Level(l, Block(l, expire) % 1024 - 1)
  {
    var r := FindLevel(0, time, expire);
    assert l < r ==> Block(l + 1, expire) != Block(l + 1, time);
  }

  /** A node taken from level `v` at its boundary goes strictly down. */
  lemma CascadeDescends(v: nat, time: nat, expire: nat)
    requires time <= expire < U64 && Block(v, expire) == Block(v, time)
    ensures var s := SlotOf(time, expire); s.Level? ==> s.level < v
  {
    var s := SlotOf(time, expire);
    if s.Level? && v <= s.level {
      BlockAgreesUpwards(v, s.level, time, expire);
    }
  }

  /** The level search comes to the level at which the shifted power has left the 64 bits
      (where `exp2 - 1` underflows in a build that checks) exactly for a deadline that is
      beyond the least wheel and in another block of 2^54 ticks. */
  lemma TopLevelExactlyAcross(time: nat, expire: nat)
    requires time <= expire < U64
    ensures (SlotOf(time, expire).Level? && SlotOf(time, expire).level == 4) <==>
              (expire - time >= LEAST_VALUE && expire / 0x40_0000_0000_0000 != time / 0x40_0000_0000_0000)
    ensures Pow2(14 + 4 * 10) * 1024 % U64 == 0
  {
    ShiftIsBlock(4, time);
    ShiftIsBlock(4, expire);
    LevelUnit(4);
    if expire - time >= LEAST_VALUE {
      var r := FindLevel(0, time, expire);
      if r < 4 { BlockAgreesUpwards(r + 1, 4, expire, time); }
    }
  }

  lemma {:induction false} LevelIsAhead(l: nat, index: nat, expire: nat, time: nat)
    requires LevelPlace(l, index, expire, time)
    ensures expire > time
  {
    if expire <= time { BlockMonotone(l, expire, time); }
  }

  /** The level `tick` finds at a boundary: the lowest one whose digit is not zero. */
  ghost predicate BoundaryLevel(v: nat, time: nat)
  {
    && v <= 4
    && time % 16384 == 0
    && Block(v, time) % 1024 != 0
    && forall k :: 0 <= k < v ==> Block(k, time) % 1024 == 0
  }

  lemma {:induction false} BoundaryBelow(v: nat, time: nat)
    requires time > 0 && time % 16384 == 0
    requires forall k :: 0 <= k < v ==> Block(k, time) % 1024 == 0
    ensures Block(v, time) == Block(v, time - 1) + 1
    ensures forall k: nat {:trigger Block(k, time - 1)} :: k < v ==> Block(k, time - 1) % 1024 == 1023
  {
    if v > 0 {
      BoundaryBelow(v - 1, time);
    }
  }

  /** A 64-bit tick at a least boundary has a digit that is not zero on one of
      the five levels, so the search in `tick` stops in range. */
  lemma BoundaryLevelExists(time: nat)
    requires 0 < time < U64 && time % 16384 == 0
    requires forall k :: 0 <= k < 4 ==> Block(k, time) % 1024 == 0
    ensures Block(4, time) % 1024 != 0
  {
    ShiftIsBlock(5, time);
    LevelUnit(5);
    assert Block(0, time) % 1024 == 0 && Block(1, time) % 1024 == 0;
    assert Block(2, time) % 1024 == 0 && Block(3, time) % 1024 == 0;
  }

  /** Crossing into tick `time` keeps every level node either strictly ahead or
      in the one slot that `tick` clears. */
  lemma LevelStep(v: nat, time: nat, l: nat, index: nat, expire: nat)
    requires time > 0 && BoundaryLevel(v, time) && l <= 4
    requires LevelPlace(l, index, expire, time - 1)
    ensures if l == v && index == Block(v, time) % 1024 - 1
            then Block(v, expire) == Block(v, time)
            else LevelPlace(l, index, expire, time)
    ensures time <= expire
  {
    BoundaryBelow(v, time);
    LevelIsAhead(l, index, expire, time - 1);
    if l > v {
      assert Block(v + 1, time) == Block(v + 1, time - 1);
      BlockAgreesUpwards(v + 1, l, time, time - 1);
      BlockAgreesUpwards(v + 1, l + 1, time, time - 1);
    } else if l == v {
      assert Block(v + 1, time) == Block(v + 1, time - 1);
    } else {
      assert false;
    }
  }

  /** Inside a least block the levels do not move. */
  lemma LevelStays(time: nat, l: nat, index: nat, expire: nat)
    requires time > 0 && time % 16384 != 0
    requires LevelPlace(l, index, expire, time - 1)
    ensures LevelPlace(l, index, expire, time)
  {
    assert Block(0, time) == Block(0, time - 1);
    BlockAgreesUpwards(0, l, time, time - 1);
    BlockAgreesUpwards(0, l + 1, time, time - 1);
  }
}

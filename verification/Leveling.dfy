/** Experience and levels: the level-up loop against its closed form. */
module Leveling {
  const MAX_LEVEL: nat := 20
  const INT32_MAX: int := 0x7FFF_FFFF

  function Pow2(n: nat): (p: nat)
    ensures p >= 1
  {
    if n == 0 then 1 else 2 * Pow2(n - 1)
  }

  /** Experience needed to leave a level. */
  function LevelUpExp(level: nat): nat
    requires level >= 1
  {
    100 * Pow2(level - 1)
  }

  /** Experience needed, from nothing, to reach a level: the geometric sum 100 * (2^(level-1) - 1). */
  function Threshold(level: nat): int
    requires level >= 1
  {
    100 * (Pow2(level - 1) - 1)
  }

  /** Leaving level 1 costs 100, and leaving each further level twice as much as the one before; the
      threshold of a level is what all the levels below it cost together. */
  lemma Prices(level: nat)
    requires level >= 1
    ensures LevelUpExp(1) == 100 && LevelUpExp(level + 1) == 2 * LevelUpExp(level)
    ensures Threshold(1) == 0 && Threshold(level + 1) == Threshold(level) + LevelUpExp(level)
  {
  }

  lemma ThresholdStep(level: nat)
    requires level >= 1
    ensures Threshold(level + 1) == Threshold(level) + LevelUpExp(level)
  {
  }

  lemma {:induction false} ThresholdMonotone(a: nat, b: nat)
    requires 1 <= a <= b
    ensures Threshold(a) <= Threshold(b)
    ensures a < b ==> Threshold(a) < Threshold(b)
    decreases b
  {
    if a < b {
      ThresholdStep(b - 1);
      ThresholdMonotone(a, b - 1);
    }
  }

  lemma LevelUpFitsInt32(level: nat)
    requires 1 <= level <= MAX_LEVEL
    ensures LevelUpExp(level) <= INT32_MAX
  {
    ThresholdMonotone(level, MAX_LEVEL);
    assert Pow2(4) == 16 && Pow2(8) == 16 * Pow2(4) && Pow2(12) == 16 * Pow2(8) && Pow2(16) == 16 * Pow2(12);
    assert Pow2(19) == 8 * Pow2(16);
  }

  datatype Stats = Stats(level: nat, exp: int, maxHp: int, hp: int)

  /** All the experience ever earned, counting the levels already bought. */
  function Lifetime(s: Stats): int
    requires s.level >= 1
  {
    Threshold(s.level) + s.exp
  }

  /** The closed form of gaining experience: the level is the greatest one, up to the cap, whose
      threshold the lifetime total reaches; what is left over is the experience, except at the cap. */
  ghost predicate Gained(s: Stats, amount: nat, s': Stats)
    requires 1 <= s.level <= MAX_LEVEL
  {
    var total := Lifetime(s) + amount;
    && s.level <= s'.level <= 20
    && (forall l :: s.level <= l <= 20 && Threshold(l) <= total ==> l <= s'.level)
    && Threshold(s'.level) <= total
    && s'.exp == (if s'.level == 20 then 0 else total - Threshold(s'.level))
    && if s'.level == s.level then s'.maxHp == s.maxHp && s'.hp == s.hp
       else s'.maxHp == 100 + (s'.level - 1) * 50 && s'.hp == s'.maxHp
  }

  lemma GainedIsUnique(s: Stats, amount: nat, a: Stats, b: Stats)
    requires 1 <= s.level <= MAX_LEVEL && Gained(s, amount, a) && Gained(s, amount, b)
    ensures a == b
  {
  }

  /** Gaining twice is gaining the sum: rewards can be split or merged without changing anything. */
  lemma GainsAddUp(s: Stats, a: nat, b: nat, s1: Stats, s2: Stats)
    requires 1 <= s.level <= MAX_LEVEL && Gained(s, a, s1) && Gained(s1, b, s2)
    ensures Gained(s, a + b, s2)
  {
    ThresholdMonotone(s1.level, s2.level);
    if s1.level < MAX_LEVEL {
      assert Lifetime(s1) == Lifetime(s) + a;
    }
  }

  /** Where the loop stops, no higher level up to the cap is affordable. */
  lemma StoppedAtGreatest(level: nat, exp: int)
    requires 1 <= level <= MAX_LEVEL && (level == MAX_LEVEL || exp < LevelUpExp(level))
    ensures forall l :: 1 <= l <= MAX_LEVEL && Threshold(l) <= Threshold(level) + exp ==> l <= level
  {
    forall l | level < l <= MAX_LEVEL ensures Threshold(l) > Threshold(level) + exp {
      ThresholdStep(level);
      ThresholdMonotone(level + 1, l);
    }
  }

  // ------------------------------------------------------------- dying

  /** The multiple of `ulp` nearest to `n`; of two equally near ones, the even one. */
  function RoundToMultiple(n: nat, ulp: nat): nat
    requires ulp > 0
  {
    var q, r := n / ulp, n % ulp;
    if 2 * r > ulp || (2 * r == ulp && q % 2 == 1) then (q + 1) * ulp else q * ulp
  }

  /** An integer converted to a floating-point number with 24 significant bits. */
  function ToFloat(n: nat, ulp: nat): nat
    requires ulp > 0
    decreases n - ulp
  {
    if n <= 0x100_0000 * ulp then RoundToMultiple(n, ulp) else ToFloat(n, 2 * ulp)
  }

  /** The experience a death leaves: half of it as a floating-point number, truncated. Halving is exact. */
  function ExpAfterDeath(exp: nat): nat {
    ToFloat(exp, 1) / 2
  }

  lemma MultipleIsNear(n: nat, ulp: nat)
    requires ulp > 0
    ensures 2 * n <= 2 * RoundToMultiple(n, ulp) + ulp
    ensures 2 * RoundToMultiple(n, ulp) <= 2 * n + ulp
  {
    var q, r := n / ulp, n % ulp;
    assert n == q * ulp + r;
    assert (q + 1) * ulp == q * ulp + ulp;
  }

  lemma {:induction false} ToFloatIsNear(n: nat, ulp: nat)
    requires ulp == 1 || (ulp > 0 && n > 0x80_0000 * ulp)
    ensures 0xFF_FFFF * n <= 0x100_0000 * ToFloat(n, ulp) <= 0x100_0001 * n
    decreases n - ulp
  {
    if n <= 0x100_0000 * ulp {
      MultipleIsNear(n, ulp);
    } else {
      ToFloatIsNear(n, 2 * ulp);
    }
  }

  /** A death takes half the experience, rounded up; from 2^24 points on, up to one part in 2^24 more or less. */
  lemma DeathTakesHalf(exp: nat)
    ensures exp <= 0x100_0000 ==> ExpAfterDeath(exp) == exp / 2
    ensures exp - exp / 0x100_0000 - 2 <= 2 * ExpAfterDeath(exp) <= exp + exp / 0x100_0000
    ensures ExpAfterDeath(exp) <= exp
  {
    ToFloatIsNear(exp, 1);
  }

  class Player {
    var level: nat
    var exp: int
    var maxHp: int
    var hp: int

    ghost predicate Valid()
      reads this
    {
      1 <= level <= MAX_LEVEL && exp >= 0
    }

    ghost function State(): Stats
      reads this
    {
      Stats(level, exp, maxHp, hp)
    }

    constructor (level: nat, exp: int, maxHp: int, hp: int)
      requires 1 <= level <= MAX_LEVEL && exp >= 0
      ensures Valid() && State() == Stats(level, exp, maxHp, hp)
    {
      this.level, this.exp, this.maxHp, this.hp := level, exp, maxHp, hp;
    }

    /** The sum must fit a signed 32-bit integer, as the source's addition demands. */
    method GainExp(amount: nat)
      requires Valid() && exp + amount <= INT32_MAX
      modifies this
      ensures Valid() && Gained(old(State()), amount, State())
    {
      hide Pow2;
      exp := exp + amount;
      ghost var total := Threshold(level) + exp;
      while exp >= LevelUpExp(level) && level < MAX_LEVEL
        invariant Valid() && old(level) <= level
        invariant Threshold(level) + exp == total
        invariant if level == old(level) then maxHp == old(maxHp) && hp == old(hp)
                  else maxHp == 100 + (level - 1) * 50 && hp == maxHp
        decreases MAX_LEVEL - level
      {
        ThresholdStep(level);
        exp := exp - LevelUpExp(level);
        level := level + 1;
        maxHp := 100 + (level - 1) * 50;
        hp := maxHp;
      }
      StoppedAtGreatest(level, exp);
      if level >= MAX_LEVEL {
        exp := 0;
      }
    }
  }
}

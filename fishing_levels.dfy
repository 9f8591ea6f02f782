/** The fishing XP-to-level conversion of the Hypixel client: a fixed table of
    per-level XP increments and a walk that accumulates them, stopping at the
    first level whose running total the XP has not reached. */
module FishingLevels {

  /** The 51 per-level increments, level 0 first (its increment is 0), written
      in the rows of the client's table. */
  const Increments: seq<int> :=
    [0, 50, 125, 200, 300, 500, 750, 1000, 1500, 2000] +
    [3500, 5000, 7500, 10000, 15000, 20000, 30000, 50000] +
    [75000, 100000, 200000, 300000, 400000, 500000, 600000] +
    [700000, 800000, 900000, 1000000, 1100000, 1200000] +
    [1300000, 1400000, 1500000, 1600000, 1700000, 1800000] +
    [1900000, 2000000, 2100000, 2200000, 2300000, 2400000] +
    [2500000, 2600000, 2750000, 2900000, 3100000, 3400000] +
    [3700000, 4000000]

  /** The level returned once the table is exhausted. */
  const MaxLevel: int := 50

  /** The sum of the first `n` increments. */
  function Cumulative(n: nat): int
    requires n <= |Increments|
  {
    if n == 0 then 0 else Cumulative(n - 1) + Increments[n - 1]
  }

  /** The running total after adding the increment of level `i`: XP below it
      stops the walk at level `i`. */
  function Ceiling(i: nat): int
    requires i < |Increments|
  {
    Cumulative(i + 1)
  }

  /** The walk from level `i` on: the first level whose ceiling `xp` is below,
      or 50 when none is; it ends between `i` and 50. */
  function LevelFrom(xp: real, i: nat): (r: int)
    requires i <= |Increments|
    ensures r <= MaxLevel
    ensures i <= MaxLevel ==> i <= r
    decreases |Increments| - i
  {
    if i == |Increments| then MaxLevel
    else if xp < Ceiling(i) as real then i
    else LevelFrom(xp, i + 1)
  }

  /** The level the client assigns to `xp`. */
  function Level(xp: real): (r: int)
    ensures 0 <= r <= MaxLevel
  {
    LevelFrom(xp, 0)
  }

  /** `_xp_to_level`: a loop over the table keeping the running total, with an
      early return at the first ceiling above `xp`. */
  method XpToLevel(xp: real) returns (level: int)
    ensures level == Level(xp)
    ensures 0 <= level <= MaxLevel
    ensures forall j :: 0 <= j < level ==> Ceiling(j) as real <= xp
    ensures level < MaxLevel ==> xp < Ceiling(level) as real
  {
    LevelSpec(xp);
    var cumulative := 0;
    for i := 0 to |Increments|
      invariant cumulative == Cumulative(i)
      invariant forall j :: 0 <= j < i ==> Ceiling(j) as real <= xp
      invariant LevelFrom(xp, i) == Level(xp)
    {
      cumulative := cumulative + Increments[i];
      if xp < cumulative as real {
        return i;
      }
    }
    return MaxLevel;
  }

  /** The walk from `i` passes only ceilings `xp` has reached, and below 50
      stops at a ceiling `xp` is below. */
  lemma {:induction false} LevelFromSpec(xp: real, i: nat)
    requires i <= |Increments|
    ensures forall j :: i <= j < LevelFrom(xp, i) ==> Ceiling(j) as real <= xp
    ensures LevelFrom(xp, i) < MaxLevel ==> xp < Ceiling(LevelFrom(xp, i)) as real
    decreases |Increments| - i
  {
    if i == |Increments| {
      assert LevelFrom(xp, i) == MaxLevel;
    } else if xp < Ceiling(i) as real {
      assert LevelFrom(xp, i) == i;
    } else {
      var l := LevelFrom(xp, i + 1);
      LevelFromSpec(xp, i + 1);
      assert LevelFrom(xp, i) == l;
      forall j | i <= j < l ensures Ceiling(j) as real <= xp {
        if j > i {
          assert i + 1 <= j < l;
        }
      }
    }
  }

  /** The level is the smallest index whose ceiling `xp` is below, or 50 when
      there is none below 50. */
  lemma LevelSpec(xp: real)
    ensures 0 <= Level(xp) <= MaxLevel
    ensures forall j :: 0 <= j < Level(xp) ==> Ceiling(j) as real <= xp
    ensures Level(xp) < MaxLevel ==> xp < Ceiling(Level(xp)) as real
  {
    LevelFromSpec(xp, 0);
  }

  /** A ceiling that `xp` is below bounds the level from above. */
  lemma LevelAtMost(xp: real, i: nat)
    requires i < |Increments| && xp < Ceiling(i) as real
    ensures Level(xp) <= i
  {
    LevelSpec(xp);
  }

  /** Every increment is non-negative. */
  lemma IncrementsNonNegative()
    ensures |Increments| == 51
    ensures forall k :: 0 <= k < |Increments| ==> Increments[k] >= 0
  {
  }

  /** Running totals never decrease. */
  lemma {:induction false} CumulativeMonotone(a: nat, b: nat)
    requires a <= b <= |Increments|
    ensures Cumulative(a) <= Cumulative(b)
    decreases b - a
  {
    if a < b {
      IncrementsNonNegative();
      CumulativeMonotone(a, b - 1);
    }
  }

  /** More XP never gives a lower level. */
  lemma LevelMonotone(xp1: real, xp2: real)
    requires xp1 <= xp2
    ensures Level(xp1) <= Level(xp2)
  {
    LevelSpec(xp2);
    if Level(xp2) < MaxLevel {
      LevelAtMost(xp1, Level(xp2));
    } else {
      LevelSpec(xp1);
    }
  }

  /** The running totals up to level 24. */
  lemma CumulativeLow()
    ensures Cumulative(1) == 0 && Cumulative(2) == 50
    ensures Cumulative(21) == 522425 && Cumulative(22) == 822425
    ensures Cumulative(23) == 1222425 && Cumulative(24) == 1722425
  {
    assert Cumulative(6) == 1175;
    assert Cumulative(12) == 14925;
    assert Cumulative(18) == 147425;
  }

  /** The running total of the first 50 increments. */
  lemma CumulativeHigh()
    ensures Cumulative(50) == 51172425
  {
    CumulativeLow();
    assert Cumulative(30) == 6822425;
    assert Cumulative(36) == 15522425;
    assert Cumulative(42) == 27822425;
    assert Cumulative(48) == 44072425;
  }

  /** Only negative XP gives level 0. */
  lemma NegativeXpIsLevelZero(xp: real)
    ensures Level(xp) == 0 <==> xp < 0.0
  {
    CumulativeLow();
    LevelSpec(xp);
  }

  /** XP in [0, 50), zero included, gives level 1. */
  lemma FirstBracketIsLevelOne(xp: real)
    requires 0.0 <= xp < 50.0
    ensures Level(xp) == 1
  {
    CumulativeLow();
    LevelSpec(xp);
    LevelAtMost(xp, 1);
  }

  /** XP at or above the sum of the first 50 increments gives level 50. */
  lemma TopBracketIsMaxLevel(xp: real)
    requires xp >= 51172425.0
    ensures Level(xp) == MaxLevel
  {
    CumulativeHigh();
    LevelSpec(xp);
    if Level(xp) < MaxLevel {
      CumulativeMonotone(Level(xp) + 1, 50);
    }
  }

  /** Walk at level `l` when `xp` lies in its bracket. */
  lemma LevelInBracket(xp: real, l: nat)
    requires 0 < l < MaxLevel
    requires Ceiling(l - 1) as real <= xp < Ceiling(l) as real
    ensures Level(xp) == l
  {
    LevelSpec(xp);
    LevelAtMost(xp, l);
    if Level(xp) < l {
      CumulativeMonotone(Level(xp) + 1, l);
    }
  }

  /** The levels of the XP values used by the client's extraction tests:
      1332625 XP is level 23 and 572625 XP is level 21. */
  lemma ExtractionTestLevels()
    ensures Level(1332625.0) == 23
    ensures Level(572625.0) == 21
  {
    CumulativeLow();
    LevelInBracket(1332625.0, 23);
    LevelInBracket(572625.0, 21);
  }
}

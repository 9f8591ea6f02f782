/** `FishingStatsCalculator.get_fishing_recommendations`: a ladder of
    thresholds on the fishing level, the trophy-fish total and the diamond
    count, each rung appending one piece of advice. The advice is modelled by
    what it says, with the numbers it quotes, rather than by its text. */
module Recommendations {
  import opened TrophyFish

  datatype Advice =
    | FocusOnLeveling                 // level below 25
    | StartTrophyFishingCrimson       // level 25 to 29
    | GreatWhiteAndThunder            // level 26 and up
    | HighLevel                       // level 40 and up
    | StartTrophyFishing              // no trophy fish yet
    | CatchMoreTrophy                 // fewer than 100
    | FocusDiamondTrophy              // fewer than 1000
    | ImpressiveTotal(total: int)     // 1000 and up, quoting the total
    | FirstDiamond                    // trophy fish but no diamond one
    | NeedMoreDiamonds(current: int)  // fewer than 10 diamonds
    | GoodDiamondProgress(current: int) // fewer than 50
    | OutstandingDiamonds(current: int) // 50 and up

  predicate IsLevelAdvice(a: Advice) {
    a.FocusOnLeveling? || a.StartTrophyFishingCrimson? || a.GreatWhiteAndThunder? || a.HighLevel?
  }

  predicate IsTrophyAdvice(a: Advice) {
    a.StartTrophyFishing? || a.CatchMoreTrophy? || a.FocusDiamondTrophy? || a.ImpressiveTotal?
  }

  predicate IsDiamondAdvice(a: Advice) {
    a.FirstDiamond? || a.NeedMoreDiamonds? || a.GoodDiamondProgress? || a.OutstandingDiamonds?
  }

  /** The level rungs: one of the two early messages (or neither from 30 on),
      then the Great White message from 26 and the high-level one from 40. */
  function LevelAdvice(level: int): (r: seq<Advice>)
    ensures 1 <= |r| <= 2
    ensures forall i :: 0 <= i < |r| ==> IsLevelAdvice(r[i])
  {
    (if level < 25 then [FocusOnLeveling] else if level < 30 then [StartTrophyFishingCrimson] else [])
    + (if level >= 26 then [GreatWhiteAndThunder] else [])
    + (if level >= 40 then [HighLevel] else [])
  }

  /** The one trophy-total rung. */
  function TrophyAdvice(total: int): (r: Advice)
    ensures IsTrophyAdvice(r)
  {
    if total == 0 then StartTrophyFishing
    else if total < 100 then CatchMoreTrophy
    else if total < 1000 then FocusDiamondTrophy
    else ImpressiveTotal(total)
  }

  /** The diamond rungs. Their last test, `diamond_count >= 50`, always holds
      when it is reached, so exactly one rung fires. */
  function DiamondAdvice(diamond: int, total: int): (r: seq<Advice>)
    ensures |r| == 1 && IsDiamondAdvice(r[0])
  {
    if diamond == 0 && total > 0 then [FirstDiamond]
    else if diamond < 10 then [NeedMoreDiamonds(diamond)]
    else if diamond < 50 then [GoodDiamondProgress(diamond)]
    else if diamond >= 50 then [OutstandingDiamonds(diamond)]
    else []
  }

  /** The whole list, as the method appends it. */
  function Advise(level: int, total: int, diamond: int): (r: seq<Advice>)
    ensures 3 <= |r| <= 4
    ensures IsTrophyAdvice(r[|r| - 2]) && IsDiamondAdvice(r[|r| - 1])
  {
    LevelAdvice(level) + [TrophyAdvice(total)] + DiamondAdvice(diamond, total)
  }

  /** `get_fishing_recommendations(fishing_level, fishing_xp, trophy_stats)`.
      The XP is taken and never read; the trophy statistics must carry a
      diamond count, as `by_tier['diamond']` does. */
  method GetFishingRecommendations(fishingLevel: int, fishingXp: real, trophyStats: TrophyStats)
    returns (recommendations: seq<Advice>)
    requires Diamond in trophyStats.byTier
    ensures recommendations == Advise(fishingLevel, trophyStats.totalCaught, trophyStats.byTier[Diamond])
  {
    recommendations := [];
    if fishingLevel < 25 {
      recommendations := recommendations + [FocusOnLeveling];
    } else if fishingLevel < 30 {
      recommendations := recommendations + [StartTrophyFishingCrimson];
    }
    if fishingLevel >= 26 {
      recommendations := recommendations + [GreatWhiteAndThunder];
    }
    if fishingLevel >= 40 {
      recommendations := recommendations + [HighLevel];
    }
    assert recommendations == LevelAdvice(fishingLevel);
    var totalTrophy := trophyStats.totalCaught;
    if totalTrophy == 0 {
      recommendations := recommendations + [StartTrophyFishing];
    } else if totalTrophy < 100 {
      recommendations := recommendations + [CatchMoreTrophy];
    } else if totalTrophy < 1000 {
      recommendations := recommendations + [FocusDiamondTrophy];
    } else {
      recommendations := recommendations + [ImpressiveTotal(totalTrophy)];
    }
    assert recommendations == LevelAdvice(fishingLevel) + [TrophyAdvice(totalTrophy)];
    var diamondCount := trophyStats.byTier[Diamond];
    if diamondCount == 0 && totalTrophy > 0 {
      recommendations := recommendations + [FirstDiamond];
    } else if diamondCount < 10 {
      recommendations := recommendations + [NeedMoreDiamonds(diamondCount)];
    } else if diamondCount < 50 {
      recommendations := recommendations + [GoodDiamondProgress(diamondCount)];
    } else if diamondCount >= 50 {
      recommendations := recommendations + [OutstandingDiamonds(diamondCount)];
    }
  }

  /** The list holds one or two level messages, then exactly one trophy
      message, then exactly one diamond message: three or four in all. */
  lemma AdviceShape(level: int, total: int, diamond: int)
    ensures var r := Advise(level, total, diamond);
      var n := |LevelAdvice(level)|;
      && 3 <= |r| <= 4 && n == |r| - 2
      && (forall i :: 0 <= i < n ==> IsLevelAdvice(r[i]))
      && IsTrophyAdvice(r[n]) && IsDiamondAdvice(r[n + 1])
  {
    var r := Advise(level, total, diamond);
    var lv := LevelAdvice(level);
    assert r == lv + [TrophyAdvice(total)] + DiamondAdvice(diamond, total);
    assert forall i :: 0 <= i < |lv| ==> r[i] == lv[i];
    assert r[|lv|] == TrophyAdvice(total);
    assert r[|lv| + 1] == DiamondAdvice(diamond, total)[0];
  }

  /** Level 25 is told to start trophy fishing but not yet about Great Whites. */
  lemma Level25()
    ensures LevelAdvice(25) == [StartTrophyFishingCrimson]
    ensures GreatWhiteAndThunder !in Advise(25, 0, 0)
  {
    AdviceShape(25, 0, 0);
  }

  /** Levels 26 to 29 get both messages, in that order. */
  lemma Levels26To29(level: int)
    requires 26 <= level <= 29
    ensures LevelAdvice(level) == [StartTrophyFishingCrimson, GreatWhiteAndThunder]
  {
  }

  /** Each level band and the messages it gets. */
  lemma LevelBands(level: int)
    ensures level < 25 ==> LevelAdvice(level) == [FocusOnLeveling]
    ensures 30 <= level < 40 ==> LevelAdvice(level) == [GreatWhiteAndThunder]
    ensures level >= 40 ==> LevelAdvice(level) == [GreatWhiteAndThunder, HighLevel]
  {
  }

  /** The Great White message appears exactly from level 26, and the
      high-level one exactly from level 40. */
  lemma LevelThresholds(level: int, total: int, diamond: int)
    ensures GreatWhiteAndThunder in Advise(level, total, diamond) <==> level >= 26
    ensures HighLevel in Advise(level, total, diamond) <==> level >= 40
    ensures FocusOnLeveling in Advise(level, total, diamond) <==> level < 25
    ensures StartTrophyFishingCrimson in Advise(level, total, diamond) <==> 25 <= level < 30
  {
    AdviceShape(level, total, diamond);
    var r := Advise(level, total, diamond);
    var lv := LevelAdvice(level);
    assert r == lv + [TrophyAdvice(total)] + DiamondAdvice(diamond, total);
    forall a | IsLevelAdvice(a) ensures a in r <==> a in lv {
      assert !IsLevelAdvice(TrophyAdvice(total));
      assert !IsLevelAdvice(DiamondAdvice(diamond, total)[0]);
    }
  }

  /** No trophy fish and no diamonds is "need more (current: 0)", not "first
      diamond". */
  lemma NoTrophiesNeedDiamonds(level: int)
    ensures Advise(level, 0, 0)[|Advise(level, 0, 0)| - 1] == NeedMoreDiamonds(0)
    ensures FirstDiamond !in Advise(level, 0, 0)
  {
    AdviceShape(level, 0, 0);
    var r := Advise(level, 0, 0);
    forall i | 0 <= i < |r| ensures r[i] != FirstDiamond {
      if i < |LevelAdvice(level)| {
        assert IsLevelAdvice(r[i]);
      }
    }
  }

  /** The first-diamond message appears exactly when there are trophy fish and
      no diamond among them. */
  lemma FirstDiamondExactly(level: int, total: int, diamond: int)
    ensures FirstDiamond in Advise(level, total, diamond) <==> diamond == 0 && total > 0
  {
    AdviceShape(level, total, diamond);
    var r := Advise(level, total, diamond);
    var n := |LevelAdvice(level)|;
    forall i | 0 <= i < |r| && i != n + 1 ensures r[i] != FirstDiamond {
      if i < n {
        assert IsLevelAdvice(r[i]);
      }
    }
  }

  /** Each trophy-total band and its message; only the last one quotes the
      total. */
  lemma TrophyBands(total: int)
    ensures total == 0 <==> TrophyAdvice(total) == StartTrophyFishing
    ensures (total != 0 && total < 100) <==> TrophyAdvice(total) == CatchMoreTrophy
    ensures (100 <= total < 1000) <==> TrophyAdvice(total) == FocusDiamondTrophy
    ensures total >= 1000 <==> TrophyAdvice(total) == ImpressiveTotal(total)
  {
  }

  /** Each diamond band and its message, quoting the count. */
  lemma DiamondBands(diamond: int, total: int)
    requires !(diamond == 0 && total > 0)
    ensures diamond < 10 ==> DiamondAdvice(diamond, total) == [NeedMoreDiamonds(diamond)]
    ensures 10 <= diamond < 50 ==> DiamondAdvice(diamond, total) == [GoodDiamondProgress(diamond)]
    ensures diamond >= 50 ==> DiamondAdvice(diamond, total) == [OutstandingDiamonds(diamond)]
  {
  }
}

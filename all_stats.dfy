/** `FishingStatsCalculator.calculate_all_stats`: the three derived statistics
    of one player, the recommendations reading the trophy breakdown just
    computed. */
module FishingStatsCalculator {
  import opened JsonValues
  import opened Sums
  import opened TrophyFish
  import opened SeaCreatures
  import opened Recommendations

  datatype AllStats = AllStats(trophyFish: TrophyStats, seaCreatures: SeaCreatureSummary, recommendations: seq<Advice>)

  method CalculateAllStats(fishingLevel: int, fishingXp: real, trophyFish: map<string, Json>,
                           seaCreatureKills: map<string, Json>) returns (all: AllStats)
    ensures IsTrophyBreakdown(trophyFish, trophyFish.Keys, all.trophyFish) && SumsAgree(all.trophyFish)
    ensures all.seaCreatures.totalKills == SumValues(NumericKills(seaCreatureKills))
    ensures all.seaCreatures.uniqueTypes == |NumericKills(seaCreatureKills)|
    ensures NotableOf(NumericKills(seaCreatureKills), all.seaCreatures.notable)
    ensures Diamond in all.trophyFish.byTier
    ensures all.recommendations == Advise(fishingLevel, all.trophyFish.totalCaught, all.trophyFish.byTier[Diamond])
  {
    var trophyStats := TrophyFishStats(trophyFish);
    var seaCreatureStats := SeaCreatureStats(seaCreatureKills);
    assert Diamond in AllTiers;
    var recommendations := GetFishingRecommendations(fishingLevel, fishingXp, trophyStats);
    all := AllStats(trophyStats, seaCreatureStats, recommendations);
  }

  /** With no trophy fish at all the breakdown is the empty one, so the
      recommendations end with "start trophy fishing" and "need more diamonds
      (current: 0)". */
  lemma EmptyTrophiesAdvice(level: int, s: TrophyStats)
    requires IsTrophyBreakdown(map[], {}, s)
    ensures s.totalCaught == 0 && Diamond in s.byTier && s.byTier[Diamond] == 0
    ensures var r := Advise(level, s.totalCaught, s.byTier[Diamond]);
      r[|r| - 2] == StartTrophyFishing && r[|r| - 1] == NeedMoreDiamonds(0)
  {
    TallyStart(map[]);
    BreakdownUnique(Catches(map[], {}), s, NoTrophies);
    AdviceShape(level, 0, 0);
  }
}

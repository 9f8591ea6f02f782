/** `FishingStatsCalculator.calculate_sea_creature_stats`: the kill summary of
    the bestiary `kills` map, counting only numeric entries and picking out six
    notable creatures under their display names. */
module SeaCreatures {
  import opened JsonValues
  import opened Sums

  /** The notable creatures, creature id first, in the order of the
      calculator's `notable_creatures` table. */
  const NotableCreatures: seq<(string, string)> := [
    ("water_hydra", "Water Hydra"),
    ("the_sea_emperor", "Sea Emperor"),
    ("thunder", "Thunder"),
    ("lord_jawbus", "Lord Jawbus"),
    ("great_white_shark", "Great White Shark"),
    ("yeti", "Yeti")
  ]

  datatype SeaCreatureSummary = SeaCreatureSummary(totalKills: int, uniqueTypes: int, notable: map<string, int>)

  /** The numeric entries of `m` among `keys`, each converted with `int()`. */
  ghost function NumericAmong(m: map<string, Json>, keys: set<string>): map<string, int> {
    map k | k in keys && k in m && IsNumber(m[k]) :: Count(m[k])
  }

  /** `numeric_kills`: every numeric entry of the kill map, as an integer. */
  ghost function NumericKills(m: map<string, Json>): map<string, int> {
    NumericAmong(m, m.Keys)
  }

  /** `notable` lists, among the first `n` rows of the table, the display name
      of exactly the creatures `numeric` has, mapped to their count, and no
      other name. */
  ghost predicate NotableUpTo(numeric: map<string, int>, notable: map<string, int>, n: nat)
    requires n <= |NotableCreatures|
  {
    && (forall d :: d in notable ==> exists i :: 0 <= i < n && NotableCreatures[i].1 == d)
    && (forall i :: 0 <= i < n ==>
          (NotableCreatures[i].1 in notable <==> NotableCreatures[i].0 in numeric))
    && (forall i :: 0 <= i < n && NotableCreatures[i].1 in notable ==>
          notable[NotableCreatures[i].1] == numeric[NotableCreatures[i].0])
  }

  ghost predicate NotableOf(numeric: map<string, int>, notable: map<string, int>) {
    NotableUpTo(numeric, notable, |NotableCreatures|)
  }

  /** Python's `sum(values)` over the values of a map. */
  method SumKills(numeric: map<string, int>) returns (total: int)
    ensures total == SumValues(numeric)
  {
    total := 0;
    var rest := numeric;
    while rest != map[]
      invariant total + SumValues(rest) == SumValues(numeric)
      decreases rest.Keys
    {
      var k :| k in rest;
      SumValuesRemove(rest, k);
      total := total + rest[k];
      rest := rest - {k};
    }
  }

  /** Looking at one more key adds it when its value is numeric. */
  lemma NumericStep(m: map<string, Json>, keys: set<string>, k: string)
    requires k in m && k !in keys
    ensures NumericAmong(m, keys + {k}) ==
      if IsNumber(m[k]) then NumericAmong(m, keys)[k := Count(m[k])] else NumericAmong(m, keys)
  {
  }

  /** The filtering loop: `numeric_kills[creature_id] = int(kill_count)` for
      each numeric entry. */
  method FilterNumeric(kills: map<string, Json>) returns (numeric: map<string, int>)
    ensures numeric == NumericKills(kills)
  {
    numeric := map[];
    var remaining := kills.Keys;
    ghost var visited: set<string> := {};
    while remaining != {}
      invariant remaining <= kills.Keys && visited == kills.Keys - remaining
      invariant numeric == NumericAmong(kills, visited)
      decreases remaining
    {
      var creature :| creature in remaining;
      NumericStep(kills, visited, creature);
      var killCount := kills[creature];
      if IsNumber(killCount) {
        numeric := numeric[creature := Count(killCount)];
      }
      Visit(kills.Keys, remaining, visited, creature);
      remaining := remaining - {creature};
      visited := visited + {creature};
    }
    assert visited == kills.Keys;
  }

  /** The loop over the notable table: each creature present in `numeric` is
      listed under its display name. */
  method PickNotable(numeric: map<string, int>) returns (notable: map<string, int>)
    ensures NotableOf(numeric, notable)
  {
    notable := map[];
    var i := 0;
    while i < |NotableCreatures|
      invariant 0 <= i <= |NotableCreatures|
      invariant NotableUpTo(numeric, notable, i)
    {
      var (creature, display) := NotableCreatures[i];
      if creature in numeric {
        notable := notable[display := numeric[creature]];
      }
      i := i + 1;
    }
  }

  /** `calculate_sea_creature_stats(sea_creature_kills)`. */
  method SeaCreatureStats(kills: map<string, Json>) returns (stats: SeaCreatureSummary)
    ensures stats.totalKills == SumValues(NumericKills(kills))
    ensures stats.uniqueTypes == |NumericKills(kills)|
    ensures NotableOf(NumericKills(kills), stats.notable)
  {
    var numeric := FilterNumeric(kills);
    var total := SumKills(numeric);
    var notable := PickNotable(numeric);
    stats := SeaCreatureSummary(total, |numeric|, notable);
  }

  /** The notable map a summary must have is determined: it is at most six
      entries and two maps meeting the description are equal. */
  lemma NotableUnique(numeric: map<string, int>, n1: map<string, int>, n2: map<string, int>)
    requires NotableOf(numeric, n1) && NotableOf(numeric, n2)
    ensures n1 == n2
  {
    forall d | d in n1 ensures d in n2 && n1[d] == n2[d] {
      var i :| 0 <= i < |NotableCreatures| && NotableCreatures[i].1 == d;
    }
    forall d | d in n2 ensures d in n1 {
      var i :| 0 <= i < |NotableCreatures| && NotableCreatures[i].1 == d;
    }
  }

  /** An entry whose value is not a number leaves the numeric kills, and with
      them the whole summary, unchanged. */
  lemma NonNumericIgnored(m: map<string, Json>, k: string, v: Json)
    requires !IsNumber(v)
    ensures NumericKills(m[k := v]) == NumericKills(m - {k})
  {
  }

  /** Only numeric entries are counted, so there are never more types than
      entries. */
  lemma UniqueTypesBound(m: map<string, Json>)
    ensures |NumericKills(m)| <= |m|
  {
    assert NumericKills(m).Keys <= m.Keys;
    SubsetCard(NumericKills(m).Keys, m.Keys);
  }

  lemma {:induction false} SubsetCard(a: set<string>, b: set<string>)
    requires a <= b
    ensures |a| <= |b|
    decreases |b|
  {
    if b != {} {
      var x :| x in b;
      SubsetCard(a - {x}, b - {x});
    }
  }

  /** A kill map with 3.7 Thunder kills, a string for Yeti and 2 kills of an
      unlisted creature keeps the two numbers, truncated. */
  lemma KillsExample()
    ensures NumericKills(map["thunder" := Num(3.7), "yeti" := Str("many"), "squid" := Num(2.0)])
      == map["thunder" := 3, "squid" := 2]
  {
  }

  /** Those kills total 5, of 2 types. */
  lemma KillsExampleTotal()
    ensures SumValues(map["thunder" := 3, "squid" := 2]) == 5 && |map["thunder" := 3, "squid" := 2]| == 2
  {
    var numeric := map["thunder" := 3, "squid" := 2];
    SumValuesRemove(numeric, "thunder");
    assert numeric - {"thunder"} == map["squid" := 2];
    SumValuesRemove(map["squid" := 2], "squid");
    assert map["squid" := 2] - {"squid"} == map[];
  }

  /** With those kills, Thunder is listed with 3 and Yeti is not listed. */
  lemma NotableExample(notable: map<string, int>)
    requires NotableOf(map["thunder" := 3, "squid" := 2], notable)
    ensures "Thunder" in notable && notable["Thunder"] == 3 && "Yeti" !in notable
  {
    assert NotableCreatures[2] == ("thunder", "Thunder");
    assert NotableCreatures[5] == ("yeti", "Yeti");
  }
}

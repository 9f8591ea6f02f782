/** `FishingStatsCalculator.calculate_trophy_fish_stats`: the trophy-fish
    breakdown of the `trophy_fish` map that profile extraction hands on, whose
    keys are a fish name, an underscore and a tier. */
module TrophyFish {
  import opened Results
  import opened JsonValues
  import opened Sums

  /** The four trophy tiers, the keys `by_tier` starts with. */
  datatype Tier = Bronze | Silver | Gold | Diamond

  const AllTiers: set<Tier> := {Bronze, Silver, Gold, Diamond}

  /** Every tier is one of the four. */
  lemma AllTiersComplete()
    ensures forall t: Tier :: t in AllTiers
  {
    forall t: Tier ensures t in AllTiers {
      match t
      case Bronze => assert Bronze in AllTiers;
      case Silver => assert Silver in AllTiers;
      case Gold => assert Gold in AllTiers;
      case Diamond => assert Diamond in AllTiers;
    }
  }

  /** The name of a tier, as it ends a trophy key and keys `by_tier`. */
  function TierName(t: Tier): string {
    match t
    case Bronze => "bronze"
    case Silver => "silver"
    case Gold => "gold"
    case Diamond => "diamond"
  }

  /** The tier a key suffix names, if it names one. */
  function ParseTier(suffix: string): (r: Option<Tier>)
    ensures r.Some? ==> TierName(r.value) == suffix
    ensures forall t :: TierName(t) == suffix ==> r == Some(t)
  {
    if suffix == "bronze" then Some(Bronze)
    else if suffix == "silver" then Some(Silver)
    else if suffix == "gold" then Some(Gold)
    else if suffix == "diamond" then Some(Diamond)
    else None
  }

  /** `key.rsplit('_', 1)` as a pair when the key has an underscore: the part
      before the last underscore and the part after it. */
  function SplitLast(key: string): (r: Option<(string, string)>)
    ensures r.None? <==> '_' !in key
    ensures r.Some? ==> key == r.value.0 + "_" + r.value.1 && '_' !in r.value.1
    decreases |key|
  {
    if key == [] then None
    else
      var init, last := key[..|key| - 1], key[|key| - 1];
      assert key == init + [last];
      if last == '_' then Some((init, ""))
      else match SplitLast(init)
        case None => None
        case Some((head, tail)) => Some((head, tail + [last]))
  }

  /** Splitting on the last underscore undoes joining with one, as long as the
      second part has none. */
  lemma {:induction false} SplitLastJoin(fish: string, tier: string)
    requires '_' !in tier
    ensures SplitLast(fish + "_" + tier) == Some((fish, tier))
    decreases |tier|
  {
    var key := fish + "_" + tier;
    if tier == [] {
      assert key[..|key| - 1] == fish;
    } else {
      var init := tier[..|tier| - 1];
      assert key[..|key| - 1] == fish + "_" + init;
      assert key[|key| - 1] == tier[|tier| - 1];
      assert '_' !in init;
      SplitLastJoin(fish, init);
      assert init + [tier[|tier| - 1]] == tier;
    }
  }

  /** No tier name has an underscore. */
  lemma TiersHaveNoUnderscore()
    ensures forall t :: '_' !in TierName(t)
  {
    assert '_' !in "bronze" && '_' !in "silver" && '_' !in "gold" && '_' !in "diamond";
  }

  /** What one trophy entry adds: its fish, its tier and its count. */
  datatype Catch = Catch(fish: string, tier: Tier, count: int)

  /** The entry `key: value` counts when the value is a number (bools
      included) and the part of the key after its last underscore is a tier;
      the count is the value truncated to an integer. */
  function Contribution(key: string, value: Json): (r: Option<Catch>)
    ensures !IsNumber(value) || '_' !in key ==> r.None?
    ensures r.Some? ==> IsNumber(value) && r.value.count == Count(value)
    ensures r.Some? ==> key == r.value.fish + "_" + TierName(r.value.tier)
  {
    if !IsNumber(value) then None
    else match SplitLast(key)
      case None => None
      case Some((fish, suffix)) =>
        match ParseTier(suffix)
        case None => None
        case Some(tier) => Some(Catch(fish, tier, Count(value)))
  }

  /** `key` ends with an underscore followed by `name`. */
  predicate EndsWithPart(key: string, name: string) {
    |key| > |name| && key[|key| - |name| - 1..] == "_" + name
  }

  /** A key ending in `_` and an underscore-free `name` splits into the rest
      of the key and `name`. */
  lemma SplitLastEndsWith(key: string, name: string)
    requires '_' !in name && EndsWithPart(key, name)
    ensures SplitLast(key) == Some((key[..|key| - |name| - 1], name))
  {
    var n := |key| - |name| - 1;
    var head := key[..n];
    assert key == head + key[n..];
    assert head + key[n..] == head + "_" + name;
    SplitLastJoin(head, name);
  }

  /** A split whose second part is `name` comes from a key ending in `_` and
      `name`. */
  lemma SplitLastEnds(key: string, name: string)
    requires SplitLast(key).Some? && SplitLast(key).value.1 == name
    ensures EndsWithPart(key, name)
  {
    var head := SplitLast(key).value.0;
    assert key == head + "_" + name;
    assert key[|key| - |name| - 1..] == "_" + name;
  }

  /** For an underscore-free `name`, the split ends in `name` exactly when the
      key ends with `_` and `name`. */
  lemma SplitLastSuffix(key: string, name: string)
    requires '_' !in name
    ensures (SplitLast(key).Some? && SplitLast(key).value.1 == name) <==> EndsWithPart(key, name)
    ensures EndsWithPart(key, name) ==> SplitLast(key).value.0 == key[..|key| - |name| - 1]
  {
    if EndsWithPart(key, name) {
      SplitLastEndsWith(key, name);
    }
    if SplitLast(key).Some? && SplitLast(key).value.1 == name {
      SplitLastEnds(key, name);
    }
  }

  /** An entry contributes exactly when its value is a number and its key ends
      in `_bronze`, `_silver`, `_gold` or `_diamond`; the fish is then the rest
      of the key. */
  lemma ContributionExactly(key: string, value: Json)
    ensures Contribution(key, value).Some? <==>
      IsNumber(value) && exists t :: EndsWithPart(key, TierName(t))
    ensures Contribution(key, value).Some? ==>
      var c := Contribution(key, value).value;
      var name := TierName(c.tier);
      EndsWithPart(key, name) && c.fish == key[..|key| - |name| - 1] && c.count == Count(value)
  {
    TiersHaveNoUnderscore();
    forall t ensures (SplitLast(key).Some? && SplitLast(key).value.1 == TierName(t)) <==> EndsWithPart(key, TierName(t)) {
      SplitLastSuffix(key, TierName(t));
    }
    if Contribution(key, value).Some? {
      SplitLastSuffix(key, TierName(Contribution(key, value).value.tier));
    }
  }

  /** A key whose last part is not a tier counts for nothing. */
  lemma UntieredKeyIgnored()
    ensures Contribution("sulphur_skitter", Num(5.0)).None?
  {
    assert "sulphur_skitter" == "sulphur" + "_" + "skitter";
    SplitLastJoin("sulphur", "skitter");
    assert SplitLast("sulphur_skitter") == Some(("sulphur", "skitter"));
    assert ParseTier("skitter") == None;
  }

  /** A tiered key counts its numeric value, truncated, and nothing else. */
  lemma TieredKeyCounted()
    ensures Contribution("sulphur_skitter_bronze", Num(3.5)) == Some(Catch("sulphur_skitter", Bronze, 3))
    ensures Contribution("sulphur_skitter_bronze", Str("5")).None?
  {
    assert "sulphur_skitter_bronze" == "sulphur_skitter" + "_" + "bronze";
    SplitLastJoin("sulphur_skitter", "bronze");
  }

  /** A bool is counted as 0 or 1, and the fish name may be empty. */
  lemma BoolCountsAsOne()
    ensures Contribution("_gold", Bool(true)) == Some(Catch("", Gold, 1))
  {
    assert "_gold" == "" + "_" + "gold";
    SplitLastJoin("", "gold");
  }

  // ---------------------------------------------------------------------
  // The trophy-fish breakdown

  datatype FishEntry = FishEntry(total: int, tiers: map<Tier, int>)

  datatype TrophyStats = TrophyStats(totalCaught: int, byTier: map<Tier, int>, byFish: map<string, FishEntry>)

  /** The catches of the contributing entries of `m` among `keys`, by key. */
  ghost function Catches(m: map<string, Json>, keys: set<string>): map<string, Catch> {
    map k | k in keys && k in m && Contribution(k, m[k]).Some? :: Contribution(k, m[k]).value
  }

  /** No catch in `cs` is of the fish and tier of `x`. */
  ghost predicate Fresh(cs: map<string, Catch>, x: Catch) {
    forall k :: k in cs ==> cs[k].fish != x.fish || cs[k].tier != x.tier
  }

  /** Visiting one more key adds its catch, if it has one. */
  lemma CatchesStep(m: map<string, Json>, keys: set<string>, k: string)
    requires k in m && k !in keys
    ensures k !in Catches(m, keys)
    ensures Catches(m, keys + {k}) ==
      match Contribution(k, m[k])
      case None => Catches(m, keys)
      case Some(x) => Catches(m, keys)[k := x]
  {
  }

  /** A catch's fish and tier determine its key. */
  lemma CatchKey(key: string, value: Json)
    requires Contribution(key, value).Some?
    ensures key == Contribution(key, value).value.fish + "_" + TierName(Contribution(key, value).value.tier)
  {
  }

  /** The catch of a key not yet visited is of a fish and tier no visited key
      has, since fish and tier spell out the key. */
  lemma CatchFresh(m: map<string, Json>, keys: set<string>, k: string)
    requires k in m && k !in keys && Contribution(k, m[k]).Some?
    ensures Fresh(Catches(m, keys), Contribution(k, m[k]).value)
  {
    var cs, x := Catches(m, keys), Contribution(k, m[k]).value;
    forall k2 | k2 in cs ensures cs[k2].fish != x.fish || cs[k2].tier != x.tier {
      CatchKey(k2, m[k2]);
      CatchKey(k, m[k]);
    }
  }

  /** Which catches a count ranges over. */
  datatype Selection = Every | OfTier(tier: Tier) | OfFish(fish: string) | OfFishTier(f: string, t: Tier)

  predicate Selects(sel: Selection, c: Catch) {
    match sel
    case Every => true
    case OfTier(t) => c.tier == t
    case OfFish(f) => c.fish == f
    case OfFishTier(f, t) => c.fish == f && c.tier == t
  }

  /** The counts of the selected catches, by key. */
  ghost function Counts(cs: map<string, Catch>, sel: Selection): map<string, int> {
    map k | k in cs && Selects(sel, cs[k]) :: cs[k].count
  }

  /** The fish some catch names. */
  ghost function FishNames(cs: map<string, Catch>): set<string> {
    set k | k in cs :: cs[k].fish
  }

  /** The tiers `fish` is caught in. */
  ghost function TiersOf(cs: map<string, Catch>, fish: string): set<Tier> {
    set k | k in cs && cs[k].fish == fish :: cs[k].tier
  }

  /** The tiers `fish` is caught in, each with the sum of its catches there. */
  ghost function FishTiers(cs: map<string, Catch>, fish: string): map<Tier, int> {
    map t | t in TiersOf(cs, fish) :: SumValues(Counts(cs, OfFishTier(fish, t)))
  }

  /** The total of every fish, by name. */
  ghost function FishTotals(byFish: map<string, FishEntry>): map<string, int> {
    map n | n in byFish :: byFish[n].total
  }

  /** Entry `e` of fish `n` holds the sum of that fish's catches and the
      tiers it is caught in. */
  ghost predicate FishRight(cs: map<string, Catch>, n: string, e: FishEntry) {
    e.total == SumValues(Counts(cs, OfFish(n))) && e.tiers == FishTiers(cs, n)
  }

  /** `by_fish` has an entry for exactly the fish caught, each one right. */
  ghost predicate FishTallied(cs: map<string, Catch>, byFish: map<string, FishEntry>) {
    && byFish.Keys == FishNames(cs)
    && (forall n :: n in byFish ==> FishRight(cs, n, byFish[n]))
  }

  /** `s` tallies the catches `cs`: each tier holds the sum of its catches, the
      total the sum of all of them, and every fish caught has its entry. */
  ghost predicate Tallies(cs: map<string, Catch>, s: TrophyStats) {
    && s.byTier.Keys == AllTiers
    && (forall t :: t in AllTiers ==> s.byTier[t] == SumValues(Counts(cs, OfTier(t))))
    && s.totalCaught == SumValues(Counts(cs, Every))
    && FishTallied(cs, s.byFish)
  }

  /** `s` is the breakdown of the entries of `m` under `keys`. */
  ghost predicate IsTrophyBreakdown(m: map<string, Json>, keys: set<string>, s: TrophyStats) {
    Tallies(Catches(m, keys), s)
  }

  /** The three sums of a breakdown agree: the total is the sum over the tiers
      and over the fish, and each fish's total is the sum over its tiers. */
  ghost predicate SumsAgree(s: TrophyStats) {
    && s.totalCaught == SumValues(s.byTier)
    && (forall n :: n in s.byFish ==> s.byFish[n].total == SumValues(s.byFish[n].tiers))
    && SumValues(FishTotals(s.byFish)) == s.totalCaught
  }

  /** The state after adding catch `x` to `s`, as the loop body builds it. */
  function AddCatch(s: TrophyStats, x: Catch): (r: TrophyStats)
    requires x.tier in s.byTier
    ensures r.byTier.Keys == s.byTier.Keys && r.byFish.Keys == s.byFish.Keys + {x.fish}
    ensures x.tier in r.byFish[x.fish].tiers && r.byFish[x.fish].tiers[x.tier] == x.count
  {
    var e := if x.fish in s.byFish then s.byFish[x.fish] else FishEntry(0, map[]);
    TrophyStats(s.totalCaught + x.count, s.byTier[x.tier := s.byTier[x.tier] + x.count],
                s.byFish[x.fish := FishEntry(e.total + x.count, e.tiers[x.tier := x.count])])
  }

  /** A new catch adds its count to every selection that takes it. */
  lemma CountsStep(cs: map<string, Catch>, k: string, x: Catch, sel: Selection)
    requires k !in cs
    ensures Counts(cs[k := x], sel) == if Selects(sel, x) then Counts(cs, sel)[k := x.count] else Counts(cs, sel)
    ensures k !in Counts(cs, sel)
  {
  }

  /** A fish no catch names has no tiers and no counts. */
  lemma FishUnnamed(cs: map<string, Catch>, n: string)
    requires n !in FishNames(cs)
    ensures TiersOf(cs, n) == {} && FishTiers(cs, n) == map[]
    ensures Counts(cs, OfFish(n)) == map[]
  {
    forall k | k in cs ensures cs[k].fish != n {
      assert cs[k].fish in FishNames(cs);
    }
  }

  /** A new catch adds its tier to the tiers of its fish only. */
  lemma TiersOfStep(cs: map<string, Catch>, k: string, x: Catch, n: string)
    requires k !in cs
    ensures TiersOf(cs[k := x], n) == TiersOf(cs, n) + (if n == x.fish then {x.tier} else {})
  {
    var cs2 := cs[k := x];
    forall t | t in TiersOf(cs2, n) ensures t in TiersOf(cs, n) || (n == x.fish && t == x.tier) {
      var k2 :| k2 in cs2 && cs2[k2].fish == n && cs2[k2].tier == t;
      if k2 != k {
        assert cs[k2] == cs2[k2];
      }
    }
    forall t | t in TiersOf(cs, n) ensures t in TiersOf(cs2, n) {
      var k2 :| k2 in cs && cs[k2].fish == n && cs[k2].tier == t;
      assert cs2[k2] == cs[k2];
    }
    if n == x.fish {
      assert cs2[k].fish == n && cs2[k].tier == x.tier;
    }
  }

  /** A new catch of a fresh fish and tier gives its own fish the new tier
      with its count and leaves every other fish and tier as it was. */
  lemma FishTiersStep(cs: map<string, Catch>, k: string, x: Catch, n: string)
    requires k !in cs && Fresh(cs, x)
    ensures n == x.fish ==> x.tier !in FishTiers(cs, n) && FishTiers(cs[k := x], n) == FishTiers(cs, n)[x.tier := x.count]
    ensures n != x.fish ==> FishTiers(cs[k := x], n) == FishTiers(cs, n)
  {
    var cs2 := cs[k := x];
    TiersOfStep(cs, k, x, n);
    assert x.tier !in TiersOf(cs, x.fish);
    forall t | t in TiersOf(cs2, n)
      ensures Counts(cs2, OfFishTier(n, t)) ==
        if n == x.fish && t == x.tier then map[k := x.count] else Counts(cs, OfFishTier(n, t))
    {
      CountsStep(cs, k, x, OfFishTier(n, t));
      if n == x.fish && t == x.tier {
        assert Counts(cs, OfFishTier(n, t)) == map[];
      }
    }
    ghost var none: map<string, int> := map[];
    SumValuesZero(none);
    SumValuesUpdate(none, k, x.count);
    assert none[k := x.count] == map[k := x.count];
  }

  /** A new catch keeps the tier counts and the total right. */
  lemma TallyTiers(cs: map<string, Catch>, k: string, x: Catch, s: TrophyStats)
    requires k !in cs && Tallies(cs, s) && x.tier in s.byTier
    ensures var s2 := AddCatch(s, x);
      && s2.byTier.Keys == AllTiers
      && (forall t :: t in AllTiers ==> s2.byTier[t] == SumValues(Counts(cs[k := x], OfTier(t))))
      && s2.totalCaught == SumValues(Counts(cs[k := x], Every))
  {
    var s2 := AddCatch(s, x);
    CountsStep(cs, k, x, Every);
    SumValuesUpdate(Counts(cs, Every), k, x.count);
    forall t | t in AllTiers ensures s2.byTier[t] == SumValues(Counts(cs[k := x], OfTier(t))) {
      CountsStep(cs, k, x, OfTier(t));
      SumValuesUpdate(Counts(cs, OfTier(t)), k, x.count);
    }
  }

  /** A fish not yet named is rightly described by the empty entry. */
  lemma UnnamedFishEmpty(cs: map<string, Catch>, n: string)
    requires n !in FishNames(cs)
    ensures FishRight(cs, n, FishEntry(0, map[]))
  {
    FishUnnamed(cs, n);
    ghost var none: map<string, int> := map[];
    SumValuesZero(none);
  }

  /** A new catch adds its count and its tier to the entry of its fish. */
  lemma TallyOwnFish(cs: map<string, Catch>, k: string, x: Catch, e: FishEntry)
    requires k !in cs && Fresh(cs, x) && FishRight(cs, x.fish, e)
    ensures FishRight(cs[k := x], x.fish, FishEntry(e.total + x.count, e.tiers[x.tier := x.count]))
  {
    CountsStep(cs, k, x, OfFish(x.fish));
    FishTiersStep(cs, k, x, x.fish);
    SumValuesUpdate(Counts(cs, OfFish(x.fish)), k, x.count);
  }

  /** A new catch leaves the entry of every other fish right. */
  lemma TallyOtherFish(cs: map<string, Catch>, k: string, x: Catch, n: string, e: FishEntry)
    requires k !in cs && Fresh(cs, x) && n != x.fish && FishRight(cs, n, e)
    ensures FishRight(cs[k := x], n, e)
  {
    CountsStep(cs, k, x, OfFish(n));
    FishTiersStep(cs, k, x, n);
  }

  /** A new catch leaves the entries of all other fish right. */
  lemma TallyOtherFishes(cs: map<string, Catch>, k: string, x: Catch, s: TrophyStats)
    requires k !in cs && Fresh(cs, x) && FishTallied(cs, s.byFish)
    ensures forall n :: n in s.byFish && n != x.fish ==> FishRight(cs[k := x], n, s.byFish[n])
  {
    forall n | n in s.byFish && n != x.fish ensures FishRight(cs[k := x], n, s.byFish[n]) {
      TallyOtherFish(cs, k, x, n, s.byFish[n]);
    }
  }

  /** A new catch adds its fish to the named fish. */
  lemma FishNamesStep(cs: map<string, Catch>, k: string, x: Catch)
    requires k !in cs
    ensures FishNames(cs[k := x]) == FishNames(cs) + {x.fish}
  {
    var cs2 := cs[k := x];
    forall n | n in FishNames(cs2) ensures n in FishNames(cs) || n == x.fish {
      var k2 :| k2 in cs2 && cs2[k2].fish == n;
      if k2 != k {
        assert cs[k2] == cs2[k2];
      }
    }
    forall n | n in FishNames(cs) ensures n in FishNames(cs2) {
      var k2 :| k2 in cs && cs[k2].fish == n;
      assert cs2[k2] == cs[k2];
    }
    assert cs2[k].fish == x.fish;
  }

  /** A new catch keeps every fish right. */
  lemma TallyFish(cs: map<string, Catch>, k: string, x: Catch, s: TrophyStats)
    requires k !in cs && Fresh(cs, x) && FishTallied(cs, s.byFish) && x.tier in s.byTier
    ensures FishTallied(cs[k := x], AddCatch(s, x).byFish)
  {
    var e := if x.fish in s.byFish then s.byFish[x.fish] else FishEntry(0, map[]);
    FishNamesStep(cs, k, x);
    if x.fish !in s.byFish {
      UnnamedFishEmpty(cs, x.fish);
    }
    TallyOwnFish(cs, k, x, e);
    TallyOtherFishes(cs, k, x, s);
  }

  /** Adding a catch keeps the three sums in agreement, provided its fish was
      not yet caught in its tier. */
  lemma TallySums(s: TrophyStats, x: Catch)
    requires x.tier in s.byTier && SumsAgree(s)
    requires x.fish in s.byFish ==> x.tier !in s.byFish[x.fish].tiers
    ensures SumsAgree(AddCatch(s, x))
  {
    var s2 := AddCatch(s, x);
    var e := if x.fish in s.byFish then s.byFish[x.fish] else FishEntry(0, map[]);
    var e2 := FishEntry(e.total + x.count, e.tiers[x.tier := x.count]);
    assert s2 == TrophyStats(s.totalCaught + x.count, s.byTier[x.tier := s.byTier[x.tier] + x.count],
                             s.byFish[x.fish := e2]);
    var noTiers: map<Tier, int> := map[];
    SumValuesZero(noTiers);
    SumValuesUpdate(s.byTier, x.tier, s.byTier[x.tier] + x.count);
    SumValuesUpdate(e.tiers, x.tier, x.count);
    assert FishTotals(s2.byFish) == FishTotals(s.byFish)[x.fish := e2.total];
    SumValuesUpdate(FishTotals(s.byFish), x.fish, e2.total);
  }

  /** A new distinct catch, added as the loop body adds it, keeps the tally
      and the agreement of its sums. */
  lemma TallyAdd(cs: map<string, Catch>, k: string, x: Catch, s: TrophyStats)
    requires k !in cs && Fresh(cs, x)
    requires Tallies(cs, s) && SumsAgree(s) && x.tier in s.byTier
    ensures Tallies(cs[k := x], AddCatch(s, x)) && SumsAgree(AddCatch(s, x))
  {
    TallyTiers(cs, k, x, s);
    TallyFish(cs, k, x, s);
    if x.fish in s.byFish {
      FishTiersStep(cs, k, x, x.fish);
    }
    TallySums(s, x);
  }

  /** The state after the loop body has looked at the entry `key: value`. */
  function Tally(s: TrophyStats, key: string, value: Json): (r: TrophyStats)
    ensures Contribution(key, value).None? ==> r == s
    ensures r.byTier.Keys == s.byTier.Keys
    ensures r.totalCaught == s.totalCaught +
      match Contribution(key, value)
      case Some(x) => if x.tier in s.byTier then x.count else 0
      case None => 0
  {
    match Contribution(key, value)
    case None => s
    case Some(x) => if x.tier in s.byTier then AddCatch(s, x) else s
  }

  /** Looking at one more entry keeps the breakdown of the entries seen so far
      and the agreement of its sums. */
  lemma TallyEntry(m: map<string, Json>, keys: set<string>, k: string, s: TrophyStats)
    requires k in m && k !in keys
    requires IsTrophyBreakdown(m, keys, s) && SumsAgree(s)
    ensures IsTrophyBreakdown(m, keys + {k}, Tally(s, k, m[k])) && SumsAgree(Tally(s, k, m[k]))
  {
    CatchesStep(m, keys, k);
    AllTiersComplete();
    if Contribution(k, m[k]).Some? {
      CatchFresh(m, keys, k);
      TallyAdd(Catches(m, keys), k, Contribution(k, m[k]).value, s);
    }
  }

  /** The loop body of `calculate_trophy_fish_stats` on one entry: a numeric
      value under a key whose last part is a tier already in `by_tier` adds its
      count to the total, to its tier and to its fish; anything else is
      skipped. */
  method AddEntry(stats: TrophyStats, key: string, count: Json) returns (next: TrophyStats)
    ensures next == Tally(stats, key, count)
  {
    next := stats;
    if IsNumber(count) {
      var parts := SplitLast(key);
      if parts.Some? {
        var (fishName, suffix) := parts.value;
        var named := ParseTier(suffix);
        if named.Some? && named.value in stats.byTier {
          var tier := named.value;
          var n := Count(count);
          assert Contribution(key, count) == Some(Catch(fishName, tier, n));
          var entry := if fishName in stats.byFish then stats.byFish[fishName] else FishEntry(0, map[]);
          entry := FishEntry(entry.total + n, entry.tiers[tier := n]);
          next := TrophyStats(stats.totalCaught + n, stats.byTier[tier := stats.byTier[tier] + n],
                              stats.byFish[fishName := entry]);
        }
      }
    }
  }

  /** The state the loop starts from: every tier at zero and no fish. */
  const NoTrophies: TrophyStats := TrophyStats(0, map[Bronze := 0, Silver := 0, Gold := 0, Diamond := 0], map[])

  /** Before any entry is looked at, the empty state is the breakdown. */
  lemma TallyStart(m: map<string, Json>)
    ensures IsTrophyBreakdown(m, {}, NoTrophies) && SumsAgree(NoTrophies)
  {
    assert Catches(m, {}) == map[];
    SumValuesZero(NoTrophies.byTier);
    ghost var noCounts: map<string, int> := map[];
    SumValuesZero(noCounts);
    ghost var noTotals: map<string, int> := map[];
    assert FishTotals(NoTrophies.byFish) == noTotals;
    SumValuesZero(noTotals);
  }

  /** `calculate_trophy_fish_stats`: one pass over the entries, in whatever
      order the map yields them, adding each contributing count to its tier,
      to the total and to its fish. */
  method TrophyFishStats(trophyFish: map<string, Json>) returns (stats: TrophyStats)
    ensures IsTrophyBreakdown(trophyFish, trophyFish.Keys, stats)
    ensures SumsAgree(stats)
  {
    stats := NoTrophies;
    var remaining := trophyFish.Keys;
    ghost var visited: set<string> := {};
    TallyStart(trophyFish);
    while remaining != {}
      invariant remaining <= trophyFish.Keys && visited == trophyFish.Keys - remaining
      invariant IsTrophyBreakdown(trophyFish, visited, stats) && SumsAgree(stats)
      decreases remaining
    {
      var key :| key in remaining;
      var count := trophyFish[key];
      TallyEntry(trophyFish, visited, key, stats);
      stats := AddEntry(stats, key, count);
      Visit(trophyFish.Keys, remaining, visited, key);
      remaining := remaining - {key};
      visited := visited + {key};
    }
    assert visited == trophyFish.Keys;
  }

  /** An entry that does not contribute, added to the map, leaves the catches
      and so the breakdown as they were. */
  lemma IgnoredEntryChangesNothing(m: map<string, Json>, k: string, v: Json, s: TrophyStats)
    requires k !in m && Contribution(k, v).None?
    ensures Catches(m[k := v], m.Keys + {k}) == Catches(m, m.Keys)
    ensures IsTrophyBreakdown(m[k := v], (m[k := v]).Keys, s) <==> IsTrophyBreakdown(m, m.Keys, s)
  {
    assert (m[k := v]).Keys == m.Keys + {k};
    CatchesStep(m[k := v], m.Keys, k);
    assert Catches(m[k := v], m.Keys) == Catches(m, m.Keys);
  }

  /** The breakdown is determined by the map alone: whatever order the loop
      visits the keys in, it reaches the same state. */
  lemma BreakdownUnique(cs: map<string, Catch>, s1: TrophyStats, s2: TrophyStats)
    requires Tallies(cs, s1) && Tallies(cs, s2)
    ensures s1 == s2
  {
    assert s1.byTier == s2.byTier;
    forall n | n in s1.byFish ensures s1.byFish[n] == s2.byFish[n] {
      assert FishRight(cs, n, s1.byFish[n]) && FishRight(cs, n, s2.byFish[n]);
    }
    assert s1.byFish == s2.byFish;
  }

  /** A numeric value under a fish name joined to a tier is a catch of that
      fish and tier. */
  lemma JoinContributes(fish: string, t: Tier, v: Json)
    requires IsNumber(v)
    ensures Contribution(fish + "_" + TierName(t), v) == Some(Catch(fish, t, Count(v)))
  {
    TiersHaveNoUnderscore();
    SplitLastJoin(fish, TierName(t));
  }

  /** The only key that can hold a catch of `fish` in tier `t` is the two
      joined by an underscore. */
  lemma CatchesKeyed(m: map<string, Json>, keys: set<string>, fish: string, t: Tier)
    ensures forall k :: k in Catches(m, keys) && Catches(m, keys)[k].fish == fish && Catches(m, keys)[k].tier == t
              ==> k == fish + "_" + TierName(t)
  {
    forall k | k in Catches(m, keys) && Catches(m, keys)[k].fish == fish && Catches(m, keys)[k].tier == t
      ensures k == fish + "_" + TierName(t)
    {
      CatchKey(k, m[k]);
    }
  }

  /** A catch alone in its fish and tier is the whole count there. */
  lemma SingleCount(cs: map<string, Catch>, key: string, x: Catch)
    requires key in cs && cs[key] == x
    requires forall k :: k in cs && cs[k].fish == x.fish && cs[k].tier == x.tier ==> k == key
    ensures Counts(cs, OfFishTier(x.fish, x.tier)) == map[key := x.count]
    ensures SumValues(Counts(cs, OfFishTier(x.fish, x.tier))) == x.count
  {
    ghost var none: map<string, int> := map[];
    SumValuesZero(none);
    SumValuesUpdate(none, key, x.count);
    assert none[key := x.count] == map[key := x.count];
  }

  /** In the finished breakdown, the tier count of a fish is the value of its
      key, truncated, and the fish is listed with that tier. */
  lemma TierEntryIsCount(m: map<string, Json>, s: TrophyStats, fish: string, t: Tier)
    requires IsTrophyBreakdown(m, m.Keys, s)
    requires fish + "_" + TierName(t) in m && IsNumber(m[fish + "_" + TierName(t)])
    ensures fish in s.byFish && t in s.byFish[fish].tiers
    ensures s.byFish[fish].tiers[t] == Count(m[fish + "_" + TierName(t)])
  {
    var key := fish + "_" + TierName(t);
    var cs := Catches(m, m.Keys);
    var x := Catch(fish, t, Count(m[key]));
    JoinContributes(fish, t, m[key]);
    assert key in cs && cs[key] == x;
    CatchesKeyed(m, m.Keys, fish, t);
    SingleCount(cs, key, x);
    assert fish in FishNames(cs);
    assert t in TiersOf(cs, fish);
  }
}

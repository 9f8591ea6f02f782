/** `calculate_scc` and `calculate_fishing_speed`: a gear stat is the sum of
    its seven sources, then, when there are set bonuses, that sum plus the flat
    bonus, times the multiplier. Arithmetic is exact. */
module GearCalculators {
  import opened Results

  /** `set_bonuses`: absent (`None`) or a dict of numbers. */
  type Bonuses = Option<map<string, real>>

  /** `d.get(key, default)` on the bonus dict. */
  function BonusOr(d: map<string, real>, key: string, default: real): real {
    if key in d then d[key] else default
  }

  /** `if set_bonuses:` — `None` and `{}` are both falsy. */
  predicate HasBonuses(setBonuses: Bonuses) {
    setBonuses.Some? && setBonuses.value != map[]
  }

  /** The shared tail of both calculators, reading the bonus keys of one stat.
      With bonuses, the flat bonus (0 when missing) is added once and the sum
      is then multiplied once (by 1 when missing); without, or when the dict
      has neither key of this stat, the sum stands. */
  function ApplySetBonuses(total: real, setBonuses: Bonuses, flatKey: string, multiplierKey: string): (r: real)
    ensures !HasBonuses(setBonuses) ==> r == total
    ensures HasBonuses(setBonuses) ==>
      var b := setBonuses.value;
      var f := if flatKey in b then b[flatKey] else 0.0;
      var m := if multiplierKey in b then b[multiplierKey] else 1.0;
      r == total * m + f * m
    ensures setBonuses.Some? && flatKey !in setBonuses.value && multiplierKey !in setBonuses.value ==> r == total
  {
    if HasBonuses(setBonuses) then
      var flatBonus := BonusOr(setBonuses.value, flatKey, 0.0);
      var multiplier := BonusOr(setBonuses.value, multiplierKey, 1.0);
      (total + flatBonus) * multiplier
    else total
  }

  /** `calculate_scc(...)`, before rounding: the plain sum without bonuses,
      and fishing-speed bonus keys count for nothing. */
  function Scc(baseScc: real, rodScc: real, armorScc: real, petScc: real, equipmentScc: real,
               accessoryScc: real, baitScc: real, setBonuses: Bonuses): (r: real)
    ensures !HasBonuses(setBonuses) ==> r == baseScc + rodScc + armorScc + petScc + equipmentScc + accessoryScc + baitScc
    ensures setBonuses.Some? && "scc_flat" !in setBonuses.value && "scc_multiplier" !in setBonuses.value ==>
      r == baseScc + rodScc + armorScc + petScc + equipmentScc + accessoryScc + baitScc
  {
    var total := baseScc + rodScc + armorScc + petScc + equipmentScc + accessoryScc + baitScc;
    ApplySetBonuses(total, setBonuses, "scc_flat", "scc_multiplier")
  }

  /** `calculate_fishing_speed(...)`, before rounding: the plain sum without
      bonuses, and sea-creature-chance bonus keys count for nothing. */
  function FishingSpeed(baseFs: real, rodFs: real, armorFs: real, petFs: real, equipmentFs: real,
                        accessoryFs: real, baitFs: real, setBonuses: Bonuses): (r: real)
    ensures !HasBonuses(setBonuses) ==> r == baseFs + rodFs + armorFs + petFs + equipmentFs + accessoryFs + baitFs
    ensures setBonuses.Some? && "fs_flat" !in setBonuses.value && "fs_multiplier" !in setBonuses.value ==>
      r == baseFs + rodFs + armorFs + petFs + equipmentFs + accessoryFs + baitFs
  {
    var total := baseFs + rodFs + armorFs + petFs + equipmentFs + accessoryFs + baitFs;
    ApplySetBonuses(total, setBonuses, "fs_flat", "fs_multiplier")
  }

  /** No bonuses, or an empty dict, give the plain sum. */
  lemma SccWithoutBonuses(a: real, b: real, c: real, d: real, e: real, f: real, g: real)
    ensures Scc(a, b, c, d, e, f, g, None) == a + b + c + d + e + f + g
    ensures Scc(a, b, c, d, e, f, g, Some(map[])) == a + b + c + d + e + f + g
    ensures FishingSpeed(a, b, c, d, e, f, g, None) == a + b + c + d + e + f + g
    ensures FishingSpeed(a, b, c, d, e, f, g, Some(map[])) == a + b + c + d + e + f + g
  {
  }

  /** A lone flat bonus is added; a lone multiplier scales; both give the sum
      plus the flat bonus, scaled. */
  lemma SccBonuses(a: real, b: real, c: real, d: real, e: real, f: real, g: real, flat: real, mult: real)
    ensures Scc(a, b, c, d, e, f, g, Some(map["scc_flat" := flat])) == a + b + c + d + e + f + g + flat
    ensures Scc(a, b, c, d, e, f, g, Some(map["scc_multiplier" := mult])) == (a + b + c + d + e + f + g) * mult
    ensures Scc(a, b, c, d, e, f, g, Some(map["scc_flat" := flat, "scc_multiplier" := mult]))
      == (a + b + c + d + e + f + g + flat) * mult
  {
    var both := map["scc_flat" := flat, "scc_multiplier" := mult];
    assert "scc_flat" in both && both["scc_flat"] == flat;
  }

  /** The same for fishing speed. */
  lemma FishingSpeedBonuses(a: real, b: real, c: real, d: real, e: real, f: real, g: real, flat: real, mult: real)
    ensures FishingSpeed(a, b, c, d, e, f, g, Some(map["fs_flat" := flat])) == a + b + c + d + e + f + g + flat
    ensures FishingSpeed(a, b, c, d, e, f, g, Some(map["fs_multiplier" := mult])) == (a + b + c + d + e + f + g) * mult
    ensures FishingSpeed(a, b, c, d, e, f, g, Some(map["fs_flat" := flat, "fs_multiplier" := mult]))
      == (a + b + c + d + e + f + g + flat) * mult
  {
    var both := map["fs_flat" := flat, "fs_multiplier" := mult];
    assert "fs_flat" in both && both["fs_flat"] == flat;
  }

  /** Fishing-speed bonuses leave sea creature chance at its sum, and the
      other way round. */
  lemma PrefixesSeparate(a: real, b: real, c: real, d: real, e: real, f: real, g: real, flat: real, mult: real)
    ensures Scc(a, b, c, d, e, f, g, Some(map["fs_flat" := flat, "fs_multiplier" := mult])) == a + b + c + d + e + f + g
    ensures FishingSpeed(a, b, c, d, e, f, g, Some(map["scc_flat" := flat, "scc_multiplier" := mult])) == a + b + c + d + e + f + g
  {
    assert "scc_flat" !in map["fs_flat" := flat, "fs_multiplier" := mult];
    assert "fs_flat" !in map["scc_flat" := flat, "scc_multiplier" := mult];
  }

  /** Fishing speed is sea creature chance with the bonus keys renamed. */
  lemma SameFormula(a: real, b: real, c: real, d: real, e: real, f: real, g: real, flat: real, mult: real)
    ensures FishingSpeed(a, b, c, d, e, f, g, Some(map["fs_flat" := flat, "fs_multiplier" := mult]))
      == Scc(a, b, c, d, e, f, g, Some(map["scc_flat" := flat, "scc_multiplier" := mult]))
  {
    SccBonuses(a, b, c, d, e, f, g, flat, mult);
    FishingSpeedBonuses(a, b, c, d, e, f, g, flat, mult);
  }

  /** Each extra point from a source adds the multiplier's worth. */
  lemma SourceAddsMultiplier(a: real, b: real, c: real, d: real, e: real, f: real, g: real, setBonuses: Bonuses, extra: real)
    ensures Scc(a, b + extra, c, d, e, f, g, setBonuses) == Scc(a, b, c, d, e, f, g, setBonuses)
      + extra * (if HasBonuses(setBonuses) then BonusOr(setBonuses.value, "scc_multiplier", 1.0) else 1.0)
  {
  }

  /** All-zero sources without bonuses give 0. */
  lemma ZeroInputs()
    ensures Scc(0.0, 0.0, 0.0, 0.0, 0.0, 0.0, 0.0, None) == 0.0
    ensures FishingSpeed(0.0, 0.0, 0.0, 0.0, 0.0, 0.0, 0.0, None) == 0.0
  {
    SccWithoutBonuses(0.0, 0.0, 0.0, 0.0, 0.0, 0.0, 0.0);
  }

  /** The documented examples and the expected values of the calculator
      tests, in exact arithmetic. */
  lemma DocumentedExamples()
    ensures Scc(0.0, 4.0, 10.0, 5.0, 0.0, 3.0, 2.0, None) == 24.0
    ensures Scc(0.0, 10.0, 10.0, 0.0, 0.0, 0.0, 0.0, Some(map["scc_multiplier" := 1.1])) == 22.0
    ensures Scc(0.0, 4.0, 10.0, 5.0, 0.0, 0.0, 0.0, Some(map["scc_flat" := 5.0])) == 24.0
    ensures Scc(0.0, 10.0, 5.0, 0.0, 0.0, 0.0, 0.0, Some(map["scc_flat" := 5.0, "scc_multiplier" := 1.2])) == 24.0
    ensures Scc(0.0, 10.0, 10.0, 0.0, 0.0, 0.0, 0.0, Some(map["scc_multiplier" := 1.15])) == 23.0
    ensures FishingSpeed(0.0, 20.0, 15.0, 10.0, 5.0, 8.0, 2.0, None) == 60.0
    ensures FishingSpeed(0.0, 50.0, 0.0, 0.0, 0.0, 0.0, 0.0, Some(map["fs_multiplier" := 1.5])) == 75.0
    ensures FishingSpeed(0.0, 40.0, 0.0, 0.0, 0.0, 0.0, 0.0, Some(map["fs_flat" := 10.0])) == 50.0
    ensures FishingSpeed(0.0, 30.0, 10.0, 0.0, 0.0, 0.0, 0.0, Some(map["fs_flat" := 10.0, "fs_multiplier" := 1.2])) == 60.0
  {
    SccBonuses(0.0, 10.0, 10.0, 0.0, 0.0, 0.0, 0.0, 0.0, 1.1);
    SccBonuses(0.0, 4.0, 10.0, 5.0, 0.0, 0.0, 0.0, 5.0, 1.0);
    SccBonuses(0.0, 10.0, 5.0, 0.0, 0.0, 0.0, 0.0, 5.0, 1.2);
    SccBonuses(0.0, 10.0, 10.0, 0.0, 0.0, 0.0, 0.0, 0.0, 1.15);
    FishingSpeedBonuses(0.0, 50.0, 0.0, 0.0, 0.0, 0.0, 0.0, 0.0, 1.5);
    FishingSpeedBonuses(0.0, 40.0, 0.0, 0.0, 0.0, 0.0, 0.0, 10.0, 1.0);
    FishingSpeedBonuses(0.0, 30.0, 10.0, 0.0, 0.0, 0.0, 0.0, 10.0, 1.2);
  }
}

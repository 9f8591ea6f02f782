/** `extract_fishing_stats`: from one Skyblock profile and a player id to the
    fishing record, walking the three places fishing XP has lived in the
    profile format and defaulting whatever is missing. */
module ProfileExtraction {
  import opened Results
  import opened JsonValues
  import opened FishingLevels
  import opened PlayerIds

  /** The extracted record. `fishingXp` is the value found in the profile, kept
      as it was (an integer, a float or a bool); the level is derived from it. */
  datatype FishingStats = FishingStats(
    fishingLevel: int,
    fishingXp: Json,
    trophyFish: Json,
    seaCreatureKills: Json,
    profileId: Json,
    cuteName: Json)

  const EmptyObject: Json := Obj(map[])

  /** `section in member and 'experience' in member[section]`, and when it holds,
      `member[section]['experience']`. */
  function ExperienceAt(member: Json, section: string): (r: Result<Option<Json>, PyFault>)
    ensures r.Err? ==> r.error == TypeError
    ensures r.Ok? && r.value.Some? ==>
      && member.Obj? && section in member.fields && member.fields[section].Obj?
      && "experience" in member.fields[section].fields
      && r.value.value == member.fields[section].fields["experience"]
    ensures !(member.Obj? || member.Arr? || member.Str?) ==> r == Err(TypeError)
    ensures member.Arr? ==> r == if Str(section) in member.items then Err(TypeError) else Ok(None)
    ensures member.Str? ==> r == if IsSubstring(section, member.s) then Err(TypeError) else Ok(None)
    ensures member.Obj? && section !in member.fields ==> r == Ok(None)
    ensures member.Obj? && section in member.fields ==>
      var block := member.fields[section];
      && (!(block.Obj? || block.Arr? || block.Str?) ==> r == Err(TypeError))
      && (block.Arr? ==> r == if Str("experience") in block.items then Err(TypeError) else Ok(None))
      && (block.Str? ==> r == if IsSubstring("experience", block.s) then Err(TypeError) else Ok(None))
      && (block.Obj? ==> r == if "experience" in block.fields then Ok(Some(block.fields["experience"])) else Ok(None))
  {
    var present :- Contains(member, section);
    if !present then Ok(None)
    else
      var block :- Subscript(member, section);
      var hasExperience :- Contains(block, "experience");
      if !hasExperience then Ok(None)
      else
        var experience :- Subscript(block, "experience");
        Ok(Some(experience))
  }

  /** `experience.get('SKILL_FISHING', 0)` when `experience` is a dict, 0 when
      it is not. */
  function SkillFishing(experience: Json): (r: Json)
    ensures experience.Obj? && "SKILL_FISHING" in experience.fields ==> r == experience.fields["SKILL_FISHING"]
    ensures experience.Obj? && "SKILL_FISHING" !in experience.fields ==> r == Num(0.0)
    ensures !experience.Obj? ==> r == Num(0.0)
  {
    if experience.Obj? then GetOr(experience.fields, "SKILL_FISHING", Num(0.0)) else Num(0.0)
  }

  /** The if/elif chain over the three XP locations: the first location whose
      keys are present decides, whatever value it holds. */
  function FishingXp(member: Json): (r: Result<Json, PyFault>)
    ensures r.Err? ==> r.error == TypeError
    ensures member.Obj?
      && ("player_data" in member.fields ==> member.fields["player_data"].Obj?)
      && ("leveling" in member.fields ==> member.fields["leveling"].Obj?)
      ==> r.Ok?
  {
    var newest :- ExperienceAt(member, "player_data");
    if newest.Some? then Ok(SkillFishing(newest.value))
    else
      var backup :- ExperienceAt(member, "leveling");
      if backup.Some? then Ok(SkillFishing(backup.value))
      else
        var legacy :- Contains(member, "experience_skill_fishing");
        if legacy then Subscript(member, "experience_skill_fishing") else Ok(Num(0.0))
  }

  /** `_xp_to_level(xp)` on a decoded value: comparing anything but a number
      (bools included) with an int raises `TypeError`. */
  function LevelOf(xp: Json): (r: Result<int, PyFault>)
    ensures r.Ok? <==> IsNumber(xp)
    ensures r.Ok? ==> r.value == Level(NumberValue(xp))
    ensures r.Ok? ==> 0 <= r.value <= MaxLevel
  {
    LevelSpec(if IsNumber(xp) then NumberValue(xp) else 0.0);
    if IsNumber(xp) then Ok(Level(NumberValue(xp))) else Err(TypeError)
  }

  /** The member of `profile` that belongs to the player, `{}` when absent. */
  function MemberOf(profile: map<string, Json>, uuid: string): (r: Result<Json, PyFault>)
    ensures r.Ok? <==> "members" !in profile || profile["members"].Obj?
    ensures r.Err? ==> r.error == AttributeError
    ensures r.Ok? ==>
      r.value == if "members" in profile && StripDashes(uuid) in profile["members"].fields
                 then profile["members"].fields[StripDashes(uuid)] else EmptyObject
  {
    var members := if "members" in profile then profile["members"] else EmptyObject;
    DictGet(members, StripDashes(uuid), EmptyObject)
  }

  /** `extract_fishing_stats(profile, uuid)`. */
  function ExtractFishingStats(profile: map<string, Json>, uuid: string): (r: Result<FishingStats, PyFault>)
    ensures r.Ok? ==> IsNumber(r.value.fishingXp)
    ensures r.Ok? ==> r.value.fishingLevel == Level(NumberValue(r.value.fishingXp))
    ensures r.Ok? ==> 0 <= r.value.fishingLevel <= MaxLevel
    ensures r.Ok? ==> r.value.profileId == Lookup(profile, "profile_id")
    ensures r.Ok? ==> r.value.cuteName == Lookup(profile, "cute_name")
  {
    var member :- MemberOf(profile, uuid);
    var xp :- FishingXp(member);
    var level :- LevelOf(xp);
    var trophyFish :- DictGet(member, "trophy_fish", EmptyObject);
    // `member` is a dict from here on, so its second `get` cannot fail
    var bestiary := GetOr(member.fields, "bestiary", EmptyObject);
    var kills :- DictGet(bestiary, "kills", EmptyObject);
    Ok(FishingStats(level, xp, trophyFish, kills, Lookup(profile, "profile_id"), Lookup(profile, "cute_name")))
  }

  /** A present `player_data.experience` decides the XP, even when it is not a
      dict or has no `SKILL_FISHING` (the XP is then 0); the later locations
      are not consulted. */
  lemma PlayerDataPathDecides(member: Json)
    requires member.Obj? && "player_data" in member.fields
    requires member.fields["player_data"].Obj? && "experience" in member.fields["player_data"].fields
    ensures FishingXp(member) == Ok(SkillFishing(member.fields["player_data"].fields["experience"]))
    ensures !member.fields["player_data"].fields["experience"].Obj? ==> FishingXp(member) == Ok(Num(0.0))
  {
  }

  /** Without `player_data.experience`, a present `leveling.experience` decides
      the XP before the legacy key. */
  lemma LevelingPathDecides(member: Json)
    requires member.Obj?
    requires "player_data" in member.fields ==>
      member.fields["player_data"].Obj? && "experience" !in member.fields["player_data"].fields
    requires "leveling" in member.fields && member.fields["leveling"].Obj?
    requires "experience" in member.fields["leveling"].fields
    ensures FishingXp(member) == Ok(SkillFishing(member.fields["leveling"].fields["experience"]))
  {
  }

  /** Without either nested location, the legacy flat key is taken as it is,
      and without it the XP is 0. */
  lemma LegacyPathDecides(member: Json)
    requires member.Obj?
    requires "player_data" in member.fields ==>
      member.fields["player_data"].Obj? && "experience" !in member.fields["player_data"].fields
    requires "leveling" in member.fields ==>
      member.fields["leveling"].Obj? && "experience" !in member.fields["leveling"].fields
    ensures FishingXp(member) == Ok(GetOr(member.fields, "experience_skill_fishing", Num(0.0)))
  {
  }

  /** Extraction succeeds exactly when the member is a dict, its XP is found
      and is a number, and its bestiary (if any) is a dict; the trophy-fish and
      kill maps are then handed on unchanged, `{}` standing in when missing. */
  lemma ExtractionOutcome(profile: map<string, Json>, uuid: string)
    ensures var r := ExtractFishingStats(profile, uuid);
      var m := MemberOf(profile, uuid);
      r.Ok? <==> (m.Ok? && m.value.Obj? && FishingXp(m.value).Ok? && IsNumber(FishingXp(m.value).value)
                  && GetOr(m.value.fields, "bestiary", EmptyObject).Obj?)
    ensures var r := ExtractFishingStats(profile, uuid);
      var m := MemberOf(profile, uuid);
      r.Ok? ==> (m.Ok? && m.value.Obj?
        && r.value.fishingXp == FishingXp(m.value).value
        && r.value.trophyFish == GetOr(m.value.fields, "trophy_fish", EmptyObject)
        && r.value.seaCreatureKills == GetOr(GetOr(m.value.fields, "bestiary", EmptyObject).fields, "kills", EmptyObject))
  {
  }

  /** A profile without a member for the player extracts to XP 0 (which is
      level 1), empty trophy-fish and kill maps, and its own id and name. */
  lemma MissingMemberDefaults(profile: map<string, Json>, uuid: string)
    requires "members" in profile ==> profile["members"].Obj? && StripDashes(uuid) !in profile["members"].fields
    ensures ExtractFishingStats(profile, uuid)
      == Ok(FishingStats(1, Num(0.0), EmptyObject, EmptyObject, Lookup(profile, "profile_id"), Lookup(profile, "cute_name")))
  {
    FirstBracketIsLevelOne(0.0);
  }

  /** An empty member extracts to the same defaults. */
  lemma EmptyMemberDefaults(profile: map<string, Json>, uuid: string)
    requires "members" in profile && profile["members"].Obj?
    requires StripDashes(uuid) in profile["members"].fields
    requires profile["members"].fields[StripDashes(uuid)] == EmptyObject
    ensures ExtractFishingStats(profile, uuid)
      == Ok(FishingStats(1, Num(0.0), EmptyObject, EmptyObject, Lookup(profile, "profile_id"), Lookup(profile, "cute_name")))
  {
    FirstBracketIsLevelOne(0.0);
  }
}

# SkySkills fishing core in Dafny

This project models the deterministic core of the SkySkills fishing tracker for Hypixel Skyblock:

- **The Hypixel client** (`fishing/hypixel_api.py`):
  - the fishing XP table and the walk that turns XP into a level;
  - the extraction of the fishing record from one Skyblock profile;
  - the Mojang id hyphenation and dash stripping;
  - how `_get` turns a reply into a body or an error;
  - the API key joining the query parameters;
  - the three-attempt retry policy;
  - the empty-profiles check.
- **The derived-stat calculator** (`fishing/stats_calculator.py`):
  - the trophy-fish breakdown by tier and by fish;
  - the sea-creature kill summary;
  - the recommendation ladder;
  - their composition.
- **The gear formulas** (`fishing/calculators.py`): sea creature chance and fishing speed.

## How the code is modelled

Decoded JSON is the `JsonValues.Json` datatype. A JSON object is a `map`. The Python operations the code applies to untrusted JSON each return `Err` with the Python exception a value of the wrong shape raises:

- `in`, `[]` and `dict.get`;
- truthiness;
- `isinstance(x, (int, float))`, which accepts bools because `bool` is a subclass of `int`;
- `int(x)`, which truncates toward zero.

The network is a parameter of the client: a function from a request and an attempt number to the reply it produced. A reply is either an HTTP status with its decoded body, or an httpx transport error. The transport errors are a timeout, a network error, and any other transport error (a protocol or proxy error, too many redirects). Only the first two are retried.

The loops of the stats calculator are methods, proved against specification functions:

- The trophy loop visits keys in an arbitrary order. Its result must satisfy `TrophyFish.IsTrophyBreakdown`, which states every number in terms of sums over the contributing entries.
- `TrophyFish.BreakdownUnique` shows that this description determines the result, so the visiting order cannot matter.
- The sea-creature loops are proved the same way.

Recommendations are `Recommendations.Advice` constructors. Each carries the numbers its message quotes; the emoji text is not modelled.

The gear formulas are exact functions over `real`.

## Where the model follows the code rather than its documentation

- **XP below 50:** `_xp_to_level` returns 1 for any XP in [0, 50), 0 included. Only negative XP gives level 0. A description of the level function as "0 at 0 XP" does not match the loop at `fishing/hypixel_api.py:266-273`.
- **Extraction can raise:** `extract_fishing_stats` can raise on a member of the wrong shape. Examples:
  - a member that is not a dict;
  - a `player_data` that is a list holding the string "experience", which is then indexed by a string;
  - XP that is a string, which fails the comparison in `_xp_to_level`;
  - a `bestiary` that is not a dict.

  The model returns `Err` in those cases. `ProfileExtraction.ExtractionOutcome` states exactly when extraction succeeds.
- **Retry exhaustion:** after three attempts that time out or meet a network error, the retry decorator gives up with its own retry error, because no `reraise` is set. It is not the client's API error. The model names this error `RetriesExhausted`.
- **Test levels:** the extraction tests assert level 25 for 1332625 XP and level 20 for 572625 XP. The code gives 23 and 21, as `FishingLevels.ExtractionTestLevels` proves.
- **Recommendation count:** the list is never empty. It always holds 3 or 4 messages (`Recommendations.AdviceShape`). The last test of the diamond ladder, `diamond_count >= 50`, always holds when it is reached.

## Model

| member | source | states |
|---|---|---|
| `FishingLevels.XpToLevel` | fishing/hypixel_api.py:256-273 | The loop's result is `Level(xp)`. It lies in [0, 50]. Every ceiling below it has been reached. Below 50, `xp` is under the ceiling of the returned level. |
| `FishingLevels.LevelFrom` | fishing/hypixel_api.py:266-273 | The walk from level `i` ends at a level between `i` and 50. |
| `FishingLevels.Level` | fishing/hypixel_api.py:256-273 | The level lies in [0, 50]. |
| `FishingLevels.LevelFromSpec` | fishing/hypixel_api.py:266-273 | The walk from any level passes only ceilings that `xp` reached. Below 50 it stops at a ceiling `xp` is below. |
| `FishingLevels.LevelSpec` | fishing/hypixel_api.py:266-273 | The level is the smallest index whose running total `xp` is below, or 50 when there is none. |
| `FishingLevels.IncrementsNonNegative` | fishing/hypixel_api.py:47-56 | The table has 51 entries and none is negative. |
| `FishingLevels.CumulativeMonotone` | fishing/hypixel_api.py:268-269 | Running totals never decrease. |
| `FishingLevels.LevelMonotone` | fishing/hypixel_api.py:266-273 | More XP never gives a lower level. |
| `FishingLevels.CumulativeLow` | fishing/hypixel_api.py:47-56 | The running totals after 1, 2 and 21–24 increments. |
| `FishingLevels.CumulativeHigh` | fishing/hypixel_api.py:47-56 | The running total after all 50 level increments is 51172425. |
| `FishingLevels.NegativeXpIsLevelZero` | fishing/hypixel_api.py:266-271 | Level 0 exactly for negative XP. |
| `FishingLevels.FirstBracketIsLevelOne` | fishing/hypixel_api.py:266-271 | XP in [0, 50) gives level 1. |
| `FishingLevels.TopBracketIsMaxLevel` | fishing/hypixel_api.py:268-273 | XP of at least 51172425 gives level 50. |
| `FishingLevels.LevelInBracket` | fishing/hypixel_api.py:266-271 | XP between two consecutive ceilings gets the level of the upper one. |
| `FishingLevels.ExtractionTestLevels` | fishing/tests/test_hypixel_api.py:107-163 | 1332625 XP is level 23 and 572625 XP is level 21. |
| `PlayerIds.Slice` | fishing/hypixel_api.py:156 | Python slicing clamps both ends to the length. Within bounds it is `s[i..j]`, past the end it is `s[i..]`, and it is empty when it starts past the end or `j < i`. |
| `PlayerIds.StripDashes` | fishing/hypixel_api.py:178 | The result has no dash, is no longer than the input, and keeps every other character. |
| `PlayerIds.StripDashesNoDashes` | fishing/hypixel_api.py:216 | A dash-free id is unchanged by stripping. |
| `PlayerIds.Hyphenate` | fishing/hypixel_api.py:156 | Adds exactly four characters. An id of 20 or more characters gets dashes after its 8th, 12th, 16th and 20th characters, with its own characters in order around them. |
| `PlayerIds.StripDashesIdempotent` | fishing/hypixel_api.py:178 | Stripping twice is stripping once. |
| `PlayerIds.HyphenateRoundTrip` | fishing/hypixel_api.py:156 | Stripping the dashes of a hyphenated dash-free id gives the id back, whatever its length. |
| `PlayerIds.HyphenateLayout` | fishing/tests/test_hypixel_api.py:23-29 | A 32-character id becomes 36 characters. Dashes sit at indices 8, 13, 18 and 23, and the id's own characters fill the rest, in order. |
| `JsonValues.Truncate` | fishing/stats_calculator.py:114 | `int()` on a float truncates toward zero, for either sign. |
| `JsonValues.Contains` | fishing/hypixel_api.py:222 | `in` is a key test on a dict, an element test on a list and a substring test on a string. Anything else raises `TypeError`, the only error it can give. |
| `JsonValues.Subscript` | fishing/hypixel_api.py:223 | `[]` answers only for a dict holding the key. A dict without it raises `KeyError`, and anything that is not a dict raises `TypeError`. |
| `JsonValues.DictGet` | fishing/hypixel_api.py:217 | `.get` works only on a dict, giving the value or the default. Anything else raises `AttributeError`. |
| `ProfileExtraction.ExperienceAt` | fishing/hypixel_api.py:222-231 | The test `section in member and 'experience' in member[section]` and its lookup, on every shape. A dict member gives `member[section]['experience']` when both keys are there, and nothing when either is missing. When a member or section that is a list or string passes its `in` test, indexing it by a string raises `TypeError`; when it fails, it gives nothing. Any other member or section raises `TypeError`. |
| `ProfileExtraction.SkillFishing` | fishing/hypixel_api.py:224-231 | A dict gives its `SKILL_FISHING` value, or 0 when the key is missing. A value that is not a dict gives 0. |
| `ProfileExtraction.FishingXp` | fishing/hypixel_api.py:219-235 | The XP chain raises nothing but `TypeError`, and a dict member whose `player_data` and `leveling` are dicts (when present) never raises. |
| `ProfileExtraction.MemberOf` | fishing/hypixel_api.py:216-217 | The player's member is found exactly when `members` is missing or a dict (otherwise `AttributeError`). It is the entry under the dash-free id, or `{}` when there is none. |
| `ProfileExtraction.LevelOf` | fishing/hypixel_api.py:238 | The level exists exactly for a number (bools included), equals `Level` of it, and lies in [0, 50]. |
| `ProfileExtraction.ExtractFishingStats` | fishing/hypixel_api.py:216-254 | On success, the level is `Level` of the returned numeric XP and lies in [0, 50]. `profile_id` and `cute_name` are copied from the profile and may be null. |
| `ProfileExtraction.PlayerDataPathDecides` | fishing/hypixel_api.py:221-226 | A present `player_data.experience` decides the XP, which is 0 when that value is not a dict; later paths are not consulted. |
| `ProfileExtraction.LevelingPathDecides` | fishing/hypixel_api.py:227-231 | Without the first path, a present `leveling.experience` decides the XP before the legacy key. |
| `ProfileExtraction.LegacyPathDecides` | fishing/hypixel_api.py:233-235 | Without either nested path, the legacy key is taken as it is, and the XP is 0 without it. |
| `ProfileExtraction.ExtractionOutcome` | fishing/hypixel_api.py:216-254 | Exactly when extraction succeeds, and that the trophy-fish and kill maps are then passed on unchanged, with `{}` when missing. |
| `ProfileExtraction.MissingMemberDefaults` | fishing/hypixel_api.py:216-219 | A profile without the player's member gives level 1, XP 0, empty maps and the profile's own id and name. |
| `ProfileExtraction.EmptyMemberDefaults` | fishing/hypixel_api.py:216-245 | An empty member gives the same defaults. |
| `HypixelClient.ClassifyResponse` | fishing/hypixel_api.py:104-118 | Each outcome holds exactly under its condition: 404 is not found; 429 is rate limited; 500 and up is a server error; any other non-2xx is an HTTP error. A 2xx body with a falsy `success` is an API error with its `cause`, or "Unknown error" without one. Otherwise the body is returned. |
| `HypixelClient.WithApiKey` | fishing/hypixel_api.py:93-97 | A set key adds `key` and changes no other entry; no key leaves the parameters alone. A key is set when `HasKey` holds: present and non-empty, as `if self.api_key` tests. |
| `HypixelClient.WithApiKeyIdempotent` | fishing/hypixel_api.py:96-97 | Attaching the key again on a retried attempt changes nothing. |
| `HypixelClient.Params.constructor` | fishing/hypixel_api.py:179 | The caller's parameter dict starts with the given entries. |
| `HypixelClient.Params.AttachApiKey` | fishing/hypixel_api.py:96-97 | The dict is updated in place to `WithApiKey` of its old entries. |
| `HypixelClient.Settle` | fishing/hypixel_api.py:72-128 | The retry library's error comes exactly from a final timeout or network error, and carries it. Any other transport error escapes as it is. An HTTP reply is classified by `ClassifyResponse`, so a success is a 2xx reply and returns its body. |
| `HypixelClient.Fetch` | fishing/hypixel_api.py:72-128 | The call gives up with the retry error exactly when all three attempts time out or meet a network error. Otherwise the first attempt that does not decides: its HTTP reply is classified, or its other transport error escapes. |
| `HypixelClient.Sent` | fishing/hypixel_api.py:93-97 | The request goes to the given endpoint. Its parameters are exactly the caller's dict, or `{}` when there is none, with the configured key attached: so every caller parameter other than `key` is kept, a caller's `key` survives when no key is configured, and without caller parameters only the key is sent. |
| `HypixelClient.AttemptsFrom` | fishing/hypixel_api.py:72-76 | There are at most 3 attempts. Every attempt before the last timed out or met a network error. Fewer than 3 means the last one did neither. |
| `HypixelClient.SendOnce` | fishing/hypixel_api.py:93-102 | One attempt defaults the parameters, attaches the key to the caller's dict and sends that request. |
| `HypixelClient.Get` | fishing/hypixel_api.py:72-128 | The retry loop makes exactly the attempts of `AttemptsFrom` and ends with the last reply classified. The caller's dict holds the key afterwards. |
| `HypixelClient.RequireProfiles` | fishing/hypixel_api.py:181-184 | A missing, null or empty `profiles` is "no Skyblock profiles"; otherwise the reply passes through. |
| `HypixelClient.GetSkyblockProfiles` | fishing/hypixel_api.py:178-184 | Sends the dash-free id to the profiles endpoint, then applies the profiles check. |
| `HypixelClient.GetPlayerData` | fishing/hypixel_api.py:196-197 | Sends the dash-free id to the player endpoint. |
| `HypixelClient.UuidFromIgn` | fishing/hypixel_api.py:143-162 | A transport failure escapes as it is. 404 names the unknown IGN, and other non-2xx statuses are Mojang errors. A 2xx dict body with a string `id` succeeds with the hyphenated `id`, and succeeding means exactly that. A dict body without `id` raises `KeyError`. A body that is not a dict, or an `id` that is not a string, raises `TypeError`. |
| `HypixelClient.UuidRoundTrip` | fishing/hypixel_api.py:156-179 | The id hyphenated by the lookup strips back to the id the profile request sends. |
| `HypixelClient.RetryPolicy` | fishing/hypixel_api.py:72-76 | A reply on the first attempt is classified at once. Another transport error on the first attempt escapes at once. A reply after one retried failure is classified on the second attempt. Three timeouts or network errors give up with the last one. |
| `Sums.SumValuesRemove` | fishing/stats_calculator.py:116 | The sum of a map's values splits off any entry, so it does not depend on the iteration order. |
| `TrophyFish.ParseTier` | fishing/stats_calculator.py:72 | A suffix names a tier exactly when it is `bronze`, `silver`, `gold` or `diamond`. |
| `TrophyFish.AllTiersComplete` | fishing/stats_calculator.py:59 | `by_tier` has a slot for every tier. |
| `TrophyFish.SplitLast` | fishing/stats_calculator.py:69-70 | `rsplit('_', 1)` gives two parts exactly when the key has an underscore. The key is the parts joined by `_`, and the second part has no underscore. |
| `TrophyFish.SplitLastJoin` | fishing/stats_calculator.py:69-71 | Splitting `fish + "_" + tier` gives back `(fish, tier)` when `tier` has no underscore. |
| `TrophyFish.SplitLastSuffix` | fishing/stats_calculator.py:69-72 | For an underscore-free name, the split ends in it exactly when the key ends in `_` and it. |
| `TrophyFish.Contribution` | fishing/stats_calculator.py:63-72 | A non-numeric value or a key without an underscore contributes nothing. A contribution's count is `int()` of the value, and the key is its fish, `_` and its tier's name. |
| `TrophyFish.ContributionExactly` | fishing/stats_calculator.py:63-72 | An entry counts exactly when its value is numeric and its key ends in `_` and a tier name. Its fish is the rest of the key, and its count is `int()` of the value. |
| `TrophyFish.UntieredKeyIgnored` | fishing/stats_calculator.py:69-72 | `sulphur_skitter` counts for nothing. |
| `TrophyFish.TieredKeyCounted` | fishing/stats_calculator.py:63-80 | `sulphur_skitter_bronze: 3.5` counts 3 bronze; a string value counts nothing. |
| `TrophyFish.BoolCountsAsOne` | fishing/stats_calculator.py:65 | `True` is numeric and counts 1, and the fish name may be empty. |
| `TrophyFish.CatchFresh` | fishing/stats_calculator.py:76-80 | A key not yet visited brings a fish and tier no visited key had, so `tiers[tier] = count` never overwrites. |
| `TrophyFish.AddCatch` | fishing/stats_calculator.py:73-80 | Adding a catch keeps the tier slots and adds its fish to the fish names. The fish then lists the catch's tier with its count. |
| `TrophyFish.Tally` | fishing/stats_calculator.py:63-80 | An entry that does not count changes nothing. The tier slots never change, and the total grows by the count of a counted entry. |
| `TrophyFish.TallySums` | fishing/stats_calculator.py:73-80 | One update keeps three agreements: the total is the sum over the tiers, each fish total is the sum of its tiers, and the fish totals sum to the total. |
| `TrophyFish.TallyAdd` | fishing/stats_calculator.py:73-80 | A new distinct catch, added as the loop body adds it, keeps the breakdown and the three agreements. |
| `TrophyFish.AddEntry` | fishing/stats_calculator.py:64-80 | The loop body on one entry is `Tally`: numeric value, split key and known tier add the count, and anything else is skipped. |
| `TrophyFish.TallyStart` | fishing/stats_calculator.py:57-61 | The starting state has all four tiers at 0 and no fish, and it is the breakdown of no entries. |
| `TrophyFish.TallyEntry` | fishing/stats_calculator.py:63-80 | Looking at one more entry keeps the breakdown of the entries seen so far. |
| `TrophyFish.TrophyFishStats` | fishing/stats_calculator.py:47-82 | `by_tier` has exactly the four tiers, each the sum of its counts, and `total_caught` is the sum of all counts. `by_fish` names exactly the fish caught, each with its total and its tiers. The three sums agree. |
| `TrophyFish.IgnoredEntryChangesNothing` | fishing/stats_calculator.py:63-72 | Adding an entry that does not count leaves the breakdown as it was. |
| `TrophyFish.BreakdownUnique` | fishing/stats_calculator.py:63-82 | The description determines the breakdown, so every visiting order gives the same state. |
| `TrophyFish.TierEntryIsCount` | fishing/stats_calculator.py:76-80 | For a numeric `fish_tier` entry, the fish is listed with that tier, holding the entry's truncated value. |
| `SeaCreatures.SumKills` | fishing/stats_calculator.py:116 | `sum(numeric_kills.values())` is the sum of the values. |
| `SeaCreatures.FilterNumeric` | fishing/stats_calculator.py:110-114 | The loop keeps exactly the numeric entries, each converted with `int()`. |
| `SeaCreatures.PickNotable` | fishing/stats_calculator.py:119-122 | `notable` has a display name exactly when its creature id is among the kills, mapped to that count, and no other name. |
| `SeaCreatures.SeaCreatureStats` | fishing/stats_calculator.py:84-124 | `total_kills` is the sum of the numeric kills and `unique_types` their number. `notable` is as above. |
| `SeaCreatures.NotableUnique` | fishing/stats_calculator.py:95-102 | The description fixes `notable` completely. |
| `SeaCreatures.NonNumericIgnored` | fishing/stats_calculator.py:112-114 | An entry with a non-numeric value changes nothing. |
| `SeaCreatures.UniqueTypesBound` | fishing/stats_calculator.py:117 | There are never more types than entries. |
| `SeaCreatures.KillsExample` | fishing/stats_calculator.py:110-114 | 3.7 Thunder kills count 3, and a string value for Yeti is dropped. |
| `SeaCreatures.KillsExampleTotal` | fishing/stats_calculator.py:116-117 | Those kills total 5, of 2 types. |
| `SeaCreatures.NotableExample` | fishing/stats_calculator.py:119-122 | Thunder is listed with 3 and Yeti is not listed. |
| `Recommendations.LevelAdvice` | fishing/stats_calculator.py:141-151 | The level rungs give one or two messages, all about the level. |
| `Recommendations.TrophyAdvice` | fishing/stats_calculator.py:153-162 | The trophy-total rungs give exactly one trophy message. |
| `Recommendations.DiamondAdvice` | fishing/stats_calculator.py:164-173 | Exactly one diamond message fires, so the final `elif` never fails. |
| `Recommendations.Advise` | fishing/stats_calculator.py:139-175 | The list has 3 or 4 messages, ending with one trophy message and then one diamond message. |
| `Recommendations.GetFishingRecommendations` | fishing/stats_calculator.py:126-175 | The appended list is `Advise` of the level, the trophy total and the diamond count. The XP is never read. |
| `Recommendations.AdviceShape` | fishing/stats_calculator.py:139-175 | The list has 3 or 4 messages: level messages first, then one trophy message, then one diamond message. |
| `Recommendations.Level25` | fishing/stats_calculator.py:142-148 | Level 25 gets "start trophy fishing" and no Great White message. |
| `Recommendations.Levels26To29` | fishing/stats_calculator.py:144-148 | Levels 26 to 29 get both, in that order. |
| `Recommendations.LevelBands` | fishing/stats_calculator.py:141-151 | The level messages for below 25, 30–39 and 40 and up. |
| `Recommendations.LevelThresholds` | fishing/stats_calculator.py:141-151 | Each level message appears exactly in its range: Great White from 26, high level from 40, leveling below 25, Crimson Isle at 25–29. |
| `Recommendations.NoTrophiesNeedDiamonds` | fishing/stats_calculator.py:164-169 | No trophy fish and no diamonds give "need more (current: 0)", not "first diamond". |
| `Recommendations.FirstDiamondExactly` | fishing/stats_calculator.py:164-167 | "First diamond" appears exactly when there are trophy fish and no diamond. |
| `Recommendations.TrophyBands` | fishing/stats_calculator.py:154-162 | Each trophy band gives its message, in both directions. Only 1000 and up quotes the total. |
| `Recommendations.DiamondBands` | fishing/stats_calculator.py:168-173 | Each diamond band gives its message, quoting the count. |
| `FishingStatsCalculator.CalculateAllStats` | fishing/stats_calculator.py:177-193 | Gives the trophy breakdown, the sea-creature summary, and the recommendations read from that breakdown's total and diamonds. |
| `FishingStatsCalculator.EmptyTrophiesAdvice` | fishing/stats_calculator.py:154-169 | With no trophy fish, the advice ends with "start trophy fishing" and "need more diamonds (current: 0)". |
| `GearCalculators.ApplySetBonuses` | fishing/calculators.py:44-47 | Bonuses are present when `HasBonuses` holds: a non-empty dict, as `if set_bonuses` tests. With bonuses, the result is sum times multiplier plus flat times multiplier: the flat bonus defaults to 0, the multiplier to 1, and each is applied once. Without bonuses, or with neither of the stat's own keys, the sum stands. |
| `GearCalculators.Scc` | fishing/calculators.py:8-49 | Sea creature chance is the plain sum of its seven sources without bonuses, and fishing-speed keys do not affect it. |
| `GearCalculators.FishingSpeed` | fishing/calculators.py:52-93 | Fishing speed is the plain sum of its seven sources without bonuses, and sea-creature-chance keys do not affect it. |
| `GearCalculators.SccWithoutBonuses` | fishing/calculators.py:42-49 | `None` or `{}` bonuses give the plain sum, for both stats. |
| `GearCalculators.SccBonuses` | fishing/calculators.py:42-47 | For sea creature chance, a lone flat bonus adds and a lone multiplier scales. Both together give `(sum + flat) * multiplier`. |
| `GearCalculators.FishingSpeedBonuses` | fishing/calculators.py:86-91 | The same for fishing speed. |
| `GearCalculators.PrefixesSeparate` | fishing/calculators.py:88-91 | `fs_*` bonuses leave sea creature chance at its sum, and the other way round. |
| `GearCalculators.SameFormula` | fishing/calculators.py:52-93 | Fishing speed equals sea creature chance with the bonus keys renamed. |
| `GearCalculators.SourceAddsMultiplier` | fishing/calculators.py:42-47 | One more point from a source adds exactly the multiplier. |
| `GearCalculators.ZeroInputs` | fishing/tests/test_calculators.py:70-73 | All-zero sources without bonuses give 0, for both stats. |
| `GearCalculators.DocumentedExamples` | fishing/tests/test_calculators.py:12-150 | The expected values of the docstrings and tests: 24, 22, 24, 24, 23, 60, 75, 50 and 60. |

## Left out

- Network I/O is not modelled. This covers the HTTP client, async calls, URLs, `response.json()`, `close` and logging. Replies are inputs, and the network is a function parameter.
- Backoff timing is not modelled, because the delay schedule is the retry library's own behaviour. The attempt count, which transport errors are retried, and which escape at once are modelled.
- `HypixelClient.UuidFromIgn`: a Mojang reply whose `id` is a list would be sliced by Python. The model treats it as a `TypeError`.
- `GearCalculators.Scc`: `round(total, 2)` is not modelled. Results are exact reals, so the floating-point rounding the rounding test depends on is outside the model.
- `GearCalculators.FishingSpeed`: the same rounding is left out.
- `GearCalculators.ApplySetBonuses`: bonus values are numbers. A non-numeric bonus, which Python would reject with a `TypeError`, is not modelled.
- `JsonValues.Count`: JSON numbers are exact reals, so `int()` of an infinity or NaN, which raises in Python, cannot occur.
- `ProfileExtraction.ExtractFishingStats` takes the profile as a map. A profile that is not a dict, which would make `profile.get` raise `AttributeError`, is not modelled.
- `TrophyFish.TrophyFishStats` and `SeaCreatures.SeaCreatureStats` take the trophy and kill maps as maps. A non-dict value would make `.items()` raise; the model does not cover that.
- Python dict order is not modelled. Maps have no order, and `TrophyFish.BreakdownUnique` and `SeaCreatures.NotableUnique` show the results do not depend on it.
- `TrophyFish.Tier`: tiers are a datatype. `by_tier` keys on it rather than on the strings `"bronze"` … `"diamond"`, and `TierName` gives the strings.
- Recommendation texts (emoji and wording) are not modelled; constructors carry the numbers the texts quote.
- The unused `TROPHY_FISH_TIERS` table and the unused member lookup in the calculator's constructor are dead code and are not modelled.
- The `last_save` and other profile fields that extraction never reads are not modelled.
- Django models, admin, views and URL routing hold no logic of the core and are not modelled.

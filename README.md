# Endless-runner track generation, speed tiers and run history in Dafny

This project models the core of a Unity endless runner. The player runs forward on a track built from *templates*. A template is a ground slab with two walls, and obstacles are scattered on it. The model covers five parts of the game:

- **Range and count helpers** (`MapperAndRdmHelper`, and its older copy `MapperHelper`):
  - the truncating linear remap;
  - the symmetric narrowing of an integer range;
  - the obstacle max-count formula;
  - the two random helpers. Their random draws are passed in as explicit samples.
- **The speed-tier controller** (`GameModeController`). Its "game modes" form a state machine with three fields. Each frame it rounds the player's speed to two decimals and compares it with six thresholds by exact equality. When the tier it expects next is reached, it raises a changed flag.
- **The template/obstacle registry** (`ObjectSpawner`). It keeps:
  - a dictionary keyed by an increasing id;
  - a current obstacle list, which is cleared and appended in place and is shared by reference with the saved entries;
  - template and obstacle counters;
  - a delete operation that builds a filtered dictionary and then throws it away.
- **Two generations of the track generator.** Each frame the generator:
  - takes the tier and recolours future templates when it changed;
  - while the frontier is within render distance of the player, grows the next template, spawns it, fills it with obstacles and saves it.

  The two generators differ in how they place obstacles:
  - `ProceduralGeneration` is the earlier one. It makes one placement try per slot, checked by a raycast and an overlap box, and it drives the `ObjectSpawner` class directly.
  - `ProceduralGenerator` is the later one. It uses a retry loop of up to 1000 attempts per slot, with a reroll box and an overlap box. Its spawner has an interface that the `ObjectSpawner` here does not provide, so that spawner is abstract: the generator's calls are recorded in a log.
- **The run history** (`SavingService`). It keeps five values per run in a player-preferences store, under keys made of a name and a decimal id:
  - the free-id probe wipes the whole store when the id would reach 5000 stored values;
  - loading rebuilds five parallel arrays.

Two support modules hold the rest:
- `Numeric` models C# `(int)` truncation, integer division and `System.Random.Next` over one unit sample.
- `Engine` models vectors, colours and yaw rotations.

`TemplateLayout` holds the template geometry, the colour table and the slot loop, which both generators share line for line.

Randomness is modelled by passing every draw of `System.Random` in as a `Sample`, a real in [0, 1). Physics queries are oracles over the world built so far. Lengths are reals, so floating-point rounding is not modelled. Speeds and speed thresholds are integers counting hundredths.

Two behaviours of the code are easy to misread, and the model keeps them as written:
- **Deleting old templates.** `DeleteUnusedObjects` (Assets/Scripts/ObjectSpawner.cs:156-162) builds a filtered dictionary and discards it, so no template is ever removed from the registry.
- **The save limit.** The limit of 5000 (Assets/Scripts/SavingService.cs:42) counts stored values, five per run, so the probe wipes the store when it reaches id 1000 (Assets/Scripts/SavingService.cs:65).

## Model

| member | source | states |
|---|---|---|
| Numeric.Trunc | Assets/Scripts/MapperAndRdmHelper.cs:45 | The `(int)` cast truncates toward zero: for x ≥ 0 it gives the largest integer not above x, and for x < 0 the smallest integer not below x. |
| Numeric.TruncDiv | Assets/Scripts/ProceduralGenerator.cs:254 | C# `int / int` by a positive divisor: the remainder has the sign of the dividend and is smaller than the divisor in magnitude. |
| Numeric.Next | Assets/Scripts/ProceduralGenerator.cs:255 | `Random.Next(min, max)` returns min when the range is empty and a value in [min, max) otherwise; max itself is never returned. |
| MapperAndRdmHelper.RemapValueFromOldRangeToNewRange | Assets/Scripts/MapperAndRdmHelper.cs:42-46 | The result is always a whole number although its type is float. oldMin maps to trunc(newMin) and oldMax to trunc(newMax). The old range must not be degenerate. |
| MapperAndRdmHelper.ReduceRangeByFactor | Assets/Scripts/MapperAndRdmHelper.cs:56-67 | The narrowing of an integer range by a factor. Its partner lemmas state that both ends move by the same amount, that the result stays inside the range for a factor in [0, 0.5], and two worked cases. |
| MapperAndRdmHelper.ReduceRangeByFactorCases | Assets/Scripts/MapperAndRdmHelper.cs:56-67 | Narrowed or not, both ends of the range move by the same amount, so the range keeps its midpoint. |
| MapperAndRdmHelper.ReduceRangeByFactorStaysInside | Assets/Scripts/MapperAndRdmHelper.cs:56-67 | For a factor in [0, 0.5] the narrowed range stays inside [min, max] and does not invert. |
| MapperAndRdmHelper.ReduceRangeByFactorExamples | Assets/Scripts/MapperAndRdmHelper.cs:58-66 | Worked cases: (1, 21) narrowed by 0.4 with minimum span 5 is (9, 13); (1, 3) is too short and stays (1, 3). |
| MapperAndRdmHelper.RemapRangeByFactor | Assets/Scripts/MapperAndRdmHelper.cs:76-79 | Scaling a proper range by a non-negative factor never inverts it. |
| MapperAndRdmHelper.RandomizeQuaternionY | Assets/Scripts/MapperAndRdmHelper.cs:85-96 | The yaw always lies in [0, 360). It is 0 (identity) when the 0..2 roll is 0, and otherwise it is the second draw's value. |
| MapperAndRdmHelper.RandomizeFloat | Assets/Scripts/MapperAndRdmHelper.cs:120-125 | The value lies in [min, max) for a proper range. It equals min for an empty range and lies in (max, min] for reversed bounds. |
| MapperAndRdmHelper.ModeFactor | Assets/Scripts/MapperAndRdmHelper.cs:109-110 | The tier multiplier `1 + (int)mode` lies in [0, 7] and is zero exactly for GAMEOVER. |
| MapperAndRdmHelper.GrowthTerm | Assets/Scripts/MapperAndRdmHelper.cs:109-110 | The growth term is 0 for ground of the original length and for a zero multiplier (GAMEOVER). It is non-negative for longer ground with a non-negative density and multiplier. |
| MapperAndRdmHelper.CalculateObstacleMaxSpawnAmount | Assets/Scripts/MapperAndRdmHelper.cs:107-112 | The max count is exactly the default for ground of the original length and in GAMEOVER. It is at least the default for longer ground with a non-negative density. |
| MapperAndRdmHelper.GrowthTermMonotone | Assets/Scripts/MapperAndRdmHelper.cs:109-110 | With a non-negative density and multiplier, the growth term does not decrease as the ground gets longer. |
| MapperAndRdmHelper.ObstacleMaxSpawnAmountBase | Assets/Scripts/MapperAndRdmHelper.cs:107-112 | Ground of the original length gives exactly the default. Longer ground with a non-negative density gives at least the default. |
| MapperAndRdmHelper.ObstacleMaxSpawnAmountMonotone | Assets/Scripts/MapperAndRdmHelper.cs:107-112 | With a non-negative density, the max count never decreases as the ground grows, in every tier. |
| MapperHelper.RemapValueFromOldRangeToNewRange | Assets/Scripts/MapperHelper.cs:42-46 | The result is always a whole number. oldMin maps to trunc(newMin) and oldMax to trunc(newMax). |
| MapperHelper.RemapRange | Assets/Scripts/MapperHelper.cs:56-67 | A span below the minimum comes back unchanged, and both ends always move by the same amount. The move is inward for a factor in [0, 0.5]: `AgreesWithMapperAndRdmHelper` equates it with `ReduceRangeByFactor`, for which `ReduceRangeByFactorStaysInside` proves it. A negative factor moves the ends outward. |
| MapperHelper.AgreesWithMapperAndRdmHelper | Assets/Scripts/MapperHelper.cs:42-67 | The older helpers compute exactly what the newer ones compute, on every input. |
| GameModeController.EGameModes.Ordinal | Assets/Scripts/GameModeController.cs:41-51 | The enum values lie in -1..6, with -1 exactly for GAMEOVER and 0 exactly for START. |
| GameModeController.RoundHalfEven | Assets/Scripts/GameModeController.cs:134 | `Math.Round` gives an integer within 0.5 of its argument, and a tie goes to the even neighbour. |
| GameModeController.RoundToHundredths | Assets/Scripts/GameModeController.cs:134 | `Math.Round(speed, 2)` in hundredths: the rounded value lies within 0.005 of the speed. |
| GameModeController.TierForSpeed | Assets/Scripts/GameModeController.cs:134-165 | The matched tier is the first one, VERY_EASY to EXTREME, whose threshold equals the rounded speed, and no earlier tier's threshold equals it. No tier is matched exactly when no threshold equals the speed. |
| GameModeController.UpdatedMode | Assets/Scripts/GameModeController.cs:134-165 | The tier stays as it was when no threshold equals the rounded speed. When some threshold does, the new tier is VERY_EASY or above, and its own threshold equals the speed. |
| GameModeController.Tick | Assets/Scripts/GameModeController.cs:110-126 | One Update of the controller's three fields. Its partner lemmas state that next and the flag change only when the expected tier is reached, and that an inexact speed keeps the tier. |
| GameModeController.Run | Assets/Scripts/GameModeController.cs:110-126 | Over a sequence of Updates, the expected next tier never moves back and moves up by at most one per Update. A raised flag stays raised. |
| GameModeController.TickAdvancesOrKeeps | Assets/Scripts/GameModeController.cs:110-126 | When the new tier is the expected one, next advances by exactly one and the flag is raised; otherwise both are unchanged. The flag is never cleared. START and GAMEOVER are never entered, and no match keeps the tier. |
| GameModeController.NoExactHitKeepsTier | Assets/Scripts/GameModeController.cs:136-165 | Over a run of speeds none of which equals a threshold (for example, speeds that jump past a threshold), the tier never changes. |
| GameModeController.NextTierWaitsForItsThreshold | Assets/Scripts/GameModeController.cs:115-120 | While no speed equals the expected tier's threshold, next and the flag stay as they are, whatever other tiers are entered meanwhile. |
| GameModeController.PastExtremeNeverRaisesFlag | Assets/Scripts/GameModeController.cs:115-120 | Once next has been pushed past EXTREME, it never moves again and the flag is never raised again. |
| GameModeController.FirstTierRaisesFlag | Assets/Scripts/GameModeController.cs:105-120 | From the start state, hitting VERY_EASY's threshold enters VERY_EASY, raises the flag and moves next to EASY. |
| GameModeController.SkippedTierRaisesNoFlag | Assets/Scripts/GameModeController.cs:105-145 | From the start state, hitting EASY's threshold enters EASY but raises no flag, and next stays at VERY_EASY. |
| GameModeController.LowerThresholdLowersTier | Assets/Scripts/GameModeController.cs:136-145 | There is no monotonicity guard: from HARD, a speed equal to EASY's threshold sends the tier back to EASY. |
| GameModeController.GameModeController.constructor | Assets/Scripts/GameModeController.cs:105-109 | After Start the current tier is START, next is VERY_EASY and the flag is false. |
| GameModeController.GameModeController.Update | Assets/Scripts/GameModeController.cs:110-126 | The new state is one `Tick` of the rounded speed. The game-over scene is requested exactly when the tier is GAMEOVER. |
| GameModeController.GameModeController.UpdateGameMode | Assets/Scripts/GameModeController.cs:131-166 | The tier becomes the matched tier of the rounded speed, and is kept when no threshold matches. |
| ObjectSpawner.ObstacleList.constructor | Assets/Scripts/ObjectSpawner.cs:44 | A new obstacle list is empty. |
| ObjectSpawner.ObstacleList.Clear | Assets/Scripts/ObjectSpawner.cs:75 | `List.Clear` empties the list in place. |
| ObjectSpawner.ObstacleList.Add | Assets/Scripts/ObjectSpawner.cs:121 | `List.Add` appends exactly the one obstacle at the end. |
| ObjectSpawner.TemplateWithObstacles.constructor | Assets/Scripts/ObjectSpawner.cs:177-181 | An entry holds the template and the very list it was given, not a copy. |
| ObjectSpawner.ObjectSpawner.constructor | Assets/Scripts/ObjectSpawner.cs:41-60 | The registry starts empty, with id and counters at 0, over the loaded prefab catalog. |
| ObjectSpawner.ObjectSpawner.SpawnTemplate | Assets/Scripts/ObjectSpawner.cs:72-102 | The current list is emptied. The template carries the given scales and colours, and its upper walls are 7 high. The template counter goes up by one. A starting template is registered under the current id with a fresh list of its own. Any other template is left unregistered. Because saved entries share the current list, every registered list is empty afterwards. The key invariant is kept. |
| ObjectSpawner.ObjectSpawner.SpawnObstacle | Assets/Scripts/ObjectSpawner.cs:111-123 | Exactly one obstacle is appended, with the chosen catalog prefab, the counter value, the given transform and colour, and the current template as parent. The counter goes up by one. |
| ObjectSpawner.ObjectSpawner.SaveTemplateAndObstaclesToDic | Assets/Scripts/ObjectSpawner.cs:128-150 | The current id was not a key yet. Exactly one entry is added under it, holding the current template and the current list itself. The id goes up by one and the obstacle counter resets to 0. The keys stay exactly 0 .. id-1. |
| ObjectSpawner.ObjectSpawner.DeleteUnusedObjects | Assets/Scripts/ObjectSpawner.cs:156-162 | The filtered dictionary holds exactly the entries whose template lies behind the player. It is discarded: the method modifies nothing, so the registry is unchanged. |
| TemplateLayout.StartingFrontier | Assets/Scripts/ProceduralGenerator.cs:226-235 | The starting template has ground (10, 1, 30) and walls (1, 1, 30). It sits 1.5 below the player, with its ground starting exactly at the player's z. |
| TemplateLayout.NextFrontier | Assets/Scripts/ProceduralGenerator.cs:244-248 | Ground and walls grow in z by the same increase, and the other dimensions are kept. The position moves by the previous ground length plus half the increase. When that length is the frontier's own, the new ground starts exactly where the previous one ends and the frontier moves forward. |
| TemplateLayout.TemplateColors | Assets/Scripts/ProceduralGenerator.cs:186-220 | Only EASY to EXTREME have a colour pair, and every pair is opaque. |
| TemplateLayout.RecolouredTemplate | Assets/Scripts/ProceduralGeneration.cs:170-204 | START, VERY_EASY and GAMEOVER keep the colours unchanged. |
| TemplateLayout.TierColoursDistinct | Assets/Scripts/ProceduralGenerator.cs:190-219 | Each tier from EASY up has its own pair, none equal to the starting pair, and the pair does not depend on the colours it replaces. |
| TemplateLayout.RecolourIdempotent | Assets/Scripts/ProceduralGenerator.cs:186-220 | Recolouring twice for the same tier is the same as recolouring once. |
| TemplateLayout.Candidate | Assets/Scripts/ProceduralGenerator.cs:294-296 | A candidate lies inside a proper spawn area, at the spawn height 1.5. |
| TemplateLayout.PlaceObstacles | Assets/Scripts/ProceduralGenerator.cs:274-326 | The slot loop only appends: what was there before is a prefix of the result. |
| TemplateLayout.PlacedCallsBounded | Assets/Scripts/ProceduralGenerator.cs:274-326 | When each slot adds at most one item, n slots add at most n items. |
| ProceduralGenerator.GroundSizeIncrease | Assets/Scripts/ProceduralGenerator.cs:252-255 | The next increase lies in [speed/2, speed) for the truncated speed, and is 0 when that speed is at most 1. A negative truncated speed is excluded, because .NET throws for it. |
| ProceduralGenerator.ObstacleArea | Assets/Scripts/ProceduralGenerator.cs:279-285 | The area is centred on the template. Its width is the ground width less 1.5 on each side, and its length is the full ground length. |
| ProceduralGenerator.ObstacleCountRange | Assets/Scripts/ProceduralGenerator.cs:267-269 | For ground at least the original length and a non-negative density, the narrowed count range starts at 1 and is not inverted. |
| ProceduralGenerator.ObstacleTarget | Assets/Scripts/ProceduralGenerator.cs:271 | The slot count is at least 1. It lies in the narrowed range, with its upper end excluded when the range is proper. |
| ProceduralGenerator.AttemptOf | Assets/Scripts/ProceduralGenerator.cs:294-303 | An attempt lies inside a proper area at the spawn height, with a yaw in [0, 360) and a reroll roll in 0..4. |
| ProceduralGenerator.PlaceSlot | Assets/Scripts/ProceduralGenerator.cs:286-325 | A slot makes at most 1000 attempts, and every attempt counts. A slot that places nothing used all 1000. What it places is its last attempt, and that attempt passed the reroll and overlap tests. |
| ProceduralGenerator.EarlierAttemptsRefused | Assets/Scripts/ProceduralGenerator.cs:291-325 | Every attempt before a slot's last one was refused. |
| ProceduralGenerator.PlaceSlotUnfold | Assets/Scripts/ProceduralGenerator.cs:291-325 | One step of the retry loop: an accepted attempt is placed, and a refused one passes on to the next attempt. |
| ProceduralGenerator.RefusedAttemptsSkipped | Assets/Scripts/ProceduralGenerator.cs:301-325 | After k refused attempts, the slot's outcome is what the attempts from k on give. |
| ProceduralGenerator.FirstAcceptedIsPlaced | Assets/Scripts/ProceduralGenerator.cs:313-320 | The slot places its first accepted attempt, after that attempt's index plus one attempts. |
| ProceduralGenerator.AllAttemptsRefusedGivesUp | Assets/Scripts/ProceduralGenerator.cs:288-291 | When all 1000 attempts are refused, the slot places nothing and gives up after 1000 attempts. |
| ProceduralGenerator.SlotCalls | Assets/Scripts/ProceduralGenerator.cs:315-320 | A slot adds at most one spawn call, and adds none exactly when its retry loop placed nothing. |
| ProceduralGenerator.ObstacleSlotsAtMostOne | Assets/Scripts/ProceduralGenerator.cs:274-326 | Each of the generator's slots places at most one obstacle. |
| ProceduralGenerator.AtMostOneObstaclePerSlot | Assets/Scripts/ProceduralGenerator.cs:268-326 | The pass over the drawn target makes at most that many spawn calls, and so never more than the upper end of the narrowed count range. |
| ProceduralGenerator.PlacedObstaclesPassedChecks | Assets/Scripts/ProceduralGenerator.cs:274-326 | For any slots that keep to the checks, every call the slot loop adds passed them against the calls made before it, and later calls do not undo that. |
| ProceduralGenerator.SlotCallPassedChecks | Assets/Scripts/ProceduralGenerator.cs:313-320 | A spawn call a slot adds is black, has a catalog prefab, lies in the area, and found an empty overlap box in the world as it stood. |
| ProceduralGenerator.ObstacleSlotsPassChecks | Assets/Scripts/ProceduralGenerator.cs:274-326 | The generator's slots keep to the checks when attempts are drawn inside the area and prefabs from the catalog. |
| ProceduralGenerator.GeneratorDrawsInside | Assets/Scripts/ProceduralGenerator.cs:277-296 | The generator's attempts land inside the area they are drawn over, and its prefab picks lie in the catalog. |
| ProceduralGenerator.GeneratedObstaclesPassedChecks | Assets/Scripts/ProceduralGenerator.cs:263-328 | Every obstacle the pass places passed the checks: black, inside the area, a catalog prefab, and an empty overlap box in the world as it stood when the obstacle was placed. |
| ProceduralGenerator.AllRefusedPlacesNothing | Assets/Scripts/ProceduralGenerator.cs:291-325 | When every attempt is refused, the pass adds nothing. |
| ProceduralGenerator.ProceduralGenerator.constructor | Assets/Scripts/ProceduralGenerator.cs:80-121 | The field initialisers: counter 0, increase 0, density 1, and no spawner calls made yet. |
| ProceduralGenerator.ProceduralGenerator.Start | Assets/Scripts/ProceduralGenerator.cs:145-152 | The starting template is laid out and spawned as a starting template, and the density is then taken from the difficulty adjuster. |
| ProceduralGenerator.ProceduralGenerator.Update | Assets/Scripts/ProceduralGenerator.cs:154-181 | Update first takes the tier, recolouring only when the controller's flag was set, and then acknowledges the flag. Within render distance it grows the frontier, draws the next increase, counts the template and logs spawn, obstacle and save calls in that order. Otherwise the frontier is unchanged. Every frame it logs the delete call and subtracts its answer from the counter. |
| ProceduralGenerator.ProceduralGenerator.SpawnNextTemplate | Assets/Scripts/ProceduralGenerator.cs:167-176 | The render-distance branch: next values, then one template spawn, the obstacle pass and one save, in that order. |
| ProceduralGenerator.ProceduralGenerator.TakeGameMode | Assets/Scripts/ProceduralGenerator.cs:156-162 | The tier is copied from the controller. The colours change only when the flag was set, and the flag is cleared. |
| ProceduralGenerator.ProceduralGenerator.UpdateTemplateColor | Assets/Scripts/ProceduralGenerator.cs:186-220 | The colours become the tier's pair, or stay as they were for tiers without one. |
| ProceduralGenerator.ProceduralGenerator.CalculateStartingTemplate | Assets/Scripts/ProceduralGenerator.cs:226-235 | The frontier becomes the starting frontier, with identity rotation and the starting colours. |
| ProceduralGenerator.ProceduralGenerator.CalculateNextTemplateValues | Assets/Scripts/ProceduralGenerator.cs:241-257 | The frontier takes one step by the previous increase and the registered previous length. The new increase is drawn from the speed, and the counter goes up by one. The ground never gets shorter than the original. |
| ProceduralGenerator.ProceduralGenerator.CalculateRandomObstacles | Assets/Scripts/ProceduralGenerator.cs:263-272 | The calls added are those of the slot loop run for the drawn target over the current template's area. |
| ProceduralGenerator.ProceduralGenerator.SpawnObstacleSlots | Assets/Scripts/ProceduralGenerator.cs:274-326 | The for loop adds exactly what `PlaceObstacles` gives for its slot count. |
| ProceduralGenerator.ProceduralGenerator.SpawnWithRetries | Assets/Scripts/ProceduralGenerator.cs:286-325 | The while loop adds exactly the slot's `SlotCalls`: one black obstacle at the first accepted attempt, or nothing after 1000 refusals. |
| ProceduralGeneration.ObstacleArea | Assets/Scripts/ProceduralGeneration.cs:257-262 | The area is centred on the template and inset by 1 on every side, in both x and z. |
| ProceduralGeneration.ObstacleCountRange | Assets/Scripts/ProceduralGeneration.cs:247-248 | The minimum is the maximum halved by integer division. The range is proper exactly when the maximum is not negative, and non-negative length and density guarantee that. |
| ProceduralGeneration.ObstacleTarget | Assets/Scripts/ProceduralGeneration.cs:249 | The slot count lies in [min, max), or equals min when the range is empty, and it is 0 while max is at most 1. |
| ProceduralGeneration.SlotObstacles | Assets/Scripts/ProceduralGeneration.cs:254-281 | One try per slot adds at most one obstacle. |
| ProceduralGeneration.ObstacleSlotsAtMostOne | Assets/Scripts/ProceduralGeneration.cs:252-282 | Each slot places at most one obstacle. |
| ProceduralGeneration.AtMostOneObstaclePerSlot | Assets/Scripts/ProceduralGeneration.cs:243-282 | The pass over the drawn count places at most that many obstacles, so it places none or fewer than the maximum amount. |
| ProceduralGeneration.PassedChecksKept | Assets/Scripts/ProceduralGeneration.cs:268-280 | An obstacle that passed its checks keeps them when later obstacles are appended. |
| ProceduralGeneration.PlacedObstaclesPassedChecks | Assets/Scripts/ProceduralGeneration.cs:252-282 | For any slots that keep to the checks, every obstacle added passed them against the obstacles placed before it. |
| ProceduralGeneration.ObstacleSlotsPassChecks | Assets/Scripts/ProceduralGeneration.cs:252-282 | The generator's slots keep to the checks. |
| ProceduralGeneration.GeneratedObstaclesPassedChecks | Assets/Scripts/ProceduralGeneration.cs:243-284 | Every obstacle placed had a ray hit and an empty box at the hit point. Each one lies in the inset area at height 1.5, with identity rotation, black, a catalog prefab, the current template as parent and the obstacle counter in placement order. |
| ProceduralGeneration.NoHitPlacesNothing | Assets/Scripts/ProceduralGeneration.cs:268 | Where no downward ray hits, nothing is placed. |
| ProceduralGeneration.ProceduralGeneration.constructor | Assets/Scripts/ProceduralGeneration.cs:69-115 | The field initialisers: counter 0 and a first size increase of 5. |
| ProceduralGeneration.ProceduralGeneration.Start | Assets/Scripts/ProceduralGeneration.cs:133-138 | The starting template is laid out and registered under the id the counter names, as the spawner instantiates it. |
| ProceduralGeneration.ProceduralGeneration.Update | Assets/Scripts/ProceduralGeneration.cs:140-163 | Update takes the tier, recolouring only when the flag was set, and acknowledges the flag. Within render distance it grows the frontier so that the new ground starts where the previous one ends. It draws the increase from [1, 4), counts the template, and registers exactly one entry whose list is the current list holding the placed obstacles. The spawner's current template becomes the new one, its template counter and registry id go up by one, and its obstacle counter is back at 0 for the next template. Otherwise the registry, frontier, list and all spawner counters are unchanged. The key invariant is kept. |
| ProceduralGeneration.ProceduralGeneration.SpawnNextTemplate | Assets/Scripts/ProceduralGeneration.cs:153-162 | The render-distance branch up to the delete call: next values, one template spawn, the obstacle pass and one save, in that order. The registry gains exactly the new entry. The spawner's current template is the new one, its template counter and registry id go up by one, and its obstacle counter is reset to 0. |
| ProceduralGeneration.ProceduralGeneration.TakeGameMode | Assets/Scripts/ProceduralGeneration.cs:142-148 | The tier is copied from the controller. The colours change only when the flag was set, and the flag is cleared. |
| ProceduralGeneration.ProceduralGeneration.UpdateTemplateColor | Assets/Scripts/ProceduralGeneration.cs:170-204 | The colours become the tier's pair, or stay as they were for START and VERY_EASY. |
| ProceduralGeneration.ProceduralGeneration.CalculateStartingTemplate | Assets/Scripts/ProceduralGeneration.cs:210-219 | The frontier becomes the starting frontier, with identity rotation and the starting colours. |
| ProceduralGeneration.ProceduralGeneration.CalculateNextTemplateValues | Assets/Scripts/ProceduralGeneration.cs:225-237 | The frontier takes one step by the current increase and by the ground length of the template registered under the counter. The new increase lies in [1, 4), and the counter goes up by one. |
| ProceduralGeneration.ProceduralGeneration.CalculateRandomObstacles | Assets/Scripts/ProceduralGeneration.cs:243-284 | The for loop appends exactly what `PlaceObstacles` gives for the drawn count, and the obstacle counter moves with the list. |
| ProceduralGeneration.ProceduralGeneration.SpawnInSlot | Assets/Scripts/ProceduralGeneration.cs:254-281 | One iteration appends exactly that slot's `SlotObstacles`. |
| SavingService.GetFloat | Assets/Scripts/SavingService.cs:118 | `GetFloat` gives the stored float, or 0 when the key is absent or holds another type. |
| SavingService.GetInt | Assets/Scripts/SavingService.cs:119-122 | `GetInt` gives the stored int, or 0 when the key is absent or holds another type. |
| SavingService.NatToString | Assets/Scripts/SavingService.cs:59 | The decimal text of an id is all digits and never empty, and it has one digit exactly below 10. |
| SavingService.ParseNatToString | Assets/Scripts/SavingService.cs:59 | Reading an id's decimal text back gives the id. |
| SavingService.NatToStringInjective | Assets/Scripts/SavingService.cs:59 | Different ids have different decimal texts. |
| SavingService.Key | Assets/Scripts/SavingService.cs:59 | A key starts with its name and is as long as the name plus the id's text. |
| SavingService.KeyInjective | Assets/Scripts/SavingService.cs:72-78 | Keys of one name are equal exactly when their ids are. |
| SavingService.KeysOfDifferentNames | Assets/Scripts/SavingService.cs:43-47 | Names that differ at a shared position give different keys, whatever the ids. |
| SavingService.RecordKeysDistinct | Assets/Scripts/SavingService.cs:43-47 | The ten name/id keys of any two runs collide only for the same name and id, and no key is empty. |
| SavingService.WriteRecord | Assets/Scripts/SavingService.cs:80-84 | All five keys of the run are present after the write. |
| SavingService.LoadedRecord | Assets/Scripts/SavingService.cs:114-122 | Entry i of the arrays LoadData builds. Its partner lemmas state that a saved run loads back as saved, and that times-launched always loads from the empty key. |
| SavingService.SaveThenLoad | Assets/Scripts/SavingService.cs:75-122 | A saved run loads back as saved, except its times-launched entry, which is read from the empty key. |
| SavingService.WriteKeepsOtherKeys | Assets/Scripts/SavingService.cs:80-84 | Writing a run changes no key but its five. |
| SavingService.OtherRunKeys | Assets/Scripts/SavingService.cs:75-78 | The keys of another run, and the empty key, are not keys of this run. |
| SavingService.WriteKeepsOtherRecords | Assets/Scripts/SavingService.cs:80-84 | Writing a run leaves every other run and the empty key as they were. |
| SavingService.Probe | Assets/Scripts/SavingService.cs:59-73 | The probe stops at a free id below the limit. It wipes the store and restarts at 0 exactly when every id from the current one up to the limit is taken. Otherwise the store is kept, and every id it skipped was taken. |
| SavingService.SavedStore | Assets/Scripts/SavingService.cs:57-90 | The store after a save: the run, loaded back from the id the probe chose, is the run as saved, with times-launched read from the empty key of the probed store. |
| SavingService.SaveWithoutWipeKeepsOtherKeys | Assets/Scripts/SavingService.cs:61-84 | When a free id exists, a save changes no key but the five it writes. |
| SavingService.TimesLaunchedLoadsZero | Assets/Scripts/SavingService.cs:104-122 | No save writes the empty key, so over a store without it every loaded times-launched entry is 0. |
| SavingService.SavingService.constructor | Assets/Scripts/SavingService.cs:41 | A launch starts with save id 0 over the stored preferences. |
| SavingService.SavingService.SaveData | Assets/Scripts/SavingService.cs:57-90 | The id becomes the probe's id, and the store is the probed store with the run's five values written under it. The id stays below the limit. |
| SavingService.SavingService.LoadData | Assets/Scripts/SavingService.cs:98-129 | The five arrays are new and have length saveID + 1, and entry i is run i as read from the store. |

## Left out

- Engine calls: `Instantiate`, renderers, transform hierarchies, `Destroy`, singleton `Awake` checks and `Debug.Log` are not modelled. Game objects are value records of their transform, colour and name counter.
- `Physics.Raycast` and `Physics.OverlapBoxNonAlloc` are oracles passed in as parameters. The inspector box sizes, the layer mask and the box rotation derived from the hit normal are folded into the oracle.
- `System.Random` is not modelled as a distribution. Every draw is a parameter, and only its range is reasoned about. Fresh `Random` instances and their seeds are not modelled.
- Floating-point rounding and the float/double conversions are not modelled: lengths and positions are reals.
- `PlayerPrefs.Save` (writing to disk), scene loading and the player's physics are not modelled.
- The tick scheduling is not modelled: `Update` is a method that the caller invokes once per frame.
- GameModeController.GameModeController.Update: speeds and thresholds are whole hundredths, and the scene change for GAMEOVER is returned as a flag. In the game, the thresholds are `float` (Assets/Scripts/GameModeController.cs:70-81), while `Math.Round(m_playerSpeed, 2)` returns a `double` (line 134), and the comparison widens the float. A threshold can therefore match only when its float value equals the double nearest its two-decimal value, as for 5.25 or 5.5. A threshold such as 5.1 is stored as 5.0999999046… and never equals the rounded double 5.0999999999999996…, so the game never enters that tier, whereas the model does.
- GameModeController.GameModeController.UpdateGameMode: the same gap. The model matches a threshold such as 5.1 exactly, which the game's float-to-double comparison never does.
- ProceduralGenerator.ProceduralGenerator.Update: this generator's spawner (`SaveTemplateAndObstaclesToList`, and a `DeleteUnusedObjects` that returns a count) is not part of this model. Its calls are logged, and its answers are inputs: the registered previous ground length, and the deleted count. The "new ground starts where the previous ends" property therefore holds only when that input equals the frontier's own length.
- ProceduralGenerator.ProceduralGenerator.Start: the density read from the difficulty adjuster (Assets/Scripts/ProceduralGenerator.cs:150) is an input, because Assets/Scripts/DynamicDifficultyAdjuster.cs is not part of this model. The model requires that density to be non-negative, while the source reads it unchecked. With a negative density, `CalculateObstacleMaxSpawnAmount` falls below 1 once the ground is long enough. `Random.Next(1, max)` (Assets/Scripts/ProceduralGenerator.cs:271) then throws, and the model does not represent that exception.
- ProceduralGeneration.ProceduralGeneration.Update: the earlier generator calls controller accessors (`GetCurrentGameMode`, `GetGameModeChanged`, `SetGameModeChanged`) and a `GameModes` enum that this snapshot of the controller does not define. They are modelled as the controller's `currentGameMode` and `gameModeChanged` fields and as `EGameModes`.
- ProceduralGeneration.ProceduralGeneration.Update: the delete call builds a dictionary and discards it, so its only effect is nothing. The model makes the call and ignores its result.
- ProceduralGeneration.ProceduralGeneration.Start: it requires a non-empty obstacle catalog. With an empty one, the first obstacle spawn indexes an empty array and throws.
- ProceduralGeneration.ProceduralGeneration.CalculateRandomObstacles: the spawn-area fields (`m_obstacleSpawnPos*`) are written in every iteration and read nowhere else. They are kept as a local area value. The unused `obstaclesSpawnedCounter` is dropped, and the same counter is dropped from the later generator.
- The split of `Update` and `CalculateRandomObstacles` into `TakeGameMode`, `SpawnNextTemplate`, `SpawnObstacleSlots`, `SpawnWithRetries` and `SpawnInSlot` is structural. Each is a contiguous block of the source method, and the source has no such methods.
- SavingService.SavingService.SaveData: enum arguments (player type, skill level) are ints. `EPlayerSkillLevel` is not defined in the repository, and the enum casts are identities on the stored int.
- SavingService.GetFloat: `PlayerPrefs` type mismatches are modelled as reading 0.
- ProceduralGenerator.GroundSizeIncrease: requires the truncated speed to be non-negative. For a negative speed, `Random.Next(speed / 2, speed)` (Assets/Scripts/ProceduralGenerator.cs:254-255) has a minimum above its maximum, and .NET throws; the model does not represent that exception.
- MapperAndRdmHelper.RemapValueFromOldRangeToNewRange: requires `oldMax != oldMin`. On that input the C# float division (Assets/Scripts/MapperAndRdmHelper.cs:44) does not throw; it yields NaN or an infinity, and the `(int)` cast of that is unspecified. The model does not represent that result. The same holds for MapperHelper.RemapValueFromOldRangeToNewRange.
- MapperHelper.RemapValueFromOldRangeToNewRange: requires `oldMax != oldMin`, for the reason given for the same function of `MapperAndRdmHelper`.
- 32-bit integers: C# `int` is 32-bit, and `(int)` of a float outside its range is unspecified. The model's `int` is unbounded and `Trunc` is total, so overflow and out-of-range casts are not modelled.
- The other scripts are not part of this model:
  - PlayerController.cs, CameraController.cs and MySceneManager.cs are engine glue;
  - GameDataManager.cs and GameData.cs are JSON file I/O;
  - CustomEditor/ReadOnlyAttribute.cs is editor UI;
  - DynamicDifficultyAdjuster.cs is incomplete.

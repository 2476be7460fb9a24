/**
 * The later track generator. Once per frame it reads the tier from the
 * speed-tier controller, recolours future templates when the tier changed,
 * and, while the frontier is within render distance of the player, grows
 * the next template, spawns it, fills it with obstacles by a bounded retry
 * loop and saves it; every frame it asks the spawner to delete what lies
 * behind the player.
 *
 * The spawner it talks to is a collaborator whose interface differs from
 * the ObjectSpawner class of this model (it saves "to a list" and its
 * delete returns a count), so here it is abstract: the generator's calls
 * are recorded in `spawnerLog`, and what the spawner answers (the ground
 * length of the registered template, the number of deleted templates) is
 * passed in. Physics queries are oracles over the calls made so far.
 */
module ProceduralGenerator {
  import opened Numeric
  import opened Engine
  import opened TemplateLayout
  import MapperAndRdmHelper
  import GameModeController

  const DefaultObstacleSpawnValue := 2
  const MinObstacleAmount := 1
  const MinRequiredRangeToMap := 5
  const RangeNarrowingFactor := 0.4
  /** Keeps obstacles off the walls on both sides of the ground. */
  const ObstacleSpawnOffset := 1.5
  /** The most placement attempts one obstacle slot makes. */
  const BreakValue := 1000

  /** A call the generator makes on its spawner. */
  datatype SpawnerCall =
    | SpawnTemplate(position: Vector3, rotation: Rotation, groundScale: Vector3, wallScale: Vector3,
                    groundColor: Color32, wallColor: Color32, isStartingTemplate: bool)
    | SpawnObstacle(position: Vector3, rotation: Rotation, color: Color32, prefabID: int)
    | SaveTemplateAndObstaclesToList
    | DeleteUnusedObjects(playerPosZ: real)

  /** `Physics.OverlapBoxNonAlloc` with a fixed box: the number of colliders
      found around a point in the world the given spawner calls have built. */
  type ColliderQuery = (seq<SpawnerCall>, Vector3) -> nat

  /** The draws one placement attempt consumes: candidate x and z, the two
      draws of RandomizeQuaternionY, and the 0..4 reroll draw. */
  datatype AttemptDraws = AttemptDraws(x: Sample, z: Sample, yawKeep: Sample, yaw: Sample, reroll: Sample)

  /** The size increase of the next template: `Next(speed / 2, speed)` with
      the forward speed truncated to an int; .NET throws for a negative
      truncated speed. */
  function GroundSizeIncrease(speedVertical: real, s: Sample): (n: int)
    requires 0 <= Trunc(speedVertical)
    ensures Trunc(speedVertical) / 2 <= n
    ensures 0 < Trunc(speedVertical) ==> n < Trunc(speedVertical)
    ensures Trunc(speedVertical) <= 1 ==> n == 0
  {
    var speed := Trunc(speedVertical);
    Next(TruncDiv(speed, 2), speed, s)
  }

  /** The candidate area of an obstacle: the ground's full length, and its
      width less 1.5 on each side, centred on the template. */
  function ObstacleArea(position: Vector3, groundScale: Vector3): (a: SpawnArea)
    ensures a.xMax - a.xMin == groundScale.x - 2.0 * ObstacleSpawnOffset
    ensures a.zMax - a.zMin == groundScale.z
    ensures a.xMin + a.xMax == 2.0 * position.x && a.zMin + a.zMax == 2.0 * position.z
  {
    SpawnArea(position.x - groundScale.x / 2.0 + ObstacleSpawnOffset,
              position.x + groundScale.x / 2.0 - ObstacleSpawnOffset,
              position.z - groundScale.z / 2.0,
              position.z + groundScale.z / 2.0)
  }

  /** The range the obstacle count is drawn from: 1 up to the max-count
      formula (default 2, original length 30), narrowed by 0.4 when it spans
      at least 5. For ground at least as long as the original and a
      non-negative density it starts at 1 and is not inverted. */
  function ObstacleCountRange(groundZ: real, density: real, mode: GameModeController.EGameModes): (r: (int, int))
    ensures OriginalGroundScale.z <= groundZ && 0.0 <= density ==> MinObstacleAmount <= r.0 <= r.1
  {
    var maxAmount := MapperAndRdmHelper.CalculateObstacleMaxSpawnAmount(
      DefaultObstacleSpawnValue, groundZ, OriginalGroundScale.z, density, mode);
    var r := MapperAndRdmHelper.ReduceRangeByFactor(MinObstacleAmount, maxAmount, RangeNarrowingFactor, MinRequiredRangeToMap);
    assert OriginalGroundScale.z <= groundZ && 0.0 <= density ==> MinObstacleAmount <= r.0 <= r.1 by {
      if OriginalGroundScale.z <= groundZ && 0.0 <= density {
        MapperAndRdmHelper.ObstacleMaxSpawnAmountBase(DefaultObstacleSpawnValue, groundZ, OriginalGroundScale.z, density, mode);
        MapperAndRdmHelper.ReduceRangeByFactorStaysInside(MinObstacleAmount, maxAmount, RangeNarrowingFactor, MinRequiredRangeToMap);
      }
    }
    r
  }

  /** The number of obstacle slots: `Next(lo, hi)` over the narrowed range,
      so at least 1 and below `hi` whenever the range is not empty. */
  function ObstacleTarget(groundZ: real, density: real, mode: GameModeController.EGameModes, s: Sample): (n: nat)
    requires OriginalGroundScale.z <= groundZ && 0.0 <= density
    ensures MinObstacleAmount <= n
    ensures var r := ObstacleCountRange(groundZ, density, mode);
      r.0 <= n && (r.0 < r.1 ==> n < r.1)
  {
    var r := ObstacleCountRange(groundZ, density, mode);
    Next(r.0, r.1, s)
  }

  /** What one placement attempt draws: a candidate position, a rotation
      and the 0..4 reroll roll. */
  datatype Attempt = Attempt(position: Vector3, rotation: Rotation, rerollRoll: int)

  /** The attempt that the draws `d` give over `area`, in the order the
      retry loop consumes them. */
  function AttemptOf(area: SpawnArea, d: AttemptDraws): (a: Attempt)
    ensures area.Proper() ==> area.Contains(a.position)
    ensures a.position.y == DistanceToGround
    ensures 0 <= a.rotation.yaw < 360
    ensures 0 <= a.rerollRoll < 5
  {
    Attempt(Candidate(area, d.x, d.z), MapperAndRdmHelper.RandomizeQuaternionY(d.yawKeep, d.yaw), Next(0, 5, d.reroll))
  }

  /** Every attempt of every slot over `area`, by slot and attempt number. */
  function AttemptsOver(area: SpawnArea, draws: (nat, nat) -> AttemptDraws): (nat, nat) -> Attempt
  {
    (slot: nat, attempt: nat) => AttemptOf(area, draws(slot, attempt))
  }

  /** The prefab each slot picks from a catalog of `prefabCount`. */
  function PrefabPicks(prefabCount: nat, prefabDraws: nat -> Sample): nat -> int
  {
    (slot: nat) => Next(0, prefabCount, prefabDraws(slot))
  }

  /** Whether an attempt spawns: it is not rerolled (the reroll box is empty
      or the roll is 0) and the overlap box is empty, in the world the calls
      in `log` have built. */
  predicate Accepted(log: seq<SpawnerCall>, a: Attempt, reroll: ColliderQuery, overlap: ColliderQuery)
  {
    !(reroll(log, a.position) != 0 && a.rerollRoll != 0) && overlap(log, a.position) == 0
  }

  /** The outcome of one obstacle slot: the attempt placed, if any, and the
      number of attempts made. */
  datatype SlotResult = SlotResult(placed: Option<Attempt>, attempts: nat)

  /** The retry loop of one slot from attempt `attempt` on: every attempt
      counts, the first accepted one is placed, and the loop gives up after
      BreakValue attempts. */
  function PlaceSlot(log: seq<SpawnerCall>, slot: nat, tries: (nat, nat) -> Attempt,
                     reroll: ColliderQuery, overlap: ColliderQuery, attempt: nat): (r: SlotResult)
    requires attempt <= BreakValue
    ensures attempt <= r.attempts <= BreakValue
    ensures r.placed.None? ==> r.attempts == BreakValue
    ensures r.placed.Some? ==>
      && attempt < r.attempts
      && r.placed.value == tries(slot, r.attempts - 1)
      && Accepted(log, r.placed.value, reroll, overlap)
    decreases BreakValue - attempt
  {
    if attempt == BreakValue then SlotResult(None, attempt)
    else if Accepted(log, tries(slot, attempt), reroll, overlap) then SlotResult(Some(tries(slot, attempt)), attempt + 1)
    else PlaceSlot(log, slot, tries, reroll, overlap, attempt + 1)
  }

  /** Every attempt of a slot before the last one it makes was refused. */
  lemma {:induction false} EarlierAttemptsRefused(log: seq<SpawnerCall>, slot: nat, tries: (nat, nat) -> Attempt,
                                                  reroll: ColliderQuery, overlap: ColliderQuery, attempt: nat, j: nat)
    requires attempt <= BreakValue
    requires attempt <= j < PlaceSlot(log, slot, tries, reroll, overlap, attempt).attempts - 1
    ensures !Accepted(log, tries(slot, j), reroll, overlap)
    decreases BreakValue - attempt
  {
    if j > attempt {
      EarlierAttemptsRefused(log, slot, tries, reroll, overlap, attempt + 1, j);
    }
  }

  /** One attempt of a slot's retry loop: an accepted attempt is placed, a
      refused one passes on to the next. */
  lemma PlaceSlotUnfold(log: seq<SpawnerCall>, slot: nat, tries: (nat, nat) -> Attempt,
                        reroll: ColliderQuery, overlap: ColliderQuery, attempt: nat)
    requires attempt < BreakValue
    ensures PlaceSlot(log, slot, tries, reroll, overlap, attempt)
      == if Accepted(log, tries(slot, attempt), reroll, overlap) then SlotResult(Some(tries(slot, attempt)), attempt + 1)
         else PlaceSlot(log, slot, tries, reroll, overlap, attempt + 1)
  {
  }

  /** Refused attempts are passed over: after `k` of them the slot's
      outcome is what the attempts from `k` on give. */
  lemma {:induction false} RefusedAttemptsSkipped(log: seq<SpawnerCall>, slot: nat, tries: (nat, nat) -> Attempt,
                                                  reroll: ColliderQuery, overlap: ColliderQuery, k: nat)
    requires k <= BreakValue
    requires forall j :: 0 <= j < k ==> !Accepted(log, tries(slot, j), reroll, overlap)
    ensures PlaceSlot(log, slot, tries, reroll, overlap, 0) == PlaceSlot(log, slot, tries, reroll, overlap, k)
    decreases k
  {
    if k > 0 {
      RefusedAttemptsSkipped(log, slot, tries, reroll, overlap, k - 1);
      PlaceSlotUnfold(log, slot, tries, reroll, overlap, k - 1);
    }
  }

  /** A slot places its first accepted attempt, after that many attempts
      plus one. */
  lemma FirstAcceptedIsPlaced(log: seq<SpawnerCall>, slot: nat, tries: (nat, nat) -> Attempt,
                              reroll: ColliderQuery, overlap: ColliderQuery, k: nat)
    requires k < BreakValue
    requires forall j :: 0 <= j < k ==> !Accepted(log, tries(slot, j), reroll, overlap)
    requires Accepted(log, tries(slot, k), reroll, overlap)
    ensures PlaceSlot(log, slot, tries, reroll, overlap, 0) == SlotResult(Some(tries(slot, k)), k + 1)
  {
    RefusedAttemptsSkipped(log, slot, tries, reroll, overlap, k);
    PlaceSlotUnfold(log, slot, tries, reroll, overlap, k);
  }

  /** A slot whose BreakValue attempts are all refused places nothing. */
  lemma AllAttemptsRefusedGivesUp(log: seq<SpawnerCall>, slot: nat, tries: (nat, nat) -> Attempt,
                                  reroll: ColliderQuery, overlap: ColliderQuery)
    requires forall j :: 0 <= j < BreakValue ==> !Accepted(log, tries(slot, j), reroll, overlap)
    ensures PlaceSlot(log, slot, tries, reroll, overlap, 0) == SlotResult(None, BreakValue)
  {
    RefusedAttemptsSkipped(log, slot, tries, reroll, overlap, BreakValue);
  }

  /** The call one obstacle slot adds to `log`: a black SpawnObstacle of
      `prefab` at the attempt its retry loop places, or nothing. */
  function SlotCalls(log: seq<SpawnerCall>, slot: nat, tries: (nat, nat) -> Attempt, prefab: int,
                     reroll: ColliderQuery, overlap: ColliderQuery): (calls: seq<SpawnerCall>)
    ensures |calls| <= 1
    ensures calls == [] <==> PlaceSlot(log, slot, tries, reroll, overlap, 0).placed.None?
  {
    match PlaceSlot(log, slot, tries, reroll, overlap, 0).placed
    case Some(a) => [SpawnObstacle(a.position, a.rotation, ObstacleColor, prefab)]
    case None => []
  }

  /** The generator's obstacle slots: slot `slot` picks its prefab and adds
      what its retry loop places. */
  function ObstacleSlots(tries: (nat, nat) -> Attempt, prefabs: nat -> int, reroll: ColliderQuery, overlap: ColliderQuery)
    : (seq<SpawnerCall>, nat) -> seq<SpawnerCall>
  {
    (log: seq<SpawnerCall>, slot: nat) => SlotCalls(log, slot, tries, prefabs(slot), reroll, overlap)
  }

  /** The generator's slots each place at most one obstacle. */
  lemma ObstacleSlotsAtMostOne(tries: (nat, nat) -> Attempt, prefabs: nat -> int, reroll: ColliderQuery, overlap: ColliderQuery)
    ensures AtMostOnePerSlot(ObstacleSlots(tries, prefabs, reroll, overlap))
  {
    var slots := ObstacleSlots(tries, prefabs, reroll, overlap);
    forall log, slot
      ensures |slots(log, slot)| <= 1
    {
      assert slots(log, slot) == SlotCalls(log, slot, tries, prefabs(slot), reroll, overlap);
    }
  }

  /** The pass over the drawn number of slots makes at most that many
      spawn calls, and so never more than the upper end of the narrowed
      count range. */
  lemma AtMostOneObstaclePerSlot(log0: seq<SpawnerCall>, groundZ: real, density: real,
                                 mode: GameModeController.EGameModes, countDraw: Sample, tries: (nat, nat) -> Attempt,
                                 prefabs: nat -> int, reroll: ColliderQuery, overlap: ColliderQuery)
    requires OriginalGroundScale.z <= groundZ && 0.0 <= density
    ensures var n := ObstacleTarget(groundZ, density, mode, countDraw);
      var added := |PlaceObstacles(log0, n, ObstacleSlots(tries, prefabs, reroll, overlap))| - |log0|;
      0 <= added <= n && added <= ObstacleCountRange(groundZ, density, mode).1
  {
    var n := ObstacleTarget(groundZ, density, mode, countDraw);
    ObstacleSlotsAtMostOne(tries, prefabs, reroll, overlap);
    PlacedCallsBounded(log0, n, ObstacleSlots(tries, prefabs, reroll, overlap));
  }

  /** Call `k` of `log` is a black obstacle with a catalog prefab, inside
      the area, where the overlap box found no collider in the world built
      by the calls before it. */
  predicate PassedChecks(log: seq<SpawnerCall>, k: nat, area: SpawnArea, prefabCount: nat, overlap: ColliderQuery)
    requires k < |log|
  {
    && log[k].SpawnObstacle?
    && overlap(log[..k], log[k].position) == 0
    && log[k].color == ObstacleColor
    && (area.Proper() ==> area.Contains(log[k].position))
    && (0 < prefabCount ==> 0 <= log[k].prefabID < prefabCount)
  }

  /** Attempts drawn inside `area` and prefabs picked from the catalog. */
  ghost predicate DrawnInside(area: SpawnArea, prefabCount: nat, tries: (nat, nat) -> Attempt, prefabs: nat -> int)
  {
    && (forall slot, attempt :: area.Proper() ==> area.Contains(tries(slot, attempt).position))
    && (forall slot :: 0 < prefabCount ==> 0 <= prefabs(slot) < prefabCount)
  }

  /** Every slot adds at most one call, and a call it adds passes the checks
      against the calls before it. */
  ghost predicate SlotsPassChecks(slots: (seq<SpawnerCall>, nat) -> seq<SpawnerCall>, area: SpawnArea, prefabCount: nat,
                                  overlap: ColliderQuery)
  {
    forall log, slot ::
      && |slots(log, slot)| <= 1
      && (slots(log, slot) != [] ==> PassedChecks(log + slots(log, slot), |log|, area, prefabCount, overlap))
  }

  /** Every call placed passed the checks, for any slots that keep to them. */
  lemma {:induction false} PlacedObstaclesPassedChecks(log0: seq<SpawnerCall>, n: nat,
                                                       slots: (seq<SpawnerCall>, nat) -> seq<SpawnerCall>,
                                                       area: SpawnArea, prefabCount: nat, overlap: ColliderQuery, k: nat)
    requires SlotsPassChecks(slots, area, prefabCount, overlap)
    requires |log0| <= k < |PlaceObstacles(log0, n, slots)|
    ensures PassedChecks(PlaceObstacles(log0, n, slots), k, area, prefabCount, overlap)
    decreases n
  {
    var log := PlaceObstacles(log0, n - 1, slots);
    var more := slots(log, n - 1);
    if k < |log| {
      PlacedObstaclesPassedChecks(log0, n - 1, slots, area, prefabCount, overlap, k);
      assert (log + more)[k] == log[k];
      assert (log + more)[..k] == log[..k];
    } else {
      assert |more| <= 1;
    }
  }

  /** The call a slot adds, if any, passed the checks against the calls
      before it. */
  lemma SlotCallPassedChecks(log: seq<SpawnerCall>, slot: nat, area: SpawnArea, prefabCount: nat,
                             tries: (nat, nat) -> Attempt, prefab: int, reroll: ColliderQuery, overlap: ColliderQuery)
    requires forall attempt :: area.Proper() ==> area.Contains(tries(slot, attempt).position)
    requires 0 < prefabCount ==> 0 <= prefab < prefabCount
    requires SlotCalls(log, slot, tries, prefab, reroll, overlap) != []
    ensures PassedChecks(log + SlotCalls(log, slot, tries, prefab, reroll, overlap), |log|, area, prefabCount, overlap)
  {
    var r := PlaceSlot(log, slot, tries, reroll, overlap, 0);
    var a := r.placed.value;
    assert a == tries(slot, r.attempts - 1);
    var c := SpawnObstacle(a.position, a.rotation, ObstacleColor, prefab);
    assert (log + [c])[..|log|] == log;
  }

  /** The generator's slots keep to the checks when its attempts are drawn
      inside the area and its prefabs picked from the catalog. */
  lemma ObstacleSlotsPassChecks(area: SpawnArea, prefabCount: nat, tries: (nat, nat) -> Attempt, prefabs: nat -> int,
                                reroll: ColliderQuery, overlap: ColliderQuery)
    requires DrawnInside(area, prefabCount, tries, prefabs)
    ensures SlotsPassChecks(ObstacleSlots(tries, prefabs, reroll, overlap), area, prefabCount, overlap)
  {
    var slots := ObstacleSlots(tries, prefabs, reroll, overlap);
    forall log, slot
      ensures |slots(log, slot)| <= 1
      ensures slots(log, slot) != [] ==> PassedChecks(log + slots(log, slot), |log|, area, prefabCount, overlap)
    {
      assert slots(log, slot) == SlotCalls(log, slot, tries, prefabs(slot), reroll, overlap);
      if slots(log, slot) != [] {
        SlotCallPassedChecks(log, slot, area, prefabCount, tries, prefabs(slot), reroll, overlap);
      }
    }
  }

  /** The generator's attempts land inside the area they are drawn over,
      and its prefab picks lie in the catalog. */
  lemma GeneratorDrawsInside(area: SpawnArea, prefabCount: nat, draws: (nat, nat) -> AttemptDraws, prefabDraws: nat -> Sample)
    ensures DrawnInside(area, prefabCount, AttemptsOver(area, draws), PrefabPicks(prefabCount, prefabDraws))
  {
    var tries := AttemptsOver(area, draws);
    var prefabs := PrefabPicks(prefabCount, prefabDraws);
    forall slot, attempt
      ensures area.Proper() ==> area.Contains(tries(slot, attempt).position)
    {
      var a := AttemptOf(area, draws(slot, attempt));
    }
    forall slot
      ensures 0 < prefabCount ==> 0 <= prefabs(slot) < prefabCount
    {
      assert prefabs(slot) == Next(0, prefabCount, prefabDraws(slot));
    }
  }

  /** Every obstacle the generator places passed the checks: a black
      obstacle inside the area, with a prefab from the catalog, where the
      overlap box found no collider in the world as it stood when it was
      placed. */
  lemma GeneratedObstaclesPassedChecks(log0: seq<SpawnerCall>, n: nat, area: SpawnArea, prefabCount: nat,
                                       prefabDraws: nat -> Sample, draws: (nat, nat) -> AttemptDraws,
                                       reroll: ColliderQuery, overlap: ColliderQuery, k: nat)
    requires |log0| <= k
    requires k < |PlaceObstacles(log0, n, ObstacleSlots(AttemptsOver(area, draws), PrefabPicks(prefabCount, prefabDraws),
                                                         reroll, overlap))|
    ensures PassedChecks(PlaceObstacles(log0, n, ObstacleSlots(AttemptsOver(area, draws), PrefabPicks(prefabCount, prefabDraws),
                                                               reroll, overlap)),
                         k, area, prefabCount, overlap)
  {
    var tries := AttemptsOver(area, draws);
    var prefabs := PrefabPicks(prefabCount, prefabDraws);
    GeneratorDrawsInside(area, prefabCount, draws, prefabDraws);
    ObstacleSlotsPassChecks(area, prefabCount, tries, prefabs, reroll, overlap);
    PlacedObstaclesPassedChecks(log0, n, ObstacleSlots(tries, prefabs, reroll, overlap), area, prefabCount, overlap, k);
  }

  /** When every attempt of every slot is refused in the world `log0`
      builds, nothing is placed. */
  lemma {:induction false} AllRefusedPlacesNothing(log0: seq<SpawnerCall>, n: nat, tries: (nat, nat) -> Attempt,
                                                   prefabs: nat -> int, reroll: ColliderQuery, overlap: ColliderQuery)
    requires forall slot, attempt :: !Accepted(log0, tries(slot, attempt), reroll, overlap)
    ensures PlaceObstacles(log0, n, ObstacleSlots(tries, prefabs, reroll, overlap)) == log0
    decreases n
  {
    if n > 0 {
      AllRefusedPlacesNothing(log0, n - 1, tries, prefabs, reroll, overlap);
      var slot := PlaceSlot(log0, n - 1, tries, reroll, overlap, 0);
      assert slot.placed.None?;
      assert ObstacleSlots(tries, prefabs, reroll, overlap)(log0, n - 1)
          == SlotCalls(log0, n - 1, tries, prefabs(n - 1), reroll, overlap);
    }
  }

  class ProceduralGenerator {
    const controller: GameModeController.GameModeController
    const renderDistance: int
    /** Length of the spawner's obstacle prefab catalog. */
    const obstaclePrefabCount: nat
    var currentGameMode: GameModeController.EGameModes
    var playerPositionZ: real
    var templateCounter: int
    var templateSpawnPosition: Vector3
    var templateSpawnRotation: Rotation
    var wallScale: Vector3
    var wallColor: Color32
    var groundScale: Vector3
    var groundSizeIncrease: real
    var groundColor: Color32
    var obstacleDensity: real
    /** The calls made on the spawner, oldest first. */
    var spawnerLog: seq<SpawnerCall>

    function CurrentFrontier(): Frontier
      reads this`templateSpawnPosition, this`groundScale, this`wallScale
    {
      Frontier(templateSpawnPosition, groundScale, wallScale)
    }

    /** What the draws need: ground never shorter than the original, walls
        as long as the ground, the original width, non-negative increase and
        density. */
    ghost predicate Valid()
      reads this`groundScale, this`wallScale, this`groundSizeIncrease, this`obstacleDensity
    {
      OriginalGroundScale.z <= groundScale.z
      && wallScale.z == groundScale.z
      && groundScale.x == OriginalGroundScale.x
      && 0.0 <= groundSizeIncrease
      && 0.0 <= obstacleDensity
    }

    /** Awake and the field initialisers. */
    constructor (controller: GameModeController.GameModeController, renderDistance: int, obstaclePrefabCount: nat)
      ensures this.controller == controller && this.renderDistance == renderDistance
      ensures this.obstaclePrefabCount == obstaclePrefabCount
      ensures templateCounter == 0 && groundSizeIncrease == 0.0 && obstacleDensity == 1.0
      ensures spawnerLog == []
    {
      this.controller := controller;
      this.renderDistance := renderDistance;
      this.obstaclePrefabCount := obstaclePrefabCount;
      currentGameMode := GameModeController.Start;
      playerPositionZ := 0.0;
      templateCounter := 0;
      templateSpawnPosition := Vector3(0.0, 0.0, 0.0);
      templateSpawnRotation := Identity;
      wallScale := Vector3(0.0, 0.0, 0.0);
      wallColor := Color32(0, 0, 0, 0);
      groundScale := Vector3(0.0, 0.0, 0.0);
      groundSizeIncrease := 0.0;
      groundColor := Color32(0, 0, 0, 0);
      obstacleDensity := 1.0;
      spawnerLog := [];
    }

    /** Start: lay out and spawn the starting template, then take the
        obstacle density from the difficulty adjuster. */
    method Start(playerPosition: Vector3, adjusterObstacleDensity: real)
      requires 0.0 <= groundSizeIncrease
      requires 0.0 <= adjusterObstacleDensity
      modifies this
      ensures Valid()
      ensures CurrentFrontier() == StartingFrontier(playerPosition)
      ensures templateSpawnRotation == Identity
      ensures groundColor == StartingGroundColor && wallColor == StartingWallColor
      ensures spawnerLog == old(spawnerLog)
        + [SpawnTemplate(templateSpawnPosition, Identity, groundScale, wallScale, groundColor, wallColor, true)]
      ensures obstacleDensity == adjusterObstacleDensity
      ensures templateCounter == old(templateCounter) && groundSizeIncrease == old(groundSizeIncrease)
      ensures currentGameMode == old(currentGameMode) && playerPositionZ == old(playerPositionZ)
    {
      CalculateStartingTemplate(playerPosition);
      spawnerLog := spawnerLog
        + [SpawnTemplate(templateSpawnPosition, templateSpawnRotation, groundScale, wallScale, groundColor, wallColor, true)];
      obstacleDensity := adjusterObstacleDensity;
    }

    /** One frame. A template is spawned, filled and saved only when the
        frontier lies within render distance of the player; the delete call
        is made and the counter reduced by its answer on every frame. */
    method Update(playerPosZ: real, speedVertical: real, previousGroundZ: real, deletedCount: int,
                  increaseDraw: Sample, countDraw: Sample, prefabDraws: nat -> Sample,
                  draws: (nat, nat) -> AttemptDraws, reroll: ColliderQuery, overlap: ColliderQuery)
      requires Valid()
      requires templateSpawnPosition.z < playerPosZ + renderDistance as real ==> 0 <= Trunc(speedVertical)
      modifies this, controller`gameModeChanged
      ensures Valid()
      ensures currentGameMode == controller.currentGameMode && !controller.gameModeChanged
      ensures (groundColor, wallColor) ==
        if old(controller.gameModeChanged) then RecolouredTemplate(old(groundColor), old(wallColor), currentGameMode)
        else (old(groundColor), old(wallColor))
      ensures playerPositionZ == playerPosZ
      ensures templateSpawnRotation == old(templateSpawnRotation) && obstacleDensity == old(obstacleDensity)
      ensures old(templateSpawnPosition.z) < playerPosZ + renderDistance as real ==>
        && CurrentFrontier() == NextFrontier(old(CurrentFrontier()), old(groundSizeIncrease), previousGroundZ)
        && groundSizeIncrease == GroundSizeIncrease(speedVertical, increaseDraw) as real
        && templateCounter == old(templateCounter) + 1 - deletedCount
        && spawnerLog == NewTemplateCalls(old(spawnerLog), countDraw, prefabDraws, draws, reroll, overlap)
           + [DeleteUnusedObjects(playerPosZ)]
      ensures !(old(templateSpawnPosition.z) < playerPosZ + renderDistance as real) ==>
        && CurrentFrontier() == old(CurrentFrontier())
        && groundSizeIncrease == old(groundSizeIncrease)
        && templateCounter == old(templateCounter) - deletedCount
        && spawnerLog == old(spawnerLog) + [DeleteUnusedObjects(playerPosZ)]
    {
      TakeGameMode();
      playerPositionZ := playerPosZ;
      var renderDistanceRelative := playerPositionZ + renderDistance as real;
      if templateSpawnPosition.z < renderDistanceRelative {
        SpawnNextTemplate(previousGroundZ, speedVertical, increaseDraw, countDraw, prefabDraws, draws, reroll, overlap);
      }
      var deletedTemplatesCount := deletedCount;
      spawnerLog := spawnerLog + [DeleteUnusedObjects(playerPositionZ)];
      templateCounter := templateCounter - deletedTemplatesCount;
    }

    /** The calls that spawning, filling and saving the template the fields
        now describe add to `log`. */
    ghost function NewTemplateCalls(log: seq<SpawnerCall>, countDraw: Sample, prefabDraws: nat -> Sample,
                                    draws: (nat, nat) -> AttemptDraws, reroll: ColliderQuery, overlap: ColliderQuery)
      : seq<SpawnerCall>
      reads this`templateSpawnPosition, this`templateSpawnRotation, this`groundScale, this`wallScale,
            this`groundColor, this`wallColor, this`obstacleDensity, this`currentGameMode
      requires OriginalGroundScale.z <= groundScale.z && 0.0 <= obstacleDensity
    {
      PlaceObstacles(log + [SpawnTemplate(templateSpawnPosition, templateSpawnRotation, groundScale, wallScale,
                                          groundColor, wallColor, false)],
                     ObstacleTarget(groundScale.z, obstacleDensity, currentGameMode, countDraw),
                     ObstacleSlots(AttemptsOver(ObstacleArea(templateSpawnPosition, groundScale), draws),
                                   PrefabPicks(obstaclePrefabCount, prefabDraws), reroll, overlap))
      + [SaveTemplateAndObstaclesToList]
    }

    /** The body of Update's render-distance branch. */
    method SpawnNextTemplate(previousGroundZ: real, speedVertical: real, increaseDraw: Sample, countDraw: Sample,
                             prefabDraws: nat -> Sample, draws: (nat, nat) -> AttemptDraws,
                             reroll: ColliderQuery, overlap: ColliderQuery)
      requires Valid()
      requires 0 <= Trunc(speedVertical)
      modifies this`groundScale, this`wallScale, this`templateSpawnPosition, this`groundSizeIncrease, this`templateCounter,
               this`spawnerLog
      ensures Valid()
      ensures CurrentFrontier() == NextFrontier(old(CurrentFrontier()), old(groundSizeIncrease), previousGroundZ)
      ensures groundSizeIncrease == GroundSizeIncrease(speedVertical, increaseDraw) as real
      ensures templateCounter == old(templateCounter) + 1
      ensures spawnerLog == NewTemplateCalls(old(spawnerLog), countDraw, prefabDraws, draws, reroll, overlap)
    {
      CalculateNextTemplateValues(previousGroundZ, speedVertical, increaseDraw);
      spawnerLog := spawnerLog
        + [SpawnTemplate(templateSpawnPosition, templateSpawnRotation, groundScale, wallScale, groundColor, wallColor, false)];
      CalculateRandomObstacles(countDraw, prefabDraws, draws, reroll, overlap);
      spawnerLog := spawnerLog + [SaveTemplateAndObstaclesToList];
    }

    /** The head of Update: take the controller's tier and, when it has
        changed, recolour the coming templates and acknowledge the change. */
    method TakeGameMode()
      modifies this`currentGameMode, this`groundColor, this`wallColor, controller`gameModeChanged
      ensures currentGameMode == controller.currentGameMode && !controller.gameModeChanged
      ensures (groundColor, wallColor) ==
        if old(controller.gameModeChanged) then RecolouredTemplate(old(groundColor), old(wallColor), currentGameMode)
        else (old(groundColor), old(wallColor))
    {
      currentGameMode := controller.currentGameMode;
      if controller.gameModeChanged {
        UpdateTemplateColor();
        controller.gameModeChanged := false;
      }
    }

    /** Sets the template colours for the current tier. */
    method UpdateTemplateColor()
      modifies this`groundColor, this`wallColor
      ensures (groundColor, wallColor) == RecolouredTemplate(old(groundColor), old(wallColor), currentGameMode)
    {
      match TemplateColors(currentGameMode)
      case Some(colors) =>
        groundColor := colors.0;
        wallColor := colors.1;
      case None =>
    }

    /** Original scales, position under and ahead of the player, identity
        rotation, starting colours. */
    method CalculateStartingTemplate(playerPosition: Vector3)
      modifies this`groundScale, this`wallScale, this`templateSpawnPosition, this`templateSpawnRotation,
               this`groundColor, this`wallColor
      ensures CurrentFrontier() == StartingFrontier(playerPosition)
      ensures templateSpawnRotation == Identity
      ensures groundColor == StartingGroundColor && wallColor == StartingWallColor
    {
      groundScale := OriginalGroundScale;
      wallScale := OriginalWallScale;
      var spawnPositionOffsetZ := groundScale.z / 2.0;
      templateSpawnPosition := playerPosition.Plus(Vector3(0.0, -DistanceToGround, spawnPositionOffsetZ));
      templateSpawnRotation := Identity;
      groundColor := StartingGroundColor;
      wallColor := StartingWallColor;
    }

    /** Grows the next template by the previous increase, moves the frontier
        past the registered previous template, draws the next increase from
        the speed and counts the template. */
    method CalculateNextTemplateValues(previousGroundZ: real, speedVertical: real, increaseDraw: Sample)
      requires Valid()
      requires 0 <= Trunc(speedVertical)
      modifies this`groundScale, this`wallScale, this`templateSpawnPosition, this`groundSizeIncrease, this`templateCounter
      ensures Valid()
      ensures CurrentFrontier() == NextFrontier(old(CurrentFrontier()), old(groundSizeIncrease), previousGroundZ)
      ensures groundSizeIncrease == GroundSizeIncrease(speedVertical, increaseDraw) as real
      ensures templateCounter == old(templateCounter) + 1
    {
      groundScale := groundScale.(z := groundScale.z + groundSizeIncrease);
      wallScale := wallScale.(z := wallScale.z + groundSizeIncrease);
      var templateSpawnPosZ := previousGroundZ;
      templateSpawnPosition := templateSpawnPosition.Plus(Vector3(0.0, 0.0, templateSpawnPosZ + groundSizeIncrease / 2.0));
      var playerSpeedRounded := Trunc(speedVertical);
      var minGroundSizeIncrease := TruncDiv(playerSpeedRounded, 2);
      groundSizeIncrease := Next(minGroundSizeIncrease, playerSpeedRounded, increaseDraw) as real;
      templateCounter := templateCounter + 1;
    }

    /** Draws the number of obstacle slots from the narrowed count range
        and fills them. */
    method CalculateRandomObstacles(countDraw: Sample, prefabDraws: nat -> Sample, draws: (nat, nat) -> AttemptDraws,
                                    reroll: ColliderQuery, overlap: ColliderQuery)
      requires Valid()
      modifies this`spawnerLog
      ensures spawnerLog == PlaceObstacles(old(spawnerLog), ObstacleTarget(groundScale.z, obstacleDensity, currentGameMode, countDraw),
                                           ObstacleSlots(AttemptsOver(ObstacleArea(templateSpawnPosition, groundScale), draws),
                                                         PrefabPicks(obstaclePrefabCount, prefabDraws), reroll, overlap))
    {
      var range := ObstacleCountRange(groundScale.z, obstacleDensity, currentGameMode);
      var randomAmount := Next(range.0, range.1, countDraw);
      SpawnObstacleSlots(randomAmount, prefabDraws, draws, reroll, overlap);
    }

    /** The slot loop of CalculateRandomObstacles: per slot, pick a prefab
        from the catalog and run the slot's retry loop over the area of the
        current template, spawning at most one obstacle. */
    method SpawnObstacleSlots(randomAmount: nat, prefabDraws: nat -> Sample, draws: (nat, nat) -> AttemptDraws,
                              reroll: ColliderQuery, overlap: ColliderQuery)
      modifies this`spawnerLog
      ensures spawnerLog == PlaceObstacles(old(spawnerLog), randomAmount,
                                           ObstacleSlots(AttemptsOver(ObstacleArea(templateSpawnPosition, groundScale), draws),
                                                         PrefabPicks(obstaclePrefabCount, prefabDraws), reroll, overlap))
    {
      ghost var tries := AttemptsOver(ObstacleArea(templateSpawnPosition, groundScale), draws);
      ghost var slots := ObstacleSlots(tries, PrefabPicks(obstaclePrefabCount, prefabDraws), reroll, overlap);
      var i := 0;
      while i < randomAmount
        invariant 0 <= i <= randomAmount
        invariant spawnerLog == PlaceObstacles(old(spawnerLog), i, slots)
      {
        var randomPrefabNr := Next(0, obstaclePrefabCount, prefabDraws(i));
        var spawnArea := ObstacleArea(templateSpawnPosition, groundScale);
        ghost var before := spawnerLog;
        SpawnWithRetries(i, randomPrefabNr, spawnArea, draws, reroll, overlap);
        assert slots(before, i) == SlotCalls(before, i, tries, randomPrefabNr, reroll, overlap);
        i := i + 1;
      }
    }

    /** The retry loop of one obstacle slot inside CalculateRandomObstacles:
        draw a candidate and a rotation, reroll when the reroll box finds a
        collider and a 0..4 roll is not 0, spawn when the overlap box is
        empty, and give up after BreakValue attempts. */
    method SpawnWithRetries(slot: nat, randomPrefabNr: int, spawnArea: SpawnArea, draws: (nat, nat) -> AttemptDraws,
                            reroll: ColliderQuery, overlap: ColliderQuery)
      modifies this`spawnerLog
      ensures spawnerLog == old(spawnerLog) + SlotCalls(old(spawnerLog), slot, AttemptsOver(spawnArea, draws), randomPrefabNr,
                                                        reroll, overlap)
    {
      ghost var tries := AttemptsOver(spawnArea, draws);
      var spawnedSuccessfully := false;
      var attempts := 0;
      while !spawnedSuccessfully && attempts < BreakValue
        invariant 0 <= attempts <= BreakValue
        invariant forall j :: 0 <= j < attempts && !(spawnedSuccessfully && j == attempts - 1) ==>
          !Accepted(old(spawnerLog), tries(slot, j), reroll, overlap)
        invariant !spawnedSuccessfully ==> spawnerLog == old(spawnerLog)
        invariant spawnedSuccessfully ==>
          && 0 < attempts
          && var a := tries(slot, attempts - 1);
          && Accepted(old(spawnerLog), a, reroll, overlap)
          && spawnerLog == old(spawnerLog) + [SpawnObstacle(a.position, a.rotation, ObstacleColor, randomPrefabNr)]
        decreases BreakValue - attempts
      {
        var d := draws(slot, attempts);
        assert tries(slot, attempts) == AttemptOf(spawnArea, d);
        var spawnPos := Candidate(spawnArea, d.x, d.z);
        var randomizedSpawnRotation := MapperAndRdmHelper.RandomizeQuaternionY(d.yawKeep, d.yaw);
        var collidersFound := reroll(spawnerLog, spawnPos);
        if collidersFound != 0 && Next(0, 5, d.reroll) != 0 {
          attempts := attempts + 1;
        } else {
          collidersFound := overlap(spawnerLog, spawnPos);
          if collidersFound == 0 {
            spawnerLog := spawnerLog + [SpawnObstacle(spawnPos, randomizedSpawnRotation, ObstacleColor, randomPrefabNr)];
            spawnedSuccessfully := true;
          }
          attempts := attempts + 1;
        }
      }
      if spawnedSuccessfully {
        FirstAcceptedIsPlaced(old(spawnerLog), slot, tries, reroll, overlap, attempts - 1);
      } else {
        AllAttemptsRefusedGivesUp(old(spawnerLog), slot, tries, reroll, overlap);
      }
    }
  }
}

/**
 * The earlier track generator. It drives the ObjectSpawner registry
 * directly: once per frame it takes the tier from the speed-tier
 * controller and recolours future templates when the tier changed; while
 * the frontier is within render distance of the player it grows the next
 * template (reading the previous template's ground length back from the
 * registry), spawns it, fills it with obstacles by a single placement try
 * per slot, saves it and asks the spawner to delete what lies behind the
 * player.
 *
 * Physics queries are oracles: they answer from the world as it stood when
 * the obstacle pass began, plus the obstacles the pass has placed so far
 * (the contents of the spawner's current obstacle list).
 */
module ProceduralGeneration {
  import opened Numeric
  import opened Engine
  import opened TemplateLayout
  import MapperAndRdmHelper
  import GameModeController
  import ObjectSpawner

  /** The size increase applied to the first template after the starting one. */
  const InitialGroundSizeIncrease := 5.0
  /** Keeps obstacles 1 away from every edge of the ground. */
  const ObstacleSpawnOffset := 1.0

  /** `Physics.Raycast` straight down from a point over a maximum distance:
      the hit point, if anything was hit. */
  type RaycastQuery = (seq<ObjectSpawner.ObstacleGO>, Vector3, real) -> Option<Vector3>
  /** `Physics.OverlapBoxNonAlloc` with the inspector's box around a point:
      the number of colliders found. */
  type OverlapQuery = (seq<ObjectSpawner.ObstacleGO>, Vector3) -> nat

  /** The draws one obstacle slot consumes, in order: the prefab, then the
      candidate's x and z. */
  datatype SlotDraws = SlotDraws(prefab: Sample, x: Sample, z: Sample)

  /** The candidate area of an obstacle: the ground less 1 on every side,
      centred on the template. */
  function ObstacleArea(position: Vector3, groundScale: Vector3): (a: SpawnArea)
    ensures a.xMax - a.xMin == groundScale.x - 2.0 * ObstacleSpawnOffset
    ensures a.zMax - a.zMin == groundScale.z - 2.0 * ObstacleSpawnOffset
    ensures a.xMin + a.xMax == 2.0 * position.x && a.zMin + a.zMax == 2.0 * position.z
  {
    SpawnArea(position.x - groundScale.x / 2.0 + ObstacleSpawnOffset,
              position.x + groundScale.x / 2.0 - ObstacleSpawnOffset,
              position.z - groundScale.z / 2.0 + ObstacleSpawnOffset,
              position.z + groundScale.z / 2.0 - ObstacleSpawnOffset)
  }

  /** The range the number of obstacle slots is drawn from: the maximum is
      one tenth of the ground length scaled by the density and by the tier's
      enum value plus one, truncated; the minimum is half of it, by C#
      integer division. The range is proper exactly when the maximum is not
      negative, which non-negative length and density guarantee. */
  function ObstacleCountRange(groundZ: real, density: real, mode: GameModeController.EGameModes): (r: (int, int))
    ensures r.0 <= r.1 <==> 0 <= r.1
    ensures 0 <= r.1 ==> 2 * r.0 <= r.1 <= 2 * r.0 + 1
    ensures 0.0 <= groundZ && 0.0 <= density ==> 0 <= r.1
  {
    var factor := MapperAndRdmHelper.ModeFactor(mode);
    var maxAmount := Trunc(MapperAndRdmHelper.GrowthTerm(groundZ, 0.0, density, factor));
    assert 0.0 <= groundZ && 0.0 <= density ==> 0 <= maxAmount by {
      if 0.0 <= groundZ && 0.0 <= density {
        MapperAndRdmHelper.GrowthTermMonotone(0.0, groundZ, 0.0, density, factor);
      }
    }
    (TruncDiv(maxAmount, 2), maxAmount)
  }

  /** The number of obstacle slots: `Next(min, max)`, so at least the
      minimum, below the maximum whenever the range is not empty, and zero
      while the maximum is at most 1. */
  function ObstacleTarget(groundZ: real, density: real, mode: GameModeController.EGameModes, s: Sample): (n: nat)
    requires 0.0 <= groundZ && 0.0 <= density
    ensures var r := ObstacleCountRange(groundZ, density, mode);
      r.0 <= n && (r.0 < r.1 ==> n < r.1) && (r.1 <= 1 ==> n == 0)
  {
    var r := ObstacleCountRange(groundZ, density, mode);
    Next(r.0, r.1, s)
  }

  /** What the obstacle pass of one template works with: the candidate
      area, the catalog size, the raycast distance (the ground length), the
      obstacle counter before the pass less the list length before it, and
      the serial of the template the obstacles are parented to. */
  datatype Placement = Placement(area: SpawnArea, prefabCount: nat, rayRange: real, serialBase: int, parentSerial: int)

  /** The single placement check: the downward ray from `p` hits something
      and the overlap box around the hit point is empty. */
  predicate Clear(placed: seq<ObjectSpawner.ObstacleGO>, p: Vector3, rayRange: real, raycast: RaycastQuery, overlap: OverlapQuery)
  {
    match raycast(placed, p, rayRange)
    case Some(hit) => overlap(placed, hit) == 0
    case None => false
  }

  /** What one slot adds to the obstacles placed so far: an obstacle of the
      drawn prefab at the drawn candidate, with identity rotation and the
      obstacle colour, when the candidate is clear; nothing otherwise. */
  function SlotObstacles(placed: seq<ObjectSpawner.ObstacleGO>, pl: Placement, d: SlotDraws,
                         raycast: RaycastQuery, overlap: OverlapQuery): (added: seq<ObjectSpawner.ObstacleGO>)
    ensures |added| <= 1
  {
    var p := Candidate(pl.area, d.x, d.z);
    if Clear(placed, p, pl.rayRange, raycast, overlap) then
      [ObjectSpawner.ObstacleGO(Next(0, pl.prefabCount, d.prefab), pl.serialBase + |placed|, p, Identity, ObstacleColor,
                                pl.parentSerial)]
    else []
  }

  /** The generator's obstacle slots: slot `slot` uses the draws `draws(slot)`. */
  function ObstacleSlots(pl: Placement, draws: nat -> SlotDraws, raycast: RaycastQuery, overlap: OverlapQuery)
    : (seq<ObjectSpawner.ObstacleGO>, nat) -> seq<ObjectSpawner.ObstacleGO>
  {
    (placed: seq<ObjectSpawner.ObstacleGO>, slot: nat) => SlotObstacles(placed, pl, draws(slot), raycast, overlap)
  }

  /** Each slot makes one try and places at most one obstacle. */
  lemma ObstacleSlotsAtMostOne(pl: Placement, draws: nat -> SlotDraws, raycast: RaycastQuery, overlap: OverlapQuery)
    ensures AtMostOnePerSlot(ObstacleSlots(pl, draws, raycast, overlap))
  {
    var slots := ObstacleSlots(pl, draws, raycast, overlap);
    forall placed, slot
      ensures |slots(placed, slot)| <= 1
    {
      assert slots(placed, slot) == SlotObstacles(placed, pl, draws(slot), raycast, overlap);
    }
  }

  /** The pass over the drawn number of slots places at most that many
      obstacles, and so either none or fewer than the maximum amount. */
  lemma AtMostOneObstaclePerSlot(placed0: seq<ObjectSpawner.ObstacleGO>, groundZ: real, density: real,
                                 mode: GameModeController.EGameModes, countDraw: Sample,
                                 pl: Placement, draws: nat -> SlotDraws, raycast: RaycastQuery, overlap: OverlapQuery)
    requires 0.0 <= groundZ && 0.0 <= density
    ensures var n := ObstacleTarget(groundZ, density, mode, countDraw);
      var added := |PlaceObstacles(placed0, n, ObstacleSlots(pl, draws, raycast, overlap))| - |placed0|;
      0 <= added <= n && (added == 0 || added < ObstacleCountRange(groundZ, density, mode).1)
  {
    var n := ObstacleTarget(groundZ, density, mode, countDraw);
    ObstacleSlotsAtMostOne(pl, draws, raycast, overlap);
    PlacedCallsBounded(placed0, n, ObstacleSlots(pl, draws, raycast, overlap));
  }

  /** Obstacle `k` of `placed` passed the check against the obstacles before
      it, stands at spawn height inside the area with identity rotation and
      the obstacle colour, uses a catalog prefab, is parented to the
      template, and carries the counter value its position gives. */
  predicate PassedChecks(placed: seq<ObjectSpawner.ObstacleGO>, k: nat, pl: Placement,
                         raycast: RaycastQuery, overlap: OverlapQuery)
    requires k < |placed|
  {
    var o := placed[k];
    && Clear(placed[..k], o.position, pl.rayRange, raycast, overlap)
    && o.rotation == Identity && o.color == ObstacleColor
    && o.position.y == DistanceToGround
    && (pl.area.Proper() ==> pl.area.Contains(o.position))
    && (0 < pl.prefabCount ==> 0 <= o.prefabID < pl.prefabCount)
    && o.serial == pl.serialBase + k
    && o.parentSerial == pl.parentSerial
  }

  /** Every slot adds at most one obstacle, and one it adds passes the
      checks against the obstacles before it. */
  ghost predicate SlotsPassChecks(slots: (seq<ObjectSpawner.ObstacleGO>, nat) -> seq<ObjectSpawner.ObstacleGO>, pl: Placement,
                                  raycast: RaycastQuery, overlap: OverlapQuery)
  {
    forall placed, slot ::
      && |slots(placed, slot)| <= 1
      && (slots(placed, slot) != [] ==> PassedChecks(placed + slots(placed, slot), |placed|, pl, raycast, overlap))
  }

  /** Appending obstacles keeps the checks the earlier ones passed. */
  lemma PassedChecksKept(placed: seq<ObjectSpawner.ObstacleGO>, more: seq<ObjectSpawner.ObstacleGO>, k: nat, pl: Placement,
                         raycast: RaycastQuery, overlap: OverlapQuery)
    requires k < |placed|
    requires PassedChecks(placed, k, pl, raycast, overlap)
    ensures PassedChecks(placed + more, k, pl, raycast, overlap)
  {
    assert (placed + more)[k] == placed[k];
    assert (placed + more)[..k] == placed[..k];
  }

  /** Every obstacle placed passed the checks, for any slots that keep to them. */
  lemma {:induction false} PlacedObstaclesPassedChecks(placed0: seq<ObjectSpawner.ObstacleGO>, n: nat,
                                                       slots: (seq<ObjectSpawner.ObstacleGO>, nat) -> seq<ObjectSpawner.ObstacleGO>,
                                                       pl: Placement, raycast: RaycastQuery, overlap: OverlapQuery, k: nat)
    requires SlotsPassChecks(slots, pl, raycast, overlap)
    requires |placed0| <= k < |PlaceObstacles(placed0, n, slots)|
    ensures PassedChecks(PlaceObstacles(placed0, n, slots), k, pl, raycast, overlap)
    decreases n
  {
    var placed := PlaceObstacles(placed0, n - 1, slots);
    var more := slots(placed, n - 1);
    if k < |placed| {
      PlacedObstaclesPassedChecks(placed0, n - 1, slots, pl, raycast, overlap, k);
      PassedChecksKept(placed, more, k, pl, raycast, overlap);
    } else {
      assert |more| <= 1;
    }
  }

  /** The generator's slots keep to the checks. */
  lemma ObstacleSlotsPassChecks(pl: Placement, draws: nat -> SlotDraws, raycast: RaycastQuery, overlap: OverlapQuery)
    ensures SlotsPassChecks(ObstacleSlots(pl, draws, raycast, overlap), pl, raycast, overlap)
  {
    var slots := ObstacleSlots(pl, draws, raycast, overlap);
    forall placed, slot
      ensures |slots(placed, slot)| <= 1
      ensures slots(placed, slot) != [] ==> PassedChecks(placed + slots(placed, slot), |placed|, pl, raycast, overlap)
    {
      var added := SlotObstacles(placed, pl, draws(slot), raycast, overlap);
      assert slots(placed, slot) == added;
      if added != [] {
        assert (placed + added)[..|placed|] == placed;
      }
    }
  }

  /** Every obstacle the pass places passed its single check (the ray hit
      and the box at the hit point was empty in the world as it stood), sits
      inside the inset area at spawn height with identity rotation and the
      obstacle colour, uses a catalog prefab and is numbered by the
      obstacle counter in placement order. */
  lemma GeneratedObstaclesPassedChecks(placed0: seq<ObjectSpawner.ObstacleGO>, n: nat, pl: Placement, draws: nat -> SlotDraws,
                                       raycast: RaycastQuery, overlap: OverlapQuery, k: nat)
    requires |placed0| <= k < |PlaceObstacles(placed0, n, ObstacleSlots(pl, draws, raycast, overlap))|
    ensures PassedChecks(PlaceObstacles(placed0, n, ObstacleSlots(pl, draws, raycast, overlap)), k, pl, raycast, overlap)
  {
    ObstacleSlotsPassChecks(pl, draws, raycast, overlap);
    PlacedObstaclesPassedChecks(placed0, n, ObstacleSlots(pl, draws, raycast, overlap), pl, raycast, overlap, k);
  }

  /** Where no ray hits, nothing is placed. */
  lemma {:induction false} NoHitPlacesNothing(placed0: seq<ObjectSpawner.ObstacleGO>, n: nat, pl: Placement,
                                              draws: nat -> SlotDraws, raycast: RaycastQuery, overlap: OverlapQuery)
    requires forall p :: raycast(placed0, p, pl.rayRange).None?
    ensures PlaceObstacles(placed0, n, ObstacleSlots(pl, draws, raycast, overlap)) == placed0
    decreases n
  {
    if n > 0 {
      NoHitPlacesNothing(placed0, n - 1, pl, draws, raycast, overlap);
      assert ObstacleSlots(pl, draws, raycast, overlap)(placed0, n - 1)
          == SlotObstacles(placed0, pl, draws(n - 1), raycast, overlap);
    }
  }

  class ProceduralGeneration {
    const controller: GameModeController.GameModeController
    const spawner: ObjectSpawner.ObjectSpawner
    const renderDistance: int
    const obstacleDensity: real
    var currentGameMode: GameModeController.EGameModes
    var playerPositionZ: real
    var templateCounter: int
    var templateSpawnPosition: Vector3
    var templateSpawnRotation: Rotation
    var wallScale: Vector3
    var wallColor: Color32
    var groundScale: Vector3
    var groundSizeIncrease: real
    var groundColor: Color32

    function CurrentFrontier(): Frontier
      reads this`templateSpawnPosition, this`groundScale, this`wallScale
    {
      Frontier(templateSpawnPosition, groundScale, wallScale)
    }

    /** The registry holds templates 0 .. templateCounter, the newest one
        being the template the fields describe; the ground keeps its width
        and never gets shorter than the original; the increase and the
        density are not negative; the catalog is not empty. */
    ghost predicate Valid()
      reads this`templateCounter, this`groundScale, this`templateSpawnPosition, this`groundSizeIncrease,
            spawner, spawner.Lists()
    {
      && spawner.Valid()
      && 0 <= templateCounter
      && spawner.dictionaryID == templateCounter + 1
      && spawner.pcgObjectsDic[templateCounter].templateGO.groundScale == groundScale
      && spawner.pcgObjectsDic[templateCounter].templateGO.position == templateSpawnPosition
      && spawner.currentTemplateGO.Some?
      && 0 < |spawner.obstaclePrefabs|
      && groundScale.x == OriginalGroundScale.x
      && OriginalGroundScale.z <= groundScale.z
      && 0.0 <= groundSizeIncrease
      && 0.0 <= obstacleDensity
    }

    /** Awake and the field initialisers. */
    constructor (controller: GameModeController.GameModeController, spawner: ObjectSpawner.ObjectSpawner,
                 renderDistance: int, obstacleDensity: real)
      ensures this.controller == controller && this.spawner == spawner
      ensures this.renderDistance == renderDistance && this.obstacleDensity == obstacleDensity
      ensures templateCounter == 0 && groundSizeIncrease == InitialGroundSizeIncrease
    {
      this.controller := controller;
      this.spawner := spawner;
      this.renderDistance := renderDistance;
      this.obstacleDensity := obstacleDensity;
      currentGameMode := GameModeController.Start;
      playerPositionZ := 0.0;
      templateCounter := 0;
      templateSpawnPosition := Vector3(0.0, 0.0, 0.0);
      templateSpawnRotation := Identity;
      wallScale := Vector3(0.0, 0.0, 0.0);
      wallColor := Color32(0, 0, 0, 0);
      groundScale := Vector3(0.0, 0.0, 0.0);
      groundSizeIncrease := InitialGroundSizeIncrease;
      groundColor := Color32(0, 0, 0, 0);
    }

    /** Start: lay out the starting template and have the spawner register
        it under the id the template counter names. */
    method Start(playerPosition: Vector3)
      requires spawner.Valid()
      requires spawner.dictionaryID == templateCounter && 0 <= templateCounter
      requires 0 < |spawner.obstaclePrefabs|
      requires 0.0 <= groundSizeIncrease && 0.0 <= obstacleDensity
      modifies this, spawner, spawner.currentObstacleList
      ensures Valid()
      ensures CurrentFrontier() == StartingFrontier(playerPosition)
      ensures templateSpawnRotation == Identity
      ensures groundColor == StartingGroundColor && wallColor == StartingWallColor
      ensures templateCounter == old(templateCounter) && groundSizeIncrease == old(groundSizeIncrease)
      ensures spawner.pcgObjectsDic == old(spawner.pcgObjectsDic)[templateCounter := spawner.pcgObjectsDic[templateCounter]]
      ensures spawner.pcgObjectsDic[templateCounter].templateGO
           == ObjectSpawner.TemplateGO(old(spawner.templateCounter), templateSpawnPosition, Identity, groundScale, groundColor,
                                       wallScale, wallColor, Vector3(wallScale.x, 7.0, wallScale.z))
    {
      CalculateStartingTemplate(playerPosition);
      spawner.SpawnTemplate(templateSpawnPosition, templateSpawnRotation, groundScale, wallScale, groundColor, wallColor, true);
    }

    /** One frame. Only when the frontier lies within render distance of the
        player is a template grown, spawned, filled, saved, and the delete
        call made; the new template starts exactly where the previous one
        ends. */
    method Update(playerPosZ: real, increaseDraw: Sample, countDraw: Sample, draws: nat -> SlotDraws,
                  raycast: RaycastQuery, overlap: OverlapQuery)
      requires Valid()
      modifies this`currentGameMode, this`groundColor, this`wallColor, this`playerPositionZ, this`groundScale, this`wallScale,
               this`templateSpawnPosition, this`groundSizeIncrease, this`templateCounter,
               spawner, spawner.currentObstacleList, controller`gameModeChanged
      ensures Valid()
      ensures currentGameMode == controller.currentGameMode && !controller.gameModeChanged
      ensures (groundColor, wallColor) ==
        if old(controller.gameModeChanged) then RecolouredTemplate(old(groundColor), old(wallColor), currentGameMode)
        else (old(groundColor), old(wallColor))
      ensures playerPositionZ == playerPosZ
      ensures old(templateSpawnPosition.z) < playerPosZ + renderDistance as real ==>
        && CurrentFrontier() == NextFrontier(old(CurrentFrontier()), old(groundSizeIncrease), old(groundScale.z))
        && templateSpawnPosition.z - groundScale.z / 2.0 == old(templateSpawnPosition.z) + old(groundScale.z) / 2.0
        && groundSizeIncrease == Next(1, 4, increaseDraw) as real
        && templateCounter == old(templateCounter) + 1
        && spawner.pcgObjectsDic == old(spawner.pcgObjectsDic)[templateCounter := spawner.pcgObjectsDic[templateCounter]]
        && spawner.pcgObjectsDic[templateCounter].templateGO == NewTemplate(old(spawner.templateCounter))
        && spawner.pcgObjectsDic[templateCounter].obstacleList == spawner.currentObstacleList
        && spawner.currentObstacleList.items
           == NewObstacles(old(spawner.obstacleCounter), old(spawner.templateCounter), countDraw, draws, raycast, overlap)
        && spawner.currentTemplateGO == Some(NewTemplate(old(spawner.templateCounter)))
        && spawner.templateCounter == old(spawner.templateCounter) + 1
        && spawner.obstacleCounter == 0
        && spawner.dictionaryID == old(spawner.dictionaryID) + 1
      ensures !(old(templateSpawnPosition.z) < playerPosZ + renderDistance as real) ==>
        && CurrentFrontier() == old(CurrentFrontier())
        && groundSizeIncrease == old(groundSizeIncrease)
        && templateCounter == old(templateCounter)
        && spawner.pcgObjectsDic == old(spawner.pcgObjectsDic)
        && spawner.currentObstacleList.items == old(spawner.currentObstacleList.items)
        && spawner.currentTemplateGO == old(spawner.currentTemplateGO)
        && spawner.templateCounter == old(spawner.templateCounter)
        && spawner.obstacleCounter == old(spawner.obstacleCounter)
        && spawner.dictionaryID == old(spawner.dictionaryID)
    {
      TakeGameMode();
      playerPositionZ := playerPosZ;
      var renderDistanceRelative := playerPositionZ + renderDistance as real;
      if templateSpawnPosition.z < renderDistanceRelative {
        SpawnNextTemplate(increaseDraw, countDraw, draws, raycast, overlap);
        var behind := spawner.DeleteUnusedObjects(playerPositionZ);
      }
    }

    /** The template the fields describe, as the spawner instantiates it
        with serial `serial`. */
    ghost function NewTemplate(serial: int): ObjectSpawner.TemplateGO
      reads this`templateSpawnPosition, this`templateSpawnRotation, this`groundScale, this`wallScale,
            this`groundColor, this`wallColor
    {
      ObjectSpawner.TemplateGO(serial, templateSpawnPosition, templateSpawnRotation, groundScale, groundColor,
                               wallScale, wallColor, Vector3(wallScale.x, 7.0, wallScale.z))
    }

    /** The obstacles the pass over the template the fields describe
        places on an empty list. */
    ghost function NewObstacles(obstacleCounter: int, parentSerial: int, countDraw: Sample, draws: nat -> SlotDraws,
                                raycast: RaycastQuery, overlap: OverlapQuery): seq<ObjectSpawner.ObstacleGO>
      reads this`templateSpawnPosition, this`groundScale, this`currentGameMode, spawner
      requires 0.0 <= groundScale.z && 0.0 <= obstacleDensity
    {
      PlaceObstacles([], ObstacleTarget(groundScale.z, obstacleDensity, currentGameMode, countDraw),
                     ObstacleSlots(Placement(ObstacleArea(templateSpawnPosition, groundScale), |spawner.obstaclePrefabs|,
                                             groundScale.z, obstacleCounter, parentSerial),
                                   draws, raycast, overlap))
    }

    /** The body of Update's render-distance branch, up to the delete call. */
    method SpawnNextTemplate(increaseDraw: Sample, countDraw: Sample, draws: nat -> SlotDraws,
                             raycast: RaycastQuery, overlap: OverlapQuery)
      requires Valid()
      modifies this`groundScale, this`wallScale, this`templateSpawnPosition, this`groundSizeIncrease, this`templateCounter,
               spawner, spawner.currentObstacleList
      ensures Valid()
      ensures CurrentFrontier() == NextFrontier(old(CurrentFrontier()), old(groundSizeIncrease), old(groundScale.z))
      ensures groundSizeIncrease == Next(1, 4, increaseDraw) as real
      ensures templateCounter == old(templateCounter) + 1
      ensures spawner.pcgObjectsDic == old(spawner.pcgObjectsDic)[templateCounter := spawner.pcgObjectsDic[templateCounter]]
      ensures spawner.pcgObjectsDic[templateCounter].templateGO == NewTemplate(old(spawner.templateCounter))
      ensures spawner.pcgObjectsDic[templateCounter].obstacleList == spawner.currentObstacleList
      ensures spawner.currentObstacleList.items
           == NewObstacles(old(spawner.obstacleCounter), old(spawner.templateCounter), countDraw, draws, raycast, overlap)
      ensures spawner.currentTemplateGO == Some(NewTemplate(old(spawner.templateCounter)))
      ensures spawner.templateCounter == old(spawner.templateCounter) + 1
      ensures spawner.obstacleCounter == 0
      ensures spawner.dictionaryID == old(spawner.dictionaryID) + 1
    {
      CalculateNextTemplateValues(increaseDraw);
      spawner.SpawnTemplate(templateSpawnPosition, templateSpawnRotation, groundScale, wallScale, groundColor, wallColor, false);
      CalculateRandomObstacles(countDraw, draws, raycast, overlap);
      spawner.SaveTemplateAndObstaclesToDic();
    }

    /** The head of Update: take the controller's tier and, when it has
        changed, recolour the coming templates and acknowledge the change. */
    method TakeGameMode()
      modifies this`currentGameMode, this`groundColor, this`wallColor, controller`gameModeChanged
      ensures currentGameMode == controller.currentGameMode && !controller.gameModeChanged
      ensures (groundColor, wallColor) ==
        if old(controller.gameModeChanged) then RecolouredTemplate(old(groundColor), old(wallColor), currentGameMode)
        else (old(groundColor), old(wallColor))
    {
      currentGameMode := controller.currentGameMode;
      if controller.gameModeChanged {
        UpdateTemplateColor();
        controller.gameModeChanged := false;
      }
    }

    /** Sets the template colours for the current tier. */
    method UpdateTemplateColor()
      modifies this`groundColor, this`wallColor
      ensures (groundColor, wallColor) == RecolouredTemplate(old(groundColor), old(wallColor), currentGameMode)
    {
      match TemplateColors(currentGameMode)
      case Some(colors) =>
        groundColor := colors.0;
        wallColor := colors.1;
      case None =>
    }

    /** Original scales, position under and ahead of the player, identity
        rotation, starting colours. */
    method CalculateStartingTemplate(playerPosition: Vector3)
      modifies this`groundScale, this`wallScale, this`templateSpawnPosition, this`templateSpawnRotation,
               this`groundColor, this`wallColor
      ensures CurrentFrontier() == StartingFrontier(playerPosition)
      ensures templateSpawnRotation == Identity
      ensures groundColor == StartingGroundColor && wallColor == StartingWallColor
    {
      groundScale := OriginalGroundScale;
      wallScale := OriginalWallScale;
      var spawnPositionOffsetZ := groundScale.z / 2.0;
      templateSpawnPosition := playerPosition.Plus(Vector3(0.0, -DistanceToGround, spawnPositionOffsetZ));
      templateSpawnRotation := Identity;
      groundColor := StartingGroundColor;
      wallColor := StartingWallColor;
    }

    /** Grows the next template by the current increase, moves the frontier
        by the ground length of the template registered under the counter
        plus half the increase, draws the next increase from [1, 4) and
        counts the template. The registry must hold that template. */
    method CalculateNextTemplateValues(increaseDraw: Sample)
      requires templateCounter in spawner.pcgObjectsDic
      modifies this`groundScale, this`wallScale, this`templateSpawnPosition, this`groundSizeIncrease, this`templateCounter
      ensures CurrentFrontier() == NextFrontier(old(CurrentFrontier()), old(groundSizeIncrease),
                                                spawner.pcgObjectsDic[old(templateCounter)].templateGO.groundScale.z)
      ensures groundSizeIncrease == Next(1, 4, increaseDraw) as real
      ensures 1.0 <= groundSizeIncrease < 4.0
      ensures templateCounter == old(templateCounter) + 1
    {
      groundScale := groundScale.(z := groundScale.z + groundSizeIncrease);
      wallScale := wallScale.(z := wallScale.z + groundSizeIncrease);
      var templateSpawnPosZ := spawner.pcgObjectsDic[templateCounter].templateGO.groundScale.z;
      templateSpawnPosition := templateSpawnPosition.Plus(Vector3(0.0, 0.0, templateSpawnPosZ + groundSizeIncrease / 2.0));
      groundSizeIncrease := Next(1, 4, increaseDraw) as real;
      templateCounter := templateCounter + 1;
    }

    /** Draws the number of obstacle slots from the count range and runs
        one placement try per slot over the current template: a prefab, a
        candidate in the inset area, a downward ray as long as the ground,
        and the overlap box at the hit point; a clear candidate becomes an
        obstacle of the current template. */
    method CalculateRandomObstacles(countDraw: Sample, draws: nat -> SlotDraws, raycast: RaycastQuery, overlap: OverlapQuery)
      requires spawner.Valid() && spawner.currentTemplateGO.Some? && 0 < |spawner.obstaclePrefabs|
      requires 0.0 <= groundScale.z && 0.0 <= obstacleDensity
      modifies spawner`obstacleCounter, spawner.currentObstacleList
      ensures spawner.Valid()
      ensures spawner.currentObstacleList.items
           == PlaceObstacles(old(spawner.currentObstacleList.items),
                             ObstacleTarget(groundScale.z, obstacleDensity, currentGameMode, countDraw),
                             ObstacleSlots(Placement(ObstacleArea(templateSpawnPosition, groundScale), |spawner.obstaclePrefabs|,
                                                     groundScale.z,
                                                     old(spawner.obstacleCounter) - |old(spawner.currentObstacleList.items)|,
                                                     spawner.currentTemplateGO.value.serial),
                                           draws, raycast, overlap))
      ensures spawner.obstacleCounter - old(spawner.obstacleCounter)
           == |spawner.currentObstacleList.items| - |old(spawner.currentObstacleList.items)|
    {
      var range := ObstacleCountRange(groundScale.z, obstacleDensity, currentGameMode);
      var randomAmount := Next(range.0, range.1, countDraw);
      ghost var pl := Placement(ObstacleArea(templateSpawnPosition, groundScale), |spawner.obstaclePrefabs|, groundScale.z,
                                spawner.obstacleCounter - |spawner.currentObstacleList.items|, spawner.currentTemplateGO.value.serial);
      ghost var slots := ObstacleSlots(pl, draws, raycast, overlap);
      var i := 0;
      while i < randomAmount
        invariant 0 <= i <= randomAmount
        invariant ReadyFor(pl)
        invariant spawner.currentObstacleList.items == PlaceObstacles(old(spawner.currentObstacleList.items), i, slots)
      {
        ghost var before := spawner.currentObstacleList.items;
        SpawnInSlot(pl, draws(i), raycast, overlap);
        assert slots(before, i) == SlotObstacles(before, pl, draws(i), raycast, overlap);
        i := i + 1;
      }
    }

    /** The spawner can take obstacles for the current template, `pl`
        describes that template's pass, and the obstacle counter has moved
        with the list. */
    ghost predicate ReadyFor(pl: Placement)
      reads this`templateSpawnPosition, this`groundScale, spawner, spawner.Lists(), spawner.currentObstacleList
    {
      && spawner.Valid() && spawner.currentTemplateGO.Some? && 0 < |spawner.obstaclePrefabs|
      && pl.area == ObstacleArea(templateSpawnPosition, groundScale) && pl.rayRange == groundScale.z
      && pl.prefabCount == |spawner.obstaclePrefabs| && pl.parentSerial == spawner.currentTemplateGO.value.serial
      && spawner.obstacleCounter == pl.serialBase + |spawner.currentObstacleList.items|
    }

    /** One iteration of the obstacle loop: pick the prefab, compute the
        inset area and a candidate in it, and spawn there when the ray hits
        and the box at the hit point is empty. */
    method SpawnInSlot(ghost pl: Placement, d: SlotDraws, raycast: RaycastQuery, overlap: OverlapQuery)
      requires ReadyFor(pl)
      modifies spawner`obstacleCounter, spawner.currentObstacleList
      ensures ReadyFor(pl)
      ensures spawner.currentObstacleList.items
           == old(spawner.currentObstacleList.items) + SlotObstacles(old(spawner.currentObstacleList.items), pl, d, raycast, overlap)
    {
      var randomPrefabNr := Next(0, |spawner.obstaclePrefabs|, d.prefab);
      var spawnArea := ObstacleArea(templateSpawnPosition, groundScale);
      var obstacleSpawnPosition := Candidate(spawnArea, d.x, d.z);
      var hit := raycast(spawner.currentObstacleList.items, obstacleSpawnPosition, groundScale.z);
      if hit.Some? {
        var collidersFound := overlap(spawner.currentObstacleList.items, hit.value);
        if collidersFound == 0 {
          spawner.SpawnObstacle(obstacleSpawnPosition, Identity, ObstacleColor, randomPrefabNr);
        }
      }
    }
  }
}

/**
 * The template/obstacle registry. Instantiated game objects are values
 * (their transform, colour and name data); the registry is a class whose
 * dictionary, current obstacle list and counters change in place. The
 * obstacle list is a reference: a saved entry holds the very list the
 * spawner keeps clearing and appending to.
 */
module ObjectSpawner {
  import opened Engine

  /** An instantiated template prefab: its name counter, transform and the
      scales and colours given to its ground and wall children. The upper
      walls take the lower-wall scale with its height replaced by 7. */
  datatype TemplateGO = TemplateGO(
    serial: int,
    position: Vector3,
    rotation: Rotation,
    groundScale: Vector3,
    groundColor: Color32,
    lowerWallScale: Vector3,
    wallColor: Color32,
    upperWallScale: Vector3)

  /** An instantiated obstacle prefab: which prefab, its name counter, its
      transform and colour, and the template it is parented to. */
  datatype ObstacleGO = ObstacleGO(
    prefabID: int,
    serial: int,
    position: Vector3,
    rotation: Rotation,
    color: Color32,
    parentSerial: int)

  /** A `List<GameObject>` of obstacles, shared by reference. */
  class ObstacleList {
    var items: seq<ObstacleGO>

    constructor ()
      ensures items == []
    {
      items := [];
    }

    method Clear()
      modifies this
      ensures items == []
    {
      items := [];
    }

    method Add(o: ObstacleGO)
      modifies this
      ensures items == old(items) + [o]
    {
      items := items + [o];
    }
  }

  /** One game tile: a template and the list of obstacles spawned on it. */
  class TemplateWithObstacles {
    const templateGO: TemplateGO
    const obstacleList: ObstacleList

    constructor (templateGO: TemplateGO, obstacleList: ObstacleList)
      ensures this.templateGO == templateGO && this.obstacleList == obstacleList
    {
      this.templateGO := templateGO;
      this.obstacleList := obstacleList;
    }
  }

  class ObjectSpawner {
    /** The prefabs loaded from the OBSTACLES resources folder, by name. */
    const obstaclePrefabs: seq<string>
    var pcgObjectsDic: map<int, TemplateWithObstacles>
    var dictionaryID: int
    var currentTemplateGO: Option<TemplateGO>
    const currentObstacleList: ObstacleList
    var templateCounter: int
    var obstacleCounter: int

    /** The obstacle lists the registered entries refer to. */
    ghost function Lists(): set<ObstacleList>
      reads this
    {
      set k | k in pcgObjectsDic :: pcgObjectsDic[k].obstacleList
    }

    /** The keys are exactly 0 .. dictionaryID-1, and every entry's list is
        either the shared current list or an empty one. */
    ghost predicate Valid()
      reads this, Lists()
    {
      0 <= dictionaryID
      && (forall k :: k in pcgObjectsDic <==> 0 <= k < dictionaryID)
      && (forall k | k in pcgObjectsDic ::
            pcgObjectsDic[k].obstacleList == currentObstacleList || pcgObjectsDic[k].obstacleList.items == [])
    }

    /** Awake and the field initialisers: an empty registry over the loaded
        obstacle prefabs. */
    constructor (obstaclePrefabs: seq<string>)
      ensures Valid()
      ensures this.obstaclePrefabs == obstaclePrefabs
      ensures pcgObjectsDic == map[] && dictionaryID == 0
      ensures currentTemplateGO == None
      ensures fresh(currentObstacleList) && currentObstacleList.items == []
      ensures templateCounter == 0 && obstacleCounter == 0
    {
      this.obstaclePrefabs := obstaclePrefabs;
      pcgObjectsDic := map[];
      dictionaryID := 0;
      currentTemplateGO := None;
      currentObstacleList := new ObstacleList();
      templateCounter := 0;
      obstacleCounter := 0;
    }

    /** Instantiates a template. The current obstacle list is emptied; a
        starting template is registered at once under the current id with a
        list of its own, any other is left for SaveTemplateAndObstaclesToDic.
        Because saved entries share the current list, every registered
        template's obstacle list is empty afterwards. */
    method SpawnTemplate(spawnPosition: Vector3, spawnRotation: Rotation, groundScale: Vector3, wallScale: Vector3,
                         groundColor: Color32, wallColor: Color32, isStartingTemplate: bool)
      requires Valid()
      modifies this, currentObstacleList
      ensures Valid()
      ensures currentObstacleList.items == []
      ensures currentTemplateGO == Some(TemplateGO(old(templateCounter), spawnPosition, spawnRotation, groundScale, groundColor,
                                                   wallScale, wallColor, Vector3(wallScale.x, 7.0, wallScale.z)))
      ensures templateCounter == old(templateCounter) + 1
      ensures obstacleCounter == old(obstacleCounter)
      ensures isStartingTemplate ==>
        && dictionaryID == old(dictionaryID) + 1
        && old(dictionaryID) in pcgObjectsDic
        && pcgObjectsDic == old(pcgObjectsDic)[old(dictionaryID) := pcgObjectsDic[old(dictionaryID)]]
        && fresh(pcgObjectsDic[old(dictionaryID)]) && fresh(pcgObjectsDic[old(dictionaryID)].obstacleList)
        && pcgObjectsDic[old(dictionaryID)].templateGO == currentTemplateGO.value
      ensures !isStartingTemplate ==> dictionaryID == old(dictionaryID) && pcgObjectsDic == old(pcgObjectsDic)
      ensures forall k | k in pcgObjectsDic :: pcgObjectsDic[k].obstacleList.items == []
    {
      currentObstacleList.Clear();
      var upperWallScale := Vector3(wallScale.x, 7.0, wallScale.z);
      var template := TemplateGO(templateCounter, spawnPosition, spawnRotation, groundScale, groundColor,
                                 wallScale, wallColor, upperWallScale);
      currentTemplateGO := Some(template);
      if isStartingTemplate {
        var ownList := new ObstacleList();
        var entry := new TemplateWithObstacles(template, ownList);
        assert dictionaryID !in pcgObjectsDic;
        pcgObjectsDic := pcgObjectsDic[dictionaryID := entry];
        dictionaryID := dictionaryID + 1;
      }
      templateCounter := templateCounter + 1;
    }

    /** Instantiates obstacle prefab `selectedPrefabID`, parents it to the
        current template and appends it to the current obstacle list. The
        prefab index must lie in the catalog and a template must exist. */
    method SpawnObstacle(spawnPosition: Vector3, spawnRotation: Rotation, color: Color32, selectedPrefabID: int)
      requires Valid()
      requires 0 <= selectedPrefabID < |obstaclePrefabs|
      requires currentTemplateGO.Some?
      modifies this`obstacleCounter, currentObstacleList
      ensures Valid()
      ensures currentObstacleList.items == old(currentObstacleList.items)
        + [ObstacleGO(selectedPrefabID, old(obstacleCounter), spawnPosition, spawnRotation, color, currentTemplateGO.value.serial)]
      ensures obstacleCounter == old(obstacleCounter) + 1
    {
      var obstacle := ObstacleGO(selectedPrefabID, obstacleCounter, spawnPosition, spawnRotation, color,
                                 currentTemplateGO.value.serial);
      currentObstacleList.Add(obstacle);
      obstacleCounter := obstacleCounter + 1;
    }

    /** Registers the current template under the current id together with
        the current obstacle list itself (not a copy), advances the id and
        resets the obstacle counter. The id is never already a key. */
    method SaveTemplateAndObstaclesToDic()
      requires Valid()
      requires currentTemplateGO.Some?
      modifies this`pcgObjectsDic, this`dictionaryID, this`obstacleCounter
      ensures Valid()
      ensures old(dictionaryID) !in old(pcgObjectsDic)
      ensures dictionaryID == old(dictionaryID) + 1
      ensures old(dictionaryID) in pcgObjectsDic
      ensures pcgObjectsDic == old(pcgObjectsDic)[old(dictionaryID) := pcgObjectsDic[old(dictionaryID)]]
      ensures fresh(pcgObjectsDic[old(dictionaryID)])
      ensures pcgObjectsDic[old(dictionaryID)].templateGO == currentTemplateGO.value
      ensures pcgObjectsDic[old(dictionaryID)].obstacleList == currentObstacleList
      ensures obstacleCounter == 0
    {
      var entry := new TemplateWithObstacles(currentTemplateGO.value, currentObstacleList);
      pcgObjectsDic := pcgObjectsDic[dictionaryID := entry];
      dictionaryID := dictionaryID + 1;
      obstacleCounter := 0;
    }

    /** Builds the sub-dictionary of entries whose template lies behind
        `playerPosZ` and discards it. The ensures only describe that
        sub-dictionary; what matters to callers is that the registry is
        not changed, which the absence of a `modifies` clause guarantees. */
    method DeleteUnusedObjects(playerPosZ: real) returns (matches: map<int, TemplateWithObstacles>)
      ensures forall k :: k in matches <==> k in pcgObjectsDic && pcgObjectsDic[k].templateGO.position.z < playerPosZ
      ensures forall k | k in matches :: matches[k] == pcgObjectsDic[k]
    {
      matches := map k | k in pcgObjectsDic && pcgObjectsDic[k].templateGO.position.z < playerPosZ :: pcgObjectsDic[k];
    }
  }
}

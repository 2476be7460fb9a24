/**
 * Template geometry and colouring shared, line for line, by the two track
 * generators: the starting template, the step from one template to the
 * next, the tier-to-colour table, and candidate obstacle positions inside a
 * rectangle of the ground.
 */
module TemplateLayout {
  import opened Numeric
  import opened Engine
  import MapperAndRdmHelper
  import GameModeController

  const OriginalGroundScale := Vector3(10.0, 1.0, 30.0)
  const OriginalWallScale := Vector3(1.0, 1.0, 30.0)
  /** Height of the player above the ground's centre and of obstacle spawns. */
  const DistanceToGround := 1.5
  const StartingGroundColor := Color32(0, 255, 10, 255)
  const StartingWallColor := Color32(10, 95, 2, 255)
  /** `new Color(0, 0, 0, 255)` converted to Color32: opaque black. */
  const ObstacleColor := Color32(0, 0, 0, 255)

  /** Where the newest template stands and the scales it was built with. */
  datatype Frontier = Frontier(position: Vector3, groundScale: Vector3, wallScale: Vector3)

  /** CalculateStartingTemplate: original scales, placed so that the ground
      starts exactly at the player and lies 1.5 below it. */
  function StartingFrontier(playerPosition: Vector3): (f: Frontier)
    ensures f.groundScale == OriginalGroundScale && f.wallScale == OriginalWallScale
    ensures f.position.z - f.groundScale.z / 2.0 == playerPosition.z
    ensures f.position.x == playerPosition.x && f.position.y == playerPosition.y - DistanceToGround
  {
    var offsetZ := OriginalGroundScale.z / 2.0;
    Frontier(playerPosition.Plus(Vector3(0.0, -DistanceToGround, offsetZ)), OriginalGroundScale, OriginalWallScale)
  }

  /** CalculateNextTemplateValues without its draw: ground and walls grow by
      `increase`; the position moves forward by the previous template's
      ground length (read back from the registry) plus half the increase.
      When that length is the frontier's own, the new template starts
      exactly where the previous one ends. */
  function NextFrontier(f: Frontier, increase: real, previousGroundZ: real): (r: Frontier)
    ensures r.groundScale.z == f.groundScale.z + increase && r.wallScale.z == f.wallScale.z + increase
    ensures r.groundScale.x == f.groundScale.x && r.groundScale.y == f.groundScale.y
    ensures r.wallScale.x == f.wallScale.x && r.wallScale.y == f.wallScale.y
    ensures r.position.x == f.position.x && r.position.y == f.position.y
    ensures previousGroundZ == f.groundScale.z ==>
      r.position.z - r.groundScale.z / 2.0 == f.position.z + f.groundScale.z / 2.0
    ensures previousGroundZ == f.groundScale.z && 0.0 <= increase && 0.0 < f.groundScale.z ==>
      r.position.z > f.position.z
  {
    var groundScale := f.groundScale.(z := f.groundScale.z + increase);
    var wallScale := f.wallScale.(z := f.wallScale.z + increase);
    var position := f.position.Plus(Vector3(0.0, 0.0, previousGroundZ + increase / 2.0));
    Frontier(position, groundScale, wallScale)
  }

  /** UpdateTemplateColor's table: ground and wall colour per tier, EASY to
      EXTREME; the other tiers have no entry. */
  function TemplateColors(mode: GameModeController.EGameModes): (c: Option<(Color32, Color32)>)
    ensures c.None? <==> mode.Ordinal() <= 1
    ensures c.Some? ==> c.value.0.a == 255 && c.value.1.a == 255
  {
    match mode
    case Easy => Some((Color32(0, 255, 250, 255), Color32(10, 125, 120, 255)))
    case Medium => Some((Color32(10, 25, 240, 255), Color32(10, 15, 105, 255)))
    case Hard => Some((Color32(255, 155, 0, 255), Color32(155, 95, 10, 255)))
    case VeryHard => Some((Color32(255, 0, 0, 255), Color32(115, 5, 5, 255)))
    case Extreme => Some((Color32(255, 0, 255, 255), Color32(150, 15, 150, 255)))
    case _ => None
  }

  /** The colours after UpdateTemplateColor. */
  function RecolouredTemplate(groundColor: Color32, wallColor: Color32, mode: GameModeController.EGameModes): (r: (Color32, Color32))
    ensures mode.Ordinal() <= 1 ==> r == (groundColor, wallColor)
  {
    match TemplateColors(mode)
    case Some(colors) => colors
    case None => (groundColor, wallColor)
  }

  /** Each tier from EASY up has its own pair, none of them the starting
      pair, and the pair does not depend on the colours it replaces. */
  lemma TierColoursDistinct(m1: GameModeController.EGameModes, m2: GameModeController.EGameModes,
                            g1: Color32, w1: Color32, g2: Color32, w2: Color32)
    requires 1 < m1.Ordinal() && 1 < m2.Ordinal()
    ensures RecolouredTemplate(g1, w1, m1) == RecolouredTemplate(g2, w2, m2) <==> m1 == m2
    ensures RecolouredTemplate(g1, w1, m1) != (StartingGroundColor, StartingWallColor)
  {
  }

  /** Recolouring twice for the same tier is recolouring once. */
  lemma RecolourIdempotent(g: Color32, w: Color32, mode: GameModeController.EGameModes)
    ensures var r := RecolouredTemplate(g, w, mode);
      RecolouredTemplate(r.0, r.1, mode) == r
  {
  }

  /** A rectangle of the ground from which obstacle positions are drawn,
      lower bounds inclusive and upper bounds exclusive. */
  datatype SpawnArea = SpawnArea(xMin: real, xMax: real, zMin: real, zMax: real)
  {
    predicate Proper()
    {
      xMin < xMax && zMin < zMax
    }

    predicate Contains(p: Vector3)
    {
      xMin <= p.x < xMax && zMin <= p.z < zMax
    }
  }

  /** A candidate obstacle position: x and z drawn with RandomizeFloat, at
      the fixed height above the ground. */
  function Candidate(area: SpawnArea, x: Sample, z: Sample): (p: Vector3)
    ensures area.Proper() ==> area.Contains(p)
    ensures p.y == DistanceToGround
  {
    Vector3(MapperAndRdmHelper.RandomizeFloat(area.xMin, area.xMax, x), DistanceToGround,
            MapperAndRdmHelper.RandomizeFloat(area.zMin, area.zMax, z))
  }

  /** The slot loop both generators run: starting from `placed0`, slot
      `slot` appends what `slots` gives for everything placed before it. */
  function PlaceObstacles<T>(placed0: seq<T>, n: nat, slots: (seq<T>, nat) -> seq<T>): (placed: seq<T>)
    ensures |placed0| <= |placed|
    ensures placed[..|placed0|] == placed0
    decreases n
  {
    if n == 0 then placed0
    else
      var placed := PlaceObstacles(placed0, n - 1, slots);
      placed + slots(placed, n - 1)
  }

  /** Slots that add at most one item each. */
  ghost predicate AtMostOnePerSlot<T(!new)>(slots: (seq<T>, nat) -> seq<T>)
  {
    forall placed, slot :: |slots(placed, slot)| <= 1
  }

  /** `n` slots that add at most one item each add at most `n` items. */
  lemma {:induction false} PlacedCallsBounded<T(!new)>(placed0: seq<T>, n: nat, slots: (seq<T>, nat) -> seq<T>)
    requires AtMostOnePerSlot(slots)
    ensures |PlaceObstacles(placed0, n, slots)| <= |placed0| + n
    decreases n
  {
    if n > 0 {
      PlacedCallsBounded(placed0, n - 1, slots);
      assert |slots(PlaceObstacles(placed0, n - 1, slots), n - 1)| <= 1;
    }
  }
}

/**
 * Speed tiers ("game modes"): a three-field state machine that, once per
 * frame, matches the player's forward speed rounded to two decimals against
 * six fixed thresholds by exact equality, and raises a changed flag when the
 * tier it expects next is reached. Speeds and thresholds are integer
 * hundredths.
 */
module GameModeController {
  import opened Engine

  /** The tiers, listed in the order of their C# enum values -1 .. 6. */
  datatype EGameModes = GameOver | Start | VeryEasy | Easy | Medium | Hard | VeryHard | Extreme
  {
    /** The underlying C# enum value. */
    function Ordinal(): (n: int)
      ensures -1 <= n <= 6
      ensures n == -1 <==> this == GameOver
      ensures n == 0 <==> this == Start
    {
      match this
      case GameOver => -1
      case Start => 0
      case VeryEasy => 1
      case Easy => 2
      case Medium => 3
      case Hard => 4
      case VeryHard => 5
      case Extreme => 6
    }
  }

  /** The six inspector thresholds, in hundredths of a speed unit. */
  datatype SpeedThresholds = SpeedThresholds(
    veryEasy: int, easy: int, medium: int, hard: int, veryHard: int, extreme: int)

  /** The threshold of the tier whose enum value is `n`; START, GAMEOVER and
      values past EXTREME have none. */
  function ThresholdAt(t: SpeedThresholds, n: int): Option<int>
  {
    if n == 1 then Some(t.veryEasy)
    else if n == 2 then Some(t.easy)
    else if n == 3 then Some(t.medium)
    else if n == 4 then Some(t.hard)
    else if n == 5 then Some(t.veryHard)
    else if n == 6 then Some(t.extreme)
    else None
  }

  /** `Math.Round(x)` with its default midpoint rule: to the nearest integer,
      halves to the even neighbour. */
  function RoundHalfEven(x: real): (n: int)
    ensures -0.5 <= x - n as real <= 0.5
    ensures (x - n as real == 0.5 || n as real - x == 0.5) ==> n % 2 == 0
  {
    var f := x.Floor;
    var frac := x - f as real;
    if frac < 0.5 then f
    else if frac > 0.5 then f + 1
    else if f % 2 == 0 then f
    else f + 1
  }

  /** `Math.Round(speed, 2)`, expressed in hundredths. */
  function RoundToHundredths(speed: real): (r: int)
    ensures -0.005 <= speed - r as real / 100.0 <= 0.005
  {
    RoundHalfEven(speed * 100.0)
  }

  /** The if/else chain of UpdateGameMode: the first tier, VERY_EASY to
      EXTREME, whose threshold equals the rounded speed. */
  function TierForSpeed(speed: int, t: SpeedThresholds): (m: Option<EGameModes>)
    ensures m.Some? ==> 1 <= m.value.Ordinal() && ThresholdAt(t, m.value.Ordinal()) == Some(speed)
    ensures m.Some? ==> forall n :: 1 <= n < m.value.Ordinal() ==> ThresholdAt(t, n) != Some(speed)
    ensures m.None? <==> forall n :: ThresholdAt(t, n) != Some(speed)
  {
    if speed == t.veryEasy then Some(VeryEasy)
    else if speed == t.easy then Some(Easy)
    else if speed == t.medium then Some(Medium)
    else if speed == t.hard then Some(Hard)
    else if speed == t.veryHard then Some(VeryHard)
    else if speed == t.extreme then Some(Extreme)
    else None
  }

  /** The tier after UpdateGameMode: the matched tier, or the old one. */
  function UpdatedMode(current: EGameModes, speed: int, t: SpeedThresholds): (m: EGameModes)
    ensures (forall n :: ThresholdAt(t, n) != Some(speed)) ==> m == current
    ensures (exists n :: ThresholdAt(t, n) == Some(speed)) ==> 1 <= m.Ordinal() && ThresholdAt(t, m.Ordinal()) == Some(speed)
  {
    match TierForSpeed(speed, t)
    case Some(m) => m
    case None => current
  }

  /** The controller's fields: current tier, next tier (a C# enum value that
      `++` can push past EXTREME, hence an int) and the changed flag. */
  datatype ControllerState = ControllerState(current: EGameModes, next: int, changed: bool)

  /** The state Start establishes (the flag keeps its default, false). */
  const StartState := ControllerState(Start, 1, false)

  /** One Update: match the tier, then advance `next` and raise the flag when
      the expected tier has been reached. */
  function Tick(s: ControllerState, speed: int, t: SpeedThresholds): ControllerState
  {
    var current := UpdatedMode(s.current, speed, t);
    if s.next == current.Ordinal() then ControllerState(current, s.next + 1, true)
    else ControllerState(current, s.next, s.changed)
  }

  /** Successive Updates over a sequence of rounded speeds. The expected next
      tier moves up by at most one per Update and never back, and a raised
      flag stays raised. */
  function Run(s: ControllerState, speeds: seq<int>, t: SpeedThresholds): (r: ControllerState)
    ensures s.next <= r.next <= s.next + |speeds|
    ensures s.changed ==> r.changed
    decreases |speeds|
  {
    if speeds == [] then s else Run(Tick(s, speeds[0], t), speeds[1..], t)
  }

  /** A tick either advances `next` by exactly one and raises the flag (when
      the new tier is the expected one), or leaves both alone; it never clears
      the flag, and it never enters START or GAMEOVER on its own. */
  lemma TickAdvancesOrKeeps(s: ControllerState, speed: int, t: SpeedThresholds)
    ensures var r := Tick(s, speed, t);
      (r.current.Ordinal() == s.next ==> r.next == s.next + 1 && r.changed)
      && (r.current.Ordinal() != s.next ==> r.next == s.next && r.changed == s.changed)
    ensures s.changed ==> Tick(s, speed, t).changed
    ensures Tick(s, speed, t).current != s.current ==> 1 <= Tick(s, speed, t).current.Ordinal()
    ensures TierForSpeed(speed, t).None? ==> Tick(s, speed, t).current == s.current
  {
  }

  /** Exact matching: a run of speeds none of which equals a threshold (for
      instance one that jumps over a threshold) never changes the tier. */
  lemma {:induction false} NoExactHitKeepsTier(s: ControllerState, speeds: seq<int>, t: SpeedThresholds)
    requires forall i, n :: 0 <= i < |speeds| ==> ThresholdAt(t, n) != Some(speeds[i])
    ensures Run(s, speeds, t).current == s.current
    decreases |speeds|
  {
    if speeds != [] {
      assert TierForSpeed(speeds[0], t).None?;
      NoExactHitKeepsTier(Tick(s, speeds[0], t), speeds[1..], t);
    }
  }

  /** The expected next tier only moves when the speed hits exactly the
      threshold of that tier: while no speed equals it, `next` and the flag
      stay as they are, whatever other tiers are entered meanwhile. */
  lemma {:induction false} NextTierWaitsForItsThreshold(s: ControllerState, speeds: seq<int>, t: SpeedThresholds)
    requires s.current.Ordinal() != s.next
    requires forall i :: 0 <= i < |speeds| ==> ThresholdAt(t, s.next) != Some(speeds[i])
    ensures Run(s, speeds, t).next == s.next
    ensures Run(s, speeds, t).changed == s.changed
    ensures Run(s, speeds, t).current.Ordinal() != s.next
    decreases |speeds|
  {
    if speeds != [] {
      var r := Tick(s, speeds[0], t);
      assert r.current.Ordinal() != s.next by {
        if TierForSpeed(speeds[0], t).Some? {
          assert ThresholdAt(t, r.current.Ordinal()) == Some(speeds[0]);
        }
      }
      NextTierWaitsForItsThreshold(r, speeds[1..], t);
    }
  }

  /** Once `next` has been pushed past EXTREME no threshold matches it, so the
      flag is never raised again. */
  lemma PastExtremeNeverRaisesFlag(s: ControllerState, speeds: seq<int>, t: SpeedThresholds)
    requires s.next > 6
    ensures Run(s, speeds, t).next == s.next
    ensures Run(s, speeds, t).changed == s.changed
  {
    forall i | 0 <= i < |speeds|
      ensures ThresholdAt(t, s.next) != Some(speeds[i])
    {
    }
    NextTierWaitsForItsThreshold(s, speeds, t);
  }

  /** Reaching the first tier from the start state raises the flag. */
  lemma FirstTierRaisesFlag(t: SpeedThresholds)
    ensures Tick(StartState, t.veryEasy, t) == ControllerState(VeryEasy, 2, true)
  {
  }

  /** Skipping a tier: from the start state, a speed that hits EASY's
      threshold (distinct from VERY_EASY's) enters EASY but raises no flag and
      leaves `next` at VERY_EASY. */
  lemma SkippedTierRaisesNoFlag(t: SpeedThresholds)
    requires t.easy != t.veryEasy
    ensures Tick(StartState, t.easy, t) == ControllerState(Easy, 1, false)
  {
  }

  /** No monotonicity guard: a speed that equals a lower tier's threshold
      (and no earlier one) sends the tier back down. */
  lemma LowerThresholdLowersTier(s: ControllerState, t: SpeedThresholds)
    requires s.current == Hard
    requires t.easy != t.veryEasy
    ensures Tick(s, t.easy, t).current == Easy
  {
  }

  class GameModeController {
    var currentGameMode: EGameModes
    var nextGameMode: int
    var gameModeChanged: bool
    var playerSpeed: real
    const thresholds: SpeedThresholds

    function State(): ControllerState
      reads this
    {
      ControllerState(currentGameMode, nextGameMode, gameModeChanged)
    }

    /** Start: the current tier is START and the next one VERY_EASY. */
    constructor (thresholds: SpeedThresholds)
      ensures this.thresholds == thresholds
      ensures State() == StartState
    {
      this.thresholds := thresholds;
      playerSpeed := 0.0;
      gameModeChanged := false;
      currentGameMode := Start;
      nextGameMode := VeryEasy.Ordinal();
    }

    /** One frame: read the speed, match the tier, advance `next` and raise the
        flag when the expected tier was reached. `loadGameOver` says whether the
        game-over scene is requested (current tier GAMEOVER). */
    method Update(speedVertical: real) returns (loadGameOver: bool)
      modifies this
      ensures playerSpeed == speedVertical
      ensures State() == Tick(old(State()), RoundToHundredths(speedVertical), thresholds)
      ensures loadGameOver <==> currentGameMode == GameOver
    {
      playerSpeed := speedVertical;
      UpdateGameMode();
      if nextGameMode == currentGameMode.Ordinal() {
        gameModeChanged := true;
        nextGameMode := nextGameMode + 1;
      }
      loadGameOver := currentGameMode == GameOver;
    }

    /** The exact-equality match of the rounded speed against the thresholds. */
    method UpdateGameMode()
      modifies this`currentGameMode
      ensures currentGameMode == UpdatedMode(old(currentGameMode), RoundToHundredths(playerSpeed), thresholds)
    {
      var rounded := RoundToHundredths(playerSpeed);
      if rounded == thresholds.veryEasy {
        currentGameMode := VeryEasy;
      } else if rounded == thresholds.easy {
        currentGameMode := Easy;
      } else if rounded == thresholds.medium {
        currentGameMode := Medium;
      } else if rounded == thresholds.hard {
        currentGameMode := Hard;
      } else if rounded == thresholds.veryHard {
        currentGameMode := VeryHard;
      } else if rounded == thresholds.extreme {
        currentGameMode := Extreme;
      }
    }
  }
}

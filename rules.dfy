/**
 * The tunable constants of game.js and the pure decisions taken from them:
 * the field clamp, the enemy speed, the shot cooldown and reload gauge, the
 * attack-direction classification and the keyboard mapping.
 */
module Rules {

  datatype Option<T> = None | Some(value: T)

  // Tunables, in the units of the source: milliseconds for times, world
  // units for distances, world units per frame for speeds.
  const FieldSize: real := 100.0
  const SpawnInterval: int := 3000
  const ShootCooldown: int := 500
  const SlowDuration: int := 5000
  const NormalSpeed: real := 0.05
  const SlowSpeed: real := 0.02
  const AttackInterval: int := 1000
  const AttackRange: real := 2.0
  const StartingHealth: int := 10
  const PickupDistance: real := 2.0
  const MoveSpeed: real := 0.15
  const RotateSpeed: real := 0.03

  /** Math.min and Math.max on two reals. */
  function Min(a: real, b: real): real { if a <= b then a else b }
  function Max(a: real, b: real): real { if a <= b then b else a }

  function Gap(a: real, b: real): real { if a <= b then b - a else a - b }

  /** A coordinate lies inside the square playing field. */
  predicate InField(v: real) { -FieldSize / 2.0 <= v <= FieldSize / 2.0 }

  /** `Math.max(-FIELD_SIZE/2, Math.min(FIELD_SIZE/2, v))`: the point of the
      field's extent nearest to `v`. */
  function Clamp(v: real): (r: real)
    ensures InField(r)
    ensures InField(v) ==> r == v
    ensures forall y :: InField(y) ==> Gap(r, v) <= Gap(y, v)
  {
    Max(-FieldSize / 2.0, Min(FieldSize / 2.0, v))
  }

  /** The speed ternary of updateEnemies: enemies crawl while the slow effect
      is on and walk at the normal pace otherwise. */
  function EnemySpeed(slow: bool): (speed: real)
    ensures 0.0 < speed <= NormalSpeed
    ensures slow <==> speed < NormalSpeed
    ensures slow ==> speed == SlowSpeed
  {
    if slow then SlowSpeed else NormalSpeed
  }

  /** The gate of onMouseClick: a click this soon after the last accepted
      shot is ignored. */
  predicate CoolingDown(now: int, lastShot: int) {
    now - lastShot < ShootCooldown
  }

  /** The cooldown gate is strict: a click exactly ShootCooldown after the
      last accepted shot goes through, one millisecond earlier it does not,
      and once a click would go through, every later one would too. */
  lemma CooldownBoundary(now: int, lastShot: int, later: int)
    ensures CoolingDown(lastShot + ShootCooldown - 1, lastShot)
    ensures !CoolingDown(lastShot + ShootCooldown, lastShot)
    ensures !CoolingDown(now, lastShot) && now <= later ==> !CoolingDown(later, lastShot)
  {
  }

  /** The reload gauge of updateHUD: the fraction of the cooldown that has
      elapsed, capped at 1 by `Math.min` (and, as written, not floored at 0). */
  function ReloadProgress(now: int, lastShot: int): (progress: real)
    ensures progress <= 1.0
    ensures progress == 1.0 <==> !CoolingDown(now, lastShot)
    ensures CoolingDown(now, lastShot) ==>
              progress * (ShootCooldown as real) == (now - lastShot) as real
    ensures lastShot <= now ==> 0.0 <= progress
  {
    Min(((now - lastShot) as real) / (ShootCooldown as real), 1.0)
  }

  /** The four attack bars of the HUD. */
  datatype Bar = Top | Left | Right | Bottom

  // Math.PI / 4 and 3 * Math.PI / 4, kept abstract.
  const QuarterPi: real
  const ThreeQuarterPi: real

  /** showAttackDirection: `angle` is the angle between the player's world
      direction and the direction to the enemy, `cross` the y component of
      their cross product. Exactly one of the four bands applies. */
  function AttackBars(angle: real, cross: real): (bars: seq<Bar>)
    ensures bars == [Bottom] <==> angle < QuarterPi
    ensures bars == [Top, Left, Right, Bottom] <==> QuarterPi <= angle && ThreeQuarterPi < angle
    ensures bars == [Right] <==> QuarterPi <= angle <= ThreeQuarterPi && cross > 0.0
    ensures bars == [Left] <==> QuarterPi <= angle <= ThreeQuarterPi && cross <= 0.0
  {
    if angle < QuarterPi then [Bottom]
    else if angle > ThreeQuarterPi then [Top, Left, Right, Bottom]
    else if cross > 0.0 then [Right]
    else [Left]
  }

  /** The Bottom bar flashes both when the enemy is within 45 degrees of the
      player's world direction and when it is more than 135 degrees away
      from it: the two extreme bands share it, and only they do. */
  lemma BottomBarBands(angle: real, cross: real)
    ensures Bottom in AttackBars(angle, cross) <==> angle < QuarterPi || ThreeQuarterPi < angle
    ensures |AttackBars(angle, cross)| == 1 <==> angle < QuarterPi || angle <= ThreeQuarterPi
  {
    var bars := AttackBars(angle, cross);
    if angle < QuarterPi {
      assert bars == [Bottom];
    } else if angle > ThreeQuarterPi {
      assert bars[3] == Bottom;
    } else {
      assert bars == [Right] || bars == [Left];
    }
  }

  /** The six movement intents the keyboard drives. */
  datatype Intent = MoveForward | MoveBackward | StrafeLeft | StrafeRight | RotateLeft | RotateRight

  /** The `event.code` switch shared by onKeyDown and onKeyUp. The S key
      drives moveForward and the W key moveBackward; any other code is
      ignored. */
  function IntentOf(code: string): (intent: Option<Intent>)
    ensures intent.Some? <==> code in {"KeyS", "KeyW", "KeyA", "KeyD", "KeyQ", "KeyE"}
  {
    match code
    case "KeyS" => Some(MoveForward)
    case "KeyW" => Some(MoveBackward)
    case "KeyA" => Some(RotateLeft)
    case "KeyD" => Some(RotateRight)
    case "KeyQ" => Some(StrafeLeft)
    case "KeyE" => Some(StrafeRight)
    case _ => None
  }

  /** The one key code that drives each intent. */
  function KeyFor(intent: Intent): string {
    match intent
    case MoveForward => "KeyS"
    case MoveBackward => "KeyW"
    case RotateLeft => "KeyA"
    case RotateRight => "KeyD"
    case StrafeLeft => "KeyQ"
    case StrafeRight => "KeyE"
  }

  /** Each intent has exactly one key: KeyFor inverts IntentOf. */
  lemma KeyForInvertsIntentOf(code: string, intent: Intent)
    ensures IntentOf(KeyFor(intent)) == Some(intent)
    ensures IntentOf(code) == Some(intent) ==> code == KeyFor(intent)
  {
    match intent
    case MoveForward =>
    case MoveBackward =>
    case RotateLeft =>
    case RotateRight =>
    case StrafeLeft =>
    case StrafeRight =>
  }
}

/** The characters of the game: the player and the patrolling enemies.
    Coordinates are integers; x grows to the right and y grows upward from the floor. */
module Characters {

  /** Facing directions (`Direction.LEFT` and `Direction.RIGHT`). */
  const LEFT: int := -1
  const RIGHT: int := 1

  /** A facing is one of the two directions: a unit step, so that turning (`facing *= -1`)
      keeps it one. */
  function IsDirection(d: int): (b: bool)
    ensures b <==> Abs(d) == 1
    ensures b ==> -d != d && Abs(-d) == 1
  {
    d == LEFT || d == RIGHT
  }

  /** Default speed of a character, the player's own speed and its starting cloak. */
  const CHARACTER_SPEED: int := 7
  const PLAYER_SPEED: int := 15
  const FULL_CLOAK: real := 100.0

  /** Defaults of a patrolling enemy: how far it sees and how far it walks. */
  const PATROL_VIEW_DISTANCE: int := 300
  const PATROL_DISTANCE: int := 300

  /** An enemy only notices a player whose height differs from its own by less than this. */
  const SIGHT_BAND: int := 60

  /** Which sprite an enemy shows: its normal image or its "detected" one. */
  datatype Sprite = Normal | Detected

  /** The part of the player that the simulation changes. */
  datatype PlayerState = PlayerState(
    x: int, y: int, dy: int, facing: int, jumping: bool, visible: bool, cloak: real)

  class Player {
    var x: int
    var y: int
    var dy: int
    var facing: int
    var jumping: bool
    var visible: bool
    var cloak: real
    const speed: int
    const width: nat
    const height: nat

    function State(): PlayerState
      reads this
    {
      PlayerState(x, y, dy, facing, jumping, visible, cloak)
    }

    /** A new player: a character with speed 15 that faces right, is visible and has a full cloak. */
    constructor (width: nat, height: nat, x: int, y: int)
      ensures this.width == width && this.height == height && speed == PLAYER_SPEED
      ensures State() == PlayerState(x, y, 0, RIGHT, false, true, FULL_CLOAK)
    {
      this.x, this.y := x, y;
      this.width, this.height := width, height;
      speed := PLAYER_SPEED;
      facing := RIGHT;
      jumping := false;
      dy := 0;
      visible := true;
      cloak := FULL_CLOAK;
    }

    /** `Player(image)` with the default position, the origin. */
    constructor Default(width: nat, height: nat)
      ensures this.width == width && this.height == height && speed == PLAYER_SPEED
      ensures State() == PlayerState(0, 0, 0, RIGHT, false, true, FULL_CLOAK)
    {
      this.x, this.y := 0, 0;
      this.width, this.height := width, height;
      speed := PLAYER_SPEED;
      facing := RIGHT;
      jumping := false;
      dy := 0;
      visible := true;
      cloak := FULL_CLOAK;
    }
  }

  function Abs(n: int): nat {
    if n < 0 then -n else n
  }

  /** `lo < v < hi`: v lies strictly inside the open interval. */
  predicate Inside(v: int, lo: int, hi: int) {
    lo < v < hi
  }

  /** The verdict of `Enemy.can_see`: the enemy at (ex, ey) sees the player when the player is
      visible, its height is within the sight band, and its left or right edge lies strictly
      inside the stretch of length viewDistance in front of the enemy. */
  function Sees(ex: int, ey: int, facing: int, viewDistance: int, p: PlayerState, pw: int): (seen: bool)
    ensures !p.visible ==> !seen
    ensures Abs(p.y - ey) >= SIGHT_BAND ==> !seen
    ensures !IsDirection(facing) ==> !seen
    ensures p.visible && Abs(p.y - ey) < SIGHT_BAND && facing == RIGHT ==>
              (seen <==> Inside(p.x, ex, ex + viewDistance) || Inside(p.x + pw, ex, ex + viewDistance))
    ensures p.visible && Abs(p.y - ey) < SIGHT_BAND && facing == LEFT ==>
              (seen <==> Inside(p.x, ex - viewDistance, ex) || Inside(p.x + pw, ex - viewDistance, ex))
  {
    if p.visible && Abs(p.y - ey) < SIGHT_BAND then
      if facing == LEFT then
        (p.x < ex && p.x > ex - viewDistance) || (p.x + pw < ex && p.x + pw > ex - viewDistance)
      else if facing == RIGHT then
        (p.x > ex && p.x < ex + viewDistance) || (p.x + pw > ex && p.x + pw < ex + viewDistance)
      else
        false
    else
      false
  }

  /** `can_see` falls through to its last lines (where it restores the normal sprite) exactly
      when the player is hidden, too far up or down, or the facing is neither direction. */
  predicate FallsThrough(ey: int, facing: int, p: PlayerState) {
    !(p.visible && Abs(p.y - ey) < SIGHT_BAND && IsDirection(facing))
  }

  /** Mirroring the level (x becomes -x) turns a left-facing enemy into a right-facing one:
      the player's right edge becomes its left edge. */
  lemma SeesMirror(ex: int, ey: int, viewDistance: int, p: PlayerState, pw: int)
    ensures Sees(ex, ey, LEFT, viewDistance, p, pw)
         == Sees(-ex, ey, RIGHT, viewDistance, p.(x := -(p.x + pw)), pw)
  {
  }

  /** Seeing further never hides a player that was seen. */
  lemma SeesMonotone(ex: int, ey: int, facing: int, vd1: int, vd2: int, p: PlayerState, pw: int)
    requires vd1 <= vd2
    ensures Sees(ex, ey, facing, vd1, p, pw) ==> Sees(ex, ey, facing, vd2, p, pw)
  {
  }

  /** An enemy at x=500 facing right with view distance 300 sees a visible player at x=600
      standing at the same height. */
  lemma SeesExample(p: PlayerState, pw: nat)
    requires p.x == 600 && p.y == 200 && p.visible
    ensures Sees(500, 200, RIGHT, 300, p, pw)
  {
  }

  /** The part of a patrolling enemy that `move` changes. */
  datatype Patrol = Patrol(x: int, facing: int)

  /** One `PatrollingEnemy.move`: turn around when outside [left, right + width], then walk one
      step of `speed` in the direction faced. */
  function PatrolStep(s: Patrol, left: int, right: int, width: int, speed: int): (r: Patrol)
    ensures IsDirection(s.facing) ==> IsDirection(r.facing)
    ensures IsDirection(s.facing) ==>
              (r.facing != s.facing <==> s.x < left || s.x > right + width)
    ensures r.x - s.x == r.facing * speed
    ensures IsDirection(s.facing) ==> r.x == s.x + speed || r.x == s.x - speed
  {
    var facing := if s.x < left || s.x > right + width then -s.facing else s.facing;
    Patrol(s.x + facing * speed, facing)
  }

  /** `n` consecutive patrol steps. */
  function PatrolSteps(s: Patrol, n: nat, left: int, right: int, width: int, speed: int): Patrol
  {
    if n == 0 then s else PatrolStep(PatrolSteps(s, n - 1, left, right, width, speed), left, right, width, speed)
  }

  /** What keeps a patrol in its stretch: at most one step beyond either end, and outside
      the stretch only while still walking away from it. */
  predicate PatrolInvariant(s: Patrol, left: int, right: int, width: int, speed: int) {
    && IsDirection(s.facing)
    && left - speed <= s.x <= right + width + speed
    && (s.x < left ==> s.facing == LEFT)
    && (s.x > right + width ==> s.facing == RIGHT)
  }

  lemma PatrolStepKeepsInvariant(s: Patrol, left: int, right: int, width: int, speed: int)
    requires speed > 0 && left <= right + width
    requires PatrolInvariant(s, left, right, width, speed)
    ensures PatrolInvariant(PatrolStep(s, left, right, width, speed), left, right, width, speed)
  {
  }

  /** From the state its constructor leaves (at the left end, facing left), a patrolling enemy
      with positive speed stays within one step of its patrol stretch forever. */
  lemma {:induction false} PatrolStaysInBounds(x0: int, distance: int, width: nat, speed: int, n: nat)
    requires speed > 0 && distance >= 0
    ensures var s := PatrolSteps(Patrol(x0, LEFT), n, x0, x0 + distance, width, speed);
            IsDirection(s.facing) && x0 - speed <= s.x <= x0 + distance + width + speed
  {
    PatrolStepsKeepInvariant(Patrol(x0, LEFT), n, x0, x0 + distance, width, speed);
  }

  lemma {:induction false} PatrolStepsKeepInvariant(s: Patrol, n: nat, left: int, right: int, width: int, speed: int)
    requires speed > 0 && left <= right + width
    requires PatrolInvariant(s, left, right, width, speed)
    ensures PatrolInvariant(PatrolSteps(s, n, left, right, width, speed), left, right, width, speed)
  {
    if n > 0 {
      PatrolStepsKeepInvariant(s, n - 1, left, right, width, speed);
      PatrolStepKeepsInvariant(PatrolSteps(s, n - 1, left, right, width, speed), left, right, width, speed);
    }
  }

  /** Patrol stretch [1000, 1300], width 50, speed 7: at x=1310 facing right the enemy is still
      inside [1000, 1350], so it keeps going right; at x=1351 it turns around. */
  lemma PatrolExamples()
    ensures PatrolStep(Patrol(1310, RIGHT), 1000, 1300, 50, 7) == Patrol(1317, RIGHT)
    ensures PatrolStep(Patrol(1351, RIGHT), 1000, 1300, 50, 7) == Patrol(1344, LEFT)
  {
  }

  /** A patrolling enemy; the fields of `Character` and `Enemy` that never change are constants. */
  class PatrollingEnemy {
    var x: int
    var facing: int
    var image: Sprite
    const y: int
    const dy: int
    const jumping: bool
    const speed: int
    const width: nat
    const height: nat
    const viewDistance: int
    const hasDetectedImage: bool
    const patrolLeft: int
    const patrolRight: int

    function Position(): Patrol
      reads this
    {
      Patrol(x, facing)
    }

    /** A new enemy at (x, y): it faces left, is not jumping, shows its normal sprite and patrols
        from its starting x to `patrolDistance` further right. */
    constructor (width: nat, height: nat, x: int, y: int, speed: int, viewDistance: int,
                 patrolDistance: int, hasDetectedImage: bool)
      ensures this.x == x && this.y == y && this.speed == speed
      ensures this.width == width && this.height == height
      ensures this.viewDistance == viewDistance && this.hasDetectedImage == hasDetectedImage
      ensures facing == LEFT && !jumping && dy == 0 && image == Normal
      ensures patrolLeft == x && patrolRight == x + patrolDistance
    {
      this.x, this.y, this.speed := x, y, speed;
      this.width, this.height := width, height;
      facing := LEFT;
      jumping := false;
      dy := 0;
      this.viewDistance := viewDistance;
      this.hasDetectedImage := hasDetectedImage;
      image := Normal;
      patrolLeft := x;
      patrolRight := x + patrolDistance;
    }

    /** `PatrollingEnemy(image, x=x, y=y, detected_image=...)`, as the game builds its enemies:
        the default speed, view distance and patrol distance. */
    constructor Default(width: nat, height: nat, x: int, y: int, hasDetectedImage: bool)
      ensures this.x == x && this.y == y && speed == CHARACTER_SPEED
      ensures this.width == width && this.height == height
      ensures viewDistance == PATROL_VIEW_DISTANCE && this.hasDetectedImage == hasDetectedImage
      ensures facing == LEFT && !jumping && dy == 0 && image == Normal
      ensures patrolLeft == x && patrolRight == x + PATROL_DISTANCE
    {
      this.x, this.y, speed := x, y, CHARACTER_SPEED;
      this.width, this.height := width, height;
      facing := LEFT;
      jumping := false;
      dy := 0;
      viewDistance := PATROL_VIEW_DISTANCE;
      this.hasDetectedImage := hasDetectedImage;
      image := Normal;
      patrolLeft := x;
      patrolRight := x + PATROL_DISTANCE;
    }

    /** Whether this enemy, as it stands now, sees the player. */
    predicate Spots(player: Player)
      reads this, player
    {
      Sees(x, y, facing, viewDistance, player.State(), player.width)
    }

    /** `PatrollingEnemy.move`: one patrol step. */
    method Move()
      modifies this`x, this`facing
      ensures Position() == PatrolStep(old(Position()), patrolLeft, patrolRight, width, speed)
    {
      if x < patrolLeft || x > patrolRight + width {
        facing := -facing;
      }
      x := x + facing * speed;
    }

    /** `Enemy.can_see`: the sight test, which also restores the normal sprite whenever it
        falls through to its last lines. */
    method CanSee(player: Player) returns (seen: bool)
      modifies this`image
      ensures seen == Spots(player)
      ensures image == if FallsThrough(y, facing, player.State()) then Normal else old(image)
    {
      if player.visible {
        if Abs(player.y - y) < SIGHT_BAND {
          if facing == LEFT {
            return (player.x < x && player.x > x - viewDistance)
                || (player.x + player.width < x && player.x + player.width > x - viewDistance);
          } else if facing == RIGHT {
            return (player.x > x && player.x < x + viewDistance)
                || (player.x + player.width > x && player.x + player.width < x + viewDistance);
          }
        }
      }
      if image != Normal {
        image := Normal;
      }
      return false;
    }
  }
}

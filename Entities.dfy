/**
 * The entity state shared by every class of components.py (`Entity.__init__`, lines 10-22, plus the
 * fields the subclasses add), the class-level `bounces` flags and the data a collision hands to a
 * reaction hook.
 */
module Entities {
  import opened Wrappers
  import opened Vectors
  import opened Geometry

  /** An entity's identity: its index in the entity store. */
  type Handle = nat

  /** The exact Python class of an entity; reaction hooks compare exact classes, never subclasses. */
  datatype Kind = Player | Box | Brick | GrassBrick | SlidingBrick | SlidingBrickBouncer | Lava | Goal | Enemy

  /** The class attribute `bounces`. */
  function Bounces(k: Kind): bool {
    match k
    case Player | Box | Brick | GrassBrick | SlidingBrick | Lava => true
    case SlidingBrickBouncer | Goal | Enemy => false
  }

  /** Classes that inherit `Brick.handle_collision` and `Brick.update`. */
  predicate IsBrick(k: Kind) {
    k == Brick || k == GrassBrick || k == SlidingBrickBouncer || k == Lava
  }

  /**
   * One entity. `initPos` is a Brick's spawn point, `initY` a SlidingBrick's fixed row, and
   * `nextLevel`, `level`, `ground`, `lastOnGround`, `jumping` are the Player's own fields; other
   * classes carry them unused.
   */
  datatype Ent = Ent(
    kind: Kind,
    rect: Rect,
    vel: Vec2,
    acc: Vec2,
    mass: real,
    onGround: bool,
    collided: seq<Handle>,
    remove: bool,
    initPos: (int, int),
    initY: int,
    switched: bool,
    nextLevel: bool,
    level: int,
    ground: Option<Handle>,
    lastOnGround: int,
    jumping: bool)

  /**
   * `b` is `a` after physics: same class, mass, size, spawn data and level; only motion and flags
   * may differ.
   */
  predicate SameBody(a: Ent, b: Ent) {
    a.kind == b.kind && a.mass == b.mass && a.initPos == b.initPos && a.initY == b.initY &&
    a.rect.w == b.rect.w && a.rect.h == b.rect.h && a.level == b.level
  }

  /**
   * A hook's change to its own entity: the same body, the pass bookkeeping and jump state
   * untouched, and a removal flag never cleared.
   */
  predicate HookKeeps(a: Ent, b: Ent) {
    SameBody(a, b) && a.collided == b.collided && a.onGround == b.onGround &&
    a.jumping == b.jumping && a.lastOnGround == b.lastOnGround && (a.remove ==> b.remove)
  }

  /** `b` differs from `a` at most in the `remove` and `nextLevel` flags, and `remove` is never cleared. */
  predicate FlagsOnly(a: Ent, b: Ent) {
    SameBody(a, b) && a.rect == b.rect && a.vel == b.vel && a.acc == b.acc &&
    a.onGround == b.onGround && a.collided == b.collided && a.switched == b.switched &&
    a.level == b.level && a.ground == b.ground && a.lastOnGround == b.lastOnGround &&
    a.jumping == b.jumping && (a.remove ==> b.remove)
  }

  /** A Brick at rest on its spawn point. */
  predicate AtSpawn(e: Ent) {
    e.rect.x == e.initPos.0 && e.rect.y == e.initPos.1 && e.vel == ZERO && e.acc == ZERO
  }

  /** A sliding platform's motion: no vertical speed, horizontal speed one either way. */
  predicate Sliding(e: Ent) {
    e.vel.y == 0.0 && (e.vel.x == 1.0 || e.vel.x == -1.0)
  }

  /** Which axis an overlap is resolved along; `AxisBoth` is a corner clip. */
  datatype Axis = AxisX | AxisY | AxisBoth

  /** Which side of the other entity was hit. */
  datatype Dir = Left | Right | Top | Bottom | Both

  /** The `collision_data` dictionary handed to `handle_collision`. */
  datatype Collision = Collision(inter: Rect, bounce: bool, axis: Axis, dir: Dir)

  /** `opposite_dirs` (components.py:87-93). */
  function Opposite(d: Dir): Dir {
    match d
    case Left => Right
    case Right => Left
    case Top => Bottom
    case Bottom => Top
    case Both => Both
  }

  /**
   * The collision as the other entity sees it (components.py:96-101): the same overlap and axis,
   * always bouncing, and the sides swapped; a corner stays a corner.
   */
  function Mirror(c: Collision): (m: Collision)
    ensures m.inter == c.inter && m.axis == c.axis && m.bounce
    ensures m.dir == Both <==> c.dir == Both
    ensures m.dir != Both ==> m.dir != c.dir
    ensures (c.dir == Left <==> m.dir == Right) && (c.dir == Right <==> m.dir == Left)
    ensures (c.dir == Top <==> m.dir == Bottom) && (c.dir == Bottom <==> m.dir == Top)
  {
    Collision(c.inter, true, c.axis, Opposite(c.dir))
  }

  /** Mirroring twice gives back the original collision, marked as bouncing. */
  lemma MirrorInvolutive(c: Collision)
    ensures Opposite(Opposite(c.dir)) == c.dir
    ensures Mirror(Mirror(c)) == c.(bounce := true)
  {
  }
}

/**
 * The per-frame update of each entity class: `Entity.update`/`add_gravity`
 * (components.py:103-121) and the overrides of Player, Box, Brick and SlidingBrick.
 * `conv` is pygame's conversion of a float coordinate stored into a `Rect`; it is left abstract.
 */
module Updates {
  import opened Wrappers
  import opened Vectors
  import opened Geometry
  import opened Settings
  import opened Entities
  import opened Behaviours
  import opened Collisions

  /** The state of the arrow keys and the space bar this frame. */
  datatype Keys = Keys(left: bool, right: bool, space: bool)

  function MinReal(a: real, b: real): real { if a < b then a else b }

  /** `Entity.add_gravity` (components.py:103-110): a lighter pull while moving up. */
  function AddGravity(e: Ent): (r: Ent)
    ensures r == e.(acc := r.acc) && r.acc.x == e.acc.x
    ensures e.mass > 0.0 ==> r.acc.y > e.acc.y
  {
    e.(acc := e.acc.(y := e.acc.y + (if e.vel.y < 0.0 then GRAVITY_JUMPING else GRAVITY) * e.mass))
  }

  /**
   * components.py:114-119: `vel += acc / mass`, clamp only the downward speed, then move by the
   * new velocity; each coordinate goes through the Rect's conversion.
   */
  function Integrate(e: Ent, conv: real -> int): (r: Ent)
    requires e.mass > 0.0
    ensures SameBody(r, e) && r.acc == e.acc && r.collided == e.collided && r.ground == e.ground
    ensures r.onGround == e.onGround && r.remove == e.remove && r.jumping == e.jumping
    ensures r.nextLevel == e.nextLevel && r.switched == e.switched && r.lastOnGround == e.lastOnGround
    ensures r.vel.x == e.vel.x + e.acc.x / e.mass
    ensures r.vel.y == MinReal(e.vel.y + e.acc.y / e.mass, TERMINAL_VEL)
    ensures r.rect.x == conv(e.rect.x as real + r.vel.x) && r.rect.y == conv(e.rect.y as real + r.vel.y)
  {
    var v := Add(e.vel, Scale(e.acc, 1.0 / e.mass));
    var v' := if v.y > TERMINAL_VEL then v.(y := TERMINAL_VEL) else v;
    e.(vel := v', rect := e.rect.(x := conv(e.rect.x as real + v'.x), y := conv(e.rect.y as real + v'.y)))
  }

  /**
   * `Entity.update` (components.py:112-121) for entity `s`: gravity unless the class disables it,
   * integrate, resolve collisions against `view`, and clear the acceleration.
   */
  function BaseUpdate(ents: seq<Ent>, s: Handle, view: seq<Handle>, gravity: bool, conv: real -> int): (r: seq<Ent>)
    requires s < |ents| && InStore(view, |ents|) && ents[s].mass > 0.0
    ensures |r| == |ents| && r[s].acc == ZERO
  {
    var e := if gravity then AddGravity(ents[s]) else ents[s];
    var p := HandleCollisions(ents[s := Integrate(e, conv)], s, view);
    p.ents[s := p.ents[s].(acc := ZERO)]
  }

  /** `Player.handle_keys` (components.py:228-243): walking, and the jump / long-jump state machine. */
  function HandleKeys(e: Ent, keys: Keys): (r: Ent)
    ensures r == e.(acc := r.acc, jumping := r.jumping, lastOnGround := r.lastOnGround)
    ensures keys.left == keys.right ==> r.acc.x == e.acc.x
    ensures e.jumping ==> r.jumping
    ensures r.jumping && !e.jumping ==> keys.space && e.lastOnGround < COYOTE && r.acc.y == -JUMP_STRENGTH * e.mass
    ensures !keys.space ==> r.acc.y == e.acc.y && r.jumping == e.jumping
    ensures !keys.space && e.jumping ==> r.lastOnGround > LONG_JUMP
    ensures keys.space ==> r.lastOnGround == e.lastOnGround
  {
    var a1 := if keys.left then e.acc.(x := e.acc.x - PLAYER_SPEED * e.mass) else e.acc;
    var a2 := if keys.right then a1.(x := a1.x + PLAYER_SPEED * e.mass) else a1;
    var takeOff := keys.space && !e.jumping && e.lastOnGround < COYOTE;
    var lift := keys.space && e.jumping && e.lastOnGround < LONG_JUMP;
    var ay := if takeOff then -JUMP_STRENGTH * e.mass else if lift then a2.y - JUMP_STRENGTH * e.mass / 15.0 else a2.y;
    e.(acc := a2.(y := ay), jumping := e.jumping || takeOff,
       lastOnGround := if !keys.space && e.jumping then LONG_JUMP + 1 else e.lastOnGround)
  }

  /** The speed friction pulls the player towards: its ground's, or zero (components.py:207-210). */
  function TargetVel(ents: seq<Ent>, e: Ent): (v: real)
    requires e.ground.Some? ==> e.ground.value < |ents|
    ensures e.ground.None? ==> v == 0.0
    ensures e.ground.Some? ==> v == ents[e.ground.value].vel.x
  {
    if e.ground.Some? then ents[e.ground.value].vel.x else 0.0
  }

  /** components.py:202-211: keys, then friction towards the target speed. */
  function PlayerDrive(ents: seq<Ent>, e: Ent, keys: Keys): (r: Ent)
    requires e.ground.Some? ==> e.ground.value < |ents|
    ensures r == HandleKeys(e, keys).(acc := r.acc) && r.acc.y == HandleKeys(e, keys).acc.y
    ensures e.mass > 0.0 && HandleKeys(e, keys).acc.x == 0.0 && e.vel.x == TargetVel(ents, e) ==> r.acc.x == 0.0
  {
    var e1 := HandleKeys(e, keys);
    var friction := if e1.acc.x == 0.0 then GROUND_FRICT else MOVING_FRICT;
    e1.(acc := e1.acc.(x := e1.acc.x + (TargetVel(ents, e) - e1.vel.x) * friction * e1.mass))
  }

  /**
   * components.py:215-226: landing resets the coyote counter and ends the jump; otherwise the
   * counter grows. The source clears a misspelled attribute there, so `ground` is left as it was.
   */
  function Settle(e: Ent): (r: Ent)
    ensures r == e.(lastOnGround := r.lastOnGround, jumping := r.jumping)
    ensures e.onGround ==> r.lastOnGround == 0 && !r.jumping
    ensures !e.onGround ==> r.lastOnGround == e.lastOnGround + 1 && r.jumping == e.jumping
  {
    if e.onGround then e.(lastOnGround := 0, jumping := false)
    else e.(lastOnGround := e.lastOnGround + 1)
  }

  /** `Player.update` (components.py:201-226). */
  function PlayerUpdate(ents: seq<Ent>, s: Handle, view: seq<Handle>, keys: Keys, conv: real -> int): (r: seq<Ent>)
    requires s < |ents| && InStore(view, |ents|) && ents[s].mass > 0.0
    requires ents[s].ground.Some? ==> ents[s].ground.value < |ents|
    ensures |r| == |ents|
  {
    var after := BaseUpdate(ents[s := PlayerDrive(ents, ents[s], keys)], s, view, true, conv);
    after[s := Settle(after[s])]
  }

  /** `Box.update` (components.py:250-252): friction against its own horizontal speed. */
  function BoxDrive(e: Ent): (r: Ent)
    ensures r == e.(acc := r.acc) && r.acc.y == e.acc.y
    ensures e.mass > 0.0 && e.vel.x > 0.0 ==> r.acc.x < e.acc.x
    ensures e.mass > 0.0 && e.vel.x < 0.0 ==> r.acc.x > e.acc.x
    ensures e.vel.x == 0.0 ==> r.acc.x == e.acc.x
  {
    e.(acc := e.acc.(x := e.acc.x - e.vel.x * GROUND_FRICT * e.mass))
  }

  /** `Brick.update` (components.py:265-269): re-anchor, then let others bounce off. */
  function BrickUpdate(ents: seq<Ent>, s: Handle, view: seq<Handle>): (r: seq<Ent>)
    requires s < |ents| && InStore(view, |ents|)
    ensures |r| == |ents|
  {
    HandleCollisions(ents[s := Anchor(ents[s])], s, view).ents
  }

  /** components.py:298-303: no vertical speed, horizontal speed forced to one, no acceleration. */
  function SlidingDrive(e: Ent): (r: Ent)
    ensures r == e.(vel := r.vel, acc := ZERO)
    ensures Sliding(r) && (r.vel.x < 0.0 <==> e.vel.x < 0.0)
  {
    e.(vel := Vec2(if e.vel.x < 0.0 then -1.0 else 1.0, 0.0), acc := ZERO)
  }

  /** `SlidingBrick.update` (components.py:295-305): no gravity, and back onto its row afterwards. */
  function SlidingUpdate(ents: seq<Ent>, s: Handle, view: seq<Handle>, conv: real -> int): (r: seq<Ent>)
    requires s < |ents| && InStore(view, |ents|) && ents[s].mass > 0.0
    ensures |r| == |ents|
  {
    var after := BaseUpdate(ents[s := SlidingDrive(ents[s])], s, view, false, conv);
    after[s := after[s].(rect := after[s].rect.(y := after[s].initY))]
  }

  /** `item.update(view)`, dispatched on the exact class of entity `s`. */
  function Update(ents: seq<Ent>, s: Handle, view: seq<Handle>, keys: Keys, conv: real -> int): (r: seq<Ent>)
    requires s < |ents| && InStore(view, |ents|) && ents[s].mass > 0.0
    requires ents[s].ground.Some? ==> ents[s].ground.value < |ents|
    ensures |r| == |ents|
  {
    match ents[s].kind
    case Player => PlayerUpdate(ents, s, view, keys, conv)
    case Box => BaseUpdate(ents[s := BoxDrive(ents[s])], s, view, true, conv)
    case Brick | GrassBrick | SlidingBrickBouncer | Lava => BrickUpdate(ents, s, view)
    case SlidingBrick => SlidingUpdate(ents, s, view, conv)
    case Goal | Enemy => BaseUpdate(ents, s, view, true, conv)
  }
}

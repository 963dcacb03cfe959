/**
 * The per-class reaction hooks `handle_collision` of components.py. A hook may change its own
 * entity and the entity it collided with; it returns both.
 */
module Behaviours {
  import opened Wrappers
  import opened Vectors
  import opened Settings
  import opened Entities
  import opened Geometry

  /** `Brick.handle_collision` (components.py:261-264): back to the spawn point, at rest. */
  function Anchor(e: Ent): (r: Ent)
    ensures HookKeeps(e, r) && r.ground == e.ground
    ensures r.remove == e.remove && r.switched == e.switched && r.nextLevel == e.nextLevel
    ensures AtSpawn(r)
  {
    e.(vel := ZERO, acc := ZERO, rect := e.rect.(x := e.initPos.0, y := e.initPos.1))
  }

  /** Reverses the horizontal speed. */
  function Flip(e: Ent): Ent {
    e.(vel := e.vel.(x := -e.vel.x))
  }

  /**
   * `Player.handle_collision` (components.py:188-196): an Enemy is stomped when the player was
   * airborne at the end of its previous pass, otherwise it kills the player; a top contact with
   * anything else makes that entity the player's ground.
   */
  function PlayerReact(me: Ent, other: Ent, otherH: Handle, c: Collision): (r: (Ent, Ent))
    ensures HookKeeps(me, r.0) && r.0.rect == me.rect
    ensures r.0.ground == me.ground || r.0.ground == Some(otherH)
    ensures FlagsOnly(other, r.1) && r.1.nextLevel == other.nextLevel
    ensures r.0.remove <==> me.remove || (other.kind == Enemy && me.onGround)
    ensures r.1.remove <==> other.remove || (other.kind == Enemy && !me.onGround)
    ensures r.0.vel == (if other.kind == Enemy && !me.onGround then me.vel.(y := -JUMP_STRENGTH) else me.vel)
    ensures r.0.ground == (if other.kind != Enemy && c.dir == Top then Some(otherH) else me.ground)
    ensures r.0.acc == me.acc && r.0.switched == me.switched && r.0.nextLevel == me.nextLevel
  {
    if other.kind == Enemy then
      if !me.onGround then (me.(vel := me.vel.(y := -JUMP_STRENGTH)), other.(remove := true))
      else (me.(remove := true), other)
    else if c.dir == Top then (me.(ground := Some(otherH)), other)
    else (me, other)
  }

  /**
   * `SlidingBrick.handle_collision` (components.py:283-294): a bouncer reverses the platform and
   * puts it flush against the bouncer; any other horizontal bounce only reverses it.
   */
  function SlidingReact(me: Ent, other: Ent, c: Collision): (r: Ent)
    ensures r == me.(vel := r.vel, rect := r.rect, switched := r.switched)
    ensures r.rect == me.rect.(x := r.rect.x) && r.vel.y == me.vel.y
    ensures r.vel.x == me.vel.x || r.vel.x == -me.vel.x
    ensures other.kind == SlidingBrickBouncer ==>
      r.vel.x == -me.vel.x && r.switched &&
      r.rect.x == (if me.rect.x < other.rect.x then other.rect.x - me.rect.w else other.rect.Right())
    ensures other.kind != SlidingBrickBouncer ==>
      r.rect == me.rect && r.switched == me.switched &&
      r.vel.x == (if c.axis == AxisX && c.bounce then -me.vel.x else me.vel.x)
  {
    if other.kind == SlidingBrickBouncer then
      var flipped := Flip(me).(switched := true);
      if me.rect.x < other.rect.x then flipped.(rect := me.rect.(x := other.rect.x - me.rect.w))
      else flipped.(rect := me.rect.(x := other.rect.Right()))
    else if c.axis == AxisX && c.bounce then Flip(me)
    else me
  }

  /**
   * `Enemy.handle_collision` (components.py:358-367): only exact Brick and GrassBrick count; on top
   * of one the enemy turns round when it sticks out past either edge, any other contact turns it.
   */
  function EnemyReact(me: Ent, other: Ent, c: Collision): (r: Ent)
    ensures r == me || r == Flip(me)
    ensures r.rect == me.rect
    ensures other.kind != Brick && other.kind != GrassBrick ==> r == me
    ensures (other.kind == Brick || other.kind == GrassBrick) && c.dir == Top ==>
      r == (if me.rect.x < other.rect.x || me.rect.Right() > other.rect.Right() then Flip(me) else me)
    ensures (other.kind == Brick || other.kind == GrassBrick) && c.dir != Top ==> r == Flip(me)
  {
    if other.kind != Brick && other.kind != GrassBrick then me
    else if c.dir == Top then
      if me.rect.x < other.rect.x || me.rect.Right() > other.rect.Right() then Flip(me) else me
    else Flip(me)
  }

  /**
   * `Lava.handle_collision` (components.py:334-337): the lava stays anchored, and a Player touching
   * it is flagged for removal and otherwise untouched.
   */
  function LavaReact(me: Ent, other: Ent): (r: (Ent, Ent))
    ensures HookKeeps(me, r.0) && r.0.ground == me.ground && AtSpawn(r.0)
    ensures r.0.remove == me.remove && r.0.switched == me.switched && r.0.nextLevel == me.nextLevel
    ensures FlagsOnly(other, r.1) && r.1.nextLevel == other.nextLevel
    ensures r.1.remove <==> other.remove || other.kind == Player
  {
    (Anchor(me), if other.kind == Player then other.(remove := true) else other)
  }

  /**
   * `Goal.handle_collision` (components.py:346-350): touching a Player, the goal removes itself and
   * sends the player to the next level; anything else is ignored. Nothing else changes on either.
   */
  function GoalReact(me: Ent, other: Ent): (r: (Ent, Ent))
    ensures HookKeeps(me, r.0) && r.0.rect == me.rect && r.0.vel == me.vel && r.0.acc == me.acc
    ensures r.0.ground == me.ground && r.0.switched == me.switched && r.0.nextLevel == me.nextLevel
    ensures r.0.remove <==> me.remove || other.kind == Player
    ensures FlagsOnly(other, r.1) && r.1.remove == other.remove
    ensures r.1.nextLevel <==> other.nextLevel || other.kind == Player
  {
    if other.kind == Player then (me.(remove := true), other.(nextLevel := true)) else (me, other)
  }

  /**
   * `me.handle_collision(other, c)`, dispatched on `me`'s exact class. The result is the new `me`
   * and the new `other`.
   */
  function React(me: Ent, other: Ent, otherH: Handle, c: Collision): (r: (Ent, Ent))
    ensures HookKeeps(me, r.0)
    ensures r.0.ground == me.ground || r.0.ground == Some(otherH)
    ensures FlagsOnly(other, r.1)
    ensures IsBrick(me.kind) ==> AtSpawn(r.0)
    ensures !IsBrick(me.kind) && me.kind != SlidingBrick ==> r.0.rect == me.rect
    ensures me.kind == SlidingBrick ==>
      r.0.rect.y == me.rect.y && r.0.acc == me.acc && r.0.vel.y == me.vel.y &&
      (r.0.vel.x == me.vel.x || r.0.vel.x == -me.vel.x)
  {
    match me.kind
    case Player => PlayerReact(me, other, otherH, c)
    case Box => (me, other)
    case Brick | GrassBrick | SlidingBrickBouncer => (Anchor(me), other)
    case Lava => LavaReact(me, other)
    case SlidingBrick => (SlidingReact(me, other, c), other)
    case Goal => GoalReact(me, other)
    case Enemy => (EnemyReact(me, other, c), other)
  }

  /**
   * Who can set which flag: only a Goal sends a Player to the next level; only Lava, or a Player
   * stomping an Enemy, removes the other entity; and an entity removes itself only as a Player
   * meeting an Enemy on the ground or as a Goal reached by a Player.
   */
  lemma HookFlags(me: Ent, other: Ent, otherH: Handle, c: Collision)
    ensures var r := React(me, other, otherH, c);
      && (r.1.nextLevel && !other.nextLevel ==> me.kind == Goal && other.kind == Player)
      && (r.1.remove && !other.remove ==>
            (me.kind == Lava && other.kind == Player) || (me.kind == Player && other.kind == Enemy && !me.onGround))
      && (r.0.remove && !me.remove ==>
            (me.kind == Player && other.kind == Enemy && me.onGround) || (me.kind == Goal && other.kind == Player))
  {
    var r := React(me, other, otherH, c);
    match me.kind
    case Player =>
      assert r == PlayerReact(me, other, otherH, c);
    case Goal =>
      assert r == GoalReact(me, other);
    case Lava =>
      assert r == LavaReact(me, other);
    case Box | Brick | GrassBrick | SlidingBrickBouncer | SlidingBrick | Enemy =>
      assert r.0.remove == me.remove && r.1 == other;
  }

  /** A platform reversed by a bouncer is placed flush against it, so the two no longer overlap. */
  lemma BouncerSeparates(me: Ent, other: Ent, c: Collision)
    requires other.kind == SlidingBrickBouncer && me.rect.Proper() && other.rect.Proper()
    ensures Clip(SlidingReact(me, other, c).rect, other.rect).Empty()
  {
  }
}

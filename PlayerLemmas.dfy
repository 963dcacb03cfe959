/** The Player's controls over several frames: friction, the jump window and the ground reference. */
module PlayerLemmas {
  import opened Wrappers
  import opened Vectors
  import opened Settings
  import opened Entities
  import opened Collisions
  import opened PassLemmas
  import opened Updates
  import opened UpdateLemmas

  /**
   * With neither arrow held, ground friction closes 30% of the gap between the player's speed and
   * its ground's speed each frame, before collisions (components.py:204-211).
   */
  lemma FrictionPullsToGround(ents: seq<Ent>, e: Ent, keys: Keys, conv: real -> int)
    requires e.mass > 0.0 && (e.ground.Some? ==> e.ground.value < |ents|)
    requires !keys.left && !keys.right && e.acc.x == 0.0
    ensures var t := TargetVel(ents, e);
      Integrate(AddGravity(PlayerDrive(ents, e, keys)), conv).vel.x - t == (e.vel.x - t) * (1.0 - GROUND_FRICT)
  {
    var t := TargetVel(ents, e);
    var d := PlayerDrive(ents, e, keys);
    var pull := (t - e.vel.x) * GROUND_FRICT;
    assert d.acc.x == pull * e.mass;
    Cancel(pull, e.mass);
  }

  lemma Cancel(x: real, m: real)
    requires m > 0.0
    ensures x * m / m == x
  {
  }

  lemma ScaledSum(a: real, b: real, m: real)
    requires m > 0.0
    ensures (a * m + b * m) / m == a + b
  {
    assert a * m + b * m == (a + b) * m;
  }

  /**
   * Holding one arrow on the ground, the speed that friction exactly balances is the ground's speed
   * plus PLAYER_SPEED / MOVING_FRICT in that direction (components.py:228-232, 204-211).
   */
  lemma WalkingSpeed(ents: seq<Ent>, e: Ent, keys: Keys, conv: real -> int)
    requires e.mass > 0.0 && (e.ground.Some? ==> e.ground.value < |ents|)
    requires keys.left != keys.right && e.acc.x == 0.0
    requires e.vel.x == TargetVel(ents, e) + (if keys.right then PLAYER_SPEED else -PLAYER_SPEED) / MOVING_FRICT
    ensures Integrate(AddGravity(PlayerDrive(ents, e, keys)), conv).vel.x == e.vel.x
  {
    var push := if keys.right then PLAYER_SPEED else -PLAYER_SPEED;
    ArrowPush(e, keys);
    NonZeroProduct(push, e.mass);
    DriveAcc(ents, e, keys);
    var d := PlayerDrive(ents, e, keys);
    Balanced(push, TargetVel(ents, e) - e.vel.x, e.mass, d.acc.x);
  }

  /** The arrows add the walking force to the horizontal acceleration. */
  lemma ArrowPush(e: Ent, keys: Keys)
    ensures var k := HandleKeys(e, keys);
      k.vel == e.vel && k.mass == e.mass &&
      k.acc.x == e.acc.x + ((if keys.right then PLAYER_SPEED else 0.0) - (if keys.left then PLAYER_SPEED else 0.0)) * e.mass
  {
  }

  /** Friction adds the pull towards the target speed, with the coefficient the keys select. */
  lemma DriveAcc(ents: seq<Ent>, e: Ent, keys: Keys)
    requires e.ground.Some? ==> e.ground.value < |ents|
    ensures var k := HandleKeys(e, keys); var d := PlayerDrive(ents, e, keys);
      d.vel == e.vel && d.mass == e.mass &&
      d.acc.x == k.acc.x + (TargetVel(ents, e) - e.vel.x) * (if k.acc.x == 0.0 then GROUND_FRICT else MOVING_FRICT) * e.mass
  {
  }

  lemma NonZeroProduct(a: real, b: real)
    requires a != 0.0 && b != 0.0
    ensures a * b != 0.0
  {
  }

  lemma Balanced(push: real, gap: real, m: real, a: real)
    requires m > 0.0 && push != 0.0 && gap == -push / MOVING_FRICT
    requires a == push * m + gap * MOVING_FRICT * m
    ensures a / m == 0.0
  {
    assert gap * MOVING_FRICT == -push;
    assert a == 0.0;
  }

  /** A Box loses 30% of its horizontal speed each frame to friction (components.py:250-252). */
  lemma BoxSlowsDown(e: Ent, conv: real -> int)
    requires e.mass > 0.0 && e.acc.x == 0.0
    ensures Integrate(AddGravity(BoxDrive(e)), conv).vel.x == e.vel.x * (1.0 - GROUND_FRICT)
  {
    assert BoxDrive(e).acc.x / e.mass == -e.vel.x * GROUND_FRICT;
  }

  /** The jump state after one frame: keys, then the landing bookkeeping given whether the pass landed. */
  function JumpFrame(e: Ent, k: Keys, landed: bool): Ent {
    Settle(HandleKeys(e, k).(onGround := landed))
  }

  /**
   * Space applies an upward jump force this frame: a fresh jump within the coyote time, or the
   * long-jump boost while an unreleased jump is young.
   */
  predicate Lifting(e: Ent, k: Keys) {
    k.space && (if e.jumping then e.lastOnGround < LONG_JUMP else e.lastOnGround < COYOTE)
  }

  /**
   * components.py:234-241, both directions: starting from no vertical acceleration, the keys push
   * the player up exactly on the frames `Lifting` names, a fresh jump with the full strength.
   */
  lemma LiftingMeans(e: Ent, k: Keys)
    requires e.mass > 0.0 && e.acc.y == 0.0
    ensures Lifting(e, k) <==> HandleKeys(e, k).acc.y < 0.0
    ensures Lifting(e, k) && !e.jumping ==> HandleKeys(e, k).acc.y == -JUMP_STRENGTH * e.mass && HandleKeys(e, k).jumping
    ensures Lifting(e, k) && e.jumping ==> HandleKeys(e, k).acc.y == -JUMP_STRENGTH * e.mass / 15.0
  {
  }

  /** Steering's effect on the jump state and flags is that of the keys alone. */
  lemma DriveJumpState(ents: seq<Ent>, e: Ent, keys: Keys)
    requires e.ground.Some? ==> e.ground.value < |ents|
    ensures var d := PlayerDrive(ents, e, keys); var k := HandleKeys(e, keys);
      d.jumping == k.jumping && d.lastOnGround == k.lastOnGround && d.ground == e.ground && d.remove == e.remove
  {
  }

  /** One update's effect on the jump state is `JumpFrame`, with the landing the pass found. */
  lemma PlayerJumpState(ents: seq<Ent>, s: Handle, view: seq<Handle>, keys: Keys, conv: real -> int)
    requires s < |ents| && InStore(view, |ents|) && ents[s].mass > 0.0
    requires ents[s].ground.Some? ==> ents[s].ground.value < |ents|
    ensures var r := PlayerUpdate(ents, s, view, keys, conv)[s];
      var j := JumpFrame(ents[s], keys, r.onGround);
      r.jumping == j.jumping && r.lastOnGround == j.lastOnGround
  {
    var d := PlayerDrive(ents, ents[s], keys);
    DriveJumpState(ents, ents[s], keys);
    DriveBody(ents, ents[s], keys);
    BaseUpdatePersists(ents[s := d], s, view, true, conv);
    var after := BaseUpdate(ents[s := d], s, view, true, conv);
    assert after[s].jumping == d.jumping && after[s].lastOnGround == d.lastOnGround;
    JumpFrameOf(ents[s], keys, after[s].onGround);
  }

  lemma JumpFrameOf(e: Ent, k: Keys, landed: bool)
    ensures var j := JumpFrame(e, k, landed); var h := HandleKeys(e, k);
      j.jumping == (!landed && h.jumping) && j.lastOnGround == (if landed then 0 else h.lastOnGround + 1)
  {
  }

  /**
   * The Player's ground reference, once set, survives every update: a pass only ever sets it, and
   * the update's attempt to clear it when airborne (components.py:225) assigns a misspelled
   * attribute instead.
   */
  lemma GroundNeverCleared(ents: seq<Ent>, s: Handle, view: seq<Handle>, keys: Keys, conv: real -> int)
    requires s < |ents| && InStore(view, |ents|) && ents[s].mass > 0.0
    requires ents[s].ground.Some? ==> ents[s].ground.value < |ents|
    ensures ents[s].ground.Some? ==> PlayerUpdate(ents, s, view, keys, conv)[s].ground.Some?
  {
    var d := PlayerDrive(ents, ents[s], keys);
    DriveJumpState(ents, ents[s], keys);
    DriveBody(ents, ents[s], keys);
    BaseUpdatePersists(ents[s := d], s, view, true, conv);
  }

  /** The airborne frames of `ks` from `e`: the jump state after each, when no pass lands. */
  function Airborne(e: Ent, ks: seq<Keys>): Ent
    decreases |ks|
  {
    if ks == [] then e else Airborne(JumpFrame(e, ks[0], false), ks[1..])
  }

  /** How many of the airborne frames of `ks` start a fresh jump. */
  function Launches(e: Ent, ks: seq<Keys>): nat
    decreases |ks|
  {
    if ks == [] then 0
    else (if Lifting(e, ks[0]) && !e.jumping then 1 else 0) + Launches(JumpFrame(e, ks[0], false), ks[1..])
  }

  /** How many of the airborne frames of `ks` apply a jump force. */
  function Lifts(e: Ent, ks: seq<Keys>): nat
    decreases |ks|
  {
    if ks == [] then 0
    else (if Lifting(e, ks[0]) then 1 else 0) + Lifts(JumpFrame(e, ks[0], false), ks[1..])
  }

  /** While airborne a jump under way stays under way, so no fresh jump can start. */
  lemma {:induction false} JumpingNoLaunch(e: Ent, ks: seq<Keys>)
    requires e.jumping
    ensures Launches(e, ks) == 0
    decreases |ks|
  {
    if ks != [] {
      JumpingNoLaunch(JumpFrame(e, ks[0], false), ks[1..]);
    }
  }

  /** No double jump: without landing, at most one fresh jump. */
  lemma {:induction false} AtMostOneJump(e: Ent, ks: seq<Keys>)
    ensures Launches(e, ks) <= 1
    decreases |ks|
  {
    if ks != [] {
      var e' := JumpFrame(e, ks[0], false);
      if Lifting(e, ks[0]) && !e.jumping {
        JumpingNoLaunch(e', ks[1..]);
      } else {
        AtMostOneJump(e', ks[1..]);
      }
    }
  }

  /**
   * Variable jump height is bounded: without landing, the jump force is applied on at most
   * LONG_JUMP frames counted from when the player was last on the ground.
   */
  lemma {:induction false} LiftsBounded(e: Ent, ks: seq<Keys>)
    ensures Lifts(e, ks) <= if e.lastOnGround < LONG_JUMP then LONG_JUMP - e.lastOnGround else 0
    decreases |ks|
  {
    if ks != [] {
      var e' := JumpFrame(e, ks[0], false);
      LiftsBounded(e', ks[1..]);
      assert e'.lastOnGround >= e.lastOnGround + 1 || e'.lastOnGround == LONG_JUMP + 2;
    }
  }

  /** Releasing space during a jump closes the long-jump window until the player lands again. */
  lemma ReleaseEndsLift(e: Ent, k: Keys, ks: seq<Keys>)
    requires e.jumping && !k.space
    ensures Lifts(JumpFrame(e, k, false), ks) == 0
  {
    var e' := JumpFrame(e, k, false);
    assert e'.lastOnGround == LONG_JUMP + 2;
    LiftsBounded(e', ks);
  }

  /** Landing re-arms the jump: on the next frame space starts a fresh jump. */
  lemma LandingRearms(e: Ent, k: Keys, k': Keys)
    requires k'.space
    ensures Lifting(JumpFrame(e, k, true), k') && !JumpFrame(e, k, true).jumping
  {
  }
}

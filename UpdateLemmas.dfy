/** What the per-class updates promise, and that they keep the store invariants. */
module UpdateLemmas {
  import opened Wrappers
  import opened Vectors
  import opened Geometry
  import opened Settings
  import opened Entities
  import opened Behaviours
  import opened Collisions
  import opened Store
  import opened PassLemmas
  import opened Updates

  /** The invariants a pass needs and keeps. */
  predicate Physical(ents: seq<Ent>) {
    WellFormed(ents) && BricksAtSpawn(ents) && PlatformsSliding(ents)
  }

  /** Writing one entity back with the same body, a valid ground and its kind's invariants keeps them. */
  lemma PutKeeps(ents: seq<Ent>, s: Handle, e: Ent)
    requires s < |ents| && Physical(ents) && SameBody(e, ents[s])
    requires e.ground.Some? ==> e.ground.value < |ents|
    requires IsBrick(e.kind) ==> AtSpawn(e)
    requires e.kind == SlidingBrick ==> Sliding(e)
    ensures Physical(ents[s := e]) && SameBodies(ents, ents[s := e]) && OthersStayPut(ents, ents[s := e], s)
  {
  }

  /**
   * Gravity changes the speed by the same amount whatever the mass (components.py:103-116): the
   * pull is scaled by the mass and the integration divides it out again.
   */
  lemma GravityMassFree(e: Ent, conv: real -> int)
    requires e.mass > 0.0
    ensures var r := Integrate(AddGravity(e), conv);
      r.vel.x == e.vel.x + e.acc.x / e.mass &&
      r.vel.y == MinReal(e.vel.y + e.acc.y / e.mass + (if e.vel.y < 0.0 then GRAVITY_JUMPING else GRAVITY), TERMINAL_VEL)
  {
    var g := if e.vel.y < 0.0 then GRAVITY_JUMPING else GRAVITY;
    var acc := AddGravity(e).acc;
    assert acc == Add(e.acc, Scale(Vec2(0.0, g), e.mass));
    ScaleAdd(e.acc, Scale(Vec2(0.0, g), e.mass), 1.0 / e.mass);
    ScaleInverse(Vec2(0.0, g), e.mass);
    assert Scale(acc, 1.0 / e.mass) == Add(Scale(e.acc, 1.0 / e.mass), Vec2(0.0, g));
    assert acc.y / e.mass == Scale(acc, 1.0 / e.mass).y && e.acc.y / e.mass == Scale(e.acc, 1.0 / e.mass).y;
    assert acc.x / e.mass == Scale(acc, 1.0 / e.mass).x && e.acc.x / e.mass == Scale(e.acc, 1.0 / e.mass).x;
  }

  /** A falling body stops speeding up at the terminal velocity; nothing else is clamped. */
  lemma TerminalVelocity(e: Ent, conv: real -> int)
    requires e.mass > 0.0
    ensures var r := Integrate(AddGravity(e), conv);
      r.vel.y <= TERMINAL_VEL && (e.vel.y >= TERMINAL_VEL && e.acc.y >= 0.0 ==> r.vel.y == TERMINAL_VEL)
  {
    GravityMassFree(e, conv);
    assert e.acc.y >= 0.0 ==> e.acc.y / e.mass >= 0.0;
  }

  /** The gravity and integration half of `Entity.update` for a non-Brick keeps the invariants. */
  lemma IntegrateKeeps(ents: seq<Ent>, s: Handle, gravity: bool, conv: real -> int)
    requires s < |ents| && Physical(ents) && !IsBrick(ents[s].kind)
    requires ents[s].kind == SlidingBrick ==> !gravity && ents[s].acc == ZERO
    ensures var e1 := Integrate(if gravity then AddGravity(ents[s]) else ents[s], conv);
      Physical(ents[s := e1]) && SameBodies(ents, ents[s := e1]) && OthersStayPut(ents, ents[s := e1], s)
  {
    var e := if gravity then AddGravity(ents[s]) else ents[s];
    if ents[s].kind == SlidingBrick {
      assert e.acc.x / e.mass == 0.0 && e.acc.y / e.mass == 0.0;
    }
    PutKeeps(ents, s, Integrate(e, conv));
  }

  /** `Entity.update` for a non-Brick: keeps the invariants, and clears the acceleration. */
  lemma BaseUpdateKeeps(ents: seq<Ent>, s: Handle, view: seq<Handle>, gravity: bool, conv: real -> int)
    requires s < |ents| && InStore(view, |ents|) && Physical(ents) && !IsBrick(ents[s].kind)
    requires ents[s].kind == SlidingBrick ==> !gravity && ents[s].acc == ZERO
    ensures var r := BaseUpdate(ents, s, view, gravity, conv);
      Physical(r) && SameBodies(ents, r) && OthersStayPut(ents, r, s)
  {
    var e1 := Integrate(if gravity then AddGravity(ents[s]) else ents[s], conv);
    IntegrateKeeps(ents, s, gravity, conv);
    var ents1 := ents[s := e1];
    PassKeeps(ents1, s, view);
    var p := HandleCollisions(ents1, s, view);
    Chain(ents, ents1, p.ents, s);
    var r := p.ents[s := p.ents[s].(acc := ZERO)];
    PutKeeps(p.ents, s, p.ents[s].(acc := ZERO));
    Chain(ents, p.ents, r, s);
    assert BaseUpdate(ents, s, view, gravity, conv) == r;
  }

  /** A step that keeps bodies and leaves the other entities in place, and puts a platform `s` back on its row, keeps every row. */
  lemma RowsKept(ents: seq<Ent>, r: seq<Ent>, s: Handle)
    requires s < |ents| && PlatformsOnRow(ents) && SameBodies(ents, r) && OthersStayPut(ents, r, s)
    requires ents[s].kind == SlidingBrick ==> r[s].rect.y == r[s].initY
    ensures PlatformsOnRow(r)
  {
  }

  lemma Chain(a: seq<Ent>, b: seq<Ent>, c: seq<Ent>, s: Handle)
    requires SameBodies(a, b) && SameBodies(b, c) && OthersStayPut(a, b, s) && OthersStayPut(b, c, s)
    ensures SameBodies(a, c) && OthersStayPut(a, c, s)
  {
  }

  /** The Player's steering changes only its acceleration and jump state. */
  lemma DriveBody(ents: seq<Ent>, e: Ent, keys: Keys)
    requires e.ground.Some? ==> e.ground.value < |ents|
    ensures var d := PlayerDrive(ents, e, keys); SameBody(d, e) && d.ground == e.ground
  {
  }

  lemma DrivePut(ents: seq<Ent>, s: Handle, keys: Keys)
    requires s < |ents| && Physical(ents) && ents[s].kind == Player
    ensures var a := ents[s := PlayerDrive(ents, ents[s], keys)];
      Physical(a) && SameBodies(ents, a) && OthersStayPut(ents, a, s) && a[s].mass > 0.0
  {
    DriveBody(ents, ents[s], keys);
    PutKeeps(ents, s, PlayerDrive(ents, ents[s], keys));
  }

  lemma SettlePut(ents: seq<Ent>, s: Handle)
    requires s < |ents| && Physical(ents) && ents[s].kind == Player
    ensures var a := ents[s := Settle(ents[s])];
      Physical(a) && SameBodies(ents, a) && OthersStayPut(ents, a, s)
  {
    PutKeeps(ents, s, Settle(ents[s]));
  }

  /** `Player.update` keeps the pass invariants. */
  lemma PlayerUpdateKeeps(ents: seq<Ent>, s: Handle, view: seq<Handle>, keys: Keys, conv: real -> int)
    requires s < |ents| && InStore(view, |ents|) && Physical(ents) && ents[s].kind == Player
    ensures var r := Update(ents, s, view, keys, conv);
      Physical(r) && SameBodies(ents, r) && OthersStayPut(ents, r, s)
  {
    var ents1 := ents[s := PlayerDrive(ents, ents[s], keys)];
    DrivePut(ents, s, keys);
    BaseUpdateKeeps(ents1, s, view, true, conv);
    var after := BaseUpdate(ents1, s, view, true, conv);
    Chain(ents, ents1, after, s);
    SettlePut(after, s);
    Chain(ents, after, after[s := Settle(after[s])], s);
  }

  /** `SlidingBrick.update` keeps the pass invariants and puts the platform back on its row. */
  lemma SlidingUpdateKeeps(ents: seq<Ent>, s: Handle, view: seq<Handle>, keys: Keys, conv: real -> int)
    requires s < |ents| && InStore(view, |ents|) && Physical(ents) && ents[s].kind == SlidingBrick
    ensures var r := Update(ents, s, view, keys, conv);
      Physical(r) && SameBodies(ents, r) && OthersStayPut(ents, r, s) &&
      r[s].rect.y == r[s].initY && Sliding(r[s]) && r[s].acc == ZERO
  {
    var d := SlidingDrive(ents[s]);
    PutKeeps(ents, s, d);
    BaseUpdateKeeps(ents[s := d], s, view, false, conv);
    var after := BaseUpdate(ents[s := d], s, view, false, conv);
    PutKeeps(after, s, after[s].(rect := after[s].rect.(y := after[s].initY)));
  }

  /** The update of a Brick, GrassBrick, bouncer or Lava keeps the pass invariants. */
  lemma BrickUpdateKeeps(ents: seq<Ent>, s: Handle, view: seq<Handle>, keys: Keys, conv: real -> int)
    requires s < |ents| && InStore(view, |ents|) && Physical(ents) && IsBrick(ents[s].kind)
    ensures var r := Update(ents, s, view, keys, conv);
      Physical(r) && SameBodies(ents, r) && OthersStayPut(ents, r, s)
  {
    var ents1 := ents[s := Anchor(ents[s])];
    PutKeeps(ents, s, Anchor(ents[s]));
    PassKeeps(ents1, s, view);
    var r := HandleCollisions(ents1, s, view).ents;
    assert Update(ents, s, view, keys, conv) == r;
    Chain(ents, ents1, r, s);
  }

  /** `Box.update` keeps the pass invariants. */
  lemma BoxUpdateKeeps(ents: seq<Ent>, s: Handle, view: seq<Handle>, keys: Keys, conv: real -> int)
    requires s < |ents| && InStore(view, |ents|) && Physical(ents) && ents[s].kind == Box
    ensures var r := Update(ents, s, view, keys, conv);
      Physical(r) && SameBodies(ents, r) && OthersStayPut(ents, r, s)
  {
    var ents1 := ents[s := BoxDrive(ents[s])];
    PutKeeps(ents, s, BoxDrive(ents[s]));
    BaseUpdateKeeps(ents1, s, view, true, conv);
    Chain(ents, ents1, BaseUpdate(ents1, s, view, true, conv), s);
  }

  /** Every class's update keeps the pass invariants, and a platform ends on its row. */
  lemma UpdatePhysical(ents: seq<Ent>, s: Handle, view: seq<Handle>, keys: Keys, conv: real -> int)
    requires s < |ents| && InStore(view, |ents|) && Physical(ents)
    ensures var r := Update(ents, s, view, keys, conv);
      Physical(r) && SameBodies(ents, r) && OthersStayPut(ents, r, s) &&
      (ents[s].kind == SlidingBrick ==> r[s].rect.y == r[s].initY)
  {
    if ents[s].kind == Player {
      PlayerUpdateKeeps(ents, s, view, keys, conv);
    } else if ents[s].kind == Box {
      BoxUpdateKeeps(ents, s, view, keys, conv);
    } else if IsBrick(ents[s].kind) {
      BrickUpdateKeeps(ents, s, view, keys, conv);
    } else if ents[s].kind == SlidingBrick {
      SlidingUpdateKeeps(ents, s, view, keys, conv);
    } else {
      BaseUpdateKeeps(ents, s, view, true, conv);
      assert Update(ents, s, view, keys, conv) == BaseUpdate(ents, s, view, true, conv);
    }
  }

  /**
   * Every update keeps the store invariants (components.py:201-305): all entities keep positive
   * mass and size and a valid ground, every Brick stays at its spawn point at rest, and every
   * sliding platform moves at speed one along its own row.
   */
  lemma UpdateKeeps(ents: seq<Ent>, s: Handle, view: seq<Handle>, keys: Keys, conv: real -> int)
    requires s < |ents| && InStore(view, |ents|) && Good(ents)
    ensures var r := Update(ents, s, view, keys, conv); Good(r) && SameBodies(ents, r)
  {
    UpdatePhysical(ents, s, view, keys, conv);
    RowsKept(ents, Update(ents, s, view, keys, conv), s);
  }

  /** After its own update a Brick is at its spawn point at rest, whatever it was before. */
  lemma BrickStaysPut(ents: seq<Ent>, s: Handle, view: seq<Handle>)
    requires s < |ents| && InStore(view, |ents|) && Physical(ents[s := Anchor(ents[s])]) && IsBrick(ents[s].kind)
    ensures var r := BrickUpdate(ents, s, view); AtSpawn(r[s]) && SameBody(r[s], ents[s])
  {
    PassKeeps(ents[s := Anchor(ents[s])], s, view);
  }

  /** `Entity.update` never clears a ground or a removal flag, and leaves the jump state to the caller. */
  lemma BaseUpdatePersists(ents: seq<Ent>, s: Handle, view: seq<Handle>, gravity: bool, conv: real -> int)
    requires s < |ents| && InStore(view, |ents|) && ents[s].mass > 0.0
    ensures Persists(ents, BaseUpdate(ents, s, view, gravity, conv))
  {
    var e := if gravity then AddGravity(ents[s]) else ents[s];
    PassPersists(ents[s := Integrate(e, conv)], s, view);
  }

  /** No entity of `b` has lost the removal flag it had in `a`. */
  predicate Unrevived(a: seq<Ent>, b: seq<Ent>) {
    |b| == |a| && forall j :: 0 <= j < |a| && a[j].remove ==> b[j].remove
  }

  /** `Entity.update` after a drive that leaves the removal flag alone clears no removal flag. */
  lemma DrivenUnrevived(ents: seq<Ent>, s: Handle, e: Ent, view: seq<Handle>, gravity: bool, conv: real -> int)
    requires s < |ents| && InStore(view, |ents|) && e.mass > 0.0 && e.remove == ents[s].remove
    ensures Unrevived(ents, BaseUpdate(ents[s := e], s, view, gravity, conv))
  {
    BaseUpdatePersists(ents[s := e], s, view, gravity, conv);
  }

  /** `Player.update` clears no removal flag. */
  lemma PlayerUnrevived(ents: seq<Ent>, s: Handle, view: seq<Handle>, keys: Keys, conv: real -> int)
    requires s < |ents| && InStore(view, |ents|) && ents[s].mass > 0.0
    requires ents[s].ground.Some? ==> ents[s].ground.value < |ents|
    ensures Unrevived(ents, PlayerUpdate(ents, s, view, keys, conv))
  {
    DrivenUnrevived(ents, s, PlayerDrive(ents, ents[s], keys), view, true, conv);
  }

  /** The update of a Brick, GrassBrick, bouncer or Lava clears no removal flag. */
  lemma BrickNeverRevives(ents: seq<Ent>, s: Handle, view: seq<Handle>, keys: Keys, conv: real -> int)
    requires s < |ents| && InStore(view, |ents|) && ents[s].mass > 0.0 && IsBrick(ents[s].kind)
    requires ents[s].ground.Some? ==> ents[s].ground.value < |ents|
    ensures Unrevived(ents, Update(ents, s, view, keys, conv))
  {
    PassPersists(ents[s := Anchor(ents[s])], s, view);
  }

  /** The update of a Box clears no removal flag. */
  lemma BoxNeverRevives(ents: seq<Ent>, s: Handle, view: seq<Handle>, keys: Keys, conv: real -> int)
    requires s < |ents| && InStore(view, |ents|) && ents[s].mass > 0.0
    requires ents[s].ground.Some? ==> ents[s].ground.value < |ents|
    requires ents[s].kind == Box
    ensures Unrevived(ents, Update(ents, s, view, keys, conv))
  {
    DrivenUnrevived(ents, s, BoxDrive(ents[s]), view, true, conv);
  }

  /** The update of a SlidingBrick clears no removal flag. */
  lemma SlidingNeverRevives(ents: seq<Ent>, s: Handle, view: seq<Handle>, keys: Keys, conv: real -> int)
    requires s < |ents| && InStore(view, |ents|) && ents[s].mass > 0.0
    requires ents[s].ground.Some? ==> ents[s].ground.value < |ents|
    requires ents[s].kind == SlidingBrick
    ensures Unrevived(ents, Update(ents, s, view, keys, conv))
  {
    DrivenUnrevived(ents, s, SlidingDrive(ents[s]), view, false, conv);
  }

  /** The update of a Goal or an Enemy clears no removal flag. */
  lemma PlainNeverRevives(ents: seq<Ent>, s: Handle, view: seq<Handle>, keys: Keys, conv: real -> int)
    requires s < |ents| && InStore(view, |ents|) && ents[s].mass > 0.0
    requires ents[s].ground.Some? ==> ents[s].ground.value < |ents|
    requires ents[s].kind == Goal || ents[s].kind == Enemy
    ensures Unrevived(ents, Update(ents, s, view, keys, conv))
  {
    DrivenUnrevived(ents, s, ents[s], view, true, conv);
    assert ents[s := ents[s]] == ents;
  }

  /** No update clears a removal flag, of its own entity or of any other. */
  lemma UpdateNeverRevives(ents: seq<Ent>, s: Handle, view: seq<Handle>, keys: Keys, conv: real -> int)
    requires s < |ents| && InStore(view, |ents|) && ents[s].mass > 0.0
    requires ents[s].ground.Some? ==> ents[s].ground.value < |ents|
    ensures Unrevived(ents, Update(ents, s, view, keys, conv))
  {
    if ents[s].kind == Player {
      PlayerUnrevived(ents, s, view, keys, conv);
      assert Update(ents, s, view, keys, conv) == PlayerUpdate(ents, s, view, keys, conv);
    } else if IsBrick(ents[s].kind) {
      BrickNeverRevives(ents, s, view, keys, conv);
    } else if ents[s].kind == Box {
      BoxNeverRevives(ents, s, view, keys, conv);
    } else if ents[s].kind == SlidingBrick {
      SlidingNeverRevives(ents, s, view, keys, conv);
    } else {
      PlainNeverRevives(ents, s, view, keys, conv);
    }
  }
}

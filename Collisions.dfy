/**
 * `Entity.handle_collisions` (components.py:33-102): one entity's collision pass against a view of
 * the world. One `Step` handles one item of the view; `Sweep` folds the steps over the view.
 */
module Collisions {
  import opened Wrappers
  import opened Vectors
  import opened Geometry
  import opened Entities
  import opened Behaviours

  /**
   * Axis classification of an overlap rectangle (components.py:54, 67, 80): a tall overlap is a side
   * hit, a wide one a top or bottom hit, and anything within the tolerance of 2, including a
   * difference of exactly 2, is a corner.
   */
  function AxisOf(inter: Rect): (a: Axis)
    ensures a == AxisX <==> inter.h - inter.w > 2
    ensures a == AxisY <==> inter.w - inter.h > 2
    ensures a == AxisBoth <==> -2 <= inter.h - inter.w <= 2
  {
    if inter.h - inter.w > 2 then AxisX
    else if inter.w - inter.h > 2 then AxisY
    else AxisBoth
  }

  /** The outcome of resolving one overlap, before any hook runs. */
  datatype Resolution = Resolution(me: Ent, it: Ent, c: Collision, grounds: bool)

  /**
   * The geometric resolution (components.py:40-82) of `me` overlapping `it` in `inter`: the
   * collision data, the snapped and reflected `me`, the item with its impulse, and whether this
   * counts as standing on `it`.
   */
  function Resolve(me: Ent, it: Ent, inter: Rect): (r: Resolution)
    ensures r.c.inter == inter && r.c.bounce == Bounces(it.kind) && r.c.axis == AxisOf(inter)
    ensures r.c.axis == AxisX ==> r.c.dir == (if me.rect.x < it.rect.x then Left else Right)
    ensures r.c.axis == AxisY ==> r.c.dir == (if me.rect.y < it.rect.y then Top else Bottom)
    ensures r.c.axis == AxisBoth ==> r.c.dir == Both
    ensures r.grounds <==> r.c.bounce && r.c.dir == Top
    ensures !r.c.bounce || r.c.axis == AxisBoth ==> r.me == me && r.it == it
    ensures SameBody(r.me, me) && r.me.acc == me.acc && r.me.collided == me.collided
    ensures r.me.ground == me.ground && r.me.onGround == me.onGround && r.me.remove == me.remove
    ensures r.me.jumping == me.jumping && r.me.lastOnGround == me.lastOnGround
    ensures r.me.switched == me.switched && r.me.nextLevel == me.nextLevel
    ensures r.it == it.(acc := r.it.acc)
    ensures (r.me.vel.x == me.vel.x || r.me.vel.x == -me.vel.x) && (r.me.vel.y == me.vel.y || r.me.vel.y == 0.0)
    ensures r.c.bounce && r.c.axis != AxisBoth && me.rect.Proper() && it.rect.Proper() ==>
      Clip(r.me.rect, it.rect).Empty()
    ensures r.c.bounce && r.c.axis == AxisX ==>
      && r.it.acc == it.acc.(x := it.acc.x + me.vel.x * me.mass)
      && r.me.vel == me.vel.(x := -me.vel.x)
      && r.me.rect == me.rect.(x := if me.rect.x < it.rect.x then it.rect.x - me.rect.w else it.rect.Right())
    ensures r.c.axis == AxisY ==> r.it == it
    ensures r.c.bounce && r.c.axis == AxisY ==>
      && r.me.vel == me.vel.(y := 0.0)
      && r.me.rect == me.rect.(y := if me.rect.y < it.rect.y then it.rect.y - me.rect.h else it.rect.Bottom())
  {
    var b := Bounces(it.kind);
    if inter.h - inter.w > 2 then
      var me1 := if b then Behaviours.Flip(me) else me;
      var it1 := if b then it.(acc := it.acc.(x := it.acc.x + me.vel.x * me.mass)) else it;
      if me.rect.x < it.rect.x then
        Resolution(if b then me1.(rect := me.rect.(x := it.rect.x - me.rect.w)) else me1,
                   it1, Collision(inter, b, AxisX, Left), false)
      else
        Resolution(if b then me1.(rect := me.rect.(x := it.rect.Right())) else me1,
                   it1, Collision(inter, b, AxisX, Right), false)
    else if inter.w - inter.h > 2 then
      if me.rect.y < it.rect.y then
        Resolution(if b then me.(rect := me.rect.(y := it.rect.y - me.rect.h), vel := me.vel.(y := 0.0)) else me,
                   it, Collision(inter, b, AxisY, Top), b)
      else
        Resolution(if b then me.(rect := me.rect.(y := it.rect.Bottom()), vel := me.vel.(y := 0.0)) else me,
                   it, Collision(inter, b, AxisY, Bottom), false)
    else
      Resolution(me, it, Collision(inter, b, AxisBoth, Both), false)
  }

  /** One call of a reaction hook: `me.handle_collision(other, c)`. */
  datatype Hook = Hook(me: Handle, other: Handle, c: Collision)

  /** The state of a pass: the entity store, `new_on_ground`, and the hooks fired so far. */
  datatype Pass = Pass(ents: seq<Ent>, ground: bool, hooks: seq<Hook>)

  /** components.py:38: `item` is `self`, or the pair was already handled this frame. */
  predicate Skips(ents: seq<Ent>, s: Handle, i: Handle)
    requires s < |ents| && i < |ents|
  {
    i == s || i in ents[s].collided || s in ents[i].collided
  }

  /** The pair is not skipped and the rectangles overlap with positive area. */
  predicate Engages(ents: seq<Ent>, s: Handle, i: Handle)
    requires s < |ents| && i < |ents|
  {
    !Skips(ents, s, i) && !Clip(ents[s].rect, ents[i].rect).Empty()
  }

  /** The hook the item receives: the mirrored collision, with the roles swapped. */
  function Mirrored(k: Hook): Hook {
    Hook(k.other, k.me, Mirror(k.c))
  }

  /** One iteration of the loop at components.py:36-101: entity `s` against item `i`. */
  function Step(p: Pass, s: Handle, i: Handle): (q: Pass)
    requires s < |p.ents| && i < |p.ents|
    ensures |q.ents| == |p.ents|
  {
    var ents := p.ents;
    if !Engages(ents, s, i) then p
    else
      var r := Resolve(ents[s], ents[i], Clip(ents[s].rect, ents[i].rect));
      var (me2, it2) := React(r.me, r.it, i, r.c);
      var hook := Hook(s, i, r.c);
      if r.c.bounce then
        var (it4, me4) := React(it2.(collided := it2.collided + [s]), me2.(collided := me2.collided + [i]), s, Mirror(r.c));
        Pass(ents[s := me4][i := it4], p.ground || r.grounds, p.hooks + [hook, Mirrored(hook)])
      else
        Pass(ents[s := me2][i := it2], p.ground || r.grounds, p.hooks + [hook])
  }

  /** All handles of the view name entities of the store. */
  predicate InStore(view: seq<Handle>, n: nat) {
    forall k :: 0 <= k < |view| ==> view[k] < n
  }

  /** The pass after the first `n` items of the view. */
  function Sweep(start: seq<Ent>, s: Handle, view: seq<Handle>, n: nat): (p: Pass)
    requires s < |start| && n <= |view| && InStore(view, |start|)
    ensures |p.ents| == |start|
    decreases n, 1
  {
    if n == 0 then Pass(start, false, []) else SweepTurn(start, s, view, n)
  }

  /** The `n`-th step of the sweep: item `view[n-1]` against the pass so far. */
  function SweepTurn(start: seq<Ent>, s: Handle, view: seq<Handle>, n: nat): (p: Pass)
    requires s < |start| && 0 < n <= |view| && InStore(view, |start|)
    ensures |p.ents| == |start|
    decreases n, 0
  {
    Step(Sweep(start, s, view, n - 1), s, view[n - 1])
  }

  /**
   * `handle_collisions(view)` for entity `s`: clear its `collided` list, sweep the whole view, then
   * store `new_on_ground` as its `on_ground`.
   */
  function HandleCollisions(ents: seq<Ent>, s: Handle, view: seq<Handle>): (p: Pass)
    requires s < |ents| && InStore(view, |ents|)
    ensures |p.ents| == |ents|
  {
    var start := ents[s := ents[s].(collided := [])];
    var q := Sweep(start, s, view, |view|);
    q.(ents := q.ents[s := q.ents[s].(onGround := q.ground)])
  }
}

/**
 * What one collision pass guarantees: each unordered pair is handled at most once and both sides
 * are marked, the hooks fire in driver/mirror pairs, `on_ground` reports a bouncing top contact,
 * and the store invariants survive.
 */
module PassLemmas {
  import opened Wrappers
  import opened Vectors
  import opened Geometry
  import opened Entities
  import opened Behaviours
  import opened Collisions
  import opened Store

  /** The hooks that one engaged step appends. */
  function NewHooks(hook: Hook): seq<Hook> {
    if hook.c.bounce then [hook, Mirrored(hook)] else [hook]
  }

  /** The shape of one step: what changes, and in which two entities. */
  lemma StepFacts(p: Pass, s: Handle, i: Handle)
    requires s < |p.ents| && i < |p.ents|
    ensures !Engages(p.ents, s, i) ==> Step(p, s, i) == p
    ensures Engages(p.ents, s, i) ==>
      var q := Step(p, s, i);
      var r := Resolve(p.ents[s], p.ents[i], Clip(p.ents[s].rect, p.ents[i].rect));
      && i != s
      && q.ground == (p.ground || r.grounds)
      && q.hooks == p.hooks + NewHooks(Hook(s, i, r.c))
      && q.ents[s].collided == p.ents[s].collided + (if r.c.bounce then [i] else [])
      && q.ents[i].collided == p.ents[i].collided + (if r.c.bounce then [s] else [])
    ensures forall j :: 0 <= j < |p.ents| && j != s && j != i ==> Step(p, s, i).ents[j] == p.ents[j]
    ensures SameBodies(p.ents, Step(p, s, i).ents)
  {
  }

  /** The items that entity `s` bounced off, in the order of the hook log. */
  function BouncedOthers(hooks: seq<Hook>, s: Handle): seq<Handle>
    decreases |hooks|
  {
    if hooks == [] then []
    else
      var last := hooks[|hooks| - 1];
      BouncedOthers(hooks[..|hooks| - 1], s) + (if last.me == s && last.c.bounce then [last.other] else [])
  }

  lemma BouncedOthersAppend(hooks: seq<Hook>, k: Hook, s: Handle)
    ensures BouncedOthers(hooks + [k], s) ==
      BouncedOthers(hooks, s) + (if k.me == s && k.c.bounce then [k.other] else [])
  {
    assert (hooks + [k])[..|hooks|] == hooks;
  }

  predicate NoDup(xs: seq<Handle>) {
    forall a, b :: 0 <= a < b < |xs| ==> xs[a] != xs[b]
  }

  /** A hook of `s` itself for a bouncing item hit on its top: what sets `new_on_ground`. */
  predicate Landing(k: Hook, s: Handle) {
    k.me == s && k.c.bounce && k.c.dir == Top
  }

  /** `k` is a hook fired by the driving entity `s` for an item of the store, with that item's `bounces` flag. */
  predicate DriverHook(k: Hook, s: Handle, start: seq<Ent>) {
    k.me == s && k.other != s && k.other < |start| && k.c.bounce == Bounces(start[k.other].kind)
  }

  /**
   * The hook log splits into groups: a driver hook for a non-bouncing item alone, or a driver hook
   * for a bouncing item immediately followed by that item's hook with the mirrored collision.
   */
  predicate Grouped(hooks: seq<Hook>, s: Handle, start: seq<Ent>)
    decreases |hooks|
  {
    if hooks == [] then true
    else
      var n := |hooks|;
      (DriverHook(hooks[n - 1], s, start) && !hooks[n - 1].c.bounce && Grouped(hooks[..n - 1], s, start)) ||
      (n >= 2 && DriverHook(hooks[n - 2], s, start) && hooks[n - 2].c.bounce &&
       hooks[n - 1] == Mirrored(hooks[n - 2]) && Grouped(hooks[..n - 2], s, start))
  }

  /** Every step keeps each entity's body. */
  lemma {:induction false} SweepBodies(start: seq<Ent>, s: Handle, view: seq<Handle>, n: nat)
    requires s < |start| && n <= |view| && InStore(view, |start|)
    ensures SameBodies(start, Sweep(start, s, view, n).ents)
    decreases n
  {
    if n > 0 {
      SweepBodies(start, s, view, n - 1);
      StepFacts(Sweep(start, s, view, n - 1), s, view[n - 1]);
    }
  }

  /** The marking invariant of `SweepMarks`, over the `collided` lists and the hook log only. */
  predicate Marked(start: seq<Ent>, s: Handle, ents: seq<Ent>, hooks: seq<Hook>)
    requires s < |start| && |ents| == |start|
  {
    && ents[s].collided == BouncedOthers(hooks, s)
    && NoDup(ents[s].collided) && s !in ents[s].collided
    && (forall j :: j in ents[s].collided ==> j < |start| && s !in start[j].collided)
    && (forall j :: 0 <= j < |start| && j != s ==>
          ents[j].collided == start[j].collided + (if j in ents[s].collided then [s] else []))
  }

  /** An engaged bouncing step keeps the marking invariant. */
  lemma MarkedBounce(start: seq<Ent>, s: Handle, i: Handle, pe: seq<Ent>, ph: seq<Hook>, qe: seq<Ent>, hook: Hook)
    requires s < |start| && i < |start| && |pe| == |start| && |qe| == |start| && i != s
    requires Marked(start, s, pe, ph)
    requires i !in pe[s].collided && s !in pe[i].collided
    requires hook.me == s && hook.other == i && hook.c.bounce
    requires qe[s].collided == pe[s].collided + [i] && qe[i].collided == pe[i].collided + [s]
    requires forall j :: 0 <= j < |pe| && j != s && j != i ==> qe[j] == pe[j]
    ensures Marked(start, s, qe, ph + [hook, Mirrored(hook)])
  {
    BouncedOthersAppend(ph, hook, s);
    BouncedOthersAppend(ph + [hook], Mirrored(hook), s);
    assert ph + [hook, Mirrored(hook)] == ph + [hook] + [Mirrored(hook)];
    forall j | 0 <= j < |start| && j != s
      ensures qe[j].collided == start[j].collided + (if j in qe[s].collided then [s] else [])
    {
      if j != i {
        assert qe[j] == pe[j];
        assert j in qe[s].collided <==> j in pe[s].collided;
      }
    }
  }

  /** An engaged non-bouncing step keeps the marking invariant. */
  lemma MarkedPass(start: seq<Ent>, s: Handle, i: Handle, pe: seq<Ent>, ph: seq<Hook>, qe: seq<Ent>, hook: Hook)
    requires s < |start| && i < |start| && |pe| == |start| && |qe| == |start| && i != s
    requires Marked(start, s, pe, ph)
    requires hook.me == s && !hook.c.bounce
    requires qe[s].collided == pe[s].collided && qe[i].collided == pe[i].collided
    requires forall j :: 0 <= j < |pe| && j != s && j != i ==> qe[j] == pe[j]
    ensures Marked(start, s, qe, ph + [hook])
  {
    BouncedOthersAppend(ph, hook, s);
    forall j | 0 <= j < |start| && j != s
      ensures qe[j].collided == start[j].collided + (if j in qe[s].collided then [s] else [])
    {
      if j != i {
        assert qe[j] == pe[j];
      }
    }
  }

  /** One step keeps the marking invariant. */
  lemma StepMarks(start: seq<Ent>, s: Handle, p: Pass, i: Handle)
    requires s < |start| && i < |start| && |p.ents| == |start|
    requires Marked(start, s, p.ents, p.hooks)
    ensures Marked(start, s, Step(p, s, i).ents, Step(p, s, i).hooks)
  {
    StepFacts(p, s, i);
    if Engages(p.ents, s, i) {
      var q := Step(p, s, i);
      var r := Resolve(p.ents[s], p.ents[i], Clip(p.ents[s].rect, p.ents[i].rect));
      var hook := Hook(s, i, r.c);
      if r.c.bounce {
        MarkedBounce(start, s, i, p.ents, p.hooks, q.ents, hook);
      } else {
        MarkedPass(start, s, i, p.ents, p.hooks, q.ents, hook);
      }
    }
  }

  /**
   * Pair marking over a sweep that starts with an empty list for `s`: `s`'s list is exactly the
   * bouncing items of its hooks, without repeats and without `s`; each of them had not marked `s`
   * before, and now has `s` appended once; no other list changes.
   */
  lemma {:induction false} SweepMarks(start: seq<Ent>, s: Handle, view: seq<Handle>, n: nat)
    requires s < |start| && n <= |view| && InStore(view, |start|)
    requires start[s].collided == []
    ensures Marked(start, s, Sweep(start, s, view, n).ents, Sweep(start, s, view, n).hooks)
    decreases n
  {
    if n > 0 {
      SweepMarks(start, s, view, n - 1);
      StepMarks(start, s, Sweep(start, s, view, n - 1), view[n - 1]);
    }
  }

  /**
   * Entities other than the driver `s` stay where they are, except that a sliding platform may be
   * moved along its row.
   */
  predicate OthersStayPut(a: seq<Ent>, b: seq<Ent>, s: Handle)
    requires |a| == |b|
  {
    forall j :: 0 <= j < |a| && j != s ==>
      b[j].rect.y == a[j].rect.y && (a[j].kind != SlidingBrick ==> b[j].rect == a[j].rect)
  }

  /** `e` may replace `o` in a store of `n` entities without breaking its invariants. */
  predicate Fits(e: Ent, o: Ent, n: nat) {
    SameBody(e, o) && (e.ground.Some? ==> e.ground.value < n) &&
    (IsBrick(e.kind) ==> AtSpawn(e)) && (e.kind == SlidingBrick ==> Sliding(e))
  }

  /** Replacing two entities by fitting ones keeps the store invariants. */
  lemma PairPut(ents: seq<Ent>, s: Handle, i: Handle, a: Ent, b: Ent)
    requires s < |ents| && i < |ents| && s != i
    requires WellFormed(ents) && BricksAtSpawn(ents) && PlatformsSliding(ents)
    requires Fits(a, ents[s], |ents|) && Fits(b, ents[i], |ents|)
    ensures var q := ents[s := a][i := b];
      WellFormed(q) && BricksAtSpawn(q) && PlatformsSliding(q)
  {
  }

  /** A hook leaves its own entity fitting the slot `o` it came from. */
  lemma HookFits(e: Ent, o: Ent, other: Ent, h: Handle, c: Collision, n: nat)
    requires SameBody(e, o) && h < n && (e.ground.Some? ==> e.ground.value < n)
    requires e.kind == SlidingBrick ==> Sliding(e)
    ensures Fits(React(e, other, h, c).0, o, n)
  {
  }

  /** A hook leaves an item where it was, a platform but for sliding along its row. */
  lemma HookStays(e: Ent, o: Ent, other: Ent, h: Handle, c: Collision)
    requires e.rect == o.rect && SameBody(e, o) && (IsBrick(o.kind) ==> AtSpawn(o))
    ensures var r := React(e, other, h, c).0;
      r.rect.y == o.rect.y && (o.kind != SlidingBrick ==> r.rect == o.rect)
  {
  }

  /** The bouncing case of `StepKeeps`: both hooks run and both entities are written back. */
  lemma BounceKeeps(p: Pass, s: Handle, i: Handle)
    requires s < |p.ents| && i < |p.ents| && Engages(p.ents, s, i)
    requires Resolve(p.ents[s], p.ents[i], Clip(p.ents[s].rect, p.ents[i].rect)).c.bounce
    requires WellFormed(p.ents) && BricksAtSpawn(p.ents) && PlatformsSliding(p.ents)
    ensures var q := Step(p, s, i);
      WellFormed(q.ents) && BricksAtSpawn(q.ents) && PlatformsSliding(q.ents) && OthersStayPut(p.ents, q.ents, s)
  {
    var ents := p.ents;
    var n := |ents|;
    var r := Resolve(ents[s], ents[i], Clip(ents[s].rect, ents[i].rect));
    var (me2, it2) := React(r.me, r.it, i, r.c);
    HookFits(r.me, ents[s], r.it, i, r.c, n);
    var me3 := me2.(collided := me2.collided + [i]);
    var it3 := it2.(collided := it2.collided + [s]);
    var (it4, me4) := React(it3, me3, s, Mirror(r.c));
    assert FlagsOnly(me3, me4);
    HookFits(it3, ents[i], me3, s, Mirror(r.c), n);
    HookStays(it3, ents[i], me3, s, Mirror(r.c));
    PairPut(ents, s, i, me4, it4);
  }

  /** One step keeps the store well formed, Bricks at their spawn points and platforms sliding. */
  lemma StepKeeps(p: Pass, s: Handle, i: Handle)
    requires s < |p.ents| && i < |p.ents|
    requires WellFormed(p.ents) && BricksAtSpawn(p.ents) && PlatformsSliding(p.ents)
    ensures var q := Step(p, s, i);
      WellFormed(q.ents) && BricksAtSpawn(q.ents) && PlatformsSliding(q.ents) && OthersStayPut(p.ents, q.ents, s)
  {
    var ents := p.ents;
    if Engages(ents, s, i) {
      var r := Resolve(ents[s], ents[i], Clip(ents[s].rect, ents[i].rect));
      if r.c.bounce {
        BounceKeeps(p, s, i);
      } else {
        var (me2, it2) := React(r.me, r.it, i, r.c);
        assert Fits(me2, ents[s], |ents|);
        assert r.it == ents[i];
        PairPut(ents, s, i, me2, it2);
      }
    }
  }

  /** The whole sweep keeps the store invariants; every entity other than `s` stays put, a platform but for sliding along its row. */
  lemma {:induction false} SweepKeeps(start: seq<Ent>, s: Handle, view: seq<Handle>, n: nat)
    requires s < |start| && n <= |view| && InStore(view, |start|)
    requires WellFormed(start) && BricksAtSpawn(start) && PlatformsSliding(start)
    ensures var p := Sweep(start, s, view, n);
      WellFormed(p.ents) && BricksAtSpawn(p.ents) && PlatformsSliding(p.ents) && OthersStayPut(start, p.ents, s)
    decreases n
  {
    if n > 0 {
      var p := Sweep(start, s, view, n - 1);
      SweepKeeps(start, s, view, n - 1);
      SweepBodies(start, s, view, n - 1);
      StepKeeps(p, s, view[n - 1]);
      StepFacts(p, s, view[n - 1]);
    }
  }

  /** `g` records whether some hook of `hooks` is a landing of `s`. */
  predicate LandingFlag(g: bool, hooks: seq<Hook>, s: Handle) {
    g <==> exists k :: 0 <= k < |hooks| && Landing(hooks[k], s)
  }

  lemma LandingAppend(g: bool, hooks: seq<Hook>, more: seq<Hook>, s: Handle, g': bool)
    requires LandingFlag(g, hooks, s)
    requires |more| > 0 && g' == (g || Landing(more[0], s))
    requires forall k :: 1 <= k < |more| ==> more[k].me != s
    ensures LandingFlag(g', hooks + more, s)
  {
    var all := hooks + more;
    if g' {
      if g {
        var k :| 0 <= k < |hooks| && Landing(hooks[k], s);
        assert all[k] == hooks[k];
      } else {
        assert all[|hooks|] == more[0];
      }
    } else {
      forall k | 0 <= k < |all| ensures !Landing(all[k], s) {
        if k < |hooks| { assert all[k] == hooks[k]; } else { assert all[k] == more[k - |hooks|]; }
      }
    }
  }

  lemma StepGrounds(p: Pass, s: Handle, i: Handle)
    requires s < |p.ents| && i < |p.ents|
    requires LandingFlag(p.ground, p.hooks, s)
    ensures LandingFlag(Step(p, s, i).ground, Step(p, s, i).hooks, s)
  {
    StepFacts(p, s, i);
    if Engages(p.ents, s, i) {
      var r := Resolve(p.ents[s], p.ents[i], Clip(p.ents[s].rect, p.ents[i].rect));
      LandingAppend(p.ground, p.hooks, NewHooks(Hook(s, i, r.c)), s, p.ground || r.grounds);
    }
  }

  /** `new_on_ground` is set exactly when some hook of the sweep was a bouncing top contact of `s`. */
  lemma {:induction false} SweepGrounds(start: seq<Ent>, s: Handle, view: seq<Handle>, n: nat)
    requires s < |start| && n <= |view| && InStore(view, |start|)
    ensures var p := Sweep(start, s, view, n); LandingFlag(p.ground, p.hooks, s)
    decreases n
  {
    if n > 0 {
      SweepGrounds(start, s, view, n - 1);
      StepGrounds(Sweep(start, s, view, n - 1), s, view[n - 1]);
    }
  }

  lemma GroupedAppend(hooks: seq<Hook>, k: Hook, s: Handle, start: seq<Ent>)
    requires Grouped(hooks, s, start) && DriverHook(k, s, start)
    ensures Grouped(hooks + NewHooks(k), s, start)
  {
    var all := hooks + NewHooks(k);
    if k.c.bounce {
      assert all[..|all| - 2] == hooks;
    } else {
      assert all[..|all| - 1] == hooks;
    }
  }

  lemma StepGrouped(p: Pass, s: Handle, i: Handle, start: seq<Ent>)
    requires s < |p.ents| && i < |p.ents| && |start| == |p.ents|
    requires start[i].kind == p.ents[i].kind
    requires Grouped(p.hooks, s, start)
    ensures Grouped(Step(p, s, i).hooks, s, start)
  {
    StepFacts(p, s, i);
    if Engages(p.ents, s, i) {
      var r := Resolve(p.ents[s], p.ents[i], Clip(p.ents[s].rect, p.ents[i].rect));
      GroupedAppend(p.hooks, Hook(s, i, r.c), s, start);
    }
  }

  /** The hooks of a sweep come in driver/mirror groups. */
  lemma {:induction false} SweepGrouped(start: seq<Ent>, s: Handle, view: seq<Handle>, n: nat)
    requires s < |start| && n <= |view| && InStore(view, |start|)
    ensures Grouped(Sweep(start, s, view, n).hooks, s, start)
    decreases n
  {
    if n > 0 {
      var p := Sweep(start, s, view, n - 1);
      SweepGrouped(start, s, view, n - 1);
      SweepBodies(start, s, view, n - 1);
      StepGrouped(p, s, view[n - 1], start);
    }
  }

  /**
   * The contract of `handle_collisions` (components.py:33-102) for entity `s` over `view`:
   * - `on_ground` afterwards is true iff some bouncing item was hit on its top by `s`;
   * - `s`'s `collided` list is exactly the bouncing items it handled, each once, never `s`;
   * - each of those had not marked `s` before and has `s` appended once; nobody else is marked;
   * - every bouncing item's hook fired right after `s`'s own, mirrored; a non-bouncing item's never.
   */
  lemma PassContract(ents: seq<Ent>, s: Handle, view: seq<Handle>)
    requires s < |ents| && InStore(view, |ents|)
    ensures var p := HandleCollisions(ents, s, view);
      && (p.ents[s].onGround <==> exists k :: 0 <= k < |p.hooks| && Landing(p.hooks[k], s))
      && p.ents[s].collided == BouncedOthers(p.hooks, s)
      && NoDup(p.ents[s].collided) && s !in p.ents[s].collided
      && (forall j :: j in p.ents[s].collided ==> j < |ents| && s !in ents[j].collided)
      && (forall j :: 0 <= j < |ents| && j != s ==>
            p.ents[j].collided == ents[j].collided + (if j in p.ents[s].collided then [s] else []))
      && Grouped(p.hooks, s, ents)
  {
    var start := ents[s := ents[s].(collided := [])];
    var q := Sweep(start, s, view, |view|);
    SweepMarks(start, s, view, |view|);
    SweepGrounds(start, s, view, |view|);
    SweepGrouped(start, s, view, |view|);
    GroupedSameKinds(q.hooks, s, start, ents);
  }

  /** `Grouped` only looks at the kinds of the store. */
  lemma {:induction false} GroupedSameKinds(hooks: seq<Hook>, s: Handle, a: seq<Ent>, b: seq<Ent>)
    requires |a| == |b| && forall j :: 0 <= j < |a| ==> a[j].kind == b[j].kind
    requires Grouped(hooks, s, a)
    ensures Grouped(hooks, s, b)
    decreases |hooks|
  {
    if hooks != [] {
      var n := |hooks|;
      if DriverHook(hooks[n - 1], s, a) && !hooks[n - 1].c.bounce && Grouped(hooks[..n - 1], s, a) {
        GroupedSameKinds(hooks[..n - 1], s, a, b);
      } else {
        GroupedSameKinds(hooks[..n - 2], s, a, b);
      }
    }
  }

  /** The pass keeps the store invariants; every entity other than `s` stays put, a platform but for sliding along its row. */
  lemma PassKeeps(ents: seq<Ent>, s: Handle, view: seq<Handle>)
    requires s < |ents| && InStore(view, |ents|)
    requires WellFormed(ents) && BricksAtSpawn(ents) && PlatformsSliding(ents)
    ensures var p := HandleCollisions(ents, s, view);
      && WellFormed(p.ents) && BricksAtSpawn(p.ents) && PlatformsSliding(p.ents)
      && OthersStayPut(ents, p.ents, s) && SameBodies(ents, p.ents)
  {
    var start := ents[s := ents[s].(collided := [])];
    SweepKeeps(start, s, view, |view|);
    SweepBodies(start, s, view, |view|);
  }
  /**
   * What a pass never undoes: every entity that had a `ground` still has one, every entity flagged
   * for removal still is, and no entity's jump state (`jumping`, `last_on_ground`) changed.
   */
  predicate Persists(a: seq<Ent>, b: seq<Ent>) {
    && |a| == |b|
    && (forall j :: 0 <= j < |a| && a[j].ground.Some? ==> b[j].ground.Some?)
    && (forall j :: 0 <= j < |a| && a[j].remove ==> b[j].remove)
    && (forall j :: 0 <= j < |a| ==> b[j].jumping == a[j].jumping && b[j].lastOnGround == a[j].lastOnGround)
  }

  /** What `Persists` asks of one entity. */
  predicate Lasting(o: Ent, e: Ent) {
    (o.ground.Some? ==> e.ground.Some?) && (o.remove ==> e.remove) &&
    e.jumping == o.jumping && e.lastOnGround == o.lastOnGround
  }

  lemma PairPersists(ents: seq<Ent>, s: Handle, i: Handle, a: Ent, b: Ent)
    requires s < |ents| && i < |ents| && s != i && Lasting(ents[s], a) && Lasting(ents[i], b)
    ensures Persists(ents, ents[s := a][i := b])
  {
  }

  /** A hook keeps what `Persists` asks, of both entities. */
  lemma HookLasting(me: Ent, other: Ent, otherH: Handle, c: Collision)
    ensures var r := React(me, other, otherH, c); Lasting(me, r.0) && Lasting(other, r.1)
  {
  }

  lemma StepPersists(p: Pass, s: Handle, i: Handle)
    requires s < |p.ents| && i < |p.ents|
    ensures Persists(p.ents, Step(p, s, i).ents)
  {
    var ents := p.ents;
    if Engages(ents, s, i) {
      var r := Resolve(ents[s], ents[i], Clip(ents[s].rect, ents[i].rect));
      var (me2, it2) := React(r.me, r.it, i, r.c);
      HookLasting(r.me, r.it, i, r.c);
      assert Lasting(ents[s], me2);
      if r.c.bounce {
        var me3 := me2.(collided := me2.collided + [i]);
        var it3 := it2.(collided := it2.collided + [s]);
        var (it4, me4) := React(it3, me3, s, Mirror(r.c));
        HookLasting(it3, me3, s, Mirror(r.c));
        PairPersists(ents, s, i, me4, it4);
      } else {
        PairPersists(ents, s, i, me2, it2);
      }
    }
  }

  /**
   * A pass never clears a `ground` reference or a `remove` flag: the hooks only ever set them
   * (components.py:194-196, 336, 349); and it leaves the jump state alone. Together with
   * `Updates.Settle` this is why the Player's ground, once set, stays set.
   */
  lemma {:induction false} SweepPersists(start: seq<Ent>, s: Handle, view: seq<Handle>, n: nat)
    requires s < |start| && n <= |view| && InStore(view, |start|)
    ensures Persists(start, Sweep(start, s, view, n).ents)
    decreases n
  {
    if n > 0 {
      SweepPersists(start, s, view, n - 1);
      StepPersists(Sweep(start, s, view, n - 1), s, view[n - 1]);
    }
  }

  lemma PassPersists(ents: seq<Ent>, s: Handle, view: seq<Handle>)
    requires s < |ents| && InStore(view, |ents|)
    ensures Persists(ents, HandleCollisions(ents, s, view).ents)
  {
    SweepPersists(ents[s := ents[s].(collided := [])], s, view, |view|);
  }
}

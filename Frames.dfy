/**
 * One frame of the game loop without its I/O (main.py:85-100): the player moves first against the
 * world; a removed player restarts the level, a player on the goal starts the next one; otherwise
 * every world item moves against the player and the world, and the items still alive and not
 * players form the next world, in their old order.
 */
module Frames {
  import opened Wrappers
  import opened Entities
  import opened Store
  import opened Collisions
  import opened PassLemmas
  import opened Updates
  import opened UpdateLemmas

  /** The filter of main.py:98: an item stays in the world. */
  predicate Survives(e: Ent) {
    !e.remove && e.kind != Player
  }

  /** Entity `h` of the store is not flagged for removal. */
  predicate Alive(ents: seq<Ent>, h: Handle) {
    h < |ents| && !ents[h].remove
  }

  /**
   * What an item update may do to the store, as far as the filter is concerned: keep its size,
   * every entity's class and every removal flag, and the store invariants.
   */
  predicate Keeps(a: seq<Ent>, b: seq<Ent>) {
    && |b| == |a|
    && (Good(a) ==> Good(b))
    && (forall j :: 0 <= j < |a| ==> b[j].kind == a[j].kind && (a[j].remove ==> b[j].remove))
  }

  /** Every application of `step` keeps the store in the sense of `Keeps`. */
  ghost predicate Lawful(step: (seq<Ent>, Handle) -> seq<Ent>) {
    forall a: seq<Ent>, h: Handle :: Keeps(a, step(a, h))
  }

  /** `item.update(view)` for every store: `Update` where its preconditions hold, else nothing. */
  function Move(view: seq<Handle>, keys: Keys, conv: real -> int): (seq<Ent>, Handle) -> seq<Ent> {
    (a: seq<Ent>, h: Handle) =>
      if h < |a| && InStore(view, |a|) && Good(a) then Update(a, h, view, keys, conv) else a
  }

  /** Each item update keeps the store. */
  lemma MoveLawful(view: seq<Handle>, keys: Keys, conv: real -> int)
    ensures Lawful(Move(view, keys, conv))
  {
    forall a: seq<Ent>, h: Handle ensures Keeps(a, Move(view, keys, conv)(a, h)) {
      if h < |a| && InStore(view, |a|) && Good(a) {
        UpdateKeeps(a, h, view, keys, conv);
        UpdateNeverRevives(a, h, view, keys, conv);
      }
    }
  }

  /** Where `Update` applies, `Move` is `Update`. */
  lemma MoveIsUpdate(view: seq<Handle>, keys: Keys, conv: real -> int, a: seq<Ent>, h: Handle)
    requires h < |a| && InStore(view, |a|) && Good(a)
    ensures Move(view, keys, conv)(a, h) == Update(a, h, view, keys, conv)
  {
  }

  /**
   * The loop of main.py:96-99 over the first `k` items of `world`: each is updated by `step`,
   * then kept when it survives. Returns the store and the kept handles.
   */
  function Items(ents: seq<Ent>, world: seq<Handle>, step: (seq<Ent>, Handle) -> seq<Ent>, k: nat): (r: (seq<Ent>, seq<Handle>))
    requires k <= |world|
    decreases k, 2
  {
    if k == 0 then (ents, []) else Turn(ents, world, step, k)
  }

  /** The `k`-th turn of the loop: item `world[k-1]` moves, then is kept when it survives. */
  function Turn(ents: seq<Ent>, world: seq<Handle>, step: (seq<Ent>, Handle) -> seq<Ent>, k: nat): (r: (seq<Ent>, seq<Handle>))
    requires 0 < k <= |world|
    decreases k, 1
  {
    var kept := Items(ents, world, step, k - 1).1;
    var h := world[k - 1];
    var next := Moved(ents, world, step, k);
    (next, if h < |next| && Survives(next[h]) then kept + [h] else kept)
  }

  /** The store after the update of the `k`-th turn. */
  function Moved(ents: seq<Ent>, world: seq<Handle>, step: (seq<Ent>, Handle) -> seq<Ent>, k: nat): (r: seq<Ent>)
    requires 0 < k <= |world|
    decreases k, 0
  {
    step(Items(ents, world, step, k - 1).0, world[k - 1])
  }

  /** With a lawful step, the loop keeps the store in the sense of `Keeps`. */
  lemma {:induction false} ItemsKeep(ents: seq<Ent>, world: seq<Handle>, step: (seq<Ent>, Handle) -> seq<Ent>, k: nat)
    requires Lawful(step) && k <= |world|
    ensures Keeps(ents, Items(ents, world, step, k).0)
    decreases k
  {
    if k > 0 {
      ItemsUnfold(ents, world, step, k);
      ItemsKeep(ents, world, step, k - 1);
      var prev := Items(ents, world, step, k - 1);
      assert Keeps(prev.0, step(prev.0, world[k - 1]));
    }
  }

  /** Turn `k` of the loop, in terms of the loop state after `k - 1` turns. */
  lemma ItemsUnfold(ents: seq<Ent>, world: seq<Handle>, step: (seq<Ent>, Handle) -> seq<Ent>, k: nat)
    requires 0 < k <= |world|
    ensures var prev := Items(ents, world, step, k - 1); var h := world[k - 1]; var next := step(prev.0, h);
      Items(ents, world, step, k) == (next, if h < |next| && Survives(next[h]) then prev.1 + [h] else prev.1)
  {
    assert Items(ents, world, step, k) == Turn(ents, world, step, k);
    assert Moved(ents, world, step, k) == step(Items(ents, world, step, k - 1).0, world[k - 1]);
  }

  /** One more item of the loop. */
  lemma ItemsNext(ents: seq<Ent>, world: seq<Handle>, step: (seq<Ent>, Handle) -> seq<Ent>, k: nat, before: seq<Ent>, kept: seq<Handle>, after: seq<Ent>)
    requires k < |world| && Items(ents, world, step, k) == (before, kept) && after == step(before, world[k])
    ensures Items(ents, world, step, k + 1) ==
      (after, if world[k] < |after| && Survives(after[world[k]]) then kept + [world[k]] else kept)
  {
    ItemsUnfold(ents, world, step, k + 1);
  }

  /** What a frame leads to: a level to rebuild, or the next store and world. */
  datatype Outcome = Restart(level: int) | Continue(ents: seq<Ent>, world: seq<Handle>)

  /** The store once the player (handle 0) has moved against `world` (main.py:88). */
  function PlayerMoved(ents: seq<Ent>, world: seq<Handle>, keys: Keys, conv: real -> int): (r: seq<Ent>)
    requires Good(ents) && |ents| > 0 && InStore(world, |ents|)
    ensures Good(r) && SameBodies(ents, r)
  {
    UpdateKeeps(ents, 0, world, keys, conv);
    Update(ents, 0, world, keys, conv)
  }

  /** main.py:88-100 for one frame with the keys held during it. */
  function FrameStep(ents: seq<Ent>, world: seq<Handle>, keys: Keys, conv: real -> int): (r: Outcome)
    requires Good(ents) && |ents| > 0 && InStore(world, |ents|)
  {
    var moved := PlayerMoved(ents, world, keys, conv);
    if moved[0].remove then Restart(moved[0].level)
    else if moved[0].nextLevel then Restart(moved[0].level + 1)
    else
      var items := Items(moved, world, Move([0] + world, keys, conv), |world|);
      Continue(items.0, items.1)
  }

  /** `idx` picks `a` out of `b` in order: `a[j] == b[idx[j]]` with `idx` strictly increasing. */
  predicate Picks(idx: seq<nat>, a: seq<Handle>, b: seq<Handle>) {
    && |idx| == |a|
    && (forall j :: 0 <= j < |idx| ==> idx[j] < |b| && a[j] == b[idx[j]])
    && (forall j, l :: 0 <= j < l < |idx| ==> idx[j] < idx[l])
  }

  /** `a` is a subsequence of `b`. */
  ghost predicate Subsequence(a: seq<Handle>, b: seq<Handle>) {
    exists idx :: Picks(idx, a, b)
  }

  /** Every kept handle is one of the first `k` items of `world`, not a player. */
  lemma {:induction false} KeptInWorld(ents: seq<Ent>, world: seq<Handle>, step: (seq<Ent>, Handle) -> seq<Ent>, k: nat)
    requires Lawful(step) && k <= |world|
    ensures forall h :: h in Items(ents, world, step, k).1 ==> h in world[..k] && h < |ents| && ents[h].kind != Player
    decreases k
  {
    if k > 0 {
      ItemsUnfold(ents, world, step, k);
      KeptInWorld(ents, world, step, k - 1);
      ItemsKeep(ents, world, step, k - 1);
      var prev := Items(ents, world, step, k - 1);
      assert Keeps(prev.0, step(prev.0, world[k - 1]));
      assert world[..k] == world[..k - 1] + [world[k - 1]];
    }
  }

  /** Picking one more element of `b`, past every element picked so far. */
  lemma PicksAppend(idx: seq<nat>, a: seq<Handle>, b: seq<Handle>, n: nat)
    requires Picks(idx, a, b) && n < |b| && forall j :: 0 <= j < |idx| ==> idx[j] < n
    ensures Picks(idx + [n], a + [b[n]], b)
  {
  }

  /** The kept handles keep the order they had in `world`. */
  lemma {:induction false} KeptInOrder(ents: seq<Ent>, world: seq<Handle>, step: (seq<Ent>, Handle) -> seq<Ent>, k: nat)
    returns (idx: seq<nat>)
    requires k <= |world|
    ensures Picks(idx, Items(ents, world, step, k).1, world)
    ensures forall j :: 0 <= j < |idx| ==> idx[j] < k
    decreases k
  {
    if k == 0 {
      idx := [];
    } else {
      ItemsUnfold(ents, world, step, k);
      var prev := KeptInOrder(ents, world, step, k - 1);
      var before := Items(ents, world, step, k - 1);
      var next := step(before.0, world[k - 1]);
      if world[k - 1] < |next| && Survives(next[world[k - 1]]) {
        assert Items(ents, world, step, k).1 == before.1 + [world[k - 1]];
        PicksAppend(prev, before.1, world, k - 1);
        idx := prev + [k - 1];
      } else {
        assert Items(ents, world, step, k).1 == before.1;
        idx := prev;
      }
    }
  }

  /** The kept handles form a subsequence of `world`. */
  lemma KeptSubsequence(ents: seq<Ent>, world: seq<Handle>, step: (seq<Ent>, Handle) -> seq<Ent>)
    ensures Subsequence(Items(ents, world, step, |world|).1, world)
  {
    var idx := KeptInOrder(ents, world, step, |world|);
  }

  /** The last turn decides only about its own item. */
  lemma KeptExtends(ents: seq<Ent>, world: seq<Handle>, step: (seq<Ent>, Handle) -> seq<Ent>, k: nat, x: Handle)
    requires 0 < k <= |world| && x != world[k - 1]
    ensures x in Items(ents, world, step, k).1 <==> x in Items(ents, world, step, k - 1).1
  {
    ItemsUnfold(ents, world, step, k);
  }

  /** The last item is kept exactly when it is not a player and its own update left it unflagged. */
  lemma KeptLast(ents: seq<Ent>, world: seq<Handle>, step: (seq<Ent>, Handle) -> seq<Ent>, k: nat)
    requires Lawful(step) && InStore(world, |ents|) && NoDup(world) && 0 < k <= |world|
    ensures world[k - 1] in Items(ents, world, step, k).1 <==>
      ents[world[k - 1]].kind != Player && Alive(Items(ents, world, step, k).0, world[k - 1])
  {
    var h := world[k - 1];
    var before := Items(ents, world, step, k - 1);
    var next := step(before.0, h);
    ItemsUnfold(ents, world, step, k);
    ItemsKeep(ents, world, step, k - 1);
    assert Keeps(before.0, next);
    KeptInWorld(ents, world, step, k - 1);
    forall j | 0 <= j < k - 1 ensures world[j] != h {}
    assert h !in world[..k - 1];
  }

  /**
   * With no handle twice in `world`, item `i` is kept exactly when it is not a player and its own
   * update (the `i+1`-th of the loop) left it unflagged.
   */
  lemma {:induction false} KeptExactly(ents: seq<Ent>, world: seq<Handle>, step: (seq<Ent>, Handle) -> seq<Ent>, k: nat, i: nat)
    requires Lawful(step) && InStore(world, |ents|) && NoDup(world) && i < k <= |world|
    ensures world[i] in Items(ents, world, step, k).1 <==>
      ents[world[i]].kind != Player && Alive(Items(ents, world, step, i + 1).0, world[i])
    decreases k
  {
    if i < k - 1 {
      KeptExactly(ents, world, step, k - 1, i);
      KeptExtends(ents, world, step, k, world[i]);
    } else {
      KeptLast(ents, world, step, k);
    }
  }

  /** After the whole loop: an item still alive at the end and not a player has been kept. */
  lemma {:induction false} AliveKept(ents: seq<Ent>, world: seq<Handle>, step: (seq<Ent>, Handle) -> seq<Ent>, k: nat, i: nat)
    requires Lawful(step) && InStore(world, |ents|) && NoDup(world) && i < k <= |world|
    requires ents[world[i]].kind != Player
    requires Alive(Items(ents, world, step, k).0, world[i])
    ensures world[i] in Items(ents, world, step, k).1
    decreases k
  {
    if i < k - 1 {
      var before := Items(ents, world, step, k - 1);
      var next := step(before.0, world[k - 1]);
      ItemsNext(ents, world, step, k - 1, before.0, before.1, next);
      ItemsKeep(ents, world, step, k - 1);
      assert Keeps(before.0, next);
      AliveKept(ents, world, step, k - 1, i);
    } else {
      ItemsUnfold(ents, world, step, k);
      ItemsKeep(ents, world, step, k);
      KeptExactly(ents, world, step, k, i);
    }
  }

  /** The kept handles have no duplicates when `world` has none. */
  lemma {:induction false} KeptNoDup(ents: seq<Ent>, world: seq<Handle>, step: (seq<Ent>, Handle) -> seq<Ent>, k: nat)
    requires Lawful(step) && NoDup(world) && k <= |world|
    ensures NoDup(Items(ents, world, step, k).1)
    decreases k
  {
    if k > 0 {
      ItemsUnfold(ents, world, step, k);
      KeptNoDup(ents, world, step, k - 1);
      KeptInWorld(ents, world, step, k - 1);
      var h := world[k - 1];
      var before := Items(ents, world, step, k - 1);
      var next := step(before.0, h);
      assert Items(ents, world, step, k).1 == if h < |next| && Survives(next[h]) then before.1 + [h] else before.1;
      forall j | 0 <= j < k - 1 ensures world[j] != h {}
      assert h !in world[..k - 1];
    }
  }

  /**
   * A frame restarts exactly when the moved player is flagged: a removed player restarts its own
   * level, which takes precedence over the goal; a player who reached the goal starts the next
   * level (main.py:87-93).
   */
  lemma FrameRestarts(ents: seq<Ent>, world: seq<Handle>, keys: Keys, conv: real -> int)
    requires Good(ents) && |ents| > 0 && InStore(world, |ents|)
    ensures var moved := PlayerMoved(ents, world, keys, conv);
      FrameStep(ents, world, keys, conv).Restart? <==> moved[0].remove || moved[0].nextLevel
    ensures var moved := PlayerMoved(ents, world, keys, conv);
      && (moved[0].remove ==> FrameStep(ents, world, keys, conv) == Restart(ents[0].level))
      && (!moved[0].remove && moved[0].nextLevel ==> FrameStep(ents, world, keys, conv) == Restart(ents[0].level + 1))
  {
  }

  /**
   * A frame that does not restart keeps the store invariants, every class, and a world of
   * distinct non-player handles drawn in order from the old one (main.py:94-100).
   */
  lemma FrameKeeps(ents: seq<Ent>, world: seq<Handle>, keys: Keys, conv: real -> int)
    requires Good(ents) && |ents| > 0 && InStore(world, |ents|) && NoDup(world)
    requires forall h :: h in world ==> ents[h].kind != Player
    ensures match FrameStep(ents, world, keys, conv)
      case Restart(_) => true
      case Continue(e, w) =>
        && Good(e) && |e| == |ents| && (forall j :: 0 <= j < |e| ==> e[j].kind == ents[j].kind)
        && InStore(w, |e|) && NoDup(w) && Subsequence(w, world)
        && (forall h :: h in w ==> e[h].kind != Player)
  {
    var moved := PlayerMoved(ents, world, keys, conv);
    if !moved[0].remove && !moved[0].nextLevel {
      var step := Move([0] + world, keys, conv);
      MoveLawful([0] + world, keys, conv);
      ItemsKeep(moved, world, step, |world|);
      var r := Items(moved, world, step, |world|);
      KeptInWorld(moved, world, step, |world|);
      KeptNoDup(moved, world, step, |world|);
      KeptSubsequence(moved, world, step);
      assert world[..|world|] == world;
      assert FrameStep(ents, world, keys, conv) == Continue(r.0, r.1);
    }
  }
}

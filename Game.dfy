/**
 * The game state of main.py and the loops that change it: `handle_collisions` and `update` over
 * the entity store, `reset` scanning the layout grid, and one frame of the game loop.
 */
module GameLoop {
  import opened Wrappers
  import opened Vectors
  import opened Entities
  import opened Store
  import opened Behaviours
  import opened Collisions
  import opened PassLemmas
  import opened Updates
  import opened UpdateLemmas
  import opened Levels
  import opened LevelLemmas
  import opened Frames

  /** `reset`'s scan of the grid (main.py:14-60), row by row and cell by cell. */
  method Build(cfg: Config, layouts: seq<seq<string>>, signTexts: seq<seq<string>>, level: int, score: (int, int))
    returns (r: Result<Level, BuildError>)
    ensures r == BuildLevel(cfg, layouts, signTexts, level, score)
  {
    var found := PyIndex(layouts, level - 1);
    if found.None? {
      return Failure(NoSuchLevel);
    }
    var layout := found.value;
    if |layout| == 0 {
      return Failure(EmptyLayout);
    }
    if |layout[0]| == 0 {
      return Failure(EmptyFirstRow);
    }
    var texts := PyIndex(signTexts, level - 1);
    var b0 := Initial(cfg, level, |layout[0]|, score);
    var b := b0;
    var yi := 0;
    while yi < |layout|
      invariant 0 <= yi <= |layout| && Tracked(b)
      invariant ScanGrid(cfg, texts, b0, layout, 0) == ScanGrid(cfg, texts, b, layout, yi)
      decreases |layout| - yi
    {
      var row := layout[yi];
      var rb0 := b.(rowLast := map[]);
      var rb := rb0;
      var xi := 0;
      while xi < |row|
        invariant 0 <= xi <= |row| && Tracked(rb)
        invariant ScanRow(cfg, texts, rb0, yi, row, 0) == ScanRow(cfg, texts, rb, yi, row, xi)
        decreases |row| - xi
      {
        var c := CellStep(cfg, texts, rb, xi, yi, row[xi]);
        if c.Failure? {
          assert ScanRow(cfg, texts, rb0, yi, row, 0) == Failure(c.error);
          return Failure(c.error);
        }
        rb := c.value;
        xi := xi + 1;
      }
      assert ScanRow(cfg, texts, rb0, yi, row, 0) == Success(rb);
      b := rb;
      yi := yi + 1;
    }
    return Success(Level(b.ents, b.world, b.signs, b.score));
  }

  /**
   * The globals of main.py: the entity store (the player at handle 0), `world`, `signs` and
   * `score_loc`, with the levels and sign texts they are built from. `crashed` is the exception
   * that `reset` raised, after which the loop does nothing.
   */
  class Game {
    const cfg: Config
    const layouts: seq<seq<string>>
    const signTexts: seq<seq<string>>
    var ents: seq<Ent>
    var world: seq<Handle>
    var signs: seq<Sign>
    var score: (int, int)
    var crashed: Option<BuildError>

    /** The store invariants, one player at handle 0, and a world of distinct other entities. */
    ghost predicate Valid()
      reads this
    {
      && ValidConfig(cfg) && Good(ents) && OnePlayer(ents)
      && InStore(world, |ents|) && NoDup(world) && (forall h :: h in world ==> ents[h].kind != Player)
    }

    /** The state `reset(level)` leaves, given the state before it: a new level, or the crash. */
    ghost predicate ResetTo(level: int, ents0: seq<Ent>, world0: seq<Handle>, signs0: seq<Sign>, score0: (int, int))
      reads this
    {
      match BuildLevel(cfg, layouts, signTexts, level, score0)
      case Success(v) => ents == v.ents && world == v.world && signs == v.signs && score == v.score && crashed == None
      case Failure(e) => ents == ents0 && world == world0 && signs == signs0 && score == score0 && crashed == Some(e)
    }

    /** The start of main.py (lines 61-65): empty globals, then `reset(1)`. */
    constructor (cfg: Config, layouts: seq<seq<string>>, signTexts: seq<seq<string>>)
      requires ValidConfig(cfg)
      ensures this.cfg == cfg && this.layouts == layouts && this.signTexts == signTexts
      ensures Valid() && ResetTo(1, [NewPlayer(cfg, 1)], [], [], (0, 0))
    {
      this.cfg := cfg;
      this.layouts := layouts;
      this.signTexts := signTexts;
      ents := [NewPlayer(cfg, 1)];
      world := [];
      signs := [];
      score := (0, 0);
      crashed := None;
      new;
      assert Good(ents);
      Reset(1);
    }

    /** `reset(level)` (main.py:14-60). */
    method Reset(level: int)
      requires Valid()
      modifies this
      ensures Valid() && ResetTo(level, old(ents), old(world), old(signs), old(score))
    {
      var r := Build(cfg, layouts, signTexts, level, score);
      BuildSound(cfg, layouts, signTexts, level, score);
      match r
      case Failure(e) =>
        crashed := Some(e);
      case Success(v) =>
        ents, world, signs, score, crashed := v.ents, v.world, v.signs, v.score, None;
    }

    /** `handle_collisions(view)` (components.py:33-102) for entity `s`. */
    method Collide(s: Handle, view: seq<Handle>)
      requires s < |ents| && InStore(view, |ents|)
      modifies this
      ensures ents == HandleCollisions(old(ents), s, view).ents
      ensures world == old(world) && signs == old(signs) && score == old(score) && crashed == old(crashed)
    {
      var start := ents[s := ents[s].(collided := [])];
      var p := Pass(start, false, []);
      var k := 0;
      while k < |view|
        invariant 0 <= k <= |view| && p == Sweep(start, s, view, k)
      {
        p := Step(p, s, view[k]);
        k := k + 1;
      }
      ents := p.ents[s := p.ents[s].(onGround := p.ground)];
    }

    /** `Entity.update(view)` (components.py:112-121) for entity `s`. */
    method Integrated(s: Handle, view: seq<Handle>, gravity: bool)
      requires s < |ents| && InStore(view, |ents|) && ents[s].mass > 0.0
      modifies this
      ensures ents == BaseUpdate(old(ents), s, view, gravity, cfg.conv)
      ensures world == old(world) && signs == old(signs) && score == old(score) && crashed == old(crashed)
    {
      ghost var e := if gravity then AddGravity(ents[s]) else ents[s];
      if gravity {
        ents := ents[s := AddGravity(ents[s])];
      }
      ents := ents[s := Integrate(ents[s], cfg.conv)];
      assert ents == old(ents)[s := Integrate(e, cfg.conv)];
      Collide(s, view);
      ents := ents[s := ents[s].(acc := ZERO)];
    }

    /** `Player.update(view)` (components.py:201-226). */
    method PlayerStep(s: Handle, view: seq<Handle>, keys: Keys)
      requires s < |ents| && InStore(view, |ents|) && ents[s].mass > 0.0
      requires ents[s].ground.Some? ==> ents[s].ground.value < |ents|
      modifies this
      ensures ents == PlayerUpdate(old(ents), s, view, keys, cfg.conv)
      ensures world == old(world) && signs == old(signs) && score == old(score) && crashed == old(crashed)
    {
      ents := ents[s := PlayerDrive(ents, ents[s], keys)];
      Integrated(s, view, true);
      ents := ents[s := Settle(ents[s])];
    }

    /** `SlidingBrick.update(view)` (components.py:297-305). */
    method SlidingStep(s: Handle, view: seq<Handle>)
      requires s < |ents| && InStore(view, |ents|) && ents[s].mass > 0.0
      modifies this
      ensures ents == SlidingUpdate(old(ents), s, view, cfg.conv)
      ensures world == old(world) && signs == old(signs) && score == old(score) && crashed == old(crashed)
    {
      ents := ents[s := SlidingDrive(ents[s])];
      Integrated(s, view, false);
      ents := ents[s := ents[s].(rect := ents[s].rect.(y := ents[s].initY))];
    }

    /** `item.update(view)` for entity `s`, dispatched on its class. */
    method UpdateEntity(s: Handle, view: seq<Handle>, keys: Keys)
      requires s < |ents| && InStore(view, |ents|) && Good(ents)
      modifies this
      ensures ents == Update(old(ents), s, view, keys, cfg.conv)
      ensures world == old(world) && signs == old(signs) && score == old(score) && crashed == old(crashed)
    {
      match ents[s].kind
      case Player =>
        PlayerStep(s, view, keys);
      case Box =>
        ents := ents[s := BoxDrive(ents[s])];
        Integrated(s, view, true);
      case Brick | GrassBrick | SlidingBrickBouncer | Lava =>
        ents := ents[s := Anchor(ents[s])];
        Collide(s, view);
      case SlidingBrick =>
        SlidingStep(s, view);
      case Goal | Enemy =>
        Integrated(s, view, true);
    }

    /**
     * Turn `k` of the loop of main.py:96-99: item `world[k]` moves, and is kept when it survives;
     * `e0` is the store the loop started from.
     */
    method MoveItem(ghost e0: seq<Ent>, k: nat, view: seq<Handle>, keys: Keys, kept: seq<Handle>)
      returns (kept': seq<Handle>)
      requires k < |world| && InStore(view, |ents|) && InStore(world, |ents|) && Good(ents)
      requires (ents, kept) == Items(e0, world, Move(view, keys, cfg.conv), k)
      modifies this
      ensures world == old(world) && signs == old(signs) && score == old(score) && crashed == old(crashed)
      ensures (ents, kept') == Items(e0, world, Move(view, keys, cfg.conv), k + 1)
      ensures Good(ents) && |ents| == |old(ents)|
    {
      var h := world[k];
      MoveIsUpdate(view, keys, cfg.conv, ents, h);
      UpdateKeeps(ents, h, view, keys, cfg.conv);
      UpdateEntity(h, view, keys);
      kept' := kept;
      if !ents[h].remove && ents[h].kind != Player {
        kept' := kept + [h];
      }
      ItemsNext(e0, world, Move(view, keys, cfg.conv), k, old(ents), kept, ents);
    }

    /**
     * The loop of main.py:94-100: every world item moves against the player and the world, and
     * the survivors, in order, become the new world.
     */
    method MoveItems(keys: Keys)
      requires Good(ents) && |ents| > 0 && InStore(world, |ents|)
      modifies this
      ensures (ents, world) == Items(old(ents), old(world), Move([0] + old(world), keys, cfg.conv), |old(world)|)
      ensures signs == old(signs) && score == old(score) && crashed == old(crashed)
    {
      var view := [0] + world;
      var kept := [];
      var k := 0;
      while k < |world|
        invariant 0 <= k <= |world| && world == old(world)
        invariant (ents, kept) == Items(old(ents), world, Move(view, keys, cfg.conv), k)
        invariant Good(ents) && |ents| == |old(ents)|
        invariant signs == old(signs) && score == old(score) && crashed == old(crashed)
      {
        kept := MoveItem(old(ents), k, view, keys, kept);
        k := k + 1;
      }
      world := kept;
    }

    /** The player's move at the start of a frame (main.py:86), against the current world. */
    method MovePlayer(keys: Keys)
      requires Valid()
      modifies this
      ensures ents == PlayerMoved(old(ents), old(world), keys, cfg.conv)
      ensures world == old(world) && signs == old(signs) && score == old(score) && crashed == old(crashed)
      ensures Valid()
    {
      UpdateEntity(0, world, keys);
      assert ents == PlayerMoved(old(ents), old(world), keys, cfg.conv);
      assert OnePlayer(ents);
    }

    /**
     * The rest of a frame once the player, moved from store `e0`, is neither removed nor on the
     * goal (main.py:94-100): the world items move and the survivors become the world.
     */
    method MoveWorld(ghost e0: seq<Ent>, keys: Keys)
      requires Valid() && Good(e0) && |e0| > 0 && InStore(world, |e0|) && NoDup(world)
      requires forall h :: h in world ==> e0[h].kind != Player
      requires ents == PlayerMoved(e0, world, keys, cfg.conv) && !ents[0].remove && !ents[0].nextLevel
      modifies this
      ensures Valid() && FrameStep(e0, old(world), keys, cfg.conv) == Continue(ents, world)
      ensures signs == old(signs) && score == old(score) && crashed == old(crashed)
    {
      FrameRestarts(e0, world, keys, cfg.conv);
      FrameKeeps(e0, world, keys, cfg.conv);
      MoveItems(keys);
      assert OnePlayer(ents);
    }

    /**
     * One frame of main.py:85-100 with the keys held during it: nothing once `reset` has raised;
     * otherwise the player moves, a flagged player restarts this level or the next, and the
     * world items move and are filtered.
     */
    method Frame(keys: Keys)
      requires Valid()
      modifies this
      ensures Valid()
      ensures old(crashed).Some? ==>
        ents == old(ents) && world == old(world) && signs == old(signs) && score == old(score) && crashed == old(crashed)
      ensures old(crashed).None? ==>
        match FrameStep(old(ents), old(world), keys, cfg.conv)
        case Restart(level) =>
          ResetTo(level, PlayerMoved(old(ents), old(world), keys, cfg.conv), old(world), old(signs), old(score))
        case Continue(e, w) =>
          ents == e && world == w && signs == old(signs) && score == old(score) && crashed == None
    {
      if crashed.Some? {
        return;
      }
      ghost var out := FrameStep(ents, world, keys, cfg.conv);
      FrameRestarts(ents, world, keys, cfg.conv);
      MovePlayer(keys);
      if ents[0].remove {
        assert out == Restart(ents[0].level);
        Reset(ents[0].level);
        return;
      }
      if ents[0].nextLevel {
        assert out == Restart(ents[0].level + 1);
        Reset(ents[0].level + 1);
        return;
      }
      MoveWorld(old(ents), keys);
      assert out == Continue(ents, world);
    }
  }
}

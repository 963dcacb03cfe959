/** What a built level looks like, proved as an invariant of the cell-by-cell scan. */
module LevelLemmas {
  import opened Wrappers
  import opened Vectors
  import opened Geometry
  import opened Settings
  import opened Entities
  import opened Store
  import opened Collisions
  import opened PassLemmas
  import opened Levels

  /** Every non-player entity is in `world` exactly once; the player is not in it. */
  predicate WorldExact(ents: seq<Ent>, world: seq<Handle>) {
    && NoDup(world)
    && (forall k :: 0 <= k < |world| ==> 1 <= world[k] < |ents|)
    && (forall h :: 1 <= h < |ents| ==> h in world)
  }

  /**
   * Merged classes come first in `world`, the newest first (they are inserted at the front); the
   * others follow in the order they were spawned (they are appended).
   */
  predicate MergesFirst(ents: seq<Ent>, world: seq<Handle>)
    requires InStore(world, |ents|)
  {
    forall i, j :: 0 <= i < j < |world| ==>
      (Merges(ents[world[j]].kind) ==> Merges(ents[world[i]].kind) && world[i] > world[j]) &&
      (!Merges(ents[world[i]].kind) ==> world[i] < world[j])
  }

  /** Merged rectangles are one cell high or one cell wide: a row strip or a column strip. */
  predicate Strips(cfg: Config, ents: seq<Ent>) {
    forall h :: 0 <= h < |ents| && Merges(ents[h].kind) ==> ents[h].rect.w == cfg.cellW || ents[h].rect.h == cfg.cellH
  }

  /** Handle 0 is the player and no other entity is one. */
  predicate OnePlayer(ents: seq<Ent>) {
    |ents| > 0 && ents[0].kind == Player && forall h :: 1 <= h < |ents| ==> ents[h].kind != Player
  }

  /** The n-th sign carries the n-th text of the level. */
  predicate SignsFrom(texts: Option<seq<string>>, signs: seq<Sign>) {
    forall n :: 0 <= n < |signs| ==> texts.Some? && n < |texts.value| && signs[n].text == texts.value[n]
  }

  /** The invariant of the scan. */
  predicate Sound(cfg: Config, texts: Option<seq<string>>, b: Builder) {
    && Tracked(b) && OnePlayer(b.ents) && Good(b.ents)
    && WorldExact(b.ents, b.world) && InStore(b.world, |b.ents|) && MergesFirst(b.ents, b.world)
    && Strips(cfg, b.ents) && SignsFrom(texts, b.signs)
  }

  /** A freshly spawned entity satisfies the store invariants. */
  lemma SpawnedGood(cfg: Config, ents: seq<Ent>, k: Kind, x: int, y: int)
    requires ValidConfig(cfg) && Good(ents) && k != Player
    ensures Good(ents + [Spawned(cfg, k, x, y)])
  {
    var e := Spawned(cfg, k, x, y);
    assert e.rect.w > 0 && e.rect.h > 0;
    var all := ents + [e];
    assert forall j :: 0 <= j < |ents| ==> all[j] == ents[j];
  }

  /** Appending a non-merged entity to the store and to the end of `world` keeps the world's shape. */
  lemma AppendWorld(ents: seq<Ent>, world: seq<Handle>, e: Ent)
    requires |ents| > 0 && WorldExact(ents, world) && InStore(world, |ents|) && MergesFirst(ents, world) && !Merges(e.kind)
    ensures var ents' := ents + [e]; var world' := world + [|ents|];
      WorldExact(ents', world') && InStore(world', |ents'|) && MergesFirst(ents', world')
  {
    var ents' := ents + [e];
    var world' := world + [|ents|];
    assert forall j :: 0 <= j < |ents| ==> ents'[j] == ents[j];
    assert forall i :: 0 <= i < |world| ==> world'[i] == world[i] && world'[i] < |ents|;
    assert |ents| !in world;
  }

  /** Adding a merged entity to the store and to the front of `world` keeps the world's shape. */
  lemma PrependWorld(ents: seq<Ent>, world: seq<Handle>, e: Ent)
    requires |ents| > 0 && WorldExact(ents, world) && InStore(world, |ents|) && MergesFirst(ents, world) && Merges(e.kind)
    ensures var ents' := ents + [e]; var world' := [|ents|] + world;
      WorldExact(ents', world') && InStore(world', |ents'|) && MergesFirst(ents', world')
  {
    var ents' := ents + [e];
    var world' := [|ents|] + world;
    assert forall j :: 0 <= j < |ents| ==> ents'[j] == ents[j];
    assert forall i :: 0 < i < |world'| ==> world'[i] == world[i - 1] && world'[i] < |ents|;
    assert |ents| !in world;
  }

  /** A non-merging symbol appends its entity to the end of `world`. */
  lemma AppendSound(cfg: Config, texts: Option<seq<string>>, b: Builder, k: Kind, x: int, y: int)
    requires ValidConfig(cfg) && Sound(cfg, texts, b) && k != Player && !Merges(k)
    ensures Sound(cfg, texts, b.(ents := b.ents + [Spawned(cfg, k, x, y)], world := b.world + [|b.ents|]))
  {
    var e := Spawned(cfg, k, x, y);
    var ents := b.ents + [e];
    SpawnedGood(cfg, b.ents, k, x, y);
    AppendWorld(b.ents, b.world, e);
    assert forall j :: 0 <= j < |b.ents| ==> ents[j] == b.ents[j];
  }

  /** A merging symbol that merges nowhere spawns an entity at the front of `world`. */
  lemma CreateSound(cfg: Config, texts: Option<seq<string>>, b: Builder, k: Kind, x: int, y: int, ch: char, xi: nat)
    requires ValidConfig(cfg) && Sound(cfg, texts, b) && Merges(k) && xi < |b.cols|
    ensures var h: Handle := |b.ents|; var col: map<char, Handle> := b.cols[xi][ch := h];
      Sound(cfg, texts, b.(ents := b.ents + [Spawned(cfg, k, x, y)], world := [h] + b.world,
                           rowLast := b.rowLast[ch := h], cols := b.cols[xi := col]))
  {
    var e := Spawned(cfg, k, x, y);
    var ents := b.ents + [e];
    SpawnedGood(cfg, b.ents, k, x, y);
    PrependWorld(b.ents, b.world, e);
    assert forall j :: 0 <= j < |b.ents| ==> ents[j] == b.ents[j];
  }

  /** Growing a tracked entity in place keeps the invariant when the growth keeps it a strip. */
  lemma GrowSound(cfg: Config, texts: Option<seq<string>>, b: Builder, h: Handle, e: Ent)
    requires ValidConfig(cfg) && Sound(cfg, texts, b) && h < |b.ents|
    requires e.kind == b.ents[h].kind && e.mass == b.ents[h].mass && e.initPos == b.ents[h].initPos && e.initY == b.ents[h].initY
    requires e.vel == b.ents[h].vel && e.acc == b.ents[h].acc && e.ground == b.ents[h].ground
    requires e.rect.x == b.ents[h].rect.x && e.rect.y == b.ents[h].rect.y && e.rect.w > 0 && e.rect.h > 0
    requires Merges(e.kind) ==> e.rect.w == cfg.cellW || e.rect.h == cfg.cellH
    ensures Sound(cfg, texts, b.(ents := b.ents[h := e]))
  {
  }

  /** The `@` cell moves the player and nothing else. */
  lemma PlayerMoveSound(cfg: Config, texts: Option<seq<string>>, b: Builder, x: int, y: int)
    requires Sound(cfg, texts, b)
    ensures Sound(cfg, texts, b.(ents := b.ents[0 := b.ents[0].(rect := b.ents[0].rect.(x := x, y := y))]))
  {
  }

  /** A spawning symbol keeps the invariant, whether it merges or not. */
  lemma SpawnSound(cfg: Config, texts: Option<seq<string>>, b: Builder, xi: nat, yi: nat, ch: char)
    requires ValidConfig(cfg) && Sound(cfg, texts, b) && xi < |b.cols| && TileOf(ch).Spawn?
    ensures Sound(cfg, texts, CellStep(cfg, texts, b, xi, yi, ch).value)
  {
    var x := xi * cfg.cellW;
    var y := yi * cfg.cellH;
    var k := TileOf(ch).kind;
    var r := CellStep(cfg, texts, b, xi, yi, ch).value;
    if !TileOf(ch).merge {
      assert r == b.(ents := b.ents + [Spawned(cfg, k, x, y)], world := b.world + [|b.ents|]);
      AppendSound(cfg, texts, b, k, x, y);
    } else if RowMerge(cfg, b, ch, x) {
      var h := b.rowLast[ch];
      var e := b.ents[h].(rect := b.ents[h].rect.(w := b.ents[h].rect.w + cfg.cellW));
      assert r == b.(ents := b.ents[h := e]);
      GrowSound(cfg, texts, b, h, e);
    } else if ColMerge(cfg, b, ch, xi, y) {
      var h := b.cols[xi][ch];
      var e := b.ents[h].(rect := b.ents[h].rect.(h := b.ents[h].rect.h + cfg.cellH));
      assert r == b.(ents := b.ents[h := e]);
      GrowSound(cfg, texts, b, h, e);
    } else {
      CreateSound(cfg, texts, b, k, x, y, ch, xi);
    }
  }

  /** One cell keeps the invariant. */
  lemma CellSound(cfg: Config, texts: Option<seq<string>>, b: Builder, xi: nat, yi: nat, ch: char)
    requires ValidConfig(cfg) && Sound(cfg, texts, b)
    ensures var r := CellStep(cfg, texts, b, xi, yi, ch); r.Success? ==> Sound(cfg, texts, r.value)
  {
    if xi < |b.cols| {
      if TileOf(ch).Spawn? {
        SpawnSound(cfg, texts, b, xi, yi, ch);
      } else if TileOf(ch) == PlayerCell {
        PlayerMoveSound(cfg, texts, b, xi * cfg.cellW, yi * cfg.cellH);
      }
    }
  }

  lemma {:induction false} RowSound(cfg: Config, texts: Option<seq<string>>, b: Builder, yi: nat, row: string, xi: nat)
    requires ValidConfig(cfg) && Sound(cfg, texts, b)
    ensures var r := ScanRow(cfg, texts, b, yi, row, xi); r.Success? ==> Sound(cfg, texts, r.value)
    decreases |row| - xi
  {
    if xi < |row| {
      CellSound(cfg, texts, b, xi, yi, row[xi]);
      var c := CellStep(cfg, texts, b, xi, yi, row[xi]);
      if c.Success? {
        RowSound(cfg, texts, c.value, yi, row, xi + 1);
      }
    }
  }

  lemma {:induction false} GridSound(cfg: Config, texts: Option<seq<string>>, b: Builder, layout: seq<string>, yi: nat)
    requires ValidConfig(cfg) && Sound(cfg, texts, b)
    ensures var r := ScanGrid(cfg, texts, b, layout, yi); r.Success? ==> Sound(cfg, texts, r.value)
    decreases |layout| - yi
  {
    if yi < |layout| {
      var b0 := b.(rowLast := map[]);
      RowSound(cfg, texts, b0, yi, layout[yi], 0);
      var c := ScanRow(cfg, texts, b0, yi, layout[yi], 0);
      if c.Success? {
        GridSound(cfg, texts, c.value, layout, yi + 1);
      }
    }
  }

  /**
   * A level that builds (main.py:14-60) satisfies the store invariants; its world holds every
   * entity but the player exactly once, merged classes first; merged rectangles are strips; and the
   * n-th sign shows the n-th sign text of the level.
   */
  lemma BuildSound(cfg: Config, layouts: seq<seq<string>>, signTexts: seq<seq<string>>, level: int, score: (int, int))
    requires ValidConfig(cfg)
    ensures var r := BuildLevel(cfg, layouts, signTexts, level, score);
      r.Success? ==>
        var v := r.value;
        && Good(v.ents) && OnePlayer(v.ents) && WorldExact(v.ents, v.world) && InStore(v.world, |v.ents|)
        && MergesFirst(v.ents, v.world) && Strips(cfg, v.ents)
        && SignsFrom(PyIndex(signTexts, level - 1), v.signs)
  {
    var layout := PyIndex(layouts, level - 1);
    if layout.Some? && |layout.value| > 0 {
      var texts := PyIndex(signTexts, level - 1);
      var b := Initial(cfg, level, |layout.value[0]|, score);
      assert Good(b.ents);
      GridSound(cfg, texts, b, layout.value, 0);
    }
  }

  /**
   * main.py:35-54 for a spawning symbol at cell `(xi, yi)`: the row merge widens the last
   * same-symbol entity of the row and creates nothing; failing that the column merge deepens the
   * last one of the column; failing both, a new entity is put at the front of `world` and
   * recorded for the row and the column. A non-merging symbol always appends a new entity.
   */
  lemma SpawnEffects(cfg: Config, texts: Option<seq<string>>, b: Builder, xi: nat, yi: nat, ch: char)
    requires Tracked(b) && xi < |b.cols| && TileOf(ch).Spawn?
    ensures var r := CellStep(cfg, texts, b, xi, yi, ch).value;
      var k := TileOf(ch).kind; var x := xi * cfg.cellW; var y := yi * cfg.cellH;
      && r.signs == b.signs && r.score == b.score
      && (!TileOf(ch).merge ==>
            r.ents == b.ents + [Spawned(cfg, k, x, y)] && r.world == b.world + [|b.ents|] &&
            r.rowLast == b.rowLast && r.cols == b.cols)
      && (TileOf(ch).merge && RowMerge(cfg, b, ch, x) ==>
            var h := b.rowLast[ch];
            |r.ents| == |b.ents| && r.world == b.world &&
            r.ents[h].rect == b.ents[h].rect.(w := b.ents[h].rect.w + cfg.cellW) &&
            (forall j :: 0 <= j < |b.ents| && j != h ==> r.ents[j] == b.ents[j]))
      && (TileOf(ch).merge && !RowMerge(cfg, b, ch, x) && ColMerge(cfg, b, ch, xi, y) ==>
            var h := b.cols[xi][ch];
            |r.ents| == |b.ents| && r.world == b.world &&
            r.ents[h].rect == b.ents[h].rect.(h := b.ents[h].rect.h + cfg.cellH) &&
            (forall j :: 0 <= j < |b.ents| && j != h ==> r.ents[j] == b.ents[j]))
      && (TileOf(ch).merge && !RowMerge(cfg, b, ch, x) && !ColMerge(cfg, b, ch, xi, y) ==>
            r.ents == b.ents + [Spawned(cfg, k, x, y)] && r.world == [|b.ents|] + b.world &&
            r.rowLast == b.rowLast[ch := |b.ents|] && r.cols[xi] == b.cols[xi][ch := |b.ents|])
  {
  }

  /**
   * main.py:55-60: the `@` cell moves the player's top-left corner there, a `U` cell becomes the
   * score position, and the n-th `S` cell takes the n-th sign text, failing when there is none.
   */
  lemma MarkerEffects(cfg: Config, texts: Option<seq<string>>, b: Builder, xi: nat, yi: nat, ch: char)
    requires Tracked(b) && xi < |b.cols| && !TileOf(ch).Spawn?
    ensures var r := CellStep(cfg, texts, b, xi, yi, ch);
      var x := xi * cfg.cellW; var y := yi * cfg.cellH;
      && (TileOf(ch) == PlayerCell ==>
            r.Success? && r.value.ents[0].rect == b.ents[0].rect.(x := x, y := y) &&
            |r.value.ents| == |b.ents| && (forall j :: 1 <= j < |b.ents| ==> r.value.ents[j] == b.ents[j]))
      && (TileOf(ch) == ScoreCell ==> r == Success(b.(score := (x, y))))
      && (TileOf(ch) == SignCell ==>
            if texts.Some? && |b.signs| < |texts.value| then
              r.Success? && r.value.signs == b.signs + [Sign(texts.value[|b.signs|], x, y)] &&
              r.value.ents == b.ents && r.value.world == b.world
            else r == Failure(MissingSign(yi, xi)))
      && (TileOf(ch) == Blank ==> r == Success(b))
  {
  }
}

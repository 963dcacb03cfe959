/**
 * The level builder, `reset` in main.py:14-60: the layout grid is scanned row by row, adjacent
 * cells of a merging symbol become one larger rectangle, and every other symbol spawns one entity.
 * This module is the builder as a fold over the cells; `GameLoop.Build` runs the same scan
 * with nested loops.
 */
module Levels {
  import opened Wrappers
  import opened Vectors
  import opened Geometry
  import opened Settings
  import opened Entities
  import opened Store
  import opened PassLemmas

  /**
   * What a level is built with: one integer cell size (the grid is uniform), the player's spawn
   * point before its `@` cell is seen, the mass each class gets at construction, and the Rect's
   * conversion of a float coordinate.
   */
  datatype Config = Config(cellW: int, cellH: int, start: (int, int), mass: Kind -> real, conv: real -> int)

  predicate ValidConfig(cfg: Config) {
    cfg.cellW > 0 && cfg.cellH > 0 && forall k: Kind :: cfg.mass(k) > 0.0
  }

  /** What a layout character means (settings.py:102-138). */
  datatype Tile = Spawn(kind: Kind, merge: bool) | PlayerCell | ScoreCell | SignCell | Blank

  function TileOf(ch: char): (t: Tile)
    ensures t.Spawn? ==> t.kind != Player && (t.merge <==> Merges(t.kind))
  {
    match ch
    case '#' => Spawn(GrassBrick, true)
    case 'H' => Spawn(Brick, true)
    case '*' => Spawn(Lava, true)
    case '-' => Spawn(SlidingBrick, true)
    case '|' => Spawn(SlidingBrickBouncer, false)
    case '^' => Spawn(Enemy, false)
    case '=' => Spawn(Box, false)
    case 'O' => Spawn(Goal, false)
    case '@' => PlayerCell
    case 'U' => ScoreCell
    case 'S' => SignCell
    case _ => Blank
  }

  /** The classes whose symbols merge into larger rectangles. */
  predicate Merges(k: Kind) {
    k == GrassBrick || k == Brick || k == Lava || k == SlidingBrick
  }

  /** A class's constructor size; Brick-derived classes and platforms take one grid cell. */
  function SizeOf(cfg: Config, k: Kind): (int, int) {
    match k
    case Player => (PLAYER_W, PLAYER_H)
    case Box => (BOX_W, BOX_W)
    case Enemy => (ENEMY_W, ENEMY_H)
    case Goal => (GOLD_W, GOLD_H)
    case Brick | GrassBrick | SlidingBrick | SlidingBrickBouncer | Lava => (cfg.cellW, cfg.cellH)
  }

  /**
   * `item["type"]([x, y], screen)`: a fresh entity at rest at `(x, y)` (components.py:11-19), except
   * that Enemies and SlidingBricks start moving left (components.py:278-282, 356).
   */
  function Spawned(cfg: Config, k: Kind, x: int, y: int): (e: Ent)
    ensures e.kind == k && e.rect == Rect(x, y, SizeOf(cfg, k).0, SizeOf(cfg, k).1) && e.mass == cfg.mass(k)
    ensures e.initPos == (x, y) && e.initY == y && e.acc == ZERO && e.ground == None && !e.remove
    ensures e.vel == (if k == Enemy || k == SlidingBrick then Vec2(-1.0, 0.0) else ZERO)
  {
    var size := SizeOf(cfg, k);
    Ent(k, Rect(x, y, size.0, size.1), if k == Enemy || k == SlidingBrick then Vec2(-1.0, 0.0) else ZERO,
        ZERO, cfg.mass(k), false, [], false, (x, y), y, false, false, 1, None, 0, false)
  }

  /** main.py:17-18: a new Player at the default spawn point, on `level`. */
  function NewPlayer(cfg: Config, level: int): (e: Ent)
    ensures e.kind == Player && e.level == level && e.rect.x == cfg.start.0 && e.rect.y == cfg.start.1
    ensures e.vel == ZERO && e.acc == ZERO && !e.remove && !e.nextLevel && !e.jumping && e.ground == None
  {
    Spawned(cfg, Player, cfg.start.0, cfg.start.1).(level := level)
  }

  /** A sign's text and where it is drawn. */
  datatype Sign = Sign(text: string, x: int, y: int)

  /** Why `reset` raises: a list index out of range, or a division by zero. */
  datatype BuildError =
    | NoSuchLevel             // LEVELS[level-1]
    | EmptyLayout             // LAYOUT[0]
    | EmptyFirstRow           // WIDTH/len(LAYOUT[0]) divides by zero
    | RaggedRow(row: nat)     // columns[x_idx]: a row longer than the first
    | MissingSign(row: nat, col: nat)  // LEVEL_SIGNS[level-1][len(signs)]

  /**
   * The builder's locals: the entity store (the player at handle 0), `world`, `signs`,
   * `score_loc`, `row_ents` and `columns`. Only the last entity of each list in `row_ents` and
   * `columns` is ever read, so they are maps to that entity.
   */
  datatype Builder = Builder(ents: seq<Ent>, world: seq<Handle>, signs: seq<Sign>, score: (int, int),
                             rowLast: map<char, Handle>, cols: seq<map<char, Handle>>)

  /** The map entries of the builder name entities of its store, and the player exists. */
  predicate Tracked(b: Builder) {
    && |b.ents| > 0
    && (forall c :: c in b.rowLast ==> b.rowLast[c] < |b.ents|)
    && (forall i, c :: 0 <= i < |b.cols| && c in b.cols[i] ==> b.cols[i][c] < |b.ents|)
  }

  /** Python's `seq[i]` for a possibly negative index. */
  function PyIndex<T>(s: seq<T>, i: int): (r: Option<T>)
    ensures r.Some? <==> -|s| <= i < |s|
    ensures 0 <= i < |s| ==> r == Some(s[i])
    ensures -|s| <= i < 0 ==> r == Some(s[|s| + i])
  {
    if 0 <= i < |s| then Some(s[i]) else if -|s| <= i < 0 then Some(s[|s| + i]) else None
  }

  /** Grows entity `h` by `dw` to the right. */
  function Widen(ents: seq<Ent>, h: Handle, dw: int): (r: seq<Ent>)
    requires h < |ents|
    ensures |r| == |ents| && forall j :: 0 <= j < |r| && j != h ==> r[j] == ents[j]
    ensures r[h] == ents[h].(rect := r[h].rect) && r[h].rect == ents[h].rect.(w := ents[h].rect.w + dw)
    ensures r[h].rect.Right() == ents[h].rect.Right() + dw
  {
    ents[h := ents[h].(rect := ents[h].rect.(w := ents[h].rect.w + dw))]
  }

  /** Grows entity `h` by `dh` downwards. */
  function Deepen(ents: seq<Ent>, h: Handle, dh: int): (r: seq<Ent>)
    requires h < |ents|
    ensures |r| == |ents| && forall j :: 0 <= j < |r| && j != h ==> r[j] == ents[j]
    ensures r[h] == ents[h].(rect := r[h].rect) && r[h].rect == ents[h].rect.(h := ents[h].rect.h + dh)
    ensures r[h].rect.Bottom() == ents[h].rect.Bottom() + dh
  {
    ents[h := ents[h].(rect := ents[h].rect.(h := ents[h].rect.h + dh))]
  }

  /** The row merge test of main.py:38: the last same-symbol entity of this row ends at `x`, one cell high. */
  predicate RowMerge(cfg: Config, b: Builder, ch: char, x: int)
    requires Tracked(b)
  {
    ch in b.rowLast && b.ents[b.rowLast[ch]].rect.Right() == x && b.ents[b.rowLast[ch]].rect.h == cfg.cellH
  }

  /** The column merge test of main.py:40: the last same-symbol entity of this column ends at `y`, one cell wide. */
  predicate ColMerge(cfg: Config, b: Builder, ch: char, xi: nat, y: int)
    requires Tracked(b) && xi < |b.cols|
  {
    ch in b.cols[xi] && b.ents[b.cols[xi][ch]].rect.Bottom() == y && b.ents[b.cols[xi][ch]].rect.w == cfg.cellW
  }

  /** One cell of the scan, main.py:31-60: character `ch` at column `xi` of row `yi`. */
  function CellStep(cfg: Config, texts: Option<seq<string>>, b: Builder, xi: nat, yi: nat, ch: char): (r: Result<Builder, BuildError>)
    requires Tracked(b)
    ensures r.Success? ==> Tracked(r.value) && |r.value.cols| == |b.cols| && |r.value.ents| >= |b.ents|
    ensures r.Success? ==> r.value.ents[0].kind == b.ents[0].kind
    ensures r.Failure? <==>
      (xi >= |b.cols| || (TileOf(ch) == SignCell && !(texts.Some? && |b.signs| < |texts.value|)))
    ensures r.Failure? ==> r.error == (if xi >= |b.cols| then RaggedRow(yi) else MissingSign(yi, xi))
  {
    if xi >= |b.cols| then Failure(RaggedRow(yi))
    else
      var x := xi * cfg.cellW;
      var y := yi * cfg.cellH;
      match TileOf(ch)
      case Spawn(k, merge) =>
        if !merge then
          Success(b.(ents := b.ents + [Spawned(cfg, k, x, y)], world := b.world + [|b.ents|]))
        else if RowMerge(cfg, b, ch, x) then
          Success(b.(ents := Widen(b.ents, b.rowLast[ch], cfg.cellW)))
        else if ColMerge(cfg, b, ch, xi, y) then
          Success(b.(ents := Deepen(b.ents, b.cols[xi][ch], cfg.cellH)))
        else
          var h: Handle := |b.ents|;
          var col: map<char, Handle> := b.cols[xi][ch := h];
          Success(b.(ents := b.ents + [Spawned(cfg, k, x, y)], world := [h] + b.world,
                     rowLast := b.rowLast[ch := h], cols := b.cols[xi := col]))
      case PlayerCell =>
        Success(b.(ents := b.ents[0 := b.ents[0].(rect := b.ents[0].rect.(x := x, y := y))]))
      case ScoreCell => Success(b.(score := (x, y)))
      case SignCell =>
        if texts.Some? && |b.signs| < |texts.value| then
          Success(b.(signs := b.signs + [Sign(texts.value[|b.signs|], x, y)]))
        else Failure(MissingSign(yi, xi))
      case Blank => Success(b)
  }

  /** The rest of row `yi` from column `xi` on (main.py:30). */
  function ScanRow(cfg: Config, texts: Option<seq<string>>, b: Builder, yi: nat, row: string, xi: nat): (r: Result<Builder, BuildError>)
    requires Tracked(b)
    ensures r.Success? ==> Tracked(r.value) && |r.value.cols| == |b.cols| && |r.value.ents| >= |b.ents|
    ensures r.Success? ==> r.value.ents[0].kind == b.ents[0].kind
    ensures r.Failure? ==> r.error == RaggedRow(yi) || (r.error.MissingSign? && r.error.row == yi)
    decreases |row| - xi
  {
    if xi >= |row| then Success(b)
    else
      match CellStep(cfg, texts, b, xi, yi, row[xi])
      case Failure(e) => Failure(e)
      case Success(b') => ScanRow(cfg, texts, b', yi, row, xi + 1)
  }

  /** The rows from `yi` on (main.py:26-29); each row starts with an empty `row_ents`. */
  function ScanGrid(cfg: Config, texts: Option<seq<string>>, b: Builder, layout: seq<string>, yi: nat): (r: Result<Builder, BuildError>)
    requires Tracked(b)
    ensures r.Success? ==> Tracked(r.value) && |r.value.cols| == |b.cols| && |r.value.ents| >= |b.ents|
    ensures r.Success? ==> r.value.ents[0].kind == b.ents[0].kind
    ensures r.Failure? ==> r.error.RaggedRow? || r.error.MissingSign?
    decreases |layout| - yi
  {
    if yi >= |layout| then Success(b)
    else
      match ScanRow(cfg, texts, b.(rowLast := map[]), yi, layout[yi], 0)
      case Failure(e) => Failure(e)
      case Success(b') => ScanGrid(cfg, texts, b', layout, yi + 1)
  }

  /** A built level: the store with the player at handle 0, and the globals `reset` sets. */
  datatype Level = Level(ents: seq<Ent>, world: seq<Handle>, signs: seq<Sign>, score: (int, int))

  /** The builder before the first cell: a new player, nothing else, one empty map per column. */
  function Initial(cfg: Config, level: int, width: nat, score: (int, int)): Builder {
    Builder([NewPlayer(cfg, level)], [], [], score, map[], seq(width, _ => map[]))
  }

  /**
   * `reset(level)` (main.py:14-60) given LEVELS and LEVEL_SIGNS. `score` is the previous `score_loc`,
   * kept when the layout has no `U` cell.
   */
  function BuildLevel(cfg: Config, layouts: seq<seq<string>>, signTexts: seq<seq<string>>, level: int, score: (int, int)): (r: Result<Level, BuildError>)
    ensures r.Success? ==> |r.value.ents| > 0 && r.value.ents[0].kind == Player
    ensures r == Failure(NoSuchLevel) <==> !(-|layouts| <= level - 1 < |layouts|)
    ensures r == Failure(EmptyLayout) <==> PyIndex(layouts, level - 1) == Some([])
    ensures r == Failure(EmptyFirstRow) <==>
      exists layout :: PyIndex(layouts, level - 1) == Some(layout) && |layout| > 0 && layout[0] == ""
  {
    match PyIndex(layouts, level - 1)
    case None => Failure(NoSuchLevel)
    case Some(layout) =>
      if |layout| == 0 then Failure(EmptyLayout)
      else if |layout[0]| == 0 then Failure(EmptyFirstRow)
      else
        match ScanGrid(cfg, PyIndex(signTexts, level - 1), Initial(cfg, level, |layout[0]|, score), layout, 0)
        case Failure(e) => Failure(e)
        case Success(b) => Success(Level(b.ents, b.world, b.signs, b.score))
  }
}

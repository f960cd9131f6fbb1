/**
 * The `World` class. `game.py` and `main.py` each define one; apart from the particle
 * system that only `game.py`'s carries, their tile and building logic is the same code,
 * and this one class models both.
 */
module Worlds {
  import opened Geometry

  const SCREEN_WIDTH := 800
  const SCREEN_HEIGHT := 600
  const TILE_SIZE := 32
  /** The top of the grass row. */
  const GROUND_HEIGHT := SCREEN_HEIGHT - 100
  const TREE_COUNT := 5
  const STONE_COUNT := 3
  /** `range(0, SCREEN_WIDTH, TILE_SIZE)` has 25 columns. */
  const COLUMNS := 25
  /** One grass tile and `range(532, 600, 32)` = 532, 564, 596: three dirt tiles. */
  const TILES_PER_COLUMN := 4
  const GROUND_TILES := COLUMNS * TILES_PER_COLUMN
  const WORLD_TILES := GROUND_TILES + TREE_COUNT + STONE_COUNT

  /** The `i`-th ground tile: column `i / 4`, grass on top and dirt in the three rows below. */
  function GroundTileAt(i: nat): Tile {
    Tile(Rect(TILE_SIZE * (i / TILES_PER_COLUMN), GROUND_HEIGHT + TILE_SIZE * (i % TILES_PER_COLUMN), TILE_SIZE, TILE_SIZE),
         if i % TILES_PER_COLUMN == 0 then Grass else Dirt)
  }

  /** A 32 x 96 tree standing on the grass at horizontal position `x`. */
  function TreeTile(x: int): Tile {
    Tile(Rect(x, GROUND_HEIGHT - TILE_SIZE * 3, TILE_SIZE, TILE_SIZE * 3), Tree)
  }

  /** A 64 x 64 stone lying on the grass at horizontal position `x`. */
  function StoneTile(x: int): Tile {
    Tile(Rect(x, GROUND_HEIGHT - TILE_SIZE * 2, TILE_SIZE * 2, TILE_SIZE * 2), Stone)
  }

  /** `n` positions such as `random.randint(0, SCREEN_WIDTH - TILE_SIZE)` yields. */
  predicate SpawnPositions(xs: seq<int>, n: nat) {
    |xs| == n && forall i :: 0 <= i < |xs| ==> 0 <= xs[i] <= SCREEN_WIDTH - TILE_SIZE
  }

  /** The tiles one `generate_world` appends: the ground column by column, then trees, then stones. */
  ghost predicate GeneratedLayout(added: seq<Tile>, treeXs: seq<int>, stoneXs: seq<int>)
    requires |treeXs| == TREE_COUNT && |stoneXs| == STONE_COUNT
  {
    && |added| == WORLD_TILES
    && (forall i :: 0 <= i < GROUND_TILES ==> added[i] == GroundTileAt(i))
    && (forall i :: 0 <= i < TREE_COUNT ==> added[GROUND_TILES + i] == TreeTile(treeXs[i]))
    && (forall i :: 0 <= i < STONE_COUNT ==> added[GROUND_TILES + TREE_COUNT + i] == StoneTile(stoneXs[i]))
  }

  /** Counting the first `n` ground tiles: every fourth is grass, the others dirt. */
  lemma {:induction false} GroundPrefixCounts(added: seq<Tile>, n: nat)
    requires n <= |added|
    requires forall i :: 0 <= i < n ==> added[i] == GroundTileAt(i)
    ensures CountKind(added[..n], Grass) == (n + 3) / 4
    ensures CountKind(added[..n], Dirt) == n - (n + 3) / 4
    ensures CountKind(added[..n], Tree) == 0 && CountKind(added[..n], Stone) == 0
  {
    if n > 0 {
      GroundPrefixCounts(added, n - 1);
      assert added[..n][..n - 1] == added[..n - 1];
      assert added[..n][n - 1] == GroundTileAt(n - 1);
    }
  }

  /** Counting over the three parts of a layout. */
  lemma PartsCount(ground: seq<Tile>, trees: seq<Tile>, stones: seq<Tile>, k: TileKind)
    ensures CountKind(ground + trees + stones, k) == CountKind(ground, k) + CountKind(trees, k) + CountKind(stones, k)
  {
    CountKindConcat(ground, trees, k);
    CountKindConcat(ground + trees, stones, k);
  }

  /** A generated world holds exactly 25 grass, 75 dirt, 5 tree and 3 stone tiles. */
  lemma LayoutCounts(added: seq<Tile>, treeXs: seq<int>, stoneXs: seq<int>)
    requires |treeXs| == TREE_COUNT && |stoneXs| == STONE_COUNT
    requires GeneratedLayout(added, treeXs, stoneXs)
    ensures CountKind(added, Grass) == 25 && CountKind(added, Dirt) == 75
    ensures CountKind(added, Tree) == 5 && CountKind(added, Stone) == 3
  {
    var ground, trees, stones := added[..GROUND_TILES], added[GROUND_TILES..GROUND_TILES + TREE_COUNT],
                                 added[GROUND_TILES + TREE_COUNT..];
    assert added == ground + trees + stones;
    GroundPrefixCounts(added, GROUND_TILES);
    forall i | 0 <= i < |trees|
      ensures trees[i].kind == Tree
    {
      assert trees[i] == added[GROUND_TILES + i] == TreeTile(treeXs[i]);
    }
    forall i | 0 <= i < |stones|
      ensures stones[i].kind == Stone
    {
      assert stones[i] == added[GROUND_TILES + TREE_COUNT + i] == StoneTile(stoneXs[i]);
    }
    CountKindUniform(trees, Tree);
    CountKindUniform(stones, Stone);
    PartsCount(ground, trees, stones, Grass);
    PartsCount(ground, trees, stones, Dirt);
    PartsCount(ground, trees, stones, Tree);
    PartsCount(ground, trees, stones, Stone);
  }

  /** Trees and stones are placed on the screen's width and rest on the grass row. */
  lemma LayoutPlacement(added: seq<Tile>, treeXs: seq<int>, stoneXs: seq<int>, i: nat)
    requires SpawnPositions(treeXs, TREE_COUNT) && SpawnPositions(stoneXs, STONE_COUNT)
    requires GeneratedLayout(added, treeXs, stoneXs)
    requires GROUND_TILES <= i < |added|
    ensures Interactive(added[i])
    ensures 0 <= added[i].rect.x <= SCREEN_WIDTH - TILE_SIZE
    ensures added[i].rect.y + added[i].rect.h == GROUND_HEIGHT
  {
    if i < GROUND_TILES + TREE_COUNT {
      assert added[GROUND_TILES + (i - GROUND_TILES)] == TreeTile(treeXs[i - GROUND_TILES]);
    } else {
      assert added[GROUND_TILES + TREE_COUNT + (i - GROUND_TILES - TREE_COUNT)] == StoneTile(stoneXs[i - GROUND_TILES - TREE_COUNT]);
    }
  }

  /** The world's tile list and building list. */
  class World {
    var tiles: seq<Tile>
    var buildings: seq<Building>

    /** `World.__init__`: empty lists, then `generate_world` with the given random positions. */
    constructor (treeXs: seq<int>, stoneXs: seq<int>)
      requires SpawnPositions(treeXs, TREE_COUNT) && SpawnPositions(stoneXs, STONE_COUNT)
      ensures GeneratedLayout(tiles, treeXs, stoneXs) && buildings == []
      ensures CountKind(tiles, Grass) == 25 && CountKind(tiles, Dirt) == 75
      ensures CountKind(tiles, Tree) == 5 && CountKind(tiles, Stone) == 3
    {
      tiles := [];
      buildings := [];
      new;
      GenerateWorld(treeXs, stoneXs);
      assert tiles[0..] == tiles;
      LayoutCounts(tiles, treeXs, stoneXs);
    }

    /** `generate_world`: appends the ground, five trees and three stones to the tile list. */
    method GenerateWorld(treeXs: seq<int>, stoneXs: seq<int>)
      requires SpawnPositions(treeXs, TREE_COUNT) && SpawnPositions(stoneXs, STONE_COUNT)
      modifies this`tiles
      ensures |tiles| == |old(tiles)| + WORLD_TILES && tiles[..|old(tiles)|] == old(tiles)
      ensures GeneratedLayout(tiles[|old(tiles)|..], treeXs, stoneXs)
    {
      ghost var base := tiles;
      var groundHeight := SCREEN_HEIGHT - 100;
      var x := 0;
      ghost var column := 0;
      while x < SCREEN_WIDTH
        invariant 0 <= column <= COLUMNS && x == TILE_SIZE * column
        invariant |tiles| == |base| + TILES_PER_COLUMN * column && tiles[..|base|] == base
        invariant forall i :: 0 <= i < TILES_PER_COLUMN * column ==> tiles[|base| + i] == GroundTileAt(i)
      {
        tiles := tiles + [Tile(Rect(x, groundHeight, TILE_SIZE, TILE_SIZE), Grass)];
        var y := groundHeight + TILE_SIZE;
        ghost var row := 1;
        while y < SCREEN_HEIGHT
          invariant 1 <= row <= TILES_PER_COLUMN && y == GROUND_HEIGHT + TILE_SIZE * row
          invariant |tiles| == |base| + TILES_PER_COLUMN * column + row && tiles[..|base|] == base
          invariant forall i :: 0 <= i < TILES_PER_COLUMN * column + row ==> tiles[|base| + i] == GroundTileAt(i)
        {
          tiles := tiles + [Tile(Rect(x, y, TILE_SIZE, TILE_SIZE), Dirt)];
          y := y + TILE_SIZE;
          row := row + 1;
        }
        x := x + TILE_SIZE;
        column := column + 1;
      }
      for n := 0 to TREE_COUNT
        invariant |tiles| == |base| + GROUND_TILES + n && tiles[..|base|] == base
        invariant forall i :: 0 <= i < GROUND_TILES ==> tiles[|base| + i] == GroundTileAt(i)
        invariant forall i :: 0 <= i < n ==> tiles[|base| + GROUND_TILES + i] == TreeTile(treeXs[i])
      {
        var treeX := treeXs[n];
        var treeY := groundHeight - TILE_SIZE * 3;
        tiles := tiles + [Tile(Rect(treeX, treeY, TILE_SIZE, TILE_SIZE * 3), Tree)];
      }
      for n := 0 to STONE_COUNT
        invariant |tiles| == |base| + GROUND_TILES + TREE_COUNT + n && tiles[..|base|] == base
        invariant forall i :: 0 <= i < GROUND_TILES ==> tiles[|base| + i] == GroundTileAt(i)
        invariant forall i :: 0 <= i < TREE_COUNT ==> tiles[|base| + GROUND_TILES + i] == TreeTile(treeXs[i])
        invariant forall i :: 0 <= i < n ==> tiles[|base| + GROUND_TILES + TREE_COUNT + i] == StoneTile(stoneXs[i])
      {
        var stoneX := stoneXs[n];
        var stoneY := groundHeight - TILE_SIZE * 2;
        tiles := tiles + [Tile(Rect(stoneX, stoneY, TILE_SIZE * 2, TILE_SIZE * 2), Stone)];
      }
    }

    /** `remove_tile`: `if tile in self.tiles: self.tiles.remove(tile)`. */
    method RemoveTile(tile: Tile)
      modifies this`tiles
      ensures tiles == RemoveFirst(old(tiles), tile)
    {
      var i := 0;
      while i < |tiles| && tiles[i] != tile
        invariant 0 <= i <= |tiles|
        invariant tile !in tiles[..i]
      {
        i := i + 1;
      }
      if i < |tiles| {
        RemoveFirstAt(tiles, tile, i);
        tiles := tiles[..i] + tiles[i + 1..];
      } else {
        assert tiles[..i] == tiles;
        RemoveFirstAbsent(tiles, tile);
      }
    }

    /** `add_building`: a 64 x 64 building centred on `(x, y)`, float coordinates truncated. */
    method AddBuilding(x: real, y: real, blueprintName: string)
      modifies this`buildings
      ensures buildings == old(buildings) + [Building(Rect(Truncate(x - 32.0), Truncate(y - 32.0), 64, 64), blueprintName)]
    {
      var building := Rect(Truncate(x - 32.0), Truncate(y - 32.0), 64, 64);
      buildings := buildings + [Building(building, blueprintName)];
    }
  }
}

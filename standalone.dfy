/**
 * `main.py`: a single-file version of the same game. Its `World` is `Worlds.World`; its `Player`
 * differs from the game's: `move` does not clamp, `update` clamps instead, there are three
 * inventory slots, and the mouse-driven `use_tool` harvests or builds at a click point.
 */
module Standalone {
  import opened Options
  import opened Geometry
  import M = Materials
  import Tools
  import Worlds
  import Physics
  import Sprites
  import Controls
  import Game

  /** Everything `use_tool` consults besides the tiles: the tool, building mode and the click. */
  datatype Click = Click(tool: Tools.ToolName, buildingMode: bool, blueprint: Option<string>, mx: int, my: int)

  /** The state `use_tool` changes: the world's tiles and buildings and the inventory. */
  datatype Outcome = Outcome(tiles: seq<Tile>, counts: map<M.Material, int>, buildings: seq<Building>)

  /** Every material has an entry. */
  predicate Full(counts: map<M.Material, int>) {
    forall m: M.Material :: m in counts
  }

  /** The tile contains the click point and the selected tool harvests its kind. */
  predicate Harvestable(c: Click, t: Tile) {
    t.rect.CollidePoint(c.mx, c.my) && Game.HarvestYield(c.tool, t.kind).Some?
  }

  /** `add_building(mouse_x, mouse_y, name)`: a 64 x 64 square centred on the click. */
  function ClickBuilding(c: Click, name: string): Building {
    Building(Rect(c.mx - 32, c.my - 32, 64, 64), name)
  }

  /**
   * The body of `use_tool`'s loop on one visited tile: a harvest removes the first tile
   * equal to it and adds one unit; the hammer in building mode attempts one build.
   */
  function Visit(bs: Tools.BuildingSystem, c: Click, o: Outcome, t: Tile): (r: Outcome)
    requires Full(o.counts)
    ensures Full(r.counts)
    ensures |r.tiles| <= |o.tiles|
  {
    if !t.rect.CollidePoint(c.mx, c.my) then o
    else match Game.HarvestYield(c.tool, t.kind)
      case Some(m) => Outcome(RemoveFirst(o.tiles, t), o.counts[m := o.counts[m] + 1], o.buildings)
      case None =>
        if c.tool == Tools.Hammer && c.buildingMode && bs.CanAfford(o.counts, c.blueprint) then
          Outcome(o.tiles, Tools.Deduct(o.counts, bs.blueprints[c.blueprint.value]), o.buildings + [ClickBuilding(c, c.blueprint.value)])
        else o
  }

  /**
   * `for tile in world.tiles` from position `i` on, while the body removes from that same
   * list: Python's list iterator keeps a position and moves it past whatever now sits there.
   */
  function ScanFrom(bs: Tools.BuildingSystem, c: Click, o: Outcome, i: nat): (r: Outcome)
    requires Full(o.counts)
    ensures Full(r.counts)
    decreases |o.tiles| - i
  {
    if i >= |o.tiles| then o else ScanFrom(bs, c, Visit(bs, c, o, o.tiles[i]), i + 1)
  }

  /** The tiles that do not contain the click point, in order. */
  function Away(s: seq<Tile>, c: Click): (r: seq<Tile>)
    ensures forall t :: t in r ==> t in s && !t.rect.CollidePoint(c.mx, c.my)
  {
    if s == [] then []
    else (if s[0].rect.CollidePoint(c.mx, c.my) then [] else [s[0]]) + Away(s[1..], c)
  }

  /** Removing a tile that contains the click point leaves the other tiles as they were. */
  lemma {:induction false} AwayRemoveFirst(s: seq<Tile>, t: Tile, c: Click)
    requires t.rect.CollidePoint(c.mx, c.my)
    ensures Away(RemoveFirst(s, t), c) == Away(s, c)
  {
    if s != [] && s[0] != t {
      AwayRemoveFirst(s[1..], t, c);
      assert ([s[0]] + RemoveFirst(s[1..], t))[1..] == RemoveFirst(s[1..], t);
    }
  }

  /** Removing a tile the click harvests leaves the tiles it does not harvest as they were. */
  lemma {:induction false} KeepRemoveFirst(s: seq<Tile>, t: Tile, c: Click)
    requires Harvestable(c, t)
    ensures Keep(RemoveFirst(s, t), c) == Keep(s, c)
  {
    if s != [] && s[0] != t {
      KeepRemoveFirst(s[1..], t, c);
      assert ([s[0]] + RemoveFirst(s[1..], t))[1..] == RemoveFirst(s[1..], t);
    }
  }

  /** The material a non-hammer tool yields. */
  function Yield(tool: Tools.ToolName): M.Material
    requires tool != Tools.Hammer
  {
    if tool == Tools.Axe then M.Wood else M.Stone
  }

  /** One visit with the axe or pickaxe: a harvestable tile is removed and yields one unit. */
  lemma VisitHarvest(bs: Tools.BuildingSystem, c: Click, o: Outcome, t: Tile)
    requires Full(o.counts) && c.tool != Tools.Hammer
    ensures var r, m := Visit(bs, c, o, t), Yield(c.tool);
      if Harvestable(c, t) then
        r.tiles == RemoveFirst(o.tiles, t) && r.counts == o.counts[m := o.counts[m] + 1] && r.buildings == o.buildings
      else r == o
  {
  }

  /**
   * With the axe (or pickaxe) the yielded count rises by exactly the number of tiles
   * removed, nothing else in the inventory or the buildings changes, and every tile the
   * click does not harvest, in particular every tile away from the click point, stays in
   * order: only trees (or stones) under the click are removed.
   */
  lemma {:induction false} HarvestScan(bs: Tools.BuildingSystem, c: Click, o: Outcome, i: nat)
    requires Full(o.counts) && c.tool != Tools.Hammer
    decreases |o.tiles| - i
    ensures var r, m := ScanFrom(bs, c, o, i), Yield(c.tool);
      && |r.tiles| <= |o.tiles|
      && r.counts[m] == o.counts[m] + (|o.tiles| - |r.tiles|)
      && (forall m' :: m' != m ==> r.counts[m'] == o.counts[m'])
      && r.buildings == o.buildings
      && Away(r.tiles, c) == Away(o.tiles, c)
      && Keep(r.tiles, c) == Keep(o.tiles, c)
  {
    if i < |o.tiles| {
      var t := o.tiles[i];
      var o' := Visit(bs, c, o, t);
      VisitHarvest(bs, c, o, t);
      HarvestScan(bs, c, o', i + 1);
      if Harvestable(c, t) {
        assert t in o.tiles;
        AwayRemoveFirst(o.tiles, t, c);
        KeepRemoveFirst(o.tiles, t, c);
      }
    }
  }

  /** The number of tiles in `s` containing the click point: the build attempts made. */
  function Attempts(s: seq<Tile>, c: Click): (n: nat)
    ensures n <= |s|
  {
    if s == [] then 0 else (if s[0].rect.CollidePoint(c.mx, c.my) then 1 else 0) + Attempts(s[1..], c)
  }

  /** How many of `attempts` successive build attempts succeed from `counts`. */
  function BuildsFrom(counts: map<M.Material, int>, req: map<M.Material, int>, attempts: nat): (n: nat)
    ensures n <= attempts
  {
    if attempts == 0 || !Tools.Affordable(counts, req) then 0
    else 1 + BuildsFrom(Tools.Deduct(counts, req), req, attempts - 1)
  }

  /** The inventory after paying `req` `n` times. */
  function DeductTimes(counts: map<M.Material, int>, req: map<M.Material, int>, n: nat): (r: map<M.Material, int>)
    ensures r.Keys == counts.Keys
  {
    if n == 0 then counts else DeductTimes(Tools.Deduct(counts, req), req, n - 1)
  }

  function Repeat<T>(x: T, n: nat): (r: seq<T>)
    ensures |r| == n && forall k :: 0 <= k < n ==> r[k] == x
  {
    if n == 0 then [] else [x] + Repeat(x, n - 1)
  }

  /** One visit with the hammer in building mode: a tile under the click triggers one build attempt. */
  lemma VisitHammer(bs: Tools.BuildingSystem, c: Click, o: Outcome, t: Tile)
    requires Full(o.counts) && c.tool == Tools.Hammer && c.buildingMode
    requires c.blueprint.Some? && c.blueprint.value in bs.blueprints
    ensures var r, req := Visit(bs, c, o, t), bs.blueprints[c.blueprint.value];
      if t.rect.CollidePoint(c.mx, c.my) && Tools.Affordable(o.counts, req) then
        r == Outcome(o.tiles, Tools.Deduct(o.counts, req), o.buildings + [ClickBuilding(c, c.blueprint.value)])
      else r == o
  {
  }

  /**
   * The first visit of a hammer scan from `i`: a build at tile `i` accounts for exactly one
   * of the builds counted from `i`, and a visit that builds nothing changes nothing.
   */
  lemma HammerStep(bs: Tools.BuildingSystem, c: Click, o: Outcome, i: nat)
    requires Full(o.counts) && c.tool == Tools.Hammer && c.buildingMode
    requires c.blueprint.Some? && c.blueprint.value in bs.blueprints
    requires i < |o.tiles|
    ensures var req, t := bs.blueprints[c.blueprint.value], o.tiles[i];
      var o' := Visit(bs, c, o, t);
      var built := t.rect.CollidePoint(c.mx, c.my) && Tools.Affordable(o.counts, req);
      var n, n' := BuildsFrom(o.counts, req, Attempts(o.tiles[i..], c)), BuildsFrom(o'.counts, req, Attempts(o'.tiles[i + 1..], c));
      && o'.tiles == o.tiles
      && (built ==> n == n' + 1 && o'.counts == Tools.Deduct(o.counts, req) && o'.buildings == o.buildings + [ClickBuilding(c, c.blueprint.value)])
      && (!built ==> n == n' && o' == o)
  {
    var req, t := bs.blueprints[c.blueprint.value], o.tiles[i];
    VisitHammer(bs, c, o, t);
    assert o.tiles[i..] == [t] + o.tiles[i + 1..];
    var a := Attempts(o.tiles[i + 1..], c);
    if t.rect.CollidePoint(c.mx, c.my) {
      assert Attempts(o.tiles[i..], c) == a + 1;
    } else {
      assert Attempts(o.tiles[i..], c) == a;
    }
  }

  /**
   * With the hammer in building mode and a known blueprint the tiles stay, every tile
   * containing the click point triggers one build attempt, and each success pays the full
   * cost and appends one building centred on the click.
   */
  lemma {:induction false} HammerScan(bs: Tools.BuildingSystem, c: Click, o: Outcome, i: nat)
    requires Full(o.counts) && c.tool == Tools.Hammer && c.buildingMode
    requires c.blueprint.Some? && c.blueprint.value in bs.blueprints
    requires i <= |o.tiles|
    decreases |o.tiles| - i
    ensures var r, req := ScanFrom(bs, c, o, i), bs.blueprints[c.blueprint.value];
      var n := BuildsFrom(o.counts, req, Attempts(o.tiles[i..], c));
      && r.tiles == o.tiles
      && r.counts == DeductTimes(o.counts, req, n)
      && r.buildings == o.buildings + Repeat(ClickBuilding(c, c.blueprint.value), n)
  {
    if i == |o.tiles| {
      assert o.buildings + [] == o.buildings;
    } else {
      var req, b := bs.blueprints[c.blueprint.value], ClickBuilding(c, c.blueprint.value);
      var o' := Visit(bs, c, o, o.tiles[i]);
      HammerStep(bs, c, o, i);
      HammerScan(bs, c, o', i + 1);
      if o' != o {
        var n' := BuildsFrom(o'.counts, req, Attempts(o'.tiles[i + 1..], c));
        assert o.buildings + [b] + Repeat(b, n') == o.buildings + Repeat(b, n' + 1);
      }
    }
  }

  /** The hammer outside building mode, or without a known blueprint, changes nothing. */
  lemma {:induction false} HammerIdle(bs: Tools.BuildingSystem, c: Click, o: Outcome, i: nat)
    requires Full(o.counts) && c.tool == Tools.Hammer
    requires !c.buildingMode || c.blueprint.None? || c.blueprint.value !in bs.blueprints
    decreases |o.tiles| - i
    ensures ScanFrom(bs, c, o, i) == o
  {
    if i < |o.tiles| {
      assert Visit(bs, c, o, o.tiles[i]) == o;
      HammerIdle(bs, c, o, i + 1);
    }
  }

  /** No inventory count is negative. */
  predicate NonNegative(counts: map<M.Material, int>) {
    forall m :: m in counts ==> counts[m] >= 0
  }

  /** Every build is paid for, so counts that start non-negative stay non-negative. */
  lemma {:induction false} BuildsKeepNonNegative(counts: map<M.Material, int>, req: map<M.Material, int>, attempts: nat)
    requires NonNegative(counts)
    decreases attempts
    ensures NonNegative(DeductTimes(counts, req, BuildsFrom(counts, req, attempts)))
  {
    if attempts > 0 && Tools.Affordable(counts, req) {
      var paid := Tools.Deduct(counts, req);
      Tools.DeductNonNegative(counts, req);
      BuildsKeepNonNegative(paid, req, attempts - 1);
    }
  }

  /** The tiles that this click does not harvest, in order. */
  function Keep(s: seq<Tile>, c: Click): (r: seq<Tile>)
    ensures |r| <= |s|
    ensures forall i :: 0 <= i < |r| ==> r[i] in s && !Harvestable(c, r[i])
  {
    if s == [] then []
    else (if Harvestable(c, s[0]) then [] else [s[0]]) + Keep(s[1..], c)
  }

  /**
   * The evidently intended loop, `for tile in list(world.tiles)`: every tile of the list as
   * it was before the click is visited once, whatever the body removes.
   */
  function SnapshotScan(bs: Tools.BuildingSystem, c: Click, o: Outcome, snapshot: seq<Tile>): (r: Outcome)
    requires Full(o.counts)
    ensures Full(r.counts)
    decreases |snapshot|
  {
    if snapshot == [] then o else SnapshotScan(bs, c, Visit(bs, c, o, snapshot[0]), snapshot[1..])
  }

  /** The first copy of `s[0]` in `p + s` is the one at `|p|` when `p` holds none. */
  lemma RemoveAfterPrefix(p: seq<Tile>, s: seq<Tile>)
    requires s != [] && s[0] !in p
    ensures RemoveFirst(p + s, s[0]) == p + s[1..]
  {
    assert (p + s)[..|p|] == p && (p + s)[|p| + 1..] == s[1..];
    RemoveFirstAt(p + s, s[0], |p|);
  }

  /** The first step of a snapshot scan over a harvestable tile: it leaves the list. */
  lemma SnapshotStepHarvest(bs: Tools.BuildingSystem, c: Click, p: seq<Tile>, s: seq<Tile>,
                            counts: map<M.Material, int>, buildings: seq<Building>)
    requires Full(counts) && c.tool != Tools.Hammer
    requires forall i :: 0 <= i < |p| ==> !Harvestable(c, p[i])
    requires s != [] && Harvestable(c, s[0])
    ensures var m := Yield(c.tool);
      && Visit(bs, c, Outcome(p + s, counts, buildings), s[0]) == Outcome(p + s[1..], counts[m := counts[m] + 1], buildings)
      && Keep(s, c) == Keep(s[1..], c)
  {
    VisitHarvest(bs, c, Outcome(p + s, counts, buildings), s[0]);
    RemoveAfterPrefix(p, s);
  }

  /** A tile the click does not harvest joins the kept prefix. */
  lemma KeepPrefix(c: Click, p: seq<Tile>, s: seq<Tile>)
    requires s != [] && !Harvestable(c, s[0])
    ensures p + Keep(s, c) == (p + [s[0]]) + Keep(s[1..], c)
  {
    assert Keep(s, c) == [s[0]] + Keep(s[1..], c);
  }

  /**
   * Scanning the snapshot `s` of a list `P + s` whose prefix `P` holds nothing harvestable
   * removes exactly the harvestable tiles of `s` and yields one unit per removed tile.
   */
  lemma {:induction false} SnapshotHarvest(bs: Tools.BuildingSystem, c: Click, p: seq<Tile>, s: seq<Tile>,
                                          counts: map<M.Material, int>, buildings: seq<Building>)
    requires Full(counts) && c.tool != Tools.Hammer
    requires forall i :: 0 <= i < |p| ==> !Harvestable(c, p[i])
    decreases |s|
    ensures var r, m := SnapshotScan(bs, c, Outcome(p + s, counts, buildings), s), Yield(c.tool);
      && r.tiles == p + Keep(s, c)
      && r.counts[m] == counts[m] + (|s| - |Keep(s, c)|)
      && (forall m' :: m' != m ==> r.counts[m'] == counts[m'])
      && r.buildings == buildings
  {
    if s == [] {
      assert p + s == p + Keep(s, c);
    } else if Harvestable(c, s[0]) {
      SnapshotStepHarvest(bs, c, p, s, counts, buildings);
      var m := Yield(c.tool);
      SnapshotHarvest(bs, c, p, s[1..], counts[m := counts[m] + 1], buildings);
    } else {
      VisitHarvest(bs, c, Outcome(p + s, counts, buildings), s[0]);
      KeepPrefix(c, p, s);
      assert p + s == (p + [s[0]]) + s[1..];
      SnapshotHarvest(bs, c, p + [s[0]], s[1..], counts, buildings);
    }
  }

  /**
   * The corrected scan harvests every tile under the click that the tool can harvest,
   * keeps every other tile in order, and yields one unit per harvested tile.
   */
  lemma SnapshotHarvestsAll(bs: Tools.BuildingSystem, c: Click, o: Outcome)
    requires Full(o.counts) && c.tool != Tools.Hammer
    ensures var r, m := SnapshotScan(bs, c, o, o.tiles), Yield(c.tool);
      && r.tiles == Keep(o.tiles, c)
      && (forall t :: t in r.tiles ==> !Harvestable(c, t))
      && r.counts[m] == o.counts[m] + (|o.tiles| - |r.tiles|)
      && (forall m' :: m' != m ==> r.counts[m'] == o.counts[m'])
      && r.buildings == o.buildings
  {
    assert [] + o.tiles == o.tiles;
    SnapshotHarvest(bs, c, [], o.tiles, o.counts, o.buildings);
  }

  /**
   * As written, two overlapping trees under the click lose only the first: removing it
   * shifts the second into the position the iterator has just passed. The snapshot scan
   * harvests both.
   */
  lemma SkipsTileAfterRemoval(bs: Tools.BuildingSystem, counts: map<M.Material, int>)
    requires Full(counts)
    ensures var first, second := Tile(Rect(0, 404, 32, 96), Tree), Tile(Rect(16, 404, 32, 96), Tree);
      var c := Click(Tools.Axe, false, None, 20, 450);
      var o := Outcome([first, second], counts, []);
      && Harvestable(c, first) && Harvestable(c, second)
      && ScanFrom(bs, c, o, 0).tiles == [second]
      && ScanFrom(bs, c, o, 0).counts[M.Wood] == counts[M.Wood] + 1
      && SnapshotScan(bs, c, o, o.tiles).tiles == []
      && SnapshotScan(bs, c, o, o.tiles).counts[M.Wood] == counts[M.Wood] + 2
  {
    var first, second := Tile(Rect(0, 404, 32, 96), Tree), Tile(Rect(16, 404, 32, 96), Tree);
    var c := Click(Tools.Axe, false, None, 20, 450);
    var o := Outcome([first, second], counts, []);
    var o1 := Visit(bs, c, o, first);
    assert o1.tiles == [second];
    assert ScanFrom(bs, c, o1, 1) == o1;
    SnapshotHarvestsAll(bs, c, o);
  }

  /** The player of `main.py`. */
  class Player {
    const character: Sprites.Character
    const width: int
    const height: int
    var x: int
    var y: real
    var velY: real
    var jumping: bool
    var facingRight: bool
    const axe: Tools.Tool
    const pickaxe: Tools.Tool
    const hammer: Tools.Tool
    var currentTool: Tools.ToolName
    const inventory: M.Inventory
    const buildingSystem: Tools.BuildingSystem
    var showInventory: bool
    var selectedSlot: int
    /** The names in `inventory_slots` (the icons are not modelled). */
    const inventorySlots: seq<string>

    /** `self.tools[name]`. */
    function ToolOf(k: Tools.ToolName): Tools.Tool
      reads this
    {
      match k
      case Axe => axe
      case Pickaxe => pickaxe
      case Hammer => hammer
    }

    ghost predicate Valid()
      reads this, axe, pickaxe, hammer, inventory
    {
      && width == Sprites.CHARACTER_WIDTH && height == Sprites.CHARACTER_HEIGHT
      && axe != pickaxe && axe != hammer && pickaxe != hammer
      && axe.Valid() && pickaxe.Valid() && hammer.Valid()
      && axe.cooldown == 20 && pickaxe.cooldown == 20 && hammer.cooldown == 15
      && inventory.Valid()
      && buildingSystem.blueprints == Tools.StandardBlueprints()
      && y <= Physics.FLOOR_Y as real
      && inventorySlots == ["axe", "pickaxe", "hammer"]
      && 0 <= selectedSlot < |inventorySlots|
    }

    /** What `use_tool` consults on a click at `(mx, my)`. */
    function ClickAt(mx: int, my: int): Click
      reads this, buildingSystem
    {
      Click(currentTool, buildingSystem.buildingMode, buildingSystem.currentBlueprint, mx, my)
    }

    /** `Player.__init__`. */
    constructor ()
      ensures Valid()
      ensures fresh(axe) && fresh(pickaxe) && fresh(hammer) && fresh(inventory) && fresh(buildingSystem)
      ensures x == Worlds.SCREEN_WIDTH / 2 && y == (Worlds.SCREEN_HEIGHT - 200) as real && velY == 0.0
      ensures !jumping && facingRight && currentTool == Tools.Axe
      ensures axe.name == "axe" && pickaxe.name == "pickaxe" && hammer.name == "hammer"
      ensures axe.cooldown == 20 && pickaxe.cooldown == 20 && hammer.cooldown == 15
      ensures axe.CanUse() && pickaxe.CanUse() && hammer.CanUse()
      ensures inventory.counts == map[M.Wood := 0, M.Stone := 0, M.Ore := 0]
      ensures !buildingSystem.buildingMode && buildingSystem.currentBlueprint == None
      ensures !showInventory && selectedSlot == 0
    {
      character := new Sprites.Character();
      width := Sprites.CHARACTER_WIDTH;
      height := Sprites.CHARACTER_HEIGHT;
      x := Worlds.SCREEN_WIDTH / 2;
      y := (Worlds.SCREEN_HEIGHT - 200) as real;
      velY := 0.0;
      jumping := false;
      facingRight := true;
      axe := new Tools.Tool.OfKind(Tools.Axe);
      pickaxe := new Tools.Tool.OfKind(Tools.Pickaxe);
      hammer := new Tools.Tool.OfKind(Tools.Hammer);
      currentTool := Tools.Axe;
      inventory := new M.Inventory();
      buildingSystem := new Tools.BuildingSystem();
      showInventory := false;
      selectedSlot := 0;
      inventorySlots := ["axe", "pickaxe", "hammer"];
    }

    /** `move`: shifts by exactly `dx`, with no clamp, facing the direction of a nonzero `dx`. */
    method Move(dx: int)
      requires Valid()
      modifies this`x, this`facingRight
      ensures Valid()
      ensures x == old(x) + dx
      ensures facingRight == if dx > 0 then true else if dx < 0 then false else old(facingRight)
    {
      x := x + dx;
      if dx > 0 {
        facingRight := true;
      } else if dx < 0 {
        facingRight := false;
      }
    }

    /** `jump`: only from a non-jumping state. */
    method Jump()
      requires Valid()
      modifies this`velY, this`jumping
      ensures Valid()
      ensures old(jumping) ==> velY == old(velY) && jumping
      ensures !old(jumping) ==> velY == Physics.JUMP_FORCE as real && jumping
    {
      if !jumping {
        velY := Physics.JUMP_FORCE as real;
        jumping := true;
      }
    }

    /** `update`: gravity and ground collision, the screen clamp on `x`, the tool's cooldown. */
    method Update()
      requires Valid()
      modifies this`x, this`y, this`velY, this`jumping, ToolOf(currentTool)`currentCooldown
      ensures Valid()
      ensures var f := Physics.ApplyGravity(old(y), old(velY));
              y == f.y && velY == f.velY && jumping == (old(jumping) && !f.landed)
      ensures x == Physics.ClampX(old(x)) && 0 <= x <= Physics.MAX_X
      ensures ToolOf(currentTool).currentCooldown == Tools.Tick(old(ToolOf(currentTool).currentCooldown))
    {
      velY := velY + Physics.GRAVITY;
      y := y + velY;
      if y > (Worlds.SCREEN_HEIGHT - height) as real {
        y := (Worlds.SCREEN_HEIGHT - height) as real;
        velY := 0.0;
        jumping := false;
      }
      if x < 0 {
        x := 0;
      }
      if x > Worlds.SCREEN_WIDTH - width {
        x := Worlds.SCREEN_WIDTH - width;
      }
      ToolOf(currentTool).Update();
    }

    /** `switch_tool`: names that are not tools are ignored. */
    method SwitchTool(toolName: string)
      modifies this`currentTool
      ensures currentTool == match Tools.ParseToolName(toolName)
                             case Some(k) => k
                             case None => old(currentTool)
    {
      var k := Tools.ParseToolName(toolName);
      if k.Some? {
        currentTool := k.value;
      }
    }

    /** Left and right with the inventory open move the slot cursor round all three slots. */
    method NavigateSlots(right: bool)
      requires Valid()
      modifies this`selectedSlot
      ensures Valid()
      ensures selectedSlot == if right then Controls.SlotRight(old(selectedSlot), |inventorySlots|)
                              else Controls.SlotLeft(old(selectedSlot), |inventorySlots|)
    {
      if right {
        selectedSlot := (selectedSlot + 1) % |inventorySlots|;
      } else {
        selectedSlot := (selectedSlot - 1) % |inventorySlots|;
      }
    }

    /** Return with the inventory open: take the selected slot's tool and close it. */
    method ConfirmSlot()
      requires Valid()
      modifies this`currentTool, this`showInventory
      ensures Valid()
      ensures currentTool == [Tools.Axe, Tools.Pickaxe, Tools.Hammer][selectedSlot] && !showInventory
    {
      SwitchTool(inventorySlots[selectedSlot]);
      showInventory := false;
    }

    /** Key E: open or close the inventory. */
    method ToggleInventory()
      modifies this`showInventory
      ensures showInventory == !old(showInventory)
    {
      showInventory := !showInventory;
    }

    /**
     * The held A and D keys while the inventory is closed: each calls `move` on its own, so
     * both together cancel out in `x` but leave the player facing right.
     */
    method HandleMovementKeys(a: bool, d: bool)
      requires Valid()
      modifies this`x, this`facingRight
      ensures Valid()
      ensures showInventory ==> x == old(x) && facingRight == old(facingRight)
      ensures !showInventory ==>
        && x == old(x) - (if a then Physics.PLAYER_SPEED else 0) + (if d then Physics.PLAYER_SPEED else 0)
        && facingRight == if d then true else if a then false else old(facingRight)
    {
      if !showInventory {
        if a {
          Move(-Physics.PLAYER_SPEED);
        }
        if d {
          Move(Physics.PLAYER_SPEED);
        }
      }
    }

    /** The body of `use_tool`'s loop on one tile, for the click at `(mx, my)`. */
    method VisitTile(world: Worlds.World, tile: Tile, mx: int, my: int)
      requires Valid()
      modifies inventory, world`tiles, world`buildings
      ensures Valid()
      ensures Outcome(world.tiles, inventory.counts, world.buildings)
           == Visit(buildingSystem, ClickAt(mx, my), old(Outcome(world.tiles, inventory.counts, world.buildings)), tile)
    {
      if tile.rect.CollidePoint(mx, my) {
        if currentTool == Tools.Axe && tile.kind == Tree {
          inventory.Add(M.Wood, 1);
          world.RemoveTile(tile);
        } else if currentTool == Tools.Pickaxe && tile.kind == Stone {
          inventory.Add(M.Stone, 1);
          world.RemoveTile(tile);
        } else if currentTool == Tools.Hammer && buildingSystem.buildingMode {
          var built := buildingSystem.Build(inventory, buildingSystem.currentBlueprint);
          if built {
            TruncateWhole(mx - 32);
            TruncateWhole(my - 32);
            world.AddBuilding(mx as real, my as real, buildingSystem.currentBlueprint.value);
          }
        }
      }
    }

    /**
     * `use_tool` as written: a ready tool starts its cooldown and then `for tile in
     * world.tiles` visits the list while the body removes from it, position by position.
     */
    method UseTool(world: Worlds.World, mx: int, my: int)
      requires Valid()
      modifies ToolOf(currentTool), inventory, world`tiles, world`buildings
      ensures Valid()
      ensures !old(ToolOf(currentTool).CanUse()) ==>
        unchanged(ToolOf(currentTool), inventory, world)
      ensures old(ToolOf(currentTool).CanUse()) ==>
        && ToolOf(currentTool).currentCooldown == ToolOf(currentTool).cooldown
        && ToolOf(currentTool).isSwinging && ToolOf(currentTool).animationFrame == 0
        && Outcome(world.tiles, inventory.counts, world.buildings)
           == ScanFrom(buildingSystem, ClickAt(mx, my), old(Outcome(world.tiles, inventory.counts, world.buildings)), 0)
    {
      var used := ToolOf(currentTool).Use();
      if !used {
        return;
      }
      ghost var c := ClickAt(mx, my);
      ghost var final := ScanFrom(buildingSystem, c, Outcome(world.tiles, inventory.counts, world.buildings), 0);
      var i := 0;
      while i < |world.tiles|
        modifies inventory, world`tiles, world`buildings
        invariant Valid()
        invariant ScanFrom(buildingSystem, c, Outcome(world.tiles, inventory.counts, world.buildings), i) == final
        decreases |world.tiles| - i
      {
        VisitTile(world, world.tiles[i], mx, my);
        i := i + 1;
      }
    }

    /**
     * The evidently intended `use_tool`: the same body over a snapshot of the tiles taken
     * before the loop, so that removals do not make the scan skip a tile.
     */
    method UseToolOnSnapshot(world: Worlds.World, mx: int, my: int)
      requires Valid()
      modifies ToolOf(currentTool), inventory, world`tiles, world`buildings
      ensures Valid()
      ensures !old(ToolOf(currentTool).CanUse()) ==>
        unchanged(ToolOf(currentTool), inventory, world)
      ensures old(ToolOf(currentTool).CanUse()) ==>
        && ToolOf(currentTool).currentCooldown == ToolOf(currentTool).cooldown
        && ToolOf(currentTool).isSwinging && ToolOf(currentTool).animationFrame == 0
        && Outcome(world.tiles, inventory.counts, world.buildings)
           == SnapshotScan(buildingSystem, ClickAt(mx, my), old(Outcome(world.tiles, inventory.counts, world.buildings)), old(world.tiles))
    {
      var used := ToolOf(currentTool).Use();
      if !used {
        return;
      }
      ghost var c := ClickAt(mx, my);
      var snapshot := world.tiles;
      ghost var final := SnapshotScan(buildingSystem, c, Outcome(world.tiles, inventory.counts, world.buildings), snapshot);
      for j := 0 to |snapshot|
        modifies inventory, world`tiles, world`buildings
        invariant Valid()
        invariant SnapshotScan(buildingSystem, c, Outcome(world.tiles, inventory.counts, world.buildings), snapshot[j..]) == final
      {
        assert snapshot[j..][1..] == snapshot[j + 1..];
        VisitTile(world, snapshot[j], mx, my);
      }
    }
  }
}

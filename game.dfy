/**
 * `game.py`: the `Player` class of the full game. Sounds, particles, notification texts
 * and drawing are not modelled.
 */
module Game {
  import opened Options
  import opened Geometry
  import M = Materials
  import Tools
  import Worlds
  import Physics
  import Sprites
  import Controls

  const INTERACTION_DISTANCE := 60
  /** Frames a swing animation lasts. */
  const SWING_DURATION := 10

  /** The squared distance from the point `(px, py)` to the centre of a tile. */
  function DistSq(px: int, py: real, t: Tile): real {
    var dx := (px - t.rect.CenterX()) as real;
    var dy := py - t.rect.CenterY() as real;
    dx * dx + dy * dy
  }

  /**
   * `distance < INTERACTION_DISTANCE`, squared: for a non-negative `d`,
   * `sqrt(d) < 60` exactly when `d < 3600`.
   */
  predicate InReach(px: int, py: real, t: Tile) {
    DistSq(px, py, t) < (INTERACTION_DISTANCE * INTERACTION_DISTANCE) as real
  }

  /** A tree or stone within reach. */
  predicate Candidate(px: int, py: real, t: Tile) {
    Interactive(t) && InReach(px, py, t)
  }

  /** No tree or stone is within reach. */
  predicate NothingInReach(tiles: seq<Tile>, px: int, py: real) {
    forall j :: 0 <= j < |tiles| ==> !Candidate(px, py, tiles[j])
  }

  /**
   * Position `k` holds the target of `get_closest_interactive_object`: a candidate, strictly
   * closer than every candidate before it and no farther than every candidate after it
   * (the scan replaces its best only on a strictly smaller distance).
   */
  predicate IsTarget(tiles: seq<Tile>, px: int, py: real, k: int) {
    && 0 <= k < |tiles|
    && Candidate(px, py, tiles[k])
    && (forall j :: 0 <= j < k && Candidate(px, py, tiles[j]) ==> DistSq(px, py, tiles[j]) > DistSq(px, py, tiles[k]))
    && (forall j :: k < j < |tiles| && Candidate(px, py, tiles[j]) ==> DistSq(px, py, tiles[j]) >= DistSq(px, py, tiles[k]))
  }

  /** At most one position is the target. */
  lemma TargetUnique(tiles: seq<Tile>, px: int, py: real, k1: int, k2: int)
    requires IsTarget(tiles, px, py, k1) && IsTarget(tiles, px, py, k2)
    ensures k1 == k2
  {
    var d1, d2 := DistSq(px, py, tiles[k1]), DistSq(px, py, tiles[k2]);
    assert k1 < k2 ==> d1 > d2;
    assert k2 < k1 ==> d2 > d1;
  }

  /**
   * The target is the first tile equal to itself, so `remove_tile(target)`, which removes
   * the first value-equal tile, removes exactly the target's own position.
   */
  lemma TargetIsFirstOccurrence(tiles: seq<Tile>, px: int, py: real, k: int)
    requires IsTarget(tiles, px, py, k)
    ensures tiles[k] !in tiles[..k]
    ensures RemoveFirst(tiles, tiles[k]) == tiles[..k] + tiles[k + 1..]
  {
    forall j | 0 <= j < k
      ensures tiles[j] != tiles[k]
    {
      if Candidate(px, py, tiles[j]) {
        assert DistSq(px, py, tiles[j]) != DistSq(px, py, tiles[k]);
      }
    }
    RemoveFirstAt(tiles, tiles[k], k);
  }

  /**
   * The effect of a ready tool on the nearest target: the tool's yield from the target's
   * kind, if any, is added once and that target alone leaves the tile list; a tool that
   * yields nothing from it leaves the counts and the tiles as they were.
   */
  ghost predicate Harvested(tiles: seq<Tile>, px: int, py: real, tool: Tools.ToolName,
                      before: map<M.Material, int>, after: map<M.Material, int>, tilesAfter: seq<Tile>)
  {
    && (exists k :: IsTarget(tiles, px, py, k))
    && forall k :: IsTarget(tiles, px, py, k) ==>
      match HarvestYield(tool, tiles[k].kind)
      case Some(m) =>
        m in before && after == before[m := before[m] + 1] && tilesAfter == tiles[..k] + tiles[k + 1..]
      case None =>
        after == before && tilesAfter == tiles
  }

  /** `Harvested` holds when the effect is that of the target at `k`, since no other position is the target. */
  lemma HarvestedAt(tiles: seq<Tile>, px: int, py: real, tool: Tools.ToolName, k: int,
                    before: map<M.Material, int>, after: map<M.Material, int>, tilesAfter: seq<Tile>)
    requires IsTarget(tiles, px, py, k)
    requires match HarvestYield(tool, tiles[k].kind)
             case Some(m) =>
               m in before && after == before[m := before[m] + 1] && tilesAfter == tiles[..k] + tiles[k + 1..]
             case None =>
               after == before && tilesAfter == tiles
    ensures Harvested(tiles, px, py, tool, before, after, tilesAfter)
  {
    forall j | IsTarget(tiles, px, py, j)
      ensures j == k
    {
      TargetUnique(tiles, px, py, k, j);
    }
  }

  /**
   * Position `k` is the nearest candidate among the first `n` tiles, ties going to the
   * earliest, as the scan of `get_closest_interactive_object` has it after `n` steps.
   */
  ghost predicate BestWithin(tiles: seq<Tile>, px: int, py: real, k: int, n: int)
    requires n <= |tiles|
  {
    && 0 <= k < n
    && Candidate(px, py, tiles[k])
    && (forall j :: 0 <= j < k && Candidate(px, py, tiles[j]) ==> DistSq(px, py, tiles[j]) > DistSq(px, py, tiles[k]))
    && (forall j :: k < j < n && Candidate(px, py, tiles[j]) ==> DistSq(px, py, tiles[j]) >= DistSq(px, py, tiles[k]))
  }

  /** A prefix holding some candidate has a nearest one. */
  lemma {:induction false} BestWithinExists(tiles: seq<Tile>, px: int, py: real, n: nat) returns (k: int)
    requires n <= |tiles|
    requires exists j :: 0 <= j < n && Candidate(px, py, tiles[j])
    ensures BestWithin(tiles, px, py, k, n)
    decreases n
  {
    if exists j :: 0 <= j < n - 1 && Candidate(px, py, tiles[j]) {
      k := BestWithinExists(tiles, px, py, n - 1);
      if Candidate(px, py, tiles[n - 1]) && DistSq(px, py, tiles[n - 1]) < DistSq(px, py, tiles[k]) {
        k := n - 1;
      }
    } else {
      k := n - 1;
    }
  }

  /** Whenever some tree or stone is within reach, there is a target. */
  lemma TargetExists(tiles: seq<Tile>, px: int, py: real)
    requires !NothingInReach(tiles, px, py)
    ensures exists k :: IsTarget(tiles, px, py, k)
  {
    var k := BestWithinExists(tiles, px, py, |tiles|);
    assert IsTarget(tiles, px, py, k);
  }

  /**
   * With an axe and only trees within reach, a harvest adds exactly one wood and removes
   * exactly one tile.
   */
  lemma HarvestedTreeWithAxe(tiles: seq<Tile>, px: int, py: real,
                             before: map<M.Material, int>, after: map<M.Material, int>, tilesAfter: seq<Tile>)
    requires Harvested(tiles, px, py, Tools.Axe, before, after, tilesAfter)
    requires forall j :: 0 <= j < |tiles| && Candidate(px, py, tiles[j]) ==> tiles[j].kind == Tree
    ensures M.Wood in before && after == before[M.Wood := before[M.Wood] + 1]
    ensures |tilesAfter| == |tiles| - 1 && multiset(tilesAfter) < multiset(tiles)
  {
    var k :| IsTarget(tiles, px, py, k);
    HarvestedWoodAt(tiles, px, py, k, before, after, tilesAfter);
    DropOneMultiset(tiles, k);
  }

  /** The effect `Harvested` gives for an axe on the tree at the target position `k`. */
  lemma HarvestedWoodAt(tiles: seq<Tile>, px: int, py: real, k: int,
                        before: map<M.Material, int>, after: map<M.Material, int>, tilesAfter: seq<Tile>)
    requires Harvested(tiles, px, py, Tools.Axe, before, after, tilesAfter)
    requires IsTarget(tiles, px, py, k) && tiles[k].kind == Tree
    ensures M.Wood in before && after == before[M.Wood := before[M.Wood] + 1]
    ensures tilesAfter == tiles[..k] + tiles[k + 1..]
  {
    assert HarvestYield(Tools.Axe, tiles[k].kind) == Some(M.Wood);
  }

  /** Dropping position `k` takes exactly one copy of `s[k]` out of the multiset. */
  lemma DropOneMultiset<T>(s: seq<T>, k: int)
    requires 0 <= k < |s|
    ensures multiset(s) == multiset(s[..k] + s[k + 1..]) + multiset{s[k]}
  {
    assert s == s[..k] + [s[k]] + s[k + 1..];
  }

  /** Which material, if any, a tool yields from a tile: axe on tree, pickaxe on stone. */
  function HarvestYield(tool: Tools.ToolName, kind: TileKind): (r: Option<M.Material>)
    ensures r == Some(M.Wood) <==> tool == Tools.Axe && kind == Tree
    ensures r == Some(M.Stone) <==> tool == Tools.Pickaxe && kind == Stone
    ensures r.None? || r == Some(M.Wood) || r == Some(M.Stone)
  {
    if tool == Tools.Axe && kind == Tree then Some(M.Wood)
    else if tool == Tools.Pickaxe && kind == Stone then Some(M.Stone)
    else None
  }

  /** One frame of the swing timer on `(is_swinging, swing_timer)`. */
  function SwingStep(swinging: bool, timer: int): (bool, int) {
    if !swinging then (swinging, timer)
    else if timer + 1 >= SWING_DURATION then (false, 0)
    else (true, timer + 1)
  }

  /** `n` frames of the swing timer. */
  function SwingSteps(swinging: bool, timer: int, n: nat): (bool, int)
    decreases n
  {
    if n == 0 then (swinging, timer)
    else var (s, t) := SwingStep(swinging, timer); SwingSteps(s, t, n - 1)
  }

  /** A swing at timer `t` runs until the timer would reach 10, then clears and resets. */
  lemma {:induction false} SwingStepsFrom(t: nat, n: nat)
    requires t < SWING_DURATION
    decreases n
    ensures SwingSteps(true, t, n) == if t + n < SWING_DURATION then (true, t + n) else (false, 0)
  {
    if n > 0 {
      if t + 1 < SWING_DURATION {
        SwingStepsFrom(t + 1, n - 1);
      } else {
        SwingStepsIdle(0, n - 1);
      }
    }
  }

  /** Without a swing the timer stays put. */
  lemma {:induction false} SwingStepsIdle(t: int, n: nat)
    decreases n
    ensures SwingSteps(false, t, n) == (false, t)
  {
    if n > 0 {
      SwingStepsIdle(t, n - 1);
    }
  }

  /** A swing started by `interact` is cleared on exactly the 10th update. */
  lemma SwingLastsTenUpdates(n: nat)
    ensures SwingSteps(true, 0, n).0 <==> n < SWING_DURATION
    ensures 0 <= SwingSteps(true, 0, n).1 < SWING_DURATION
  {
    SwingStepsFrom(0, n);
  }

  /**
   * The hammer's countdown as `update` leaves it after one frame per entry of `selected`,
   * the tool current at that frame: `update` ticks the current tool only.
   */
  function HammerCountdown(selected: seq<Tools.ToolName>, c: int): int
    decreases |selected|
  {
    if selected == [] then c
    else HammerCountdown(selected[1..], if selected[0] == Tools.Hammer then Tools.Tick(c) else c)
  }

  /**
   * In `game.py` the current tool is never the hammer, so the countdown left by a hammer
   * swing never runs down: after the first swing in building mode, `use` on the hammer
   * fails for the rest of the game.
   */
  lemma {:induction false} HammerNeverRecovers(selected: seq<Tools.ToolName>, c: int)
    requires forall i :: 0 <= i < |selected| ==> selected[i] != Tools.Hammer
    decreases |selected|
    ensures HammerCountdown(selected, c) == c
  {
    if selected != [] {
      HammerNeverRecovers(selected[1..], c);
    }
  }

  /** After the first hammer swing, a thousand frames of play with the axe leave the hammer still cooling down. */
  lemma HammerStuckAfterFirstSwing()
    ensures HammerCountdown(seq(1000, _ => Tools.Axe), 15) == 15
  {
    HammerNeverRecovers(seq(1000, _ => Tools.Axe), 15);
  }

  /** The hammer's countdown when every frame ticks every tool, whichever is current. */
  function HammerCountdownTicked(selected: seq<Tools.ToolName>, c: int): int
    decreases |selected|
  {
    if selected == [] then c
    else HammerCountdownTicked(selected[1..], Tools.Tick(c))
  }

  /** With every tool ticked, the hammer is ready again after exactly its cooldown of frames. */
  lemma {:induction false} HammerRecovers(selected: seq<Tools.ToolName>, c: nat)
    decreases |selected|
    ensures HammerCountdownTicked(selected, c) == Tools.Ticks(c, |selected|)
    ensures HammerCountdownTicked(selected, c) == 0 <==> |selected| >= c
  {
    if selected != [] {
      HammerRecovers(selected[1..], Tools.Tick(c));
    }
    Tools.ReadyAfterExactly(c, |selected|);
  }

  /** The horizontal step of one frame of `handle_events` from the held left and right keys. */
  function KeyboardDx(left: bool, right: bool): (dx: int)
    ensures dx == 0 <==> left == right
    ensures dx > 0 <==> right && !left
    ensures dx != 0 ==> dx == Physics.PLAYER_SPEED || dx == -Physics.PLAYER_SPEED
  {
    (if right then Physics.PLAYER_SPEED else 0) - (if left then Physics.PLAYER_SPEED else 0)
  }

  /** The player of `game.py`. */
  class Player {
    const character: Sprites.Character
    const width: int
    const height: int
    var x: int
    var y: real
    var velY: real
    var jumping: bool
    var facingRight: bool
    const axe: Tools.Tool
    const pickaxe: Tools.Tool
    const hammer: Tools.Tool
    var currentTool: Tools.ToolName
    const inventory: M.Inventory
    const buildingSystem: Tools.BuildingSystem
    var showInventory: bool
    var selectedSlot: int
    /** The names in `inventory_slots` (the icons are not modelled). */
    const inventorySlots: seq<string>
    var isSwinging: bool
    var swingTimer: int

    /** `self.tools[name]`. */
    function ToolOf(k: Tools.ToolName): Tools.Tool
      reads this
    {
      match k
      case Axe => axe
      case Pickaxe => pickaxe
      case Hammer => hammer
    }

    ghost predicate Valid()
      reads this, axe, pickaxe, hammer, inventory
    {
      && width == Sprites.CHARACTER_WIDTH && height == Sprites.CHARACTER_HEIGHT
      && axe != pickaxe && axe != hammer && pickaxe != hammer
      && axe.Valid() && pickaxe.Valid() && hammer.Valid()
      && axe.cooldown == 20 && pickaxe.cooldown == 20 && hammer.cooldown == 15
      && inventory.Valid()
      && buildingSystem.blueprints == Tools.StandardBlueprints()
      // Only the slot names "axe" and "pickaxe" reach `switch_tool`.
      && currentTool != Tools.Hammer
      && 0 <= x <= Physics.MAX_X
      && y <= Physics.FLOOR_Y as real
      && 0 <= swingTimer < SWING_DURATION
      && inventorySlots == ["axe", "pickaxe"]
      && 0 <= selectedSlot < |inventorySlots|
    }

    /** The player's centre, `(x + width // 2, y + height // 2)`. */
    function CenterX(): int
      reads this
    {
      x + width / 2
    }

    function CenterY(): real
      reads this
    {
      y + (height / 2) as real
    }

    /**
     * The building `interact` places: `add_building(x + width, y + height, name)`, a 64 x 64
     * square centred on the player's lower right corner.
     */
    function PlacedBuilding(name: string): Building
      reads this
    {
      Building(Rect(x + width - 32, Truncate(y + height as real - 32.0), 64, 64), name)
    }

    /** `Player.__init__`. */
    constructor ()
      ensures Valid()
      ensures fresh(axe) && fresh(pickaxe) && fresh(hammer) && fresh(inventory) && fresh(buildingSystem)
      ensures x == Worlds.SCREEN_WIDTH / 2 && y == (Worlds.SCREEN_HEIGHT - 200) as real && velY == 0.0
      ensures !jumping && facingRight && currentTool == Tools.Axe
      ensures axe.name == "axe" && pickaxe.name == "pickaxe" && hammer.name == "hammer"
      ensures axe.cooldown == 20 && pickaxe.cooldown == 20 && hammer.cooldown == 15
      ensures axe.CanUse() && pickaxe.CanUse() && hammer.CanUse()
      ensures inventory.counts == map[M.Wood := 0, M.Stone := 0, M.Ore := 0]
      ensures !buildingSystem.buildingMode && buildingSystem.currentBlueprint == None
      ensures !showInventory && selectedSlot == 0 && !isSwinging && swingTimer == 0
    {
      character := new Sprites.Character();
      width := Sprites.CHARACTER_WIDTH;
      height := Sprites.CHARACTER_HEIGHT;
      x := Worlds.SCREEN_WIDTH / 2;
      y := (Worlds.SCREEN_HEIGHT - 200) as real;
      velY := 0.0;
      jumping := false;
      facingRight := true;
      axe := new Tools.Tool.OfKind(Tools.Axe);
      pickaxe := new Tools.Tool.OfKind(Tools.Pickaxe);
      hammer := new Tools.Tool.OfKind(Tools.Hammer);
      currentTool := Tools.Axe;
      inventory := new M.Inventory();
      buildingSystem := new Tools.BuildingSystem();
      showInventory := false;
      selectedSlot := 0;
      inventorySlots := ["axe", "pickaxe"];
      isSwinging := false;
      swingTimer := 0;
    }

    /** `move`: shift, face the direction of a nonzero `dx`, and stay on the screen. */
    method Move(dx: int)
      requires Valid()
      modifies this`x, this`facingRight
      ensures Valid()
      ensures x == Physics.ClampX(old(x) + dx)
      ensures facingRight == if dx > 0 then true else if dx < 0 then false else old(facingRight)
    {
      x := x + dx;
      if dx > 0 {
        facingRight := true;
      } else if dx < 0 {
        facingRight := false;
      }
      if x < 0 {
        x := 0;
      }
      if x > Worlds.SCREEN_WIDTH - width {
        x := Worlds.SCREEN_WIDTH - width;
      }
    }

    /** `jump`: only from a non-jumping state. */
    method Jump()
      requires Valid()
      modifies this`velY, this`jumping
      ensures Valid()
      ensures old(jumping) ==> velY == old(velY) && jumping
      ensures !old(jumping) ==> velY == Physics.JUMP_FORCE as real && jumping
    {
      if !jumping {
        velY := Physics.JUMP_FORCE as real;
        jumping := true;
      }
    }

    /** `update`: gravity and ground collision, the current tool's cooldown, the swing timer. */
    method Update()
      requires Valid()
      modifies this`y, this`velY, this`jumping, this`isSwinging, this`swingTimer, ToolOf(currentTool)`currentCooldown
      ensures Valid()
      ensures var f := Physics.ApplyGravity(old(y), old(velY));
              y == f.y && velY == f.velY && jumping == (old(jumping) && !f.landed)
      ensures ToolOf(currentTool).currentCooldown == Tools.Tick(old(ToolOf(currentTool).currentCooldown))
      ensures hammer.currentCooldown == HammerCountdown([currentTool], old(hammer.currentCooldown))
      ensures hammer.currentCooldown == old(hammer.currentCooldown)
      ensures (isSwinging, swingTimer) == SwingStep(old(isSwinging), old(swingTimer))
    {
      velY := velY + Physics.GRAVITY;
      y := y + velY;
      if y > (Worlds.SCREEN_HEIGHT - height) as real {
        y := (Worlds.SCREEN_HEIGHT - height) as real;
        velY := 0.0;
        jumping := false;
      }
      ToolOf(currentTool).Update();
      if isSwinging {
        swingTimer := swingTimer + 1;
        if swingTimer >= SWING_DURATION {
          isSwinging := false;
          swingTimer := 0;
        }
      }
    }

    /**
     * The evidently intended tool step of `update`: every tool's cooldown runs down each
     * frame, so the hammer, which is never the current tool, recovers too.
     */
    method TickAllTools()
      requires Valid()
      modifies axe`currentCooldown, pickaxe`currentCooldown, hammer`currentCooldown
      ensures Valid()
      ensures axe.currentCooldown == Tools.Tick(old(axe.currentCooldown))
      ensures pickaxe.currentCooldown == Tools.Tick(old(pickaxe.currentCooldown))
      ensures hammer.currentCooldown == HammerCountdownTicked([currentTool], old(hammer.currentCooldown))
    {
      axe.Update();
      pickaxe.Update();
      hammer.Update();
    }

    /** `switch_tool`: names that are not tools are ignored. */
    method SwitchTool(toolName: string)
      modifies this`currentTool
      ensures currentTool == match Tools.ParseToolName(toolName)
                             case Some(k) => k
                             case None => old(currentTool)
    {
      var k := Tools.ParseToolName(toolName);
      if k.Some? {
        currentTool := k.value;
      }
    }

    /** `quick_select`: keys 1 and 2 select the tool of an existing slot. */
    method QuickSelect(slotIndex: nat)
      requires Valid()
      modifies this`currentTool
      ensures Valid()
      ensures slotIndex >= |inventorySlots| ==> currentTool == old(currentTool)
      ensures slotIndex == 0 ==> currentTool == Tools.Axe
      ensures slotIndex == 1 ==> currentTool == Tools.Pickaxe
    {
      if slotIndex < |inventorySlots| {
        SwitchTool(inventorySlots[slotIndex]);
      }
    }

    /** Space or Return with the inventory open: take the selected slot's tool and close it. */
    method ConfirmSlot()
      requires Valid()
      modifies this`currentTool, this`showInventory
      ensures Valid()
      ensures currentTool == (if selectedSlot == 0 then Tools.Axe else Tools.Pickaxe) && !showInventory
    {
      SwitchTool(inventorySlots[selectedSlot]);
      showInventory := false;
    }

    /** The arrow keys (and A/D) with the inventory open move the slot cursor round both slots. */
    method NavigateSlots(right: bool)
      requires Valid()
      modifies this`selectedSlot
      ensures Valid()
      ensures selectedSlot == if right then Controls.SlotRight(old(selectedSlot), |inventorySlots|)
                              else Controls.SlotLeft(old(selectedSlot), |inventorySlots|)
    {
      if right {
        selectedSlot := (selectedSlot + 1) % |inventorySlots|;
      } else {
        selectedSlot := (selectedSlot - 1) % |inventorySlots|;
      }
    }

    /** Key E: open or close the inventory. */
    method ToggleInventory()
      modifies this`showInventory
      ensures showInventory == !old(showInventory)
    {
      showInventory := !showInventory;
    }

    /** Space: with the inventory open, take the selected slot's tool and close it; otherwise jump. */
    method PressSpace()
      requires Valid()
      modifies this`currentTool, this`showInventory, this`velY, this`jumping
      ensures Valid()
      ensures old(showInventory) ==>
        && currentTool == (if selectedSlot == 0 then Tools.Axe else Tools.Pickaxe) && !showInventory
        && velY == old(velY) && jumping == old(jumping)
      ensures !old(showInventory) ==>
        && currentTool == old(currentTool) && !showInventory
        && velY == (if old(jumping) then old(velY) else Physics.JUMP_FORCE as real) && jumping
    {
      if showInventory {
        ConfirmSlot();
      } else {
        Jump();
      }
    }

    /**
     * The held movement keys while the inventory is closed: left and right each contribute
     * one step, and `move` is called only when they do not cancel out.
     */
    method HandleMovementKeys(left: bool, right: bool)
      requires Valid()
      modifies this`x, this`facingRight
      ensures Valid()
      ensures showInventory ==> x == old(x) && facingRight == old(facingRight)
      ensures !showInventory ==> var dx := KeyboardDx(left, right);
        && x == Physics.ClampX(old(x) + dx)
        && facingRight == if dx > 0 then true else if dx < 0 then false else old(facingRight)
    {
      if !showInventory {
        var dx := 0;
        if left {
          dx := dx - Physics.PLAYER_SPEED;
        }
        if right {
          dx := dx + Physics.PLAYER_SPEED;
        }
        if dx != 0 {
          Move(dx);
        }
      }
    }

    /**
     * `get_closest_interactive_object`: a linear scan keeping the nearest tree or stone seen
     * so far within reach of the player's centre.
     */
    method GetClosestInteractiveObject(world: Worlds.World) returns (target: Option<Tile>, ghost best: int)
      ensures target.None? <==> NothingInReach(world.tiles, CenterX(), CenterY())
      ensures target.Some? ==> IsTarget(world.tiles, CenterX(), CenterY(), best) && world.tiles[best] == target.value
    {
      var px := x + width / 2;
      var py := y + (height / 2) as real;
      var tiles := world.tiles;
      target := None;
      var closest: real := 0.0;
      best := 0;
      var i := 0;
      while i < |tiles|
        invariant 0 <= i <= |tiles|
        invariant target.None? ==> forall j :: 0 <= j < i ==> !Candidate(px, py, tiles[j])
        invariant target.Some? ==> best < i && target.value == tiles[best] && closest == DistSq(px, py, tiles[best])
        invariant target.Some? ==> Candidate(px, py, tiles[best])
        invariant target.Some? ==> forall j :: 0 <= j < best && Candidate(px, py, tiles[j]) ==> DistSq(px, py, tiles[j]) > closest
        invariant target.Some? ==> forall j :: best < j < i && Candidate(px, py, tiles[j]) ==> DistSq(px, py, tiles[j]) >= closest
      {
        var tile := tiles[i];
        if tile.kind == Tree || tile.kind == Stone {
          var distance := DistSq(px, py, tile);
          if distance < (INTERACTION_DISTANCE * INTERACTION_DISTANCE) as real && (target.None? || distance < closest) {
            closest := distance;
            target := Some(tile);
            best := i;
          }
        }
        i := i + 1;
      }
      if target.Some? {
        assert IsTarget(tiles, px, py, best);
      }
    }

    /**
     * The building-mode branch of `interact`: a ready hammer swings and the current
     * blueprint is built, if affordable, at the player's lower right corner; a hammer on
     * cooldown does nothing.
     */
    method SwingHammer(world: Worlds.World)
      requires Valid() && buildingSystem.buildingMode
      modifies this`isSwinging, this`swingTimer, inventory, world`buildings, hammer
      ensures Valid()
      ensures old(hammer.CanUse()) ==>
        && hammer.currentCooldown == hammer.cooldown && isSwinging && swingTimer == 0
        && hammer.isSwinging && hammer.animationFrame == 0
        && var name := buildingSystem.currentBlueprint;
           if old(buildingSystem.CanAfford(inventory.counts, name)) then
             && inventory.counts == Tools.Deduct(old(inventory.counts), buildingSystem.blueprints[name.value])
             && world.buildings == old(world.buildings) +
                  [PlacedBuilding(name.value)]
           else
             inventory.counts == old(inventory.counts) && world.buildings == old(world.buildings)
      ensures !old(hammer.CanUse()) ==>
        && unchanged(hammer) && isSwinging == old(isSwinging) && swingTimer == old(swingTimer)
        && inventory.counts == old(inventory.counts) && world.buildings == old(world.buildings)
    {
      var used := hammer.Use();
      if used {
        isSwinging := true;
        swingTimer := 0;
        var built := buildingSystem.Build(inventory, buildingSystem.currentBlueprint);
        if built {
          TruncateWhole(x + width - 32);
          world.AddBuilding((x + width) as real, y + height as real, buildingSystem.currentBlueprint.value);
        }
      }
    }

    /**
     * The tool-mode branch of `interact` on the target at position `k`: a ready tool swings,
     * and an axe on a tree or a pickaxe on a stone adds one unit and removes exactly that
     * tile; any other pairing only spends the cooldown; a tool on cooldown does nothing.
     */
    method SwingTool(world: Worlds.World, target: Tile, ghost k: nat)
      requires Valid() && IsTarget(world.tiles, CenterX(), CenterY(), k) && world.tiles[k] == target
      modifies this`isSwinging, this`swingTimer, inventory, world`tiles, ToolOf(currentTool)
      ensures Valid()
      ensures old(ToolOf(currentTool).CanUse()) ==>
        && ToolOf(currentTool).currentCooldown == ToolOf(currentTool).cooldown && isSwinging && swingTimer == 0
        && ToolOf(currentTool).isSwinging && ToolOf(currentTool).animationFrame == 0
      ensures old(ToolOf(currentTool).CanUse()) ==>
        Harvested(old(world.tiles), CenterX(), CenterY(), currentTool, old(inventory.counts), inventory.counts, world.tiles)
      ensures var tiles := old(world.tiles);
        !old(ToolOf(currentTool).CanUse()) ==>
          && unchanged(ToolOf(currentTool)) && isSwinging == old(isSwinging) && swingTimer == old(swingTimer)
          && inventory.counts == old(inventory.counts) && world.tiles == tiles
    {
      var tool := ToolOf(currentTool);
      var used := tool.Use();
      if used {
        isSwinging := true;
        swingTimer := 0;
        Collect(world, target, k);
      }
    }

    /**
     * The harvest step of the tool-mode branch, after a successful swing: an axe on a tree
     * or a pickaxe on a stone adds one unit and removes the target.
     */
    method Collect(world: Worlds.World, target: Tile, ghost k: nat)
      requires inventory.Valid() && IsTarget(world.tiles, CenterX(), CenterY(), k) && world.tiles[k] == target
      modifies inventory, world`tiles
      ensures inventory.Valid()
      ensures Harvested(old(world.tiles), CenterX(), CenterY(), currentTool, old(inventory.counts), inventory.counts, world.tiles)
    {
      ghost var tiles, before := world.tiles, inventory.counts;
      TargetIsFirstOccurrence(tiles, CenterX(), CenterY(), k);
      if currentTool == Tools.Axe && target.kind == Tree {
        inventory.Add(M.Wood, 1);
        world.RemoveTile(target);
      } else if currentTool == Tools.Pickaxe && target.kind == Stone {
        inventory.Add(M.Stone, 1);
        world.RemoveTile(target);
      }
      HarvestedAt(tiles, CenterX(), CenterY(), currentTool, k, before, inventory.counts, world.tiles);
    }

    /**
     * `interact`: nothing happens with nothing in reach; otherwise the building-mode or the
     * tool-mode branch runs on the nearest target.
     */
    method Interact(world: Worlds.World)
      requires Valid()
      modifies this`isSwinging, this`swingTimer, inventory, world`tiles, world`buildings
      modifies if buildingSystem.buildingMode then {hammer} else {ToolOf(currentTool)}
      ensures Valid()
      ensures NothingInReach(old(world.tiles), CenterX(), CenterY()) ==>
        && world.tiles == old(world.tiles) && world.buildings == old(world.buildings)
        && inventory.counts == old(inventory.counts)
        && isSwinging == old(isSwinging) && swingTimer == old(swingTimer)
        && unchanged(ToolOf(currentTool), hammer)
      ensures !NothingInReach(old(world.tiles), CenterX(), CenterY()) && buildingSystem.buildingMode ==>
        world.tiles == old(world.tiles)
      ensures !NothingInReach(old(world.tiles), CenterX(), CenterY()) && buildingSystem.buildingMode && old(hammer.CanUse()) ==>
        && hammer.currentCooldown == hammer.cooldown && isSwinging && swingTimer == 0
        && hammer.isSwinging && hammer.animationFrame == 0
        && var name := buildingSystem.currentBlueprint;
           if old(buildingSystem.CanAfford(inventory.counts, name)) then
             && inventory.counts == Tools.Deduct(old(inventory.counts), buildingSystem.blueprints[name.value])
             && world.buildings == old(world.buildings) +
                  [PlacedBuilding(name.value)]
           else
             inventory.counts == old(inventory.counts) && world.buildings == old(world.buildings)
      ensures !NothingInReach(old(world.tiles), CenterX(), CenterY()) && buildingSystem.buildingMode && !old(hammer.CanUse()) ==>
        && unchanged(hammer) && isSwinging == old(isSwinging) && swingTimer == old(swingTimer)
        && inventory.counts == old(inventory.counts) && world.buildings == old(world.buildings)
      ensures !NothingInReach(old(world.tiles), CenterX(), CenterY()) && !buildingSystem.buildingMode ==>
        world.buildings == old(world.buildings)
      ensures !NothingInReach(old(world.tiles), CenterX(), CenterY()) && !buildingSystem.buildingMode && old(ToolOf(currentTool).CanUse()) ==>
        && ToolOf(currentTool).currentCooldown == ToolOf(currentTool).cooldown && isSwinging && swingTimer == 0
        && ToolOf(currentTool).isSwinging && ToolOf(currentTool).animationFrame == 0
      ensures !NothingInReach(old(world.tiles), CenterX(), CenterY()) && !buildingSystem.buildingMode && old(ToolOf(currentTool).CanUse()) ==>
        Harvested(old(world.tiles), CenterX(), CenterY(), currentTool, old(inventory.counts), inventory.counts, world.tiles)
      ensures var tiles := old(world.tiles);
        !NothingInReach(tiles, CenterX(), CenterY()) && !buildingSystem.buildingMode && !old(ToolOf(currentTool).CanUse()) ==>
          && unchanged(ToolOf(currentTool)) && isSwinging == old(isSwinging) && swingTimer == old(swingTimer)
          && inventory.counts == old(inventory.counts) && world.tiles == tiles
    {
      ghost var tiles := world.tiles;
      var target;
      ghost var k;
      target, k := GetClosestInteractiveObject(world);
      if target.None? {
        return;
      }
      if buildingSystem.buildingMode {
        SwingHammer(world);
      } else {
        SwingTool(world, target.value, k);
      }
    }
  }
}

# chase_run_swim_jump: the simulation layer, verified

This project models the gameplay simulation of a small pygame sandbox. The model covers:

- tools with cooldowns;
- a fixed building cost table;
- a player who walks, jumps, falls and harvests trees and stones;
- the world's tile and building lists;
- the keyboard rules for the inventory-slot cursor and the building-mode toggle;
- the help-overlay and notification timers;
- the sprite animation counters.

It proves properties of that model. Rendering, sound and particles are outside the model.

The repository has two front ends, and both are modelled:

- `game.py` (module `Game`), the full game;
- `main.py` (module `Standalone`), a single-file version of the same game.

Their `World` classes share the same tile and building code (only `game.py`'s carries a particle system), so one class `Worlds.World` models both.

Modules:

- `Geometry`: `pygame.Rect`, tiles, buildings, `list.remove`.
- `Materials`: the inventory dictionary.
- `Tools`: `tools.py`.
- `Worlds`: the world.
- `Physics`: the clamp and gravity rules both players share.
- `Controls`: the slot cursor and the building toggle.
- `Sprites`: `sprites.py`.
- `Ui`: `ui.py`.
- `Options`: an option type.

How the source maps into Dafny:

- Objects whose fields change become classes.
  - Methods say in `modifies` what they may change.
  - Their `ensures` state the whole new state.
  - Often the new state is given through a function, whose properties are proved as lemmas.
- Python floats (`y`, `vel_y`, gravity 0.8) are exact `real`s.
- A float passed to `pygame.Rect` is truncated toward zero (`Geometry.Truncate`).
- `math.sqrt(d) < 60` becomes `d < 3600` on the squared distance.
- Random tree and stone positions, and the mouse position, are parameters.

The world's layout and tile removal:

- `generate_world` creates 5 trees and 3 stones on 25 grass and 75 dirt tiles: `range(532, 600, 32)` gives three dirt rows per column.
- `remove_tile` removes the first value-equal tile.

## Model

| member | source | states |
|---|---|---|
| Tools.ParseToolName | game.py:363-365 | a name selects a tool exactly when it is one of the keys "axe", "pickaxe", "hammer" |
| Tools.Tool.constructor | tools.py:5-11 | a new tool keeps name, damage and cooldown, with countdown 0, frame 0, not swinging |
| Tools.Tool.OfKind | tools.py:62-72 | Axe and Pickaxe are (damage 2, cooldown 20), Hammer is (1, 15), all ready |
| Tools.Tool.Update | tools.py:13-15 | the countdown drops by exactly one when positive, stays at 0 otherwise, and stays within [0, cooldown] |
| Tools.Tool.CanUse | tools.py:17-18 | ready exactly when the countdown is 0, that is, exactly when update would leave it unchanged; a ready tool is in a valid state |
| Tools.Tool.Use | tools.py:20-26 | answers True exactly on a ready tool, which then holds countdown = cooldown, swinging, frame 0; a busy tool is unchanged |
| Tools.TicksClosedForm | tools.py:13-15 | n updates take a countdown c to c - n, and never below 0 |
| Tools.ReadyAfterExactly | tools.py:13-26 | after use sets the countdown to c, the tool is ready again after exactly c updates |
| Tools.Tool.AdvanceSwing | tools.py:58-60 | the swing frame counter of draw advances while swinging and stops the swing at 20 |
| Tools.SwingFramesFrom | tools.py:58-60 | a swing at frame f stays visible for exactly 20 - f more draws, then the counter sits at 20 |
| Tools.SwingFramesIdle | tools.py:30 | drawing a tool that is not swinging leaves its counter alone |
| Tools.SwingShownTwentyDraws | tools.py:20-26 | a swing started by use is shown for exactly 20 draws |
| Tools.StandardCosts | tools.py:76-87 | house costs wood 50, stone 30, ore 10; toy_robot costs wood 20, stone 10, ore 30; no other name is a blueprint |
| Tools.BuildingSystem.constructor | tools.py:75-89 | the standard table, no current blueprint, building mode off |
| Tools.BuildingSystem.CanBuild | tools.py:91-99 | False for an unknown or missing name; otherwise True exactly when every required material is at least its amount |
| Tools.BuildingSystem.Build | tools.py:101-108 | all or nothing: True exactly when affordable, and then each required material drops by exactly its amount; on False the inventory is unchanged |
| Tools.DeductNonNegative | tools.py:96-107 | paying an affordable cost from non-negative counts leaves every count non-negative and lowers each required one by its amount |
| Materials.Inventory.constructor | game.py:163-167 | the inventory starts as wood 0, stone 0, ore 0 |
| Materials.Inventory.Add | game.py:299 | one count rises by n and no other entry changes |
| Geometry.Truncate | game.py:401-402 | pygame's int() of a float coordinate: the integer toward zero, within one of the value |
| Geometry.RemoveFirst | game.py:397-399 | remove_tile shortens the list by one exactly when the tile is present |
| Geometry.RemoveFirstAbsent | game.py:397-399 | removing an absent tile changes nothing |
| Geometry.RemoveFirstAt | game.py:397-399 | when k is the first position holding the tile, exactly position k is dropped |
| Geometry.RemoveFirstMultiset | game.py:397-399 | removal takes away exactly one copy of a present tile and nothing else |
| Physics.ClampX | game.py:186-190 | the result lies in [0, 768], equals the input inside that range, and is the nearer bound outside it |
| Physics.ApplyGravity | game.py:199-206 | y never passes the floor at 552; the clamp fires exactly when the new y would pass it, and then sets vel_y = 0; otherwise vel_y grows by 0.8 and y by the new vel_y |
| Physics.StandingIsStable | game.py:197-206 | a player standing on the floor with no vertical speed stays there frame after frame |
| Controls.SlotLeft | game.py:84-85 | the cursor stays in [0, count) and moves left, wrapping from 0 to the last slot |
| Controls.SlotRight | game.py:86-87 | the cursor stays in [0, count) and moves right, wrapping from the last slot to 0 |
| Controls.SlotLeftRightInverse | game.py:84-87 | left undoes right and right undoes left |
| Controls.SlotRightsWrap | game.py:86-87 | n right presses move the cursor to (slot + n) mod count |
| Controls.ToggleBuildingMode | game.py:67-74 | key B flips building mode; the blueprint becomes "house" when it turns on and None when it turns off; main.py repeats this code at 246-251 |
| Worlds.World.GenerateWorld | game.py:375-395 | appends 100 ground tiles column by column (grass on top, three dirt below), then the 5 trees (32 x 96 at y 404), then the 3 stones (64 x 64 at y 436), and keeps the earlier tiles; main.py repeats this code at 180-200 |
| Worlds.World.constructor | game.py:368-373 | a new world holds exactly the generated layout: 25 grass, 75 dirt, 5 tree and 3 stone tiles, and no buildings |
| Worlds.GroundPrefixCounts | game.py:378-383 | among the first n ground tiles every fourth is grass and the rest dirt |
| Worlds.LayoutCounts | game.py:375-395 | a generated layout holds exactly 25 grass, 75 dirt, 5 tree and 3 stone tiles; main.py repeats this code at 180-200 |
| Worlds.LayoutPlacement | game.py:385-395 | every tree and stone is interactive, has x in [0, 768], and rests on the grass row at y 500 |
| Worlds.World.RemoveTile | game.py:397-399 | the tile list loses its first tile equal to the argument, or is unchanged if there is none; main.py repeats this code at 202-204 |
| Worlds.World.AddBuilding | game.py:401-403 | appends exactly one 64 x 64 building centred on (x, y), with truncated coordinates, tagged with the blueprint; main.py repeats this code at 206-208 |
| Sprites.Step | sprites.py:14-18 | the frame advances modulo the frame count exactly on the call where the timer reaches the speed, the timer then resets to 0, and the counter stays in range |
| Sprites.WithinPeriod | sprites.py:15-18 | within one period the timer counts up with the frame held, and the period's last call advances it |
| Sprites.FullPeriods | sprites.py:15-18 | from a reset timer, every speed calls advance the frame exactly once |
| Sprites.AdvanceFour | sprites.py:75 | k advances over four frames land on (f + k) mod 4 |
| Sprites.SpriteSheet.constructor | sprites.py:5-12 | keeps the frame size, count and speed; counter at frame 0, timer 0 |
| Sprites.SpriteSheet.GetFrame | sprites.py:14-22 | one counter step, keeping 0 <= frame < frames and 0 <= timer < speed, and the source rectangle (frame * width, 0, width, height) |
| Sprites.Character.constructor | sprites.py:33-36 | the character is 32 x 48, with 4 walking frames at speed 8, starting at frame 0 |
| Sprites.Character.Draw | sprites.py:71-77 | one counter step of draw; the frame drawn is a valid index of the four walking frames |
| Sprites.WalkCycle | sprites.py:54-75 | the walking frame advances by one, modulo 4, once every 8 draws, and holds during the 7 draws between |
| Game.BestWithinExists | game.py:257-267 | a prefix of the tiles holding some tree or stone in reach has a nearest one, strictly closer than every earlier candidate and no farther than every later one, as the scan keeps it |
| Game.TargetExists | game.py:257-269 | whenever some tree or stone lies within reach, there is a target, so get_closest_interactive_object returns a tile |
| Game.HarvestedTreeWithAxe | game.py:292-300 | with the axe ready and only trees within reach, interact adds exactly one wood and removes exactly one tile from the list |
| Game.TargetUnique | game.py:265-267 | at most one tile is the nearest target |
| Game.TargetIsFirstOccurrence | game.py:298-300 | no earlier tile equals the target, so remove_tile drops exactly the target's own position |
| Game.HarvestYield | game.py:298-315 | wood exactly for axe on tree, stone exactly for pickaxe on stone, nothing for any other pairing |
| Game.SwingStepsFrom | game.py:211-216 | a swing at timer t continues until the timer would reach 10, then clears with the timer reset to 0 |
| Game.SwingStepsIdle | game.py:212 | without a swing the timer stays put |
| Game.SwingLastsTenUpdates | game.py:211-216 | a swing started by interact is cleared on exactly the 10th update, and the timer stays in [0, 10) |
| Game.HammerNeverRecovers | game.py:209 | as written, frames whose current tool is never the hammer leave the hammer's countdown where it is |
| Game.HammerStuckAfterFirstSwing | game.py:209 | after a hammer swing sets the countdown to 15, a thousand frames with the axe still leave it at 15, so the hammer cannot be used |
| Game.HammerRecovers | tools.py:13-15 | when every frame ticks the hammer, its countdown after n frames is max(c - n, 0), ready again after exactly c frames |
| Game.KeyboardDx | game.py:101-105 | the step is zero exactly when both or neither of left and right are held, positive exactly for right alone, and otherwise plus or minus 5 |
| Game.Player.constructor | game.py:142-177 | the player starts at (400, 400) at rest, facing right, with the axe, fresh ready tools (cooldowns 20, 20, 15), an empty inventory, building mode off, two slots and no swing |
| Game.Player.Move | game.py:179-190 | x becomes the clamp of x + dx into [0, 768]; facing is set only by a nonzero dx, following its sign |
| Game.Player.Jump | game.py:192-195 | from the ground vel_y becomes -15 and jumping is set; while jumping nothing changes |
| Game.Player.Update | game.py:197-216 | one frame of gravity with the ground clamp (y stays at most 552, vel_y 0 and jumping cleared when it fires), one cooldown tick of the current tool, and the hammer, never current in game.py, keeps its countdown; one swing-timer step keeping the timer in [0, 10) |
| Game.Player.TickAllTools | game.py:209 | the corrected tool step of update: the axe, pickaxe and hammer countdowns each drop by one while positive |
| Game.Player.SwitchTool | game.py:363-365 | a tool name selects that tool; any other name is ignored |
| Game.Player.QuickSelect | game.py:218-221 | keys 1 and 2 select the axe and the pickaxe; an index past the slots changes nothing |
| Game.Player.ConfirmSlot | game.py:88-90 | Return takes the selected slot's tool and closes the inventory |
| Game.Player.NavigateSlots | game.py:83-87 | the cursor moves left or right round the two slots, staying in [0, 2) |
| Game.Player.ToggleInventory | game.py:65-66 | key E opens or closes the inventory |
| Game.Player.PressSpace | game.py:57-64 | Space with the inventory open takes the selected tool and closes it, without jumping; otherwise it jumps |
| Game.Player.HandleMovementKeys | game.py:98-107 | with the inventory closed the held keys move the player by the clamped step, and opposite keys cancel without touching the facing; with it open nothing moves |
| Game.Player.GetClosestInteractiveObject | game.py:250-269 | None exactly when no tree or stone lies within distance 60 of the player's centre; otherwise the tree or stone in reach that is strictly closer than every earlier one and no farther than every later one, so ties go to the earliest |
| Game.Player.SwingHammer | game.py:278-290 | a ready hammer starts its cooldown of 15 and a swing, both the player's (timer 0) and the hammer's own (frame 0); an affordable blueprint is paid for and one building Rect(x + width - 32, y + height - 32, 64, 64) is appended; an unaffordable one changes neither inventory nor buildings; a busy hammer changes nothing |
| Game.Player.SwingTool | game.py:291-315 | a ready tool starts its cooldown of 20 and a swing, both the player's (timer 0) and the tool's own (frame 0), and with a matching target adds exactly one unit and removes exactly that tile; a mismatch only spends the cooldown; a busy tool changes nothing |
| Game.Player.Collect | game.py:298-313 | axe on tree adds one wood and pickaxe on stone one stone, and removes the target's position; other pairings change neither counts nor tiles |
| Game.Player.Interact | game.py:271-315 | with nothing in reach nothing changes (inventory, tiles, buildings, cooldowns, swing), even in building mode; building mode never touches the tiles and tool mode never the buildings; each branch then has the effect of SwingHammer or SwingTool on the nearest target, which exists whenever something is in reach |
| Standalone.Visit | main.py:161-172 | a visited tile not under the click changes nothing; a harvest removes the first equal tile and adds one unit; the hammer in building mode pays and builds once if affordable; the list never grows |
| Standalone.ScanFrom | main.py:160-172 | the loop as written, position by position over the list it shrinks; every material keeps an entry |
| Standalone.AwayRemoveFirst | main.py:164 | removing a tile under the click leaves the tiles not under the click as they were |
| Standalone.VisitHarvest | main.py:161-167 | with the axe or pickaxe a visit removes a harvestable tile and adds one unit, and otherwise changes nothing |
| Standalone.HarvestScan | main.py:160-167 | with the axe (pickaxe) wood (stone) rises by exactly the number of tiles removed, the other counts and the buildings are unchanged, tiles not under the click are untouched, and every tile the click does not harvest stays in order, so only trees (stones) under the click are removed |
| Standalone.KeepRemoveFirst | main.py:164 | removing a tile the click harvests leaves the tiles it does not harvest unchanged and in order |
| Standalone.VisitHammer | main.py:168-172 | with the hammer in building mode a visit under the click builds once if affordable, and otherwise changes nothing |
| Standalone.HammerStep | main.py:168-172 | the first visit of a hammer scan accounts for exactly one of the builds counted from there, or changes nothing |
| Standalone.HammerScan | main.py:168-172 | with the hammer in building mode the tiles stay; each tile under the click makes one build attempt, and each success deducts the full cost and appends one building (mx - 32, my - 32, 64, 64) |
| Standalone.HammerIdle | main.py:168 | the hammer outside building mode, or without a known blueprint, changes nothing |
| Standalone.BuildsKeepNonNegative | main.py:169 | any number of build attempts keeps non-negative counts non-negative |
| Standalone.SnapshotHarvest | main.py:160-167 | the corrected loop over a snapshot removes exactly the harvestable tiles, keeps the rest in order, and yields one unit per removed tile |
| Standalone.SnapshotHarvestsAll | main.py:160-167 | after the corrected loop no harvestable tile is left under the click, every other tile is kept in order, and the yield equals the number removed |
| Standalone.SkipsTileAfterRemoval | main.py:160-167 | two overlapping trees under the click: the loop as written harvests only the first; the corrected loop harvests both |
| Standalone.Player.constructor | main.py:32-59 | the standalone player starts at (400, 400) with the axe, the tools "axe", "pickaxe" and "hammer" ready with cooldowns 20, 20 and 15, an empty inventory, building mode off and three slots |
| Standalone.Player.Move | main.py:61-66 | x changes by exactly dx, with no clamp; facing follows the sign of a nonzero dx |
| Standalone.Player.Jump | main.py:68-71 | from the ground vel_y becomes -15 and jumping is set; while jumping nothing changes |
| Standalone.Player.Update | main.py:73-91 | one frame of gravity with the ground clamp, then x is clamped into [0, 768], then one cooldown tick of the current tool |
| Standalone.Player.SwitchTool | main.py:152-154 | a tool name selects that tool; any other name is ignored |
| Standalone.Player.NavigateSlots | main.py:253-256 | the cursor moves left or right round the three slots, staying in [0, 3) |
| Standalone.Player.ConfirmSlot | main.py:257-259 | Return takes the tool of the selected slot (axe, pickaxe or hammer) and closes the inventory |
| Standalone.Player.ToggleInventory | main.py:244-245 | key E opens or closes the inventory |
| Standalone.Player.HandleMovementKeys | main.py:266-270 | with the inventory closed A and D each move by 5 without a clamp; both together cancel in x but leave the player facing right |
| Standalone.Player.VisitTile | main.py:161-172 | the loop body on one tile has exactly the effect Visit describes |
| Standalone.Player.UseTool | main.py:156-172 | a busy tool changes nothing; a ready tool starts its cooldown (20, 20 or 15) and its swing at frame 0, and the tiles, inventory and buildings end as the as-written scan ScanFrom describes |
| Standalone.Player.UseToolOnSnapshot | main.py:156-172 | the same with the loop over a snapshot of the tiles: the tool starts its cooldown and swing as in UseTool, and the outcome is the corrected scan SnapshotScan |
| Ui.HelpLifetime | ui.py:20-24 | help shown with t frames left stays up, counting down, for t updates, and is hidden with the timer at 0 after that |
| Ui.HiddenStaysHidden | ui.py:20-24 | hidden help with the timer run out stays hidden |
| Ui.Tooltip.constructor | ui.py:4-18 | a new tooltip shows help with help_timer = help_timeout = 300 and holds the eight help lines |
| Ui.Tooltip.Update | ui.py:20-24 | the timer drops by one while positive, leaving the overlay alone; at 0 the overlay is hidden |
| Ui.Tooltip.ToggleHelp | ui.py:26-29 | flips the overlay and restarts the timer at 300 only when it is turned on |
| Ui.LiveMembers | ui.py:61 | an entry survives the filter exactly when it was queued with a positive duration |
| Ui.DecrementAt | ui.py:62-63 | every entry loses exactly one frame and keeps its text |
| Ui.LiveConcat | ui.py:61 | the filter keeps the order of the entries |
| Ui.UpdatesConcat | ui.py:59-63 | entries age independently of what is queued before or after them |
| Ui.UpdatedNonNegative | ui.py:59-63 | after an update every remaining duration is at least 0 |
| Ui.Lifetime | ui.py:56-63 | an entry with duration d is present, with d - n frames left, after n <= d updates, and gone after any later one |
| Ui.EmptyStaysEmpty | ui.py:59-63 | an empty queue stays empty |
| Ui.NotificationSystem.constructor | ui.py:52-54 | the queue starts empty |
| Ui.NotificationSystem.AddNotification | ui.py:56-57 | appends exactly one entry at the end, by default for 90 frames, leaving earlier entries as they were |
| Ui.NotificationSystem.Update | ui.py:59-63 | the queue becomes the entries with a positive duration, in order, each one frame shorter |
| Ui.NotificationSystem.DropExpired | ui.py:61 | the queue is rebuilt from exactly the entries with a positive duration, in order |
| Ui.NotificationSystem.AgeAll | ui.py:62-63 | every entry's duration drops by one in place |

## Left out

- Drawing, fonts, surfaces and images: every `draw*` method, `tool_sprites.py`, `assets/environment/cloud.py`, and the angle that `Tool.draw` computes with `math.sin`. Only `Tool.draw`'s frame counter is modelled.
- Sounds (`sound_manager.py`), particles (`particles.py`, `World.update`) and image loading (`asset_loader.py`). They are I/O or purely visual and never read by gameplay.
- Notification texts that `Player` and `Game` emit: "Selected ...", "Collected wood", "Not enough resources!" and the others. The queue itself is modelled in `Ui`, but the players do not hold a reference to it.
- The event loops themselves (`Game.run`, `Game.update`, `main()`'s `while` loop, `clock.tick`, `sys.exit`, quitting). Each handler they dispatch to is modelled. The mouse click that calls `interact` only while the inventory is closed is not.
- `pygame.mouse.get_pos()` and `random.randint` are parameters of `UseTool` and of the world constructor. Only the random tree and stone x positions are constrained, to [0, 768] as `randint` draws them; the click position is unconstrained.
- Float arithmetic: `y`, `vel_y` and gravity are exact reals. Rounding of IEEE doubles is not modelled.
- Sprites.SpriteSheet.constructor: requires `frames > 0`. With zero frames the source raises ZeroDivisionError at the first frame advance. The model does not represent that error.
- Game.Player.QuickSelect: takes a `nat`. The game calls it only with 0 and 1, so Python's negative indexing is not modelled.
- Tools.Tool.constructor: takes a `nat` cooldown. Every tool in the source has a positive cooldown.
- Game.Player.GetClosestInteractiveObject: the position of the target in the list is returned as a ghost value. The code returns only the tile.
- Ui.Tooltip.constructor: the help lines are stored but only their number is stated. The help text is drawn, never read.

## Findings

| source | as written | input that shows it | evidently intended | confidence | as-written member | corrected member |
|---|---|---|---|---|---|---|
| main.py:160-167 | `for tile in world.tiles` while `world.remove_tile(tile)` shrinks the same list, so the iterator skips the tile after each removed one | two overlapping trees, Rect(0, 404, 32, 96) and Rect(16, 404, 32, 96), clicked at (20, 450) with the axe: only the first is harvested | every harvestable tile under the click is harvested, as with a loop over a copy of the list | not executed | Standalone.SkipsTileAfterRemoval | Standalone.SnapshotHarvestsAll |
| game.py:209 | `update` ticks only `self.tools[self.current_tool]`, and the current tool is only ever "axe" or "pickaxe" (the slots at 171-174), so the hammer's countdown never runs down | enter building mode and interact once: `tools["hammer"].use()` at 279 sets its countdown to 15, and every later building-mode interaction finds it still 15, so nothing is built again | every tool's cooldown runs down each frame, so the hammer is ready again exactly 15 frames after a swing (Game.HammerRecovers) | not executed | Game.HammerNeverRecovers | Game.Player.TickAllTools |

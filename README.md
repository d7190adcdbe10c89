# Incognito: a Dafny model of the game engine's core

Incognito is a small side-scrolling stealth game written in Python 2 on pygame. The player
walks and jumps across a background wider than the window. It can hide (hold Down) at the cost
of its cloak meter, and medkits refill the meter. Patrolling enemies walk back and forth and
end the game when they see the player. Walking to the far right end wins.

This project models the engine's core:

- `characters.dfy`, module `Characters`:
  - the directions;
  - the player as a class;
  - an enemy's line of sight (`Sees`);
  - the patrol step as a function on values, and `PatrollingEnemy` as a class whose `Move` and
    `CanSee` update its fields in place.
- `collision.dfy`, module `Collision`: `StaticRect.colliding`, the correction that pushes the
  player out of an obstacle.
- `physics.dfy`, module `Physics`: the world's arithmetic as functions on snapshots. It covers
  clamping, camera scrolling, walking, jumping, falling, hiding, the statics loop and the
  medkit loop, with the list removal during iteration that the source does.
- `dispatch.dfy`, module `Dispatch`: key-handler registration and what running the handlers of
  the held keys does.
- `menus.dfy`, module `Menus`: the start menu's selection arithmetic, the `Menu` class, and its
  key loop as a function over batches of events.
- `core.dfy`, module `Core`: the classes `Engine` and `World`. Every method changes its fields
  exactly as the functions above say, and the properties are proved about those functions.

Integers are unbounded, as in Python. Python 2's `/` on integers floors, and so does Dafny's
for a positive divisor, which is the only case the source uses. The cloak is a `real`. The cloak
values the game reaches are 100 less multiples of 0.5 plus multiples of 50. Those are exact
binary fractions, so Python's floats and Dafny's reals agree on them.
Pygame's key codes are natural numbers. `keysDown` is the table `pygame.key.get_pressed()`
returns, and a key beyond it counts as up.

Two details of the code that the model keeps:

- A patrolling enemy turns only when it is outside `[left, right + width]`, where `width` is its
  own sprite width. An enemy at 1310 facing right in the stretch [1000, 1300] with width 50 is
  not outside it, since 1310 <= 1300 + 50. So it does not turn, and it moves on to 1317. See
  `PatrolExamples`.
- The player's height is clamped only by `move_player`. The jump and the static corrections
  set `y` directly, so `y` is not always within the clamp. `Clamped` is stated only after
  `Move`, `Walk` and `Fall`.

## Model

| member | source | states |
|---|---|---|
| Characters.Player.constructor | Icognito_Game_Project/nmg355_mja511_ma4096_xw1154_kps325-project/engine/characters.py:24-31 | A new player stands where it was placed, facing right, visible, not jumping, with a full cloak (100.0) and speed 15. |
| Characters.IsDirection | Icognito_Game_Project/nmg355_mja511_ma4096_xw1154_kps325-project/engine/characters.py:3-5 | A direction is exactly a value of absolute value 1 (`LEFT` = -1, `RIGHT` = 1), and turning around gives the other direction. |
| Characters.Player.Default | Icognito_Game_Project/nmg355_mja511_ma4096_xw1154_kps325-project/engine/characters.py:24-31 | `Player(image)` with the default arguments: the player stands at (0, 0), facing right, visible, not jumping, with a full cloak and speed 15. |
| Characters.Sees | Icognito_Game_Project/nmg355_mja511_ma4096_xw1154_kps325-project/engine/characters.py:47-65 | An enemy never sees a hidden player, one 60 or more away in height, or one when it faces no direction. Facing right, it sees the player exactly when one of the player's edges lies strictly inside (x, x + view distance); facing left, mirrored. |
| Characters.SeesMirror | Icognito_Game_Project/nmg355_mja511_ma4096_xw1154_kps325-project/engine/characters.py:50-65 | The left-facing test is the right-facing test in the mirrored level. |
| Characters.SeesMonotone | Icognito_Game_Project/nmg355_mja511_ma4096_xw1154_kps325-project/engine/characters.py:47-65 | A longer view distance sees every player a shorter one sees. |
| Characters.SeesExample | Icognito_Game_Project/nmg355_mja511_ma4096_xw1154_kps325-project/engine/characters.py:58-65 | An enemy at 500 facing right with view 300 sees a visible player at 600 on the same height. |
| Characters.PatrolStep | Icognito_Game_Project/nmg355_mja511_ma4096_xw1154_kps325-project/engine/characters.py:92-96 | The enemy turns around exactly when it is outside [left, right + width]. It then moves by exactly one step of its speed in the direction it now faces. |
| Characters.PatrolStepKeepsInvariant | Icognito_Game_Project/nmg355_mja511_ma4096_xw1154_kps325-project/engine/characters.py:92-96 | One step keeps the patrol invariant. The enemy is at most one step beyond either end, and beyond an end only while walking away from it. |
| Characters.PatrolStepsKeepInvariant | Icognito_Game_Project/nmg355_mja511_ma4096_xw1154_kps325-project/engine/characters.py:92-96 | Any number of steps keeps the patrol invariant. |
| Characters.PatrolStaysInBounds | Icognito_Game_Project/nmg355_mja511_ma4096_xw1154_kps325-project/engine/characters.py:87-96 | From the state the constructor leaves, an enemy with positive speed stays forever within one step of [x0, x0 + distance + width]. |
| Characters.PatrolExamples | Icognito_Game_Project/nmg355_mja511_ma4096_xw1154_kps325-project/engine/characters.py:93-96 | In the stretch [1000, 1300] with width 50 and speed 7, an enemy at 1310 facing right moves on to 1317 still facing right. One at 1351 turns and goes to 1344. |
| Characters.PatrollingEnemy.constructor | Icognito_Game_Project/nmg355_mja511_ma4096_xw1154_kps325-project/engine/characters.py:87-90 | The enemy starts where it was placed, facing left, not jumping, with its normal sprite. Its patrol stretch runs from its x to x + patrol distance. |
| Characters.PatrollingEnemy.Default | Icognito_Game_Project/nmg355_mja511_ma4096_xw1154_kps325-project/engine/characters.py:87-90 | `PatrollingEnemy` with the default speed 7, view distance 300 and patrol distance 300: it starts where placed, facing left, not jumping, with its normal sprite, and patrols from x to x + 300. |
| Characters.PatrollingEnemy.Move | Icognito_Game_Project/nmg355_mja511_ma4096_xw1154_kps325-project/engine/characters.py:92-96 | The position and facing become one `PatrolStep` of the old ones. |
| Characters.PatrollingEnemy.CanSee | Icognito_Game_Project/nmg355_mja511_ma4096_xw1154_kps325-project/engine/characters.py:47-68 | The result is `Sees` for this enemy and the player. When the test falls through to `return False`, the sprite is reset to normal; otherwise it is kept. |
| Collision.Colliding | Icognito_Game_Project/nmg355_mja511_ma4096_xw1154_kps325-project/engine/core.py:320-335 | A correction is returned exactly when one of the four contact cases holds, and the first case that holds decides it. Below lifts the player onto the top, above puts its head under the bottom, left and right push it out sideways. One coordinate is always kept. A player strictly apart from the static is never corrected. |
| Collision.CollidingStable | Icognito_Game_Project/nmg355_mja511_ma4096_xw1154_kps325-project/engine/core.py:320-335 | For positive sizes, a player already at the corrected position is corrected to that same position again. |
| Collision.CornerGoesVertical | Icognito_Game_Project/nmg355_mja511_ma4096_xw1154_kps325-project/engine/core.py:322-327 | A corner overlap that is also a side overlap is resolved vertically, onto the static's top. |
| Collision.NarrowStaticPassedThrough | Icognito_Game_Project/nmg355_mja511_ma4096_xw1154_kps325-project/engine/core.py:320-335 | A static narrower than the player, overlapping it between its edges, is not detected. |
| Physics.ClampX | Icognito_Game_Project/nmg355_mja511_ma4096_xw1154_kps325-project/engine/core.py:196-201 | The player's x ends within [0, width - player width] when the player fits, and a position already inside is kept. |
| Physics.ClampY | Icognito_Game_Project/nmg355_mja511_ma4096_xw1154_kps325-project/engine/core.py:203-208 | The player's y ends within [floor, height - player height] when the player fits, and a position already inside is kept. |
| Physics.LeftCutoff | Icognito_Game_Project/nmg355_mja511_ma4096_xw1154_kps325-project/engine/core.py:212 | The left cutoff is a third of the window width, floored. |
| Physics.RightCutoff | Icognito_Game_Project/nmg355_mja511_ma4096_xw1154_kps325-project/engine/core.py:213 | The right cutoff is two thirds of the window width, floored, and for a non-negative width it is not left of the left cutoff. |
| Physics.Scroll | Icognito_Game_Project/nmg355_mja511_ma4096_xw1154_kps325-project/engine/core.py:210-227 | The camera stays within the level. Away from the level's ends it keeps the player in the window's middle third. A camera that already shows the player in the middle third does not move. |
| Physics.Move | Icognito_Game_Project/nmg355_mja511_ma4096_xw1154_kps325-project/engine/core.py:191-227 | After `move_player` the player and camera are clamped, the move is exact when it stays in range, and nothing else about the player changes. |
| Physics.Walk | Icognito_Game_Project/nmg355_mja511_ma4096_xw1154_kps325-project/engine/core.py:230-235 | A hidden player does not move. A visible one faces the direction, moves by direction times speed (clamped) and stays clamped, and a clamped player's height is kept. |
| Physics.JumpImpulse | Icognito_Game_Project/nmg355_mja511_ma4096_xw1154_kps325-project/engine/core.py:240 | The impulse points up whenever gravity points down, and with the default gravity of -2 it is 30. |
| Physics.Jump | Icognito_Game_Project/nmg355_mja511_ma4096_xw1154_kps325-project/engine/core.py:237-242 | Only a visible player that is not already jumping jumps. It gets the impulse -15 * gravity and rises by it at once. The camera and the other fields do not change. |
| Physics.Fall | Icognito_Game_Project/nmg355_mja511_ma4096_xw1154_kps325-project/engine/core.py:245-253 | A player on or under the floor is untouched. One above it moves (clamped) and gains gravity in dy; if it reaches the floor it stops and lands. |
| Physics.Hide | Icognito_Game_Project/nmg355_mja511_ma4096_xw1154_kps325-project/engine/core.py:255-260 | Holding Down hides the player and spends 0.5 of cloak. Otherwise the player is visible and the cloak is kept. |
| Physics.Resolve | Icognito_Game_Project/nmg355_mja511_ma4096_xw1154_kps325-project/engine/core.py:263-270 | The player moves to the static's correction, if any, and its vertical motion is cancelled exactly when the correction changed its height. |
| Physics.ResolveAll | Icognito_Game_Project/nmg355_mja511_ma4096_xw1154_kps325-project/engine/core.py:262-270 | The statics loop keeps facing, visibility and cloak, and changes nothing when no static touches the player. |
| Physics.ResolveIdempotent | Icognito_Game_Project/nmg355_mja511_ma4096_xw1154_kps325-project/engine/core.py:262-270 | Resolving against the same static twice gives what resolving once gives. |
| Physics.Tick | Icognito_Game_Project/nmg355_mja511_ma4096_xw1154_kps325-project/engine/core.py:244-270 | The player part of a world tick: visibility follows the Down key, hiding costs 0.5 of cloak, facing is kept and the camera moves only in the fall. |
| Physics.WalkExample | Icognito_Game_Project/nmg355_mja511_ma4096_xw1154_kps325-project/engine/core.py:230-235 | A visible player at 0 with speed 15 walking right on open ground ends at 15. |
| Physics.HideExample | Icognito_Game_Project/nmg355_mja511_ma4096_xw1154_kps325-project/engine/core.py:255-258 | A player with 0.5 of cloak who hides for one tick has exactly 0.0 left, which is out of cloak. |
| Physics.InitialMedkits | Icognito_Game_Project/nmg355_mja511_ma4096_xw1154_kps325-project/engine/core.py:96-97 | Two medkits lie on the floor, the first at a third of the background's width (floored) and the second at twice that, in that order. |
| Physics.RemoveFirst | Icognito_Game_Project/nmg355_mja511_ma4096_xw1154_kps325-project/engine/core.py:304 | `list.remove` cuts out the first element equal to the kit, when there is one, and keeps the order of the rest. The list is one shorter. Without such an element the list is unchanged. |
| Physics.FirstIndex | Icognito_Game_Project/nmg355_mja511_ma4096_xw1154_kps325-project/engine/core.py:304 | The position found holds the kit, and no earlier position does. |
| Physics.RemoveFirstMultiset | Icognito_Game_Project/nmg355_mja511_ma4096_xw1154_kps325-project/engine/core.py:304 | `list.remove` takes exactly one occurrence of the kit out of the list, if there is one, and no other element. |
| Physics.RemoveFirstKeepsOthers | Icognito_Game_Project/nmg355_mja511_ma4096_xw1154_kps325-project/engine/core.py:304 | Every kit left after a removal was in the list before. |
| Physics.Sweep | Icognito_Game_Project/nmg355_mja511_ma4096_xw1154_kps325-project/engine/core.py:301-306 | The medkit loop never lengthens the list, and leaves a list whose kits are all out of reach as it is. |
| Physics.Far | Icognito_Game_Project/nmg355_mja511_ma4096_xw1154_kps325-project/engine/core.py:301-306 | The kits out of reach are kits of the list, each beyond the player's right edge. |
| Physics.RemoveFirstKeepsFar | Icognito_Game_Project/nmg355_mja511_ma4096_xw1154_kps325-project/engine/core.py:302-304 | Removing a kit within reach leaves the kits out of reach, in order. |
| Physics.SweepKeepsFar | Icognito_Game_Project/nmg355_mja511_ma4096_xw1154_kps325-project/engine/core.py:301-306 | The medkit loop never collects a kit out of reach: they all remain, in their original order. |
| Physics.SweepTakesOnlyReachable | Icognito_Game_Project/nmg355_mja511_ma4096_xw1154_kps325-project/engine/core.py:301-306 | The loop only removes kits that are in the list and within reach. |
| Physics.SweepAllReachable | Icognito_Game_Project/nmg355_mja511_ma4096_xw1154_kps325-project/engine/core.py:301-304 | Because the loop skips the element after each removal, a pass over kits that are all within reach leaves half of them, rounded down, so it collects the larger half. |
| Physics.BothMedkitsInReach | Icognito_Game_Project/nmg355_mja511_ma4096_xw1154_kps325-project/engine/core.py:96-97 | With both starting medkits in reach, one frame collects only the first and the next frame the second. |
| Dispatch.Register | Icognito_Game_Project/nmg355_mja511_ma4096_xw1154_kps325-project/engine/core.py:32-36 | The handler is appended to the key's list, which is created if missing, and every other key's list is unchanged. |
| Dispatch.RegisterAllInOrder | Icognito_Game_Project/nmg355_mja511_ma4096_xw1154_kps325-project/engine/core.py:32-36 | After any series of registrations, a key's handlers are exactly those registered for it, in registration order. |
| Dispatch.IsDown | Icognito_Game_Project/nmg355_mja511_ma4096_xw1154_kps325-project/engine/core.py:76 | A key beyond the table of key states is never held. |
| Dispatch.Pressed | Icognito_Game_Project/nmg355_mja511_ma4096_xw1154_kps325-project/engine/core.py:75-78 | When none of the enumerated keys is held, no handler is called. |
| Dispatch.PressedAppend | Icognito_Game_Project/nmg355_mja511_ma4096_xw1154_kps325-project/engine/core.py:75-78 | The handlers called for a concatenation of key enumerations are those of each part, in turn. |
| Dispatch.PressedIffHeld | Icognito_Game_Project/nmg355_mja511_ma4096_xw1154_kps325-project/engine/core.py:74-78 | A handler is called exactly when it is bound to some key inside the key table that is held. |
| Dispatch.Apply | Icognito_Game_Project/nmg355_mja511_ma4096_xw1154_kps325-project/engine/core.py:77-78 | One handler never moves a hidden player and never changes visibility or cloak; a walk handler on a visible player turns it to its direction. |
| Dispatch.RunAll | Icognito_Game_Project/nmg355_mja511_ma4096_xw1154_kps325-project/engine/core.py:75-78 | Running handlers never changes the player's visibility or cloak, and an empty list of handlers never quits. |
| Dispatch.RunAllAppend | Icognito_Game_Project/nmg355_mja511_ma4096_xw1154_kps325-project/engine/core.py:75-78 | Running two lists of handlers is running the first, then the second unless the first quit. |
| Dispatch.RunAllQuits | Icognito_Game_Project/nmg355_mja511_ma4096_xw1154_kps325-project/engine/core.py:75-78 | The run quits exactly when the quit handler is among those run. |
| Dispatch.HiddenIgnoresHandlers | Icognito_Game_Project/nmg355_mja511_ma4096_xw1154_kps325-project/engine/core.py:230-242 | While the player is hidden, no walk or jump handler moves it or the camera. |
| Menus.Step | Icognito_Game_Project/nmg355_mja511_ma4096_xw1154_kps325-project/engine/core.py:391-396 | A move of 0 keeps the selection, and any other move lands on an entry of the menu. |
| Menus.StepIsModular | Icognito_Game_Project/nmg355_mja511_ma4096_xw1154_kps325-project/engine/core.py:392-396 | The special case for -1 agrees with plain modular arithmetic: every move is (selection + move) mod count. |
| Menus.StepWraps | Icognito_Game_Project/nmg355_mja511_ma4096_xw1154_kps325-project/engine/core.py:392-396 | Up from the first entry selects the last, and Down from the last selects the first. |
| Menus.StepByOne | Icognito_Game_Project/nmg355_mja511_ma4096_xw1154_kps325-project/engine/core.py:392-396 | A move of one in either direction selects the neighbouring entry, wrapping around. |
| Menus.UpUndoesDown | Icognito_Game_Project/nmg355_mja511_ma4096_xw1154_kps325-project/engine/core.py:392-396 | Up undoes Down and Down undoes Up. |
| Menus.Menu.constructor | Icognito_Game_Project/nmg355_mja511_ma4096_xw1154_kps325-project/engine/core.py:340-352 | A fresh menu has no entries and the first entry selected. |
| Menus.Menu.Init | Icognito_Game_Project/nmg355_mja511_ma4096_xw1154_kps325-project/engine/core.py:385-389 | The menu takes the entries and their count. |
| Menus.Menu.GetPosition | Icognito_Game_Project/nmg355_mja511_ma4096_xw1154_kps325-project/engine/core.py:382-383 | The selected entry is returned. |
| Menus.Menu.Draw | Icognito_Game_Project/nmg355_mja511_ma4096_xw1154_kps325-project/engine/core.py:391-407 | The selection becomes one `Step` of the old one and is returned. |
| Menus.OnEvent | Icognito_Game_Project/nmg355_mja511_ma4096_xw1154_kps325-project/engine/core.py:47-64 | Escape and closing the window exit. Enter on Start commits the start, and Enter on Quit quits. Up and Down move the selection by one `Step` and keep the start flag. Any other event, and Enter on any other entry, leaves the phase unchanged. The selection stays on an entry, and nothing changes once the process is ending. |
| Menus.OnBatch | Icognito_Game_Project/nmg355_mja511_ma4096_xw1154_kps325-project/engine/core.py:47-64 | Through a batch a committed start stays committed. Quitting, or committing the start, needs an Enter in the batch, and exiting needs an Escape or a window close in it. |
| Menus.OnBatchAppend | Icognito_Game_Project/nmg355_mja511_ma4096_xw1154_kps325-project/engine/core.py:47-64 | Handling two stretches of events is handling the first, then the second. |
| Menus.EndingAbsorbs | Icognito_Game_Project/nmg355_mja511_ma4096_xw1154_kps325-project/engine/core.py:56-64 | Once the process is ending, later events change nothing. |
| Menus.OnBatchKeepsSelection | Icognito_Game_Project/nmg355_mja511_ma4096_xw1154_kps325-project/engine/core.py:47-64 | Through any batch of events the selection stays on an entry. |
| Menus.MenuRun | Icognito_Game_Project/nmg355_mja511_ma4096_xw1154_kps325-project/engine/core.py:45-66 | The menu starts the game or quits only after an Enter in some batch, and exits only after an Escape or a window close in some batch. |
| Menus.EscapeExits | Icognito_Game_Project/nmg355_mja511_ma4096_xw1154_kps325-project/engine/core.py:58-60 | Escape exits whatever is selected and whatever follows it. |
| Menus.EnterCommits | Icognito_Game_Project/nmg355_mja511_ma4096_xw1154_kps325-project/engine/core.py:53-57 | Enter on the first entry starts the game, and Enter on the second quits. |
| Menus.StartWaitsForBatchEnd | Icognito_Game_Project/nmg355_mja511_ma4096_xw1154_kps325-project/engine/core.py:45-57 | The start flag is checked only after the whole batch. So Enter, Down, Enter in one batch quits instead of starting. |
| Core.SightImage | Icognito_Game_Project/nmg355_mja511_ma4096_xw1154_kps325-project/engine/core.py:274-280 | After its sight test an enemy shows its detected sprite if it saw the player and has one, its normal sprite if the test fell through, and otherwise the sprite it had. |
| Core.Verdict | Icognito_Game_Project/nmg355_mja511_ma4096_xw1154_kps325-project/engine/core.py:119-123 | One frame's narration: running out of cloak always means "Game Over!". Reaching the goal otherwise means "You Win!". A spotting alone means "Game Over!". There is no narration when none of them happened. |
| Core.OutOfCloakBeatsWinning | Icognito_Game_Project/nmg355_mja511_ma4096_xw1154_kps325-project/engine/core.py:120-123 | A player who reaches the goal with no cloak left loses. |
| Core.Collected | Icognito_Game_Project/nmg355_mja511_ma4096_xw1154_kps325-project/engine/core.py:301-303 | Collecting kits changes only the cloak, raises it when at least one kit was collected, and changes nothing otherwise. |
| Core.Engine.constructor | Icognito_Game_Project/nmg355_mja511_ma4096_xw1154_kps325-project/engine/core.py:13-21 | A new engine has the window size, no key handlers, is not started and does not narrate. |
| Core.Engine.RegisterKeyHandler | Icognito_Game_Project/nmg355_mja511_ma4096_xw1154_kps325-project/engine/core.py:32-36 | The bindings become `Register` of the old ones. |
| Core.Engine.PutNarrative | Icognito_Game_Project/nmg355_mja511_ma4096_xw1154_kps325-project/engine/core.py:128-130 | The engine narrates this text. |
| Core.Engine.Stop | Icognito_Game_Project/nmg355_mja511_ma4096_xw1154_kps325-project/engine/core.py:132-133 | The session is no longer started. |
| Core.Engine.Tick | Icognito_Game_Project/nmg355_mja511_ma4096_xw1154_kps325-project/engine/core.py:69-78 | Closing the window quits without moving anything. Otherwise the world ends where `RunAll` takes it over the `Pressed` handlers, and `quit` is true exactly when a quit handler ran. |
| Core.Engine.RunHandlers | Icognito_Game_Project/nmg355_mja511_ma4096_xw1154_kps325-project/engine/core.py:77-78 | One key's handlers move the world as `RunAll` says, and stop at a quit. |
| Core.Engine.Init | Icognito_Game_Project/nmg355_mja511_ma4096_xw1154_kps325-project/engine/core.py:38-66 | The menu loop ends as `MenuRun` from the first entry says. Only a start starts the session and lays out the medkits. |
| Core.Engine.HandleBatch | Icognito_Game_Project/nmg355_mja511_ma4096_xw1154_kps325-project/engine/core.py:47-64 | One batch of menu events takes the menu phase to `OnBatch` of the selection it had, and while browsing the menu's selection follows it. |
| Core.Engine.Start | Icognito_Game_Project/nmg355_mja511_ma4096_xw1154_kps325-project/engine/core.py:83-97 | The session is started and the world's medkits are `InitialMedkits`. |
| Core.Engine.Frame | Icognito_Game_Project/nmg355_mja511_ma4096_xw1154_kps325-project/engine/core.py:101-123 | While narrating, only the handlers run: no spotting, and the narration, medkits and enemies do not change. Otherwise the world first becomes `Physics.Tick` of the old one, each enemy makes one `PatrolStep` and shows its `SightImage` against the player it then sees, `spotted` says exactly whether some enemy sees the player, and the medkits become `Sweep` of the old list. The handlers then run from the scene after the collection of the kits, as `RunAll` says, and unless they quit the narration is exactly `Verdict` of the spotting, the win check and the cloak check. |
| Core.Engine.Play | Icognito_Game_Project/nmg355_mja511_ma4096_xw1154_kps325-project/engine/core.py:103-123 | A frame while not narrating, with the contract `Frame` states for that case. |
| Core.Engine.Advance | Icognito_Game_Project/nmg355_mja511_ma4096_xw1154_kps325-project/engine/core.py:103-109 | The world's tick and the medkit loop: the new scene, the enemies' steps and sprites, the spotting and its narration, and the medkits as `Sweep` of the old list, with the cloak raised by `Collected`. |
| Core.Engine.Conclude | Icognito_Game_Project/nmg355_mja511_ma4096_xw1154_kps325-project/engine/core.py:120-123 | After handlers that did not quit, the win check and then the cloak check leave the narration `Verdict` says. |
| Core.QuitStopsTheRest | Icognito_Game_Project/nmg355_mja511_ma4096_xw1154_kps325-project/engine/core.py:71-78 | Once the quit handler runs, whatever handlers were to follow do not run. |
| Core.MenuEnds | Icognito_Game_Project/nmg355_mja511_ma4096_xw1154_kps325-project/engine/core.py:56-64 | An event that ends the process decides the whole batch. |
| Core.World.constructor | Icognito_Game_Project/nmg355_mja511_ma4096_xw1154_kps325-project/engine/core.py:172-189 | The world takes its measures, starts with no enemies, statics or medkits, and clamps the player and camera at once with `move_player(0, 0)`. |
| Core.World.Default | Icognito_Game_Project/nmg355_mja511_ma4096_xw1154_kps325-project/engine/core.py:172-189 | `World(background, player, engine, floor=...)` with the camera at (0, 0) and the default gravity of -2, clamped at once by `move_player(0, 0)`. |
| Core.World.Won | Icognito_Game_Project/nmg355_mja511_ma4096_xw1154_kps325-project/engine/core.py:120 | The win check: a player at the right end of the background has won, and a player who has won is within 50 of that end. |
| Core.World.MovePlayer | Icognito_Game_Project/nmg355_mja511_ma4096_xw1154_kps325-project/engine/core.py:191-227 | The player and camera become `Move` of the old ones. |
| Core.World.FollowPlayer | Icognito_Game_Project/nmg355_mja511_ma4096_xw1154_kps325-project/engine/core.py:210-227 | The camera becomes `Scroll` of the old one. |
| Core.World.PlayerWalk | Icognito_Game_Project/nmg355_mja511_ma4096_xw1154_kps325-project/engine/core.py:230-235 | The player and camera become `Walk` of the old ones. |
| Core.World.PlayerJump | Icognito_Game_Project/nmg355_mja511_ma4096_xw1154_kps325-project/engine/core.py:237-242 | The player becomes `Jump` of the old one. |
| Core.World.Tick | Icognito_Game_Project/nmg355_mja511_ma4096_xw1154_kps325-project/engine/core.py:244-275 | The player and camera become `Physics.Tick` of the old ones. Every enemy makes one `PatrolStep` and shows its `SightImage`. The engine narrates "Game Over!" exactly when some enemy sees the player, and otherwise keeps its narration. |
| Core.World.TickPlayer | Icognito_Game_Project/nmg355_mja511_ma4096_xw1154_kps325-project/engine/core.py:245-270 | The player and camera become `Physics.Tick` of the old ones. |
| Core.World.ResolveStatics | Icognito_Game_Project/nmg355_mja511_ma4096_xw1154_kps325-project/engine/core.py:262-270 | The player becomes `ResolveAll` of the old one over the statics, in order. |
| Core.World.Fall | Icognito_Game_Project/nmg355_mja511_ma4096_xw1154_kps325-project/engine/core.py:245-253 | The player and camera become `Physics.Fall` of the old ones. |
| Core.World.SpotAll | Icognito_Game_Project/nmg355_mja511_ma4096_xw1154_kps325-project/engine/core.py:272-275 | Every enemy makes one patrol step and shows its `SightImage`, and the engine narrates "Game Over!" exactly when some enemy sees the player. |
| Core.World.Watch | Icognito_Game_Project/nmg355_mja511_ma4096_xw1154_kps325-project/engine/core.py:272-275 | One enemy makes one `PatrolStep`, shows its `SightImage`, and narrates "Game Over!" exactly when it sees the player. |
| Core.World.PlayerSpotted | Icognito_Game_Project/nmg355_mja511_ma4096_xw1154_kps325-project/engine/core.py:277-281 | The enemy shows its detected sprite if it has one, and the game is lost. |
| Core.World.Lose | Icognito_Game_Project/nmg355_mja511_ma4096_xw1154_kps325-project/engine/core.py:283-284 | The engine narrates "Game Over!". |
| Core.World.Render | Icognito_Game_Project/nmg355_mja511_ma4096_xw1154_kps325-project/engine/core.py:301-306 | The medkits become `Sweep` of the old list, and the cloak grows by 50 for each kit removed. |

## Left out

- Drawing: images, sprite flips, fonts, the cloak bar, the enemies' vision cones and the rest of `render` are left out. So are the menu's layout (`create_struct`, the `pola` boxes), `Image` and the engine's `resize`/`scale`. The sprites are modelled only as normal versus detected.
- I/O and timing: `pygame.event.get`, `pygame.key.get_pressed`, the clock, `time.sleep` and `pygame.time.wait` are left out. Events, the key table and window-close requests are parameters.
- The outer `while self.started` loop of `Engine.start` is left out. `Core.Engine.Frame` is one iteration of it, and nothing sets `started` to false during the session.
- `Engine.quit` and `sys.exit` end the process. They are modelled as the `quit` result of `Core.Engine.Tick` and as the `Quit`/`Exit` outcomes of the menu.
- Core.Engine.Tick: the order in which the bindings dictionary enumerates its keys is a parameter, `order`, required to list each bound key once. Python 2 does not fix that order.
- Dispatch.Handler: handlers are a closed set (quit, jump, walk left or right), the ones the game binds, not arbitrary callables.
- Core.World.Tick: the enemies must be distinct objects. The same enemy listed twice would move twice, which the per-enemy contract does not describe.
- Menus.Menu.Draw: requires a non-empty menu. With no entries the source fails on the modulo by zero or on the empty entry list.
- Default arguments: `Player.Default`, `PatrollingEnemy.Default` and `World.Default` give the defaults the game uses (speed 7, view distance 300, patrol distance 300, camera at (0, 0), gravity -2). Other arguments, such as an explicit speed or a detected image, are parameters of the main constructors.
- The abstract `Enemy.move` and the abstract `Enemy` itself are left out. Only `PatrollingEnemy` is built, and it always passes its own view distance, so `Enemy`'s default of 200 never applies.
- `Character.blit_to`, `Player.blit_to` and `Enemy.blit_vision_to` draw only, and are left out.

# Panda Escape Adventure: the per-tick simulation, modelled and proved in Dafny

The game is a pygame platformer. A 40×40 panda walks, jumps and climbs bamboo
through two levels of platforms. It opens the animal cages it touches and
loses when it touches a patrolling enemy. This project models the part of the
game that decides what happens each frame:

- `rects.dfy` (module `Rects`): integer rectangles as pygame stores them,
  with `colliderect` as strict overlap of half-open rectangles.
- `objects.dfy` (module `Objects`): `Platform`, `Bamboo`, `AnimalCage` and
  `Enemy`.
  - They are classes, because the game changes cages and enemies in place.
  - Each changing entity also has a value view (`CageState`, `EnemyState`) and
    a pure step (`Opened`, `Patrol`) that its method is proved to follow.
- `player.dfy` (module `Players`): the panda.
  - The pure `Tick` on a `Body` value specifies one call of `update`.
  - The class `Player` does the same steps in place, with the source's loops
    over bamboo and platforms, and is proved equal to `Tick`.
  - The commands are `jump`, `move`, `climb`, `stop_climbing` and
    `set_level_boundaries`.
- `player_properties.dfy`: what one tick guarantees.
  - Climb detection and the force rule.
  - The boundary clamp.
  - At most one vertical snap per tick.
  - Landing on the first platform fallen into.
  - A blocked rise only near a platform's underside.
  - Resting on a platform stays resting.
- `level.dfy` (module `Levels`): the level layout table, `Level` and its
  sprite groups (sequences in insertion order), and `Level.update`.
  - Each enemy of the layout lies on the grid of its 2-pixel steps. It
    therefore stays inside its patrol range for ever.
- `game.dfy` (module `Games`): the state machine over MENU, PLAYING, PAUSED,
  LEVEL_COMPLETE and GAME_OVER.
  - It is driven by abstract key events.
  - The pure `OnEvent`, `EventsHandled` and `GameTick` on a `Session` value
    specify the class `Game`.
- `game_properties.dfy`: the transitions, quit handling, the reachable-state
  invariant (level counter and the level on show), the win predicate, the
  tick's outcome rule, and cages never closing.

## Model

| member | source | states |
|---|---|---|
| Rects.Rect.WithRight | panda_game/components/player.py:92-93 | setting `rect.right` puts the right edge at the value and keeps y and the size |
| Rects.Rect.WithBottom | panda_game/components/player.py:122 | setting `rect.bottom` puts the bottom edge at the value and keeps x and the size |
| Objects.Platform.constructor | panda_game/components/objects.py:4-10 | a platform's rectangle is width×height with its top-left corner at (x, y) |
| Objects.Bamboo.constructor | panda_game/components/objects.py:13-19 | a stalk is 10 wide and height tall, with its top-left corner at (x, y) |
| Objects.AnimalCage.constructor | panda_game/components/objects.py:22-30 | a cage is 50×50 at (x, y), holds its animal (default "generic") and starts closed |
| Objects.Opened | panda_game/components/objects.py:32-33 | opening makes a cage open and keeps its rectangle and animal |
| Objects.OpenedIdempotent | panda_game/components/objects.py:32-35 | opening twice is opening once, and an open cage is left as it is |
| Objects.AnimalCage.OpenCage | panda_game/components/objects.py:32-35 | `open_cage` changes the cage exactly as `Opened` says |
| Objects.Enemy.constructor | panda_game/components/objects.py:38-50 | an enemy is 30×50 at (x, y), has its patrol bounds and speed 2, and heads right |
| Objects.PatrolStep | panda_game/components/objects.py:52-60 | one step moves x by exactly speed·direction and keeps y, size, bounds and speed; at or past the end the enemy turns left; with start < end, at or before the start it turns right; strictly between the bounds it keeps its direction |
| Objects.Enemy.Update | panda_game/components/objects.py:52-60 | `update` changes the enemy exactly as `Patrol` says |
| Objects.PatrolN | panda_game/components/objects.py:52-60 | any number of steps keeps bounds, speed, y and size |
| Objects.PatrolKeepsPatrolling | panda_game/components/objects.py:52-60 | one step keeps the patrol invariant: the direction is ±1, the enemy is less than one step past either bound, and it heads towards a bound it has not reached |
| Objects.PatrollingForever | panda_game/components/objects.py:52-60 | the patrol invariant holds after any number of steps |
| Objects.PatrolStaysNearRange | panda_game/components/objects.py:46-60 | with speed > 0 and a start strictly inside the range heading right, x stays strictly within (start − speed, end + speed) for ever |
| Objects.PatrolKeepsGrid | panda_game/components/objects.py:52-60 | an enemy whose distances to both bounds are multiples of its speed 2 keeps that property, and stays within the closed range, after a step |
| Objects.PatrolStaysInRange | panda_game/components/objects.py:52-60 | such an enemy stays within [start, end] after any number of steps |
| Players.Halved | panda_game/components/player.py:83 | halving keeps the sign and at least halves the magnitude |
| Players.ResolveX | panda_game/components/player.py:102-109 | the horizontal pass keeps y and size; with no horizontal velocity it does nothing; moving right it never moves the panda right, moving left never left; the final x is the original one or a platform's near edge |
| Players.Player.constructor | panda_game/components/player.py:4-29 | a new panda is 40×40 at the start point, at rest, off the ground, not climbing, facing right, with boundaries 0 and 800 |
| Players.Player.Update | panda_game/components/player.py:59-129 | one `update` changes the panda exactly as `Tick` says, over the platforms' and stalks' rectangles in order |
| Players.Player.DetectClimbing | panda_game/components/player.py:64-71 | climbing becomes true exactly when the rectangle touches some stalk; nothing else changes |
| Players.Player.ApplyForces | panda_game/components/player.py:73-83 | the vertical velocity and climb direction change as `Forces` says |
| Players.Player.MoveWithinBoundaries | panda_game/components/player.py:85-100 | the horizontal move, the clamp to the boundaries and the facing, as `MoveAndClamp` and `Face` say |
| Players.Player.ResolveHorizontal | panda_game/components/player.py:102-109 | the loop over the platforms ends where `ResolveX` says and changes only the rectangle |
| Players.Player.ResolveVertical | panda_game/components/player.py:114-129 | with platforms, the loop ends where `ResolveY` (starting off the ground) says; with none, nothing changes |
| Players.Player.HandlePlatformCollisions | panda_game/components/player.py:131-134 | the handler changes nothing |
| Players.Player.Jump | panda_game/components/player.py:136-139 | `jump` acts as `Jumped` |
| Players.Player.Move | panda_game/components/player.py:141-142 | `move` acts as `Moved` |
| Players.Player.Climb | panda_game/components/player.py:144-147 | `climb` acts as `Climbed` |
| Players.Player.StopClimbing | panda_game/components/player.py:149-153 | `stop_climbing` acts as `ClimbStopped` |
| Players.Player.SetLevelBoundaries | panda_game/components/player.py:155-158 | only the two boundaries change |
| PlayerProperties.ClampKeepsInside | panda_game/components/player.py:88-94 | with the boundaries at least a width apart, the panda lies within them after the clamp; a clamp zeroes the horizontal velocity; y is untouched |
| PlayerProperties.TickClimbing | panda_game/components/player.py:64-71 | after a tick the panda is climbing exactly when its rectangle before the tick touched some stalk, so never without bamboo |
| PlayerProperties.ForcesEffect | panda_game/components/player.py:73-83 | off the bamboo gravity is added and the climb direction reset; climbing in a direction replaces the vertical velocity by direction × 3; the rectangle and horizontal velocity are untouched |
| PlayerProperties.ResolveYAtRest | panda_game/components/player.py:114-129 | a vertical pass without vertical velocity changes nothing |
| PlayerProperties.ResolveYSnapsAtMostOnce | panda_game/components/player.py:117-129 | the vertical pass either changes nothing or ends with zero vertical velocity exactly as one platform's snap of the starting state: at most one platform moves the panda vertically per tick |
| PlayerProperties.ResolveYSkippedWhileClimbing | panda_game/components/player.py:119-120 | while climbing and not falling the vertical pass changes nothing |
| PlayerProperties.Landing | panda_game/components/player.py:117-124 | a falling panda that overlaps some platform lands on the first it overlaps: bottom on its top, at rest, on the ground, climbing or not |
| PlayerProperties.LandingStops | panda_game/components/player.py:121-124 | a falling panda that overlaps some platform ends the pass on the ground at rest |
| PlayerProperties.OnGroundOnlyByLanding | panda_game/components/player.py:115-124 | a pass that starts off the ground ends on it only if the panda was falling, is now at rest and its bottom is some platform's top |
| PlayerProperties.RisingBlockedOnlyNearUnderside | panda_game/components/player.py:125-129 | a rising panda is either untouched, or, when not climbing, stopped with its top at the underside of a platform it overlapped and whose underside its top was closer than 10 pixels to before the tick; the ground flag is kept |
| PlayerProperties.TickWithoutPlatformsKeepsGround | panda_game/components/player.py:114-116 | with no platforms a tick keeps the ground flag as it was |
| PlayerProperties.TickOnGroundOnlyByLanding | panda_game/components/player.py:114-124 | with platforms, a tick ends on the ground only at rest with the bottom on some platform's top |
| PlayerProperties.TickKeepsSize | panda_game/components/player.py:59-129 | a tick keeps the panda's size |
| PlayerProperties.TickKeepsBoundaries | panda_game/components/player.py:59-129 | a tick never moves the boundaries |
| PlayerProperties.VerticalPhaseLands | panda_game/components/player.py:111-124 | a falling panda whose vertical move brings it into a platform ends the tick on the ground at rest |
| PlayerProperties.RestingStaysOnGround | panda_game/components/player.py:73-124 | a panda at rest on a platform, off the bamboo, inside the boundaries and without input is still on the ground at rest after a tick, for a gravity no larger than its height |
| PlayerProperties.RestingWithoutDropLeavesGround | panda_game/components/player.py:112-124 | a tick that moves a panda at rest and overlapping no platform by 0 pixels clears the ground flag and leaves it in place |
| PlayerProperties.CommandsGuarded | panda_game/components/player.py:136-153 | a jump needs the ground, then leaves it with velocity −15; move sets the horizontal velocity to direction × 5; climbing commands do nothing off the bamboo and otherwise set or clear the climb |
| Levels.LayoutContents | panda_game/levels/level.py:16-79 | level 1 has 4 platforms, 2 stalks, the monkey's cage and one enemy patrolling [300, 600]; level 2 has 6, 3, the tiger's cage and 2 enemies; any other number has nothing; both levels start with the ground (0, 550, 800, 50) and closed cages |
| Levels.LayoutEnemiesOnGrid | panda_game/levels/level.py:42-45 | every enemy of a defined level starts strictly inside its range, on its grid of 2-pixel steps |
| Levels.AdvancedNSteps | panda_game/levels/level.py:81-83 | n level updates take every enemy n patrol steps and keep platforms, bamboo and cages |
| Levels.LevelEnemiesStayInRange | panda_game/levels/level.py:16-83 | however many updates pass, every enemy of a defined level stays within its closed patrol range |
| Levels.Level.constructor | panda_game/levels/level.py:5-14 | a new level holds its number, its groups are those of the layout table, and the group of all sprites is the four groups in insertion order |
| Levels.Level.SetupLevel | panda_game/levels/level.py:16-79 | from empty groups, the groups become the layout of the level's number |
| Levels.Level.SetupLevelOne | panda_game/levels/level.py:18-45 | the groups become level 1's layout |
| Levels.Level.SetupLevelTwo | panda_game/levels/level.py:47-79 | the groups become level 2's layout |
| Levels.Level.SetupPlatformsOne | panda_game/levels/level.py:19-29 | level 1's four platforms, ground first, go into the platforms and all-sprites groups |
| Levels.Level.SetupBambooOne | panda_game/levels/level.py:31-35 | level 1's two stalks go into their groups |
| Levels.Level.SetupCageOne | panda_game/levels/level.py:37-40 | the monkey's cage goes into its groups |
| Levels.Level.SetupEnemiesOne | panda_game/levels/level.py:42-45 | level 1's enemy goes into its groups |
| Levels.Level.SetupPlatformsTwo | panda_game/levels/level.py:49-61 | level 2's six platforms, ground first, go into their groups |
| Levels.Level.SetupBambooTwo | panda_game/levels/level.py:63-68 | level 2's three stalks go into their groups |
| Levels.Level.SetupCageTwo | panda_game/levels/level.py:70-73 | the tiger's cage goes into its groups |
| Levels.Level.SetupEnemiesTwo | panda_game/levels/level.py:75-79 | level 2's two distinct enemies go into their groups |
| Levels.Level.Update | panda_game/levels/level.py:81-83 | every enemy takes one patrol step, platforms, bamboo and cages stay, and the level stays well formed |
| Games.Repositioned | panda_game/game.py:91-92 | the panda is put at (100, window height − 100) and nothing else about it changes |
| Games.OpenTouched | panda_game/game.py:126-128 | each cage is open afterwards exactly when it was open or the panda touches it; rectangles and animals stay |
| Games.Game.constructor | panda_game/game.py:39-48 | a new game is in the menu at level 1 with level 1 built and the panda at its start |
| Games.Game.HandleEvents | panda_game/game.py:57-115 | the frame's events, then the held keys, change the game as `EventsHandled` says, and the result is false exactly on a quit request |
| Games.Game.HandleEvent | panda_game/game.py:62-103 | one event changes the game as `OnEvent` says |
| Games.Game.HandlePlayingEvent | panda_game/game.py:66-80 | jump, pause and climbing keys while playing |
| Games.Game.NextLevel | panda_game/game.py:86-95 | Enter on the level-complete screen |
| Games.Game.Restart | panda_game/game.py:97-103 | Enter on the game-over screen |
| Games.Game.ApplyHeldKeys | panda_game/game.py:105-113 | held movement as `HeldMovement` says |
| Games.Game.Update | panda_game/game.py:117-143 | one `update` changes the game as `GameTick` says |
| Games.Game.DecideOutcome | panda_game/game.py:130-143 | touching an enemy sets GAME_OVER, else all cages open sets LEVEL_COMPLETE, else the state stays |
| Games.Game.StepLevelAndPanda | panda_game/game.py:119-123 | the enemies step, then the panda ticks through the level |
| Games.Game.OpenTouchedCages | panda_game/game.py:126-128 | the cages change as `OpenTouched` says |
| Games.Game.CagesAllOpen | panda_game/game.py:130-135 | the flag is true exactly when every cage is open |
| GameProperties.MenuAndPause | panda_game/game.py:62-84 | the menu starts play on Enter only; P pauses, and P alone resumes; other events leave the menu and the pause screen alone |
| GameProperties.PlayingEventsKeepLevel | panda_game/game.py:66-80 | events while playing keep the level, the counter and the panda's position, and can only pause |
| GameProperties.LevelCompleteOnEnter | panda_game/game.py:86-95 | Enter after a level increments the counter; within the levels it builds the next level, repositions the panda and resumes; past them it enters GAME_OVER |
| GameProperties.RestartOnEnter | panda_game/game.py:97-103 | Enter on GAME_OVER returns to the menu with level 1 rebuilt and the panda repositioned |
| GameProperties.RepositionKeepsMotion | panda_game/game.py:91-102 | repositioning keeps velocities, ground, climbing and facing |
| GameProperties.HeldKeys | panda_game/game.py:105-113 | held keys act only while playing: left wins, then right, and neither sets the horizontal velocity to 0 |
| GameProperties.QuitIgnoresTheRest | panda_game/game.py:58-60 | after a quit request the later events and held keys make no difference, and the handler reports stop |
| GameProperties.NoQuitKeepsRunning | panda_game/game.py:57-115 | without a quit request the handler reports running |
| GameProperties.InitialReachable | panda_game/game.py:39-48 | the initial game satisfies the invariant and is not won |
| GameProperties.OnEventKeepsReachable | panda_game/game.py:57-103 | one event keeps the invariant: the counter lies in 1..3, passes 2 only in GAME_OVER, the level on show has its layout's platforms, bamboo and numbers of cages and enemies, and the panda is 40×40 with boundaries 0 and 800 |
| GameProperties.EventsKeepReachable | panda_game/game.py:57-115 | a whole frame of events keeps the invariant |
| GameProperties.TickKeepsReachable | panda_game/game.py:117-143 | a tick keeps the invariant |
| GameProperties.TickFrame | panda_game/game.py:117-143 | a tick keeps the counter, the platforms and bamboo, the numbers of cages and enemies, the boundaries and the panda's size, and changes the state only from PLAYING |
| GameProperties.ReachableMovesInside | panda_game/components/player.py:88-94 | in every reachable session the panda's horizontal move ends inside the window, between 0 and 800 |
| GameProperties.WonExactlyPastLastLevel | panda_game/game.py:192-197 | in a reachable game the counter is past the last level exactly when the game is won, and winning happens only by Enter on the last level's completion screen: neither a tick nor the held keys win the game |
| GameProperties.TickOutcome | panda_game/game.py:117-143 | nothing happens outside PLAYING; while playing, the panda ticks through the level, the enemies take one step, and the state becomes GAME_OVER exactly when the panda touches an enemy, else LEVEL_COMPLETE exactly when every cage is open, else stays PLAYING |
| GameProperties.NoCagesCompletes | panda_game/game.py:130-138 | a level without cages is complete on the first tick that does not end the game |
| GameProperties.TickCages | panda_game/game.py:125-128 | a tick keeps every cage's rectangle and animal, never closes a cage, and opens every cage the panda touches while playing |
| GameProperties.CagesNeverClose | panda_game/game.py:117-128 | however many ticks pass, an open cage stays open and in place |

## Left out

- Rendering is not modelled: `draw_panda`, `Game.draw` apart from its win test, `Level.draw` and the image fills of the cages. It has no effect on the simulation.
- pygame plumbing is replaced by parameters: display, fonts, the clock, the frame loop `Game.run`, `pygame.event.get` and `key.get_pressed`.
  - Events are the abstract `Event` datatype.
  - The held arrow keys are a `Held` value passed to `HandleEvents`.
  - The window height is a constructor parameter.
- `main.py` and `check_compatibility.py` are not part of this model. They only probe the environment, load settings and start the game.
- Gravity is 0.8 in the game, a float. Here it is a positive integer parameter of the panda.
- PlayerProperties.RestingStaysOnGround: holds only for an integer gravity from 1 to the panda's height. With the game's gravity of 0.8, the truncating y setter moves a resting panda by 0 and 1 pixels on alternate ticks. On a tick that moves it by 0 it only touches the platform, so `on_ground` is cleared (player.py:22, 112, 116), and a jump pressed on that tick is ignored (player.py:137). `RestingWithoutDropLeavesGround` proves the clearing for such a tick.
- PlayerProperties.RestingWithoutDropLeavesGround: gravity 0 stands for a tick of the game's 0.8 gravity whose position change truncates to 0 pixels. After such a tick the game still holds velocity_y = 0.8 (player.py:75), which the next tick adds to; the integer model cannot carry that fraction, so the lemma says nothing about the vertical velocity.
- Players.Halved: the game multiplies the vertical velocity by 0.5 in floating point. The model halves an integer, truncating toward zero, which is an approximation.
- Positions and velocities are integers throughout. Writing fractional sums back into the integer rectangle fields is pygame's coercion and is not modelled.
- Sprite groups are sequences in insertion order. Adding a sprite that a group already holds is never done by the level code, so set semantics are not modelled.
- `spritecollide` is modelled as the overlap test against every member in order. The default `Sprite.update` of platforms, bamboo and cages does nothing, so `Level.Update` steps only the enemies.
- `Player.update` is split into one method per step (climb detection, forces, move and clamp, the two collision passes). The steps run in the source's order, and `Player.Update` is proved equal to the whole tick.
- `Game.handle_events` and `Game.update` are likewise split into methods per state and per step.
- The game never calls `set_level_boundaries`, so in every reachable session the boundaries stay at 0 and 800 (`Reachable`, `ReachableMovesInside`).
- There is no camera, no lives and no scoring in the game code, so none is modelled.
- A level number other than 1 and 2 gives a level with no sprites, as the code has no other branch. The game only ever builds levels 1 and 2.
- Completing a level needs all of its cages open. A level without cages is complete on the first tick that does not end the game.
- An enemy whose distance to its bounds is not a multiple of its step can overshoot a bound by up to one step (`PatrolStaysNearRange`). The enemies of both layouts are on their grid and meet the bounds exactly (`LevelEnemiesStayInRange`).

# moon-game-2 game rules in Dafny

This project models the server-side game rules of moon-game-2, a two-player
networked brawler built on the lance-gg engine. The modelled rules are:

- the distance, argmax and assertion helpers;
- linear interpolation and range mapping;
- world-object queries;
- pawn health and death, and the damage component;
- weapons and the fist attack;
- the current and the older player;
- the two enemy AI schedulers;
- the elevator sequence;
- the engine's player possession and input dispatch.

Each source file becomes one Dafny module.

The files are laid out as follows:

- `wrappers.dfy` holds `Option` and `Outcome`. `Outcome` is `Ok` or `Throw(message)`, and stands for a thrown `Error`.
- `utils.dfy` models src/utils/index.js.
- `math_utils.dfy` models src/utils/mathUtils.js.
- `lance.dfy` models the part of lance-gg the rules rely on:
  - `DynamicObject` is a class with an id, an owner, a position, a velocity, a size and a static flag, plus an `ObjectClass` tag that stands for `instanceof`.
  - `World` is a class whose object list is kept sorted by id, because lance's dictionary visits integer keys in ascending order.
  - `GetNewId` skips ids in use, `AddObject` stores an object under its id, and `MarkPendingKill` queues an id for removal.
- `lance_utils.dfy` models src/utils/lanceUtils.js.
- `base_pawn.dfy` and `damage_component.dfy` model src/core/basePawn.js and src/components/damageComponent.js.
- `base_weapon.dfy` and `fist_weapon.dfy` model src/core/baseWeapon.js and src/weapons/fistWeapon.js.
- `player.dfy` models src/pawns/player.js.
- `legacy_player.dfy` models the older src/core/player.js. This is the `Player` the engine imports.
- `base_enemy.dfy` and `legacy_enemy.dfy` model src/core/baseEnemy.js and the older src/pawns/baseEnemy.js.
- `elevator.dfy` models src/core/elevator.js.
- `moon_engine.dfy` models src/core/moonEngine.js.

Classes whose fields the game updates in place are Dafny classes with `modifies` frames:

- world objects and the world;
- pawns, players and enemies;
- weapons and the damage component;
- the elevator and the engine.

Pure helpers are functions. `bestElement` and the loops of the elevator are
methods with loop invariants, each proved against a specification function.

The following environment inputs become explicit parameters:

- `hasAuthority()` is a boolean `authority` input.
- `getPlayers()`, `directionTo`, `randomInRange`, `isPacking()` and `getWeapon()` are parameters.
- `setTimeout` is a set of armed timer serials, or a counter of pending timers, together with a method that fires one.
- `clearTimeout` removes a serial from that set.

Distances are kept squared. `DistBelow`, `DistAbove` and `DistAtMost` decide `dist < m`, `dist > m` and `dist <= m` exactly, as `Utils.SqrtComparisons` proves.

Where the code's names and comments promise one thing and the code does another, the model follows the code:

- src/pawns/player.js:93-97 comments "Disallow friendly fire" in `canTakeDamage`, but `applyDamage` (src/core/basePawn.js:34-41) never asks `canTakeDamage`, so a player does take damage from another player (`Players.FriendlyFireNotPrevented`).
- `closestObject` (src/utils/lanceUtils.js:11-14) hands distances to a higher-is-better `bestElement`, so despite its name it returns the FARTHEST object (`LanceUtils.ClosestObjectIsFarthest`).
- `isWielded` (src/core/baseWeapon.js:23) treats wielder id 0 as "no wielder", yet src/utils/constants.js:27-31 reserves id 0 for player 1, so a weapon player 1 holds looks unwielded (`Weapons.WieldedByPlayer1LooksUnwielded`).
- The base `onDied` does nothing. The player (src/pawns/player.js:109-112) and the test enemy (src/pawns/test_enemy.js:6-9) override it only to log; only the two enemies' overrides have an effect.

## Model

| member | source | states |
|---|---|---|
| Utils.DistSq | src/utils/index.js:12-14 | the (squared) distance is never negative and is zero between a point and itself |
| Utils.DistSymmetric | src/utils/index.js:12-14 | distance does not depend on the order of the two points |
| Utils.SqrtComparisons | src/utils/index.js:12-14 | the squared-distance threshold tests agree with comparing the true square root against the threshold |
| Utils.BestOf | src/utils/index.js:22-34 | -1 exactly when every score is at most -1; otherwise an index in range whose score beats -1, is at least every score, and is strictly above every earlier score (ties go to the first) |
| Utils.BestElement | src/utils/index.js:22-34 | the loop with its running best index and best score returns what `BestOf` specifies |
| Utils.BestOfOrderInvariant | src/utils/index.js:22-34 | two non-negative scorings that order the elements alike pick the same index |
| Utils.Check | src/utils/index.js:40-42 | throws exactly when the expression is false, with the given message |
| MathUtils.LerpScalar | src/utils/mathUtils.js:3 | gives `a` at 0, `b` at 1, and `a` whenever both ends are equal |
| MathUtils.LerpScalarBetween | src/utils/mathUtils.js:3 | for a fraction in [0, 1] the result lies between the two ends |
| MathUtils.LerpVec2 | src/utils/mathUtils.js:5-8 | component-wise scalar interpolation, with the same end-point laws |
| MathUtils.Lerp | src/utils/mathUtils.js:16-18 | numbers interpolate as scalars and vectors as vectors, keeping the kind and the end-point laws |
| MathUtils.MapRange | src/utils/mathUtils.js:24 | with distinct source ends, maps `a` to `c` and `b` to `d` |
| MathUtils.MapRangeAffine | src/utils/mathUtils.js:24 | differences of inputs scale by (d - c) / (b - a) |
| MathUtils.MapRangeIncreasing | src/utils/mathUtils.js:24 | with a < b and c < d the map is strictly increasing |
| MathUtils.LerpIsMapRange | src/utils/mathUtils.js:3 | scalar interpolation is range mapping from [0, 1] onto [a, b] |
| LanceUtils.ClosestObject | src/utils/lanceUtils.js:11-14 | null exactly for an empty set; otherwise a member of the set |
| LanceUtils.ClosestObjectIsFarthest | src/utils/lanceUtils.js:11-14 | the returned object is at the greatest distance from the start, the first such in the set |
| LanceUtils.ClosestObjectByTrueDistance | src/utils/lanceUtils.js:11-14 | scoring by the true (root) distance picks the same object as scoring by the squared distance |
| LanceUtils.ObjectsInRange | src/utils/lanceUtils.js:29-31 | an order-preserving subsequence holding exactly the objects not ignored and strictly within range |
| LanceUtils.GetNonStaticObjects | src/utils/lanceUtils.js:20-22 | an order-preserving subsequence holding exactly the objects whose `isStatic` is 0 |
| LanceUtils.PawnsOf | src/utils/lanceUtils.js:36-38 | an order-preserving subsequence holding exactly the pawns |
| LanceUtils.MakeInvisibleWall | src/utils/lanceUtils.js:45-49 | a fresh static object with an unused id from the counter, the rectangle's position and size, and the class override or a plain object |
| Pawns.InitialHealth | src/core/basePawn.js:8 | 10 exactly for an alien goon, 100 for every other pawn class |
| Pawns.DamageStep | src/core/basePawn.js:34-41 | a dead pawn is untouched and calls nothing; a live one loses exactly the amount, without clamping; `onDied` is due exactly when it was alive and is now dead |
| Pawns.DeadStaysDead | src/core/basePawn.js:34-41 | a dead pawn keeps its health and never dies again, whatever damage follows |
| Pawns.DiesAtMostOnce | src/core/basePawn.js:34-41 | over any sequence of hits `onDied` runs at most once, and exactly once when the pawn goes from alive to dead |
| Pawns.Pawn.constructor | src/core/basePawn.js:17-23 | health starts at the class's initial health |
| Pawns.Pawn.ApplyDamage | src/core/basePawn.js:34-41 | the new health and the `onDied` call are those of `DamageStep`, and the death count keeps matching "is dead" |
| Pawns.Pawn.IsAlive | src/core/basePawn.js:27 | alive exactly while health is above 0 |
| Pawns.Pawn.IsDead | src/core/basePawn.js:29 | dead exactly when health is at most 0, so a pawn at exactly 0 is dead |
| Pawns.BaseCanTakeDamage | src/core/basePawn.js:46 | every instigator may do damage |
| Damage.ComponentDamage | src/components/damageComponent.js:22-28 | a dead component or a refusing gate leaves health unchanged; otherwise it drops by exactly the amount |
| Damage.UngatedMatchesPawn | src/components/damageComponent.js:22-28 | without a gate the component's health follows the pawn's damage rule |
| Damage.RefusingGateFreezes | src/components/damageComponent.js:22-28 | a gate that refuses the instigator freezes the health over any sequence of hits |
| Damage.DamageComponent.constructor | src/components/damageComponent.js:10-15 | health starts at the given value, with no gate |
| Damage.DamageComponent.IsDead | src/components/damageComponent.js:30 | dead exactly when health is at most 0, the same threshold as a pawn |
| Damage.DamageComponent.ApplyDamage | src/components/damageComponent.js:22-28 | the new health is `ComponentDamage` of the old one, and nothing else changes |
| Weapons.Weapon.constructor | src/core/baseWeapon.js:11-16 | a new weapon has wielder id 0 and is not wielded |
| Weapons.Weapon.IsWielded | src/core/baseWeapon.js:23 | wielded exactly when the wielder id is not the sentinel 0 |
| Weapons.Weapon.GetWielder | src/core/baseWeapon.js:23-30 | none when unwielded; otherwise present exactly when the world holds the wielder id, and then it is that object |
| Weapons.Weapon.SyncTo | src/core/baseWeapon.js:18-21 | the wielder id is copied |
| Weapons.WieldedByPlayer1LooksUnwielded | src/core/baseWeapon.js:23-30 | a weapon wielded by player 1 reports no wielder, though player 1 is in the world |
| FistWeapons.FistTarget | src/weapons/fistWeapon.js:19-24 | none exactly when no candidate other than the wielder is strictly within 10; otherwise such a candidate, the farthest of them |
| FistWeapons.AttackTarget | src/weapons/fistWeapon.js:13-26 | no target without a wielder; a target is a pawn in the world and never the wielder |
| FistWeapons.Attack | src/weapons/fistWeapon.js:12-30 | throws with no wielder and touches nothing; otherwise only the target pawn, if any, takes 10 damage by the pawn's rule; only pawns' health (and death count) is in the frame |
| FistWeapons.WeaponAttack | src/core/baseWeapon.js:33 | a weapon that is not a fist does nothing; a fist throws exactly when it has no wielder, and hits exactly `AttackTarget`'s pawn, which takes the pawn's damage rule; no other pawn changes, and only pawns' health (and death count) is in the frame |
| Players.InAir | src/pawns/player.js:87 | airborne exactly when the vertical speed is above 0.07 upwards or downwards |
| Players.StepSpeed | src/pawns/player.js:5-6 | 0.05 in the air and 0.7 on the ground |
| Players.Player.constructor | src/pawns/player.js:24-28 | health 100, no grab candidate, not ready |
| Players.Player.IsInAir | src/pawns/player.js:87 | the player is in the air exactly when its own vertical speed exceeds 0.07 either way |
| Players.Player.Friction | src/pawns/player.js:18-21 | (1, 1) in the air and (0.5, 1) on the ground |
| Players.Player.SyncTo | src/pawns/player.js:35-38 | `isReady` is copied |
| Players.Player.MoveLeft | src/pawns/player.js:42-47 | x velocity drops by the step speed for the old velocity, y velocity stays, and the player faces left |
| Players.Player.MoveRight | src/pawns/player.js:49-54 | x velocity rises by the step speed for the old velocity, y velocity stays, and the player faces right |
| Players.Player.Jump | src/pawns/player.js:56-60 | in the air nothing changes; on the ground the y velocity drops by 2 |
| Players.Player.ToggleWeaponSlot | src/pawns/player.js:72-83 | drop exactly with authority while packing; pick up the candidate exactly with authority, not packing and a candidate; otherwise nothing |
| Players.Player.CanAttack | src/pawns/player.js:89 | exactly with authority while packing |
| Players.Player.Attack | src/pawns/player.js:62-70 | nothing when the player cannot attack; a throw without a weapon; with a weapon that is not a fist nothing; with a fist it throws exactly when the fist has no wielder and hits exactly `AttackTarget`'s pawn; no other pawn changes, and only pawns' health (and death count) is in the frame |
| Players.Player.CanTakeDamage | src/pawns/player.js:93-97 | refuses exactly when the instigator is a player |
| Players.FriendlyFireNotPrevented | src/pawns/player.js:93-97 | though `canTakeDamage` refuses a player instigator, a live player still loses the full amount |
| LegacyPlayers.LegacyPlayer.constructor | src/core/player.js:13-16 | `test` starts at 2 |
| LegacyPlayers.LegacyPlayer.SyncTo | src/core/player.js:18-21 | `test` is copied |
| LegacyPlayers.LegacyPlayer.MoveLeft | src/core/player.js:25-27 | x drops by 1.3, y stays, the velocity is untouched |
| LegacyPlayers.LegacyPlayer.MoveRight | src/core/player.js:29-31 | x rises by 1.3, y stays, the velocity is untouched; so it undoes a `MoveLeft` |
| LegacyPlayers.LegacyPlayer.Jump | src/core/player.js:33-36 | y velocity drops by 4 and a reset timer is armed |
| LegacyPlayers.LegacyPlayer.FireJumpReset | src/core/player.js:35 | the armed timer sets the y velocity to 0 |
| Enemies.NextPhase | src/core/baseEnemy.js:77-95 | wait follows advance; advance follows null or wait |
| Enemies.DelayBounds | src/core/baseEnemy.js:29-33 | wait draws from [3000, 6000], advance from [1000, 1200] |
| Enemies.PhasesAlternate | src/core/baseEnemy.js:77-95 | the phases run advance, wait, advance, ... from the first call |
| Enemies.AdvancedPosition | src/core/baseEnemy.js:98-110 | the enemy moves by the direction times speed 1 exactly when a target is farther than 16; otherwise it stays |
| Enemies.FacingFor | src/core/baseEnemy.js:98-110 | faces right exactly when the direction's x is non-negative |
| Enemies.FacingFollowsStep | src/core/baseEnemy.js:98-110 | when the advance step is taken the enemy faces right exactly when the step does not go left; otherwise neither position nor facing changes |
| Enemies.TargetOf | src/core/baseEnemy.js:146-149 | no target for id -1; otherwise the world object with that id, if any |
| Enemies.Enemy.constructor | src/core/baseEnemy.js:18-43 | no target, no move, no timer, AI not activated |
| Enemies.Enemy.GetAttackTarget | src/core/baseEnemy.js:146-149 | none for id -1; otherwise present exactly when the world holds the id, and then the object with that id |
| Enemies.Enemy.IsWithinAttackRange | src/core/baseEnemy.js:152-154 | the squared distance to the target is at most 32 squared, i.e. the distance is at most 32 |
| Enemies.Enemy.PickAttackTarget | src/core/baseEnemy.js:70-74 | -1 with no players; otherwise the id of the player `closestObject` returns |
| Enemies.Enemy.AdvanceTowardsAttackTarget | src/core/baseEnemy.js:98-110 | moves to `AdvancedPosition` and, when it moves, faces along the direction |
| Enemies.Enemy.WaitAtPoint | src/core/baseEnemy.js:113-125 | attacks exactly when a target exists within 32; faces the target when there is one |
| Enemies.Enemy.EnterWait | src/core/baseEnemy.js:79-82 | records the wait phase and runs it once: attacks exactly when a target is within 32, and faces the target if there is one |
| Enemies.Enemy.EnterAdvance | src/core/baseEnemy.js:83-88 | records the advance phase, re-picks the target and advances once towards it, facing the way it moves when it moves |
| Enemies.Enemy.ArmTimer | src/core/baseEnemy.js:91-94 | stores a handle with a fresh serial and the delay, and arms it |
| Enemies.Enemy.ScheduleNextMove | src/core/baseEnemy.js:77-95 | `Scheduled`: the next phase is entered; the target is re-picked only on entering advance; the phase runs once, with its position, facing and attack; a fresh timer is armed with a delay from that phase's bounds |
| Enemies.Enemy.ActivateAi | src/core/baseEnemy.js:48-53 | the flag is set; the first call schedules the first move exactly as `Scheduled` says; later calls change nothing |
| Enemies.Enemy.FireTimer | src/core/baseEnemy.js:91-94 | the timer is no longer pending, and the next move is scheduled exactly as `Scheduled` says, arming the next timer |
| Enemies.Enemy.Tick | src/core/baseEnemy.js:55-65 | only with authority in the advance phase does the enemy act: it moves as `AdvancedPosition` says and faces as `AdvancedFacing` says; otherwise position and facing stay |
| Enemies.Enemy.OnDied | src/core/baseEnemy.js:129-140 | with authority the stored timer is cleared and the enemy's id is queued for removal; without it nothing happens |
| Enemies.Enemy.ApplyDamage | src/core/basePawn.js:34-41 | the pawn's damage rule, then this class's `onDied` exactly when the enemy dies: with authority the stored timer, if any, is cleared and the id queued; otherwise timers and queue stay |
| LegacyEnemies.NextMove | src/pawns/baseEnemy.js:32-45 | follow exactly after wait; wait after follow or null |
| LegacyEnemies.MoveDelayBounds | src/pawns/baseEnemy.js:32-45 | follow is armed with the wait bounds, wait with the follow bounds |
| LegacyEnemies.MovesAlternate | src/pawns/baseEnemy.js:32-45 | the recorded moves run wait, follow, wait, ... |
| LegacyEnemies.LegacyEnemy.constructor | src/pawns/baseEnemy.js:9-27 | no target, no move, no timer |
| LegacyEnemies.LegacyEnemy.PickAttackTarget | src/pawns/baseEnemy.js:30 | always -1 |
| LegacyEnemies.LegacyEnemy.ScheduleNextMove | src/pawns/baseEnemy.js:32-45 | records the next move and overwrites the one stored handle with a fresh timer whose delay comes from that move's bounds |
| LegacyEnemies.LegacyEnemy.FireTimer | src/pawns/baseEnemy.js:47-53 | an armed timer runs a move that does nothing |
| LegacyEnemies.LegacyEnemy.OnDied | src/pawns/baseEnemy.js:57-64 | clears the stored timer only when a handle is stored |
| LegacyEnemies.LegacyEnemy.ApplyDamage | src/core/basePawn.js:34-41 | the pawn's damage rule, then this class's `onDied` exactly when the enemy dies: the stored timer, if any, is cleared, and with none stored nothing else changes |
| Elevators.WallRect | src/core/elevator.js:39-44 | wall i sits at its fixed offset from the start; the top and bottom walls are 112 by 16, the sides 16 by 64 |
| Elevators.RidePosition | src/core/elevator.js:64-66 | the start with all ticks to go, the end with none |
| Elevators.RideStaysBetween | src/core/elevator.js:64-66 | during the ride each coordinate stays between start and end |
| Elevators.RemoveAll | src/core/elevator.js:99-106 | exactly the objects whose id is not a wall id stay, in id order |
| Elevators.Elevator.IsInElevator | src/core/elevator.js:117-122 | strictly inside the 112 by 64 box whose corner is the elevator's position |
| Elevators.Elevator.constructor | src/core/elevator.js:14-31 | the object is made static and nothing else about it changes; no walls, no ride, not elevating |
| Elevators.Elevator.InsertWall | src/core/elevator.js:45 | a fresh wall covering the rectangle enters under an unused id from the counter; the world gains exactly that object; every other id finds what it found before |
| Elevators.Elevator.AddWall | src/core/elevator.js:39-47 | one more wall, in the next slot, with the earlier ones kept; the world gains exactly that wall |
| Elevators.Elevator.BuildWalls | src/core/elevator.js:39-47 | four walls around the start, with fresh ascending ids, are appended; every old object stays and every new object is one of the four walls |
| Elevators.Elevator.BoardPlayers | src/core/elevator.js:49-57 | with other than two players it throws and nothing changes; with two the first goes to (32, 16) and the second to (64, 16) from the elevator, the ride starts with 1000 ticks, and no wall moves |
| Elevators.Elevator.StartElevatorSequence | src/core/elevator.js:34-58 | without authority it throws and nothing changes; otherwise the four walls are built and the world gains nothing else; with other than two players it throws anyway; with two it places them inside the elevator and starts a ride of 1000 ticks |
| Elevators.Elevator.MoveWall | src/core/elevator.js:69-73 | the wall, if present, goes to its offset from the elevator; nothing else moves |
| Elevators.Elevator.MoveWalls | src/core/elevator.js:69-73 | each present wall is at its offset from the elevator; no other object moves |
| Elevators.Elevator.Tick | src/core/elevator.js:61-97 | an animating tick takes a tick off, moves the elevator to the ride position, carries the walls and arms the teardown on the last tick; otherwise, with authority, elevating stops |
| Elevators.Elevator.FireTeardown | src/core/elevator.js:85-92 | every wall is queued for removal, elevating stops if there was one, and the wall list is emptied |
| Elevators.Elevator.OnRemoveFromWorld | src/core/elevator.js:99-106 | no wall id remains in the world |
| Elevators.Elevator.SyncTo | src/core/elevator.js:108-111 | `isElevating` is copied |
| Engine.ActionOf | src/core/moonEngine.js:47-53 | each of the five known inputs names its action; every other input names none |
| Engine.FirstIndex | src/core/moonEngine.js:80 | -1 exactly when the value is absent; otherwise its first position |
| Engine.Join | src/core/moonEngine.js:80-86 | the first free object goes to the client; with none, nothing changes |
| Engine.Disconnect | src/core/moonEngine.js:90-96 | the client's first object is freed; with none, nothing changes |
| Engine.JoinThenDisconnect | src/core/moonEngine.js:77-97 | a client that owned nothing and leaves after joining restores every owner |
| Engine.MoonEngine.OwnedPlayer | src/core/moonEngine.js:45 | none exactly when no player object is owned by the id; otherwise the record of a player object it owns (the first, by `OwnedPlayerIsFirst`) |
| Engine.MoonEngine.OwnedPlayerIsFirst | src/core/moonEngine.js:45 | the record found is the owned player object with the smallest id, i.e. the first in world order, as `queryObject` returns the first match |
| Engine.MoonEngine.SpawnPlayer | src/core/moonEngine.js:59-66 | a fresh player with an id from the counter and the given position and size enters the world and gets its record |
| Engine.MoonEngine.AddFloor | src/core/moonEngine.js:68-73 | a fresh static floor with id 69 at (0, 30), 1000000 by 100, enters the world, and id 69 finds it |
| Engine.MoonEngine.ServerInit | src/core/moonEngine.js:58-75 | two fresh players at (100, 0) sized 16 and at (10, 0), with ids from the counter, and a static floor with id 69 at (0, 30), 1000000 by 100 |
| Engine.MoonEngine.ServerPlayerJoined | src/core/moonEngine.js:77-87 | the owners change as `Join` says, of any class of object |
| Engine.MoonEngine.ServerPlayerDisconnected | src/core/moonEngine.js:89-97 | the owners change as `Disconnect` says |
| Engine.MoonEngine.Perform | src/core/moonEngine.js:47-54 | left and right shift the player by 1.3, jump kicks it up by 4 and arms the reset, attack and debugCollision change nothing, anything else throws and changes nothing |
| Engine.MoonEngine.ProcessInput | src/core/moonEngine.js:42-56 | with no owned player nothing happens, even for an unknown input; otherwise only the owned player acts, as `Perform` says |

## Left out

- Logging (`console.log`) and the renderer are left out. So are excalibur, the DOM, the menus and the client/server entry points.
- `debugCollision` toggles a renderer that does not exist on the server, so it changes nothing here.
- The physics engine, gravity, collisions, friction integration and lance's interpolation are left out.
- lance's own `processInput`, `syncTo`, `onRemoveFromWorld`, serialisation and `registerClasses` are not part of this model. The same goes for the engine's collision listeners, `client_init` key bindings and the empty `postStep` handler.
- lance's library code is not part of this model. `lance.dfy` states the behaviour the rules rely on: id-ordered queries, `getNewId`, add, remove and the pending-kill queue. It does not model the engine's end-of-step flush of that queue.
- `BasePawn.tick` and `callOnServer` are defined in no shown file and are left out.
- The `instigator` and `reason` of `applyDamage` are passed only to `onDied`, so they are left out of the pawn model.
- `FistWeapons.Attack` reports the victim and whether its `onDied` is due. It does not run an enemy victim's own `onDied`, which `Enemies.Enemy.ApplyDamage` models.
- `Enemies.Enemy.WaitAtPoint`: the `getWeapon()?.attack()` call is returned as `attack == true` for the caller to perform, because `getWeapon` is defined in no shown file.
- `isPacking`, `getWeapon`, `dropWeapon`, `pickupWeapon`, `getPlayers`, `directionTo` and `randomInRange` are defined in no shown file. They are parameters, or the decision is returned (`SlotAction`).
- `distanceTo(p)` is taken to be the distance from the enemy's position.
- Real time is not modelled. A timer is armed by recording it and runs when its `Fire…` method is called. Delays are recorded, not waited for.
- Numbers are mathematical reals, not IEEE doubles, so rounding is not modelled.
- `Utils.DistSq`: states that the distance is zero for equal points, but not the converse.
- `MathUtils.Lerp`: requires both ends to be of the same kind, as every caller passes them. `lerpVec2` on a number is not modelled.
- `Elevators.Elevator.Tick`: the positions of the elevator and the walls are stated under `WallIdsApart`, which holds for walls built by `StartElevatorSequence`. Without it, a wall id equal to the elevator's own would move the elevator too.
- `Elevators.Elevator.StartElevatorSequence`: requires the objects from `getPlayers()` to be players, of either player class, and pairwise distinct. `getPlayers` is defined in no shown file.
- src/core/weapon.js has no behaviour of its own and is not part of this model.
- src/utils/constants.js is not part of this model. Its `NO_LOGO` switch and reserved ids appear as constants.
- `hasAuthority` (src/utils/index.js:37) tests for a browser `window`. The environment is not modelled, so authority is a boolean input.
